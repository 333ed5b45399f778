/**
  What the planner's operator nodes read and write when they serialise themselves: the
  relation of a node (parallel lists of column names and types), the parents it reads
  columns from, and the `planpb::Operator` message they fill in.
 */
module PlanIr {
  import opened Common

  /** The column types of `planpb`. */
  datatype DataType =
    | DataTypeUnknown | Boolean | Int64 | Uint128 | Float64 | String | Time64ns

  /** A relation: column names and column types, position by position. */
  datatype Relation = Relation(colNames: seq<string>, colTypes: seq<DataType>)
  {
    /** Names and types pair up: the relation has `NumColumns()` columns of each. */
    predicate Valid() {
      |colNames| == |colTypes|
    }

    function NumColumns(): nat {
      |colTypes|
    }
  }

  /** What a node reads of one of its parents: the parent's id and relation. */
  datatype ParentNode = ParentNode(id: int64, relation: Relation)

  /**
    `Relation::GetColumnIndex`: the position of the first column called `name`, as
    `std::find` and `std::distance` give it; `|names|` when there is none.
   */
  function ColumnIndex(names: seq<string>, name: string): (i: nat)
    ensures i <= |names|
    ensures i < |names| ==> names[i] == name
    ensures forall j :: 0 <= j < i ==> names[j] != name
  {
    if names == [] then 0
    else if names[0] == name then 0
    else 1 + ColumnIndex(names[1..], name)
  }

  /** A name is looked up as missing exactly when no column has it. */
  lemma ColumnIndexMissing(names: seq<string>, name: string)
    ensures ColumnIndex(names, name) == |names| <==> name !in names
  {
  }

  /** The `planpb` operator types this model produces; `UnknownOperator` is the default. */
  datatype OperatorType = UnknownOperator | LimitOperator | GrpcSourceOperator

  /** A `planpb::Column`: a column of the relation of node `node`, at position `index`. */
  datatype Column = Column(node: int64, index: int)

  /** A `planpb::LimitOperator`; an unset `limit` reads as 0 as in proto3. */
  datatype LimitOp = LimitOp(columns: seq<Column>, limit: int64, abortableSrcs: seq<int64>)

  /** A `planpb::GRPCSourceOperator`. */
  datatype GrpcSourceOp = GrpcSourceOp(columnTypes: seq<DataType>, columnNames: seq<string>)

  /** The `op` one-of of `planpb::Operator`; `OtherOp` stands for every case not modelled. */
  datatype OperatorBody =
    | NoOp
    | OtherOp
    | LimitBody(limitOp: LimitOp)
    | GrpcSourceBody(grpcSourceOp: GrpcSourceOp)

  const EmptyLimitOp := LimitOp([], 0, [])
  const EmptyGrpcSourceOp := GrpcSourceOp([], [])

  /** `mutable_limit_op()`: the limit body already present, else a fresh empty one. */
  function MutableLimitOp(body: OperatorBody): LimitOp
  {
    if body.LimitBody? then body.limitOp else EmptyLimitOp
  }

  /** `mutable_grpc_source_op()`: the GRPC source body already present, else an empty one. */
  function MutableGrpcSourceOp(body: OperatorBody): GrpcSourceOp
  {
    if body.GrpcSourceBody? then body.grpcSourceOp else EmptyGrpcSourceOp
  }

  /** A `planpb::Operator` being filled in by a node's `ToProto`. */
  class Operator {
    var opType: OperatorType
    var body: OperatorBody

    /** A default message: unknown type, no body. */
    constructor()
      ensures opType == UnknownOperator && body == NoOp
    {
      opType := UnknownOperator;
      body := NoOp;
    }
  }
}
