/**
  The planner's GRPC source operator node, which receives rows sent from other agents:
  its serialisation into a `planpb::Operator` and its (empty) copy from another node.
 */
module GrpcSourceIr {
  import opened Common
  import opened PlanIr

  /** `GRPCSourceIR`: the fields its methods read. */
  class GRPCSourceIR {
    var id: int64
    var relation: Relation

    constructor(id: int64, relation: Relation)
      ensures this.id == id && this.relation == relation
    {
      this.id := id;
      this.relation := relation;
    }

    /** `CopyFromNodeImpl`: there is nothing of its own to copy; it succeeds. */
    method CopyFromNodeImpl(node: GRPCSourceIR) returns (status: Status)
      ensures status == Ok
    {
      status := Ok;
    }

    /**
      `ToProto`: marks `op` as a GRPC source and appends the relation's column types and
      names, position by position; it always succeeds.
     */
    method ToProto(op: Operator) returns (status: Status)
      requires relation.Valid()
      modifies op
      ensures status == Ok
      ensures op.opType == GrpcSourceOperator && op.body.GrpcSourceBody?
      ensures var before := MutableGrpcSourceOp(old(op.body));
              op.body.grpcSourceOp.columnTypes == before.columnTypes + relation.colTypes &&
              op.body.grpcSourceOp.columnNames == before.columnNames + relation.colNames
    {
      var pb := MutableGrpcSourceOp(op.body);
      ghost var before := pb;
      op.body := GrpcSourceBody(pb);
      op.opType := GrpcSourceOperator;
      var types := relation.colTypes;
      var names := relation.colNames;
      for i := 0 to relation.NumColumns()
        invariant op.opType == GrpcSourceOperator && op.body == GrpcSourceBody(pb)
        invariant pb.columnTypes == before.columnTypes + types[..i]
        invariant pb.columnNames == before.columnNames + names[..i]
      {
        assert types[..i + 1] == types[..i] + [types[i]];
        assert names[..i + 1] == names[..i] + [names[i]];
        pb := pb.(columnTypes := pb.columnTypes + [types[i]], columnNames := pb.columnNames + [names[i]]);
        op.body := GrpcSourceBody(pb);
      }
      assert types[..|types|] == types && names[..|names|] == names;
      status := Ok;
    }
  }
}
