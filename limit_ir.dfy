/**
  The planner's limit operator node: its initialisation, its copy from another limit
  node, and its serialisation into a `planpb::Operator`.
 */
module LimitIr {
  import opened Common
  import opened PlanIr

  const LimitNotSetMessage := "Limit value not set properly."

  /**
    The columns `ToProto` writes for the columns `names` of the node: each refers to the
    parent and to the position of the same name in the parent's relation.
   */
  function LimitColumns(names: seq<string>, parent: ParentNode): (cols: seq<Column>)
    ensures |cols| == |names|
    ensures forall k :: 0 <= k < |names| ==>
      cols[k] == Column(parent.id, ColumnIndex(parent.relation.colNames, names[k]))
  {
    if names == [] then []
    else
      var last := names[|names| - 1];
      LimitColumns(names[..|names| - 1], parent) + [Column(parent.id, ColumnIndex(parent.relation.colNames, last))]
  }

  /**
    When every column of the node is a column of the parent, each written column points
    back at the parent's column of the same name.
   */
  lemma LimitColumnsResolve(names: seq<string>, parent: ParentNode)
    requires forall k :: 0 <= k < |names| ==> names[k] in parent.relation.colNames
    ensures forall k :: 0 <= k < |names| ==>
      var col := LimitColumns(names, parent)[k];
      col.node == parent.id && col.index < |parent.relation.colNames| &&
      parent.relation.colNames[col.index] == names[k]
  {
    forall k | 0 <= k < |names|
      ensures ColumnIndex(parent.relation.colNames, names[k]) < |parent.relation.colNames|
    {
      ColumnIndexMissing(parent.relation.colNames, names[k]);
    }
  }

  /** The column loop of `ToProto`: one `add_columns()` per column name, in order. */
  method AddColumns(pb: LimitOp, names: seq<string>, parent: ParentNode) returns (pb': LimitOp)
    ensures pb' == pb.(columns := pb.columns + LimitColumns(names, parent))
  {
    pb' := pb;
    for i := 0 to |names|
      invariant pb' == pb.(columns := pb.columns + LimitColumns(names[..i], parent))
    {
      assert names[..i + 1][..i] == names[..i];
      pb' := pb'.(columns := pb'.columns + [Column(parent.id, ColumnIndex(parent.relation.colNames, names[i]))]);
    }
    assert names[..|names|] == names;
  }

  /** The loop of `ToProto` over `abortable_srcs_`: each id is appended, in order. */
  method AddAbortableSrcs(pb: LimitOp, srcs: seq<int64>) returns (pb': LimitOp)
    ensures pb' == pb.(abortableSrcs := pb.abortableSrcs + srcs)
  {
    pb' := pb;
    for j := 0 to |srcs|
      invariant pb' == pb.(abortableSrcs := pb.abortableSrcs + srcs[..j])
    {
      assert srcs[..j + 1] == srcs[..j] + [srcs[j]];
      pb' := pb'.(abortableSrcs := pb'.abortableSrcs + [srcs[j]]);
    }
    assert srcs[..|srcs|] == srcs;
  }

  /** `LimitIR`: the fields its methods read and write. */
  class LimitIR {
    var id: int64
    var relation: Relation
    var parents: seq<ParentNode>
    var limitValue: int64
    var limitValueSet: bool
    var pemOnly: bool
    var abortableSrcs: seq<int64>

    /** A node with its id and relation, no parent and no limit value yet. */
    constructor(id: int64, relation: Relation)
      ensures this.id == id && this.relation == relation && parents == []
      ensures !limitValueSet && !pemOnly && abortableSrcs == []
    {
      this.id := id;
      this.relation := relation;
      parents := [];
      limitValue := 0;
      limitValueSet := false;
      pemOnly := false;
      abortableSrcs := [];
    }

    /**
      `OperatorIR::AddParent`: records `parent` and then returns the status `addEdge`
      of linking the edge in the graph; on an error the parent stays recorded.
     */
    method AddParent(parent: ParentNode, addEdge: Status) returns (status: Status)
      modifies this
      ensures status == addEdge
      ensures parents == old(parents) + [parent]
      ensures id == old(id) && relation == old(relation) && abortableSrcs == old(abortableSrcs)
      ensures limitValue == old(limitValue) && limitValueSet == old(limitValueSet) && pemOnly == old(pemOnly)
    {
      parents := parents + [parent];
      status := addEdge;
    }

    /** `SetLimitValue`: the value is stored and marked set. */
    method SetLimitValue(value: int64)
      modifies this
      ensures limitValue == value && limitValueSet
      ensures id == old(id) && relation == old(relation) && parents == old(parents)
      ensures pemOnly == old(pemOnly) && abortableSrcs == old(abortableSrcs)
    {
      limitValue := value;
      limitValueSet := true;
    }

    /**
      `Init`: adds the parent, and only if that succeeds stores the limit value and the
      `pem_only` flag. A failure of `AddParent` is returned with the limit fields untouched.
     */
    method Init(parent: ParentNode, limitValue: int64, pemOnly: bool, addEdge: Status) returns (status: Status)
      modifies this
      ensures status == addEdge
      ensures parents == old(parents) + [parent]
      ensures addEdge.Ok? ==>
        this.limitValue == limitValue && limitValueSet && this.pemOnly == pemOnly
      ensures addEdge.Error? ==>
        this.limitValue == old(this.limitValue) && limitValueSet == old(limitValueSet) &&
        this.pemOnly == old(this.pemOnly)
      ensures id == old(id) && relation == old(relation) && abortableSrcs == old(abortableSrcs)
    {
      status := AddParent(parent, addEdge);
      if status.Error? {
        return;
      }
      SetLimitValue(limitValue);
      this.pemOnly := pemOnly;
    }

    /**
      `ToProto`: marks `op` as a limit operator and appends one column per column of
      the node's relation, in order. Without a limit value it then fails, leaving the
      limit and the abortable sources as they were; otherwise it writes the limit and
      appends the abortable sources in order.
     */
    method ToProto(op: Operator) returns (status: Status)
      requires |parents| == 1
      modifies op
      ensures op.opType == LimitOperator && op.body.LimitBody?
      ensures var before := MutableLimitOp(old(op.body));
              op.body.limitOp.columns == before.columns + LimitColumns(relation.colNames, parents[0])
      ensures var before := MutableLimitOp(old(op.body));
              limitValueSet ==>
                status == Ok && op.body.limitOp.limit == limitValue &&
                op.body.limitOp.abortableSrcs == before.abortableSrcs + abortableSrcs
      ensures var before := MutableLimitOp(old(op.body));
              !limitValueSet ==>
                status == Error(LimitNotSetMessage) && op.body.limitOp.limit == before.limit &&
                op.body.limitOp.abortableSrcs == before.abortableSrcs
    {
      var pb := MutableLimitOp(op.body);
      op.body := LimitBody(pb);
      op.opType := LimitOperator;
      pb := AddColumns(pb, relation.colNames, parents[0]);
      op.body := LimitBody(pb);
      if !limitValueSet {
        return Error(LimitNotSetMessage);
      }
      pb := pb.(limit := limitValue);
      pb := AddAbortableSrcs(pb, abortableSrcs);
      op.body := LimitBody(pb);
      return Ok;
    }

    /**
      `CopyFromNodeImpl`: takes exactly the limit value, whether it is set, and the
      `pem_only` flag from `node`, and succeeds.
     */
    method CopyFromNodeImpl(node: LimitIR) returns (status: Status)
      modifies this
      ensures status == Ok
      ensures limitValue == old(node.limitValue) && limitValueSet == old(node.limitValueSet)
      ensures pemOnly == old(node.pemOnly)
      ensures id == old(id) && relation == old(relation) && parents == old(parents)
      ensures abortableSrcs == old(abortableSrcs)
    {
      limitValue := node.limitValue;
      limitValueSet := node.limitValueSet;
      pemOnly := node.pemOnly;
      status := Ok;
    }
  }
}
