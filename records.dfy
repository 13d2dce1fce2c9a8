/**
 * The operation records both builders read from a loaded ONNX model, and the
 * node id each record is given.  Loading the model file is external: a model
 * is either the ordered list of its operation records or unreadable.
 */
module Records {
  import opened Strings
  import DiGraphs

  /** One ONNX node: its operator type, its (possibly empty) name, and the
    * identifiers of the values it consumes and produces. */
  datatype OpRecord = OpRecord(opType: string, name: string, inputs: seq<string>, outputs: seq<string>)

  /** The result of `onnx.load`: the graph's node list, or a failure. */
  datatype LoadedModel = Loaded(ops: seq<OpRecord>) | Unreadable

  /** The id of the record at position `i` of the full record list: its name
    * when it has one, otherwise its operator type, `_` and the index. */
  function NodeId(op: OpRecord, i: nat): (id: string)
    ensures op.name != "" ==> id == op.name
    ensures op.name == "" ==> |op.opType| + 1 < |id|
    ensures op.name == "" ==> id[..|op.opType| + 1] == op.opType + "_"
    ensures op.name == "" ==> AllDigits(id[|op.opType| + 1..]) && ParseDecimal(id[|op.opType| + 1..]) == i
    ensures op.name == "" && |id| > |op.opType| + 2 ==> id[|op.opType| + 1] != '0'
  {
    if op.name != "" then
      op.name
    else
      var id := op.opType + "_" + Decimal(i);
      assert id[|op.opType| + 1..] == Decimal(i);
      ParseDecimalInverse(i);
      id
  }

  /** Two unnamed records at different positions never share a synthesised
    * id, whatever their operator types: the `_` after the shorter type falls
    * among the other id's digits. */
  lemma SynthesisedIdsDistinct(op: OpRecord, i: nat, op': OpRecord, j: nat)
    requires op.name == "" && op'.name == ""
    requires i != j
    ensures NodeId(op, i) != NodeId(op', j)
  {
    var s, s' := NodeId(op, i), NodeId(op', j);
    var a, b := |op.opType|, |op'.opType|;
    if a == b {
      if op.opType != op'.opType {
        assert s[..a] == s[..a + 1][..a] == op.opType;
        assert s'[..a] == s'[..a + 1][..a] == op'.opType;
      }
    } else if a < b {
      assert s'[b] == s'[..b + 1][b] == '_';
      if b < |s| {
        assert s[b] == s[a + 1..][b - a - 1];
      }
    } else {
      assert s[a] == s[..a + 1][a] == '_';
      if a < |s'| {
        assert s'[a] == s'[b + 1..][a - b - 1];
      }
    }
  }

  /** `n` is a node the record at index `i` asks for: its own id, or an
    * identifier it reads or writes. */
  predicate Touches(op: OpRecord, i: nat, n: string)
  {
    n == NodeId(op, i) || n in op.inputs || n in op.outputs
  }

  /** `e` is an edge the record at index `i` asks for: from one of its inputs
    * to its id, or from its id to one of its outputs. */
  predicate Links(op: OpRecord, i: nat, e: DiGraphs.EdgeEntry)
  {
    || (e.source in op.inputs && e.target == NodeId(op, i))
    || (e.source == NodeId(op, i) && e.target in op.outputs)
  }
}
