/** The transaction committer's pure part: the audit record of the commit,
    the ordered action list handed to the log store, and how the committed
    actions are folded into the table's snapshot. */
module Committer {
  import opened Kernel

  /** The operation parameters recorded for the commit: exactly name and expr. */
  function OperationParameters(name: string, expr: string): (ps: map<string, string>)
    ensures ps.Keys == {"name", "expr"}
    ensures ps["name"] == name && ps["expr"] == expr
  {
    map["name" := name, "expr" := expr]
  }

  /** The audit record: read at the snapshot's version, serializable, not a
      blind append, stamped with the given wall-clock time; every field not
      set here keeps its default (absent). */
  function BuildCommitInfo(snapshot: TableState, op: DeltaOperation, nowMillis: int): (ci: CommitInfo)
    ensures ci.timestamp == Some(nowMillis) && ci.operation == Some(op.Name())
    ensures ci.operationParameters.Some? && ci.operationParameters.value.Keys == {"name", "expr"}
    ensures AddConstraint(ci.operationParameters.value["name"], ci.operationParameters.value["expr"]) == op
    ensures ci.readVersion == Some(snapshot.version)
    ensures ci.isolationLevel == Some(Serializable) && ci.isBlindAppend == Some(false)
    ensures ci.userId.None? && ci.userName.None? && ci.engineInfo.None? && ci.info == map[]
  {
    CommitInfo(
      timestamp := Some(nowMillis),
      userId := None,
      userName := None,
      operation := Some(op.Name()),
      operationParameters := Some(OperationParameters(op.name, op.expr)),
      readVersion := Some(snapshot.version),
      isolationLevel := Some(Serializable),
      isBlindAppend := Some(false),
      engineInfo := None,
      info := map[])
  }

  /** The actions of one add-constraint commit: the audit record first, then
      the new metadata, then the new protocol. */
  function BuildActions(ci: CommitInfo, md: Metadata, p: Protocol): (actions: seq<Action>)
    ensures |actions| == 3 && actions[0] == CommitInfoAction(ci)
    ensures forall i :: 0 < i < |actions| ==> !actions[i].CommitInfoAction?
    ensures MetadataAction(md) in actions && ProtocolAction(p) in actions
    ensures actions[1].MetadataAction? && actions[2].ProtocolAction?
  {
    [CommitInfoAction(ci), MetadataAction(md), ProtocolAction(p)]
  }

  /** Folds committed actions into a snapshot at the committed version: a
      metadata action replaces the metadata, a protocol action replaces the
      protocol, the audit record changes neither. */
  function ApplyActions(base: TableState, actions: seq<Action>): TableState
    decreases |actions|
  {
    if actions == [] then base
    else
      var next := match actions[0]
        case CommitInfoAction(_) => base
        case MetadataAction(m) => base.(metadata := Some(m))
        case ProtocolAction(p) => base.(protocol := p);
      ApplyActions(next, actions[1..])
  }

  /** The snapshot after the commit: the base snapshot with the committed
      actions folded in and the version the log store assigned. */
  function Merge(base: TableState, actions: seq<Action>, version: int): TableState
  {
    ApplyActions(base, actions).(version := version)
  }

  /** Merging an add-constraint commit installs its metadata and protocol,
      takes the new version and keeps the file set. */
  lemma {:induction false} MergeInstalls(base: TableState, ci: CommitInfo, md: Metadata, p: Protocol, version: int)
    ensures Merge(base, BuildActions(ci, md, p), version)
            == TableState(version, Some(md), p, base.files)
  {
    var actions := BuildActions(ci, md, p);
    assert actions[1..][1..][1..] == [];
    calc {
      ApplyActions(base, actions);
      ApplyActions(base, actions[1..]);
      ApplyActions(base.(metadata := Some(md)), actions[1..][1..]);
      ApplyActions(base.(metadata := Some(md)).(protocol := p), actions[1..][1..][1..]);
      base.(metadata := Some(md), protocol := p);
    }
  }
}
