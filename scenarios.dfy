/** The operation's test scenarios, on a concrete table: one partition whose
    one batch holds the `value` column 1 to 11, a row checker that evaluates
    the handful of comparison predicates the scenarios use, and a log store
    that commits every action list at the next version. */
module Scenarios {
  import opened Kernel
  import opened Builder
  import opened Validator
  import opened Planner
  import opened Operation

  const Store: LogStore := LogStore("memory:///test")

  const Values: seq<int> := [1, 2, 3, 4, 5, 6, 7, 8, 9, 10, 11]

  /** The table as written by the scenarios' first write, at version 0. */
  const Table0: TableState := TableState(
    0,
    Some(Metadata("test-table", None, None, "{}", [], None, map[])),
    Protocol(1, 2, None, None),
    {"part-00000.parquet"})

  /** The comparison predicates of the scenarios, on one `value`; any other
      text is not understood and fails every row. */
  predicate Satisfies(expr: string, v: int) {
    if expr == "value < 1000" then v < 1000
    else if expr == "value < 60" then v < 60
    else if expr == "value < 10" then v < 10
    else if expr == "value > 5" then v > 5
    else if expr == "value > 0" then v > 0
    else false
  }

  /** The row checker: a batch passes when every value satisfies every constraint. */
  function CheckValues(cs: seq<Constraint>, batch: seq<int>): Outcome {
    if forall i, j :: 0 <= i < |cs| && 0 <= j < |batch| ==> Satisfies(cs[i].expr, batch[j]) then Pass
    else Fail(InvalidData(["value"]))
  }

  function TestEnv(): Env<seq<int>> {
    Env(
      (s: TableState, l: LogStore, st: SessionState) => Ok([Partition(Ok([Batch(Values)]), None)]),
      CheckValues,
      1700000000000,
      (m: Metadata) => None,
      (l: LogStore, actions: seq<Action>, op: DeltaOperation, s: TableState) => Ok(s.version + 1))
  }

  /** "value < 1000" holds of every row: the constraint is added at version 1. */
  lemma ValidConstraintAdded()
    ensures var run := Pipeline(WithConstraint(New(Store, Table0), "id", StringExpr("value < 1000")), TestEnv());
      && run.result.Ok?
      && run.result.value.state.version == 1
      && run.result.value.state.metadata.value.configuration[ConstraintKey("id")] == Some("value < 1000")
  {
    var b := WithConstraint(New(Store, Table0), "id", StringExpr("value < 1000"));
    var plan := [Partition(Ok([Batch(Values)]), None)];
    assert CheckValues(CheckerFor("value < 1000"), Values).Pass?;
    ValidationPassesIff(plan, CheckerFor("value < 1000"), CheckValues);
    SuccessfulSnapshot(b, TestEnv());
  }

  /** "value > 5" fails on the row holding 1: the operation fails and nothing is committed. */
  lemma InvalidDataRejected()
    ensures var run := Pipeline(WithConstraint(New(Store, Table0), "id", StringExpr("value > 5")), TestEnv());
      && run.result == Err(InvalidData(["value"]))
      && run.committed.None?
  {
    var batches := [Batch(Values)];
    assert !Satisfies(CheckerFor("value > 5")[0].expr, Values[0]);
    assert ItemOutcome(batches[0], CheckerFor("value > 5"), CheckValues) == Fail(InvalidData(["value"]));
    TaskFailsAtFirst(batches, CheckerFor("value > 5"), CheckValues, 0);
    var plan := [Partition(Ok(batches), None)];
    LowestFailingPartitionReported(plan, CheckerFor("value > 5"), CheckValues, 0);
  }

  /** After "value < 60" is added as "id", adding "value < 10" as "id" fails
      and the table stays at version 1. */
  lemma ConflictingNameRejected()
    ensures var first := Pipeline(WithConstraint(New(Store, Table0), "id", StringExpr("value < 60")), TestEnv());
      && first.result.Ok?
      && first.result.value.state.version == 1
      && var second := Pipeline(WithConstraint(New(Store, first.result.value.state), "id", StringExpr("value < 10")), TestEnv());
         && second.result.Err?
         && second.committed.None?
  {
    var b := WithConstraint(New(Store, Table0), "id", StringExpr("value < 60"));
    var plan := [Partition(Ok([Batch(Values)]), None)];
    assert CheckValues(CheckerFor("value < 60"), Values).Pass?;
    ValidationPassesIff(plan, CheckerFor("value < 60"), CheckValues);
    SuccessfulSnapshot(b, TestEnv());
    SameNameRejectedAfterSuccess(Store, Table0, "id", StringExpr("value < 60"), StringExpr("value < 10"), TestEnv(), TestEnv());
  }
}
