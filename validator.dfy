/** The constraint validator: one task per partition of the scan plan pulls
    that partition's batches in order and checks each against the candidate
    constraint, stopping at the first failure; the tasks' results are then
    gathered in partition order. The scan engine and the row checker are
    collaborators given as values: a plan is a sequence of partitions, and
    the checker is a function from its constraints and a batch to an outcome. */
module Validator {
  import opened Kernel

  /** One item pulled from a partition's record stream. */
  datatype BatchRead<B> = ReadError(error: DeltaTableError) | Batch(batch: B)

  /** One partition of the scan plan: opening its stream either fails or
      yields the batches it will produce; `panic` is the message of the join
      error the runtime reports if the partition's task does not complete. */
  datatype Partition<B> = Partition(
    stream: Result<seq<BatchRead<B>>, DeltaTableError>,
    panic: Option<string>)

  /** A spawned partition task: its open stream and how the runtime ends it. */
  datatype Task<B> = Task(batches: seq<BatchRead<B>>, panic: Option<string>)

  /** What awaiting a task's handle gives: the task's own result, or a join error. */
  datatype Joined = Completed(outcome: Outcome) | Panicked(message: string)

  /** The outcome of handling one pulled item: a read error fails, a batch is checked. */
  function ItemOutcome<B>(item: BatchRead<B>, checker: seq<Constraint>,
                          check: (seq<Constraint>, B) -> Outcome): Outcome
  {
    match item
    case ReadError(e) => Fail(e)
    case Batch(b) => check(checker, b)
  }

  /** The result of one partition task: the first failing item's error, or Pass. */
  function TaskResult<B>(batches: seq<BatchRead<B>>, checker: seq<Constraint>,
                         check: (seq<Constraint>, B) -> Outcome): Outcome
    decreases |batches|
  {
    if batches == [] then Pass
    else match ItemOutcome(batches[0], checker, check)
      case Fail(e) => Fail(e)
      case Pass => TaskResult(batches[1..], checker, check)
  }

  /** A task passes iff every item it pulls reads without error and passes the check. */
  lemma {:induction false} TaskPassesIff<B>(batches: seq<BatchRead<B>>, checker: seq<Constraint>,
                                            check: (seq<Constraint>, B) -> Outcome)
    ensures TaskResult(batches, checker, check).Pass? <==>
      forall i :: 0 <= i < |batches| ==> batches[i].Batch? && check(checker, batches[i].batch).Pass?
    decreases |batches|
  {
    if batches != [] {
      TaskPassesIff(batches[1..], checker, check);
      assert forall i :: 1 <= i < |batches| ==> batches[i] == batches[1..][i - 1];
    }
  }

  /** A task reports the error of its first failing item, whatever follows it. */
  lemma {:induction false} TaskFailsAtFirst<B>(batches: seq<BatchRead<B>>, checker: seq<Constraint>,
                                               check: (seq<Constraint>, B) -> Outcome, k: nat)
    requires k < |batches| && ItemOutcome(batches[k], checker, check).Fail?
    requires forall j :: 0 <= j < k ==> ItemOutcome(batches[j], checker, check).Pass?
    ensures TaskResult(batches, checker, check) == ItemOutcome(batches[k], checker, check)
    decreases k
  {
    if k > 0 {
      assert forall j :: 0 <= j < k - 1 ==> batches[1..][j] == batches[j + 1];
      TaskFailsAtFirst(batches[1..], checker, check, k - 1);
    }
  }

  /** Runs one partition task: pull items until the stream ends or one fails.
      `pulled` counts the items taken from the stream, so a failing task has
      evaluated nothing after its first failing item. */
  method RunPartitionTask<B>(batches: seq<BatchRead<B>>, checker: seq<Constraint>,
                             check: (seq<Constraint>, B) -> Outcome)
    returns (r: Outcome, pulled: nat)
    ensures r == TaskResult(batches, checker, check)
    ensures pulled <= |batches|
    ensures r.Pass? ==> pulled == |batches|
    ensures r.Fail? ==> 0 < pulled && r == ItemOutcome(batches[pulled - 1], checker, check)
    ensures forall j :: 0 <= j < pulled - 1 ==> ItemOutcome(batches[j], checker, check).Pass?
  {
    pulled := 0;
    while pulled < |batches|
      invariant pulled <= |batches|
      invariant TaskResult(batches, checker, check) == TaskResult(batches[pulled..], checker, check)
      invariant forall j :: 0 <= j < pulled ==> ItemOutcome(batches[j], checker, check).Pass?
    {
      var item := batches[pulled];
      pulled := pulled + 1;
      match item {
        case ReadError(e) =>
          return Fail(e), pulled;
        case Batch(b) =>
          var o := check(checker, b);
          if o.Fail? {
            return o, pulled;
          }
      }
      assert batches[pulled - 1..][1..] == batches[pulled..];
    }
    r := Pass;
  }

  /** Opening every partition's stream in order; the first partition that
      cannot be opened ends the spawning with its error. */
  function SpawnAll<B>(plan: seq<Partition<B>>): (r: Result<seq<Task<B>>, DeltaTableError>)
    ensures r.Ok? <==> forall i :: 0 <= i < |plan| ==> plan[i].stream.Ok?
    ensures r.Ok? ==> |r.value| == |plan|
    ensures r.Ok? ==> forall i :: 0 <= i < |plan| ==> r.value[i] == Task(plan[i].stream.value, plan[i].panic)
    ensures r.Err? ==> exists k :: 0 <= k < |plan| && plan[k].stream == Err(r.error) &&
                                   forall j :: 0 <= j < k ==> plan[j].stream.Ok?
    decreases |plan|
  {
    if plan == [] then Ok([])
    else match plan[0].stream
      case Err(e) => Err(e)
      case Ok(s) =>
        match SpawnAll(plan[1..])
        case Err(e) =>
          assert forall j :: 1 <= j < |plan| ==> plan[j] == plan[1..][j - 1];
          Err(e)
        case Ok(rest) => Ok([Task(s, plan[0].panic)] + rest)
  }

  /** What awaiting one task's handle yields. */
  function JoinTask<B>(t: Task<B>, checker: seq<Constraint>,
                       check: (seq<Constraint>, B) -> Outcome): Joined
  {
    match t.panic
    case Some(m) => Panicked(m)
    case None => Completed(TaskResult(t.batches, checker, check))
  }

  /** Awaits every task, in the order they were spawned, whatever each yields. */
  method JoinAll<B>(tasks: seq<Task<B>>, checker: seq<Constraint>,
                    check: (seq<Constraint>, B) -> Outcome)
    returns (joined: seq<Joined>)
    ensures |joined| == |tasks|
    ensures forall i :: 0 <= i < |tasks| ==> joined[i] == JoinTask(tasks[i], checker, check)
  {
    joined := [];
    for i := 0 to |tasks|
      invariant |joined| == i
      invariant forall j :: 0 <= j < i ==> joined[j] == JoinTask(tasks[j], checker, check)
    {
      var result: Joined;
      match tasks[i].panic {
        case Some(m) =>
          result := Panicked(m);
        case None =>
          var o, _ := RunPartitionTask(tasks[i].batches, checker, check);
          result := Completed(o);
      }
      joined := joined + [result];
    }
  }

  /** First `collect`: the join results become the tasks' own results, or
      the first join error in spawn order. */
  function CollectJoined(js: seq<Joined>): (r: Result<seq<Outcome>, string>)
    ensures r.Ok? <==> forall i :: 0 <= i < |js| ==> js[i].Completed?
    ensures r.Ok? ==> |r.value| == |js| && forall i :: 0 <= i < |js| ==> r.value[i] == js[i].outcome
    ensures r.Err? ==> exists k :: 0 <= k < |js| && js[k] == Panicked(r.error) &&
                                   forall j :: 0 <= j < k ==> js[j].Completed?
    decreases |js|
  {
    if js == [] then Ok([])
    else match js[0]
      case Panicked(m) => Err(m)
      case Completed(o) =>
        match CollectJoined(js[1..])
        case Err(m) =>
          assert forall j :: 1 <= j < |js| ==> js[j] == js[1..][j - 1];
          Err(m)
        case Ok(rest) => Ok([o] + rest)
  }

  /** Second `collect`: Pass if every task passed, else the first failure in order. */
  function CollectOutcomes(os: seq<Outcome>): (r: Outcome)
    ensures r.Pass? <==> forall i :: 0 <= i < |os| ==> os[i].Pass?
    ensures r.Fail? ==> exists k :: 0 <= k < |os| && os[k] == r &&
                                    forall j :: 0 <= j < k ==> os[j].Pass?
    decreases |os|
  {
    if os == [] then Pass
    else match os[0]
      case Fail(e) => Fail(e)
      case Pass =>
        var rest := CollectOutcomes(os[1..]);
        assert forall j :: 1 <= j < |os| ==> os[j] == os[1..][j - 1];
        rest
  }

  /** The validation verdict for a plan and a checker. */
  function ValidationResult<B>(plan: seq<Partition<B>>, checker: seq<Constraint>,
                               check: (seq<Constraint>, B) -> Outcome): Outcome
  {
    match SpawnAll(plan)
    case Err(e) => Fail(e)
    case Ok(tasks) =>
      var joined := seq(|tasks|, i requires 0 <= i < |tasks| => JoinTask(tasks[i], checker, check));
      match CollectJoined(joined)
      case Err(m) => Fail(Generic(m))
      case Ok(outcomes) => CollectOutcomes(outcomes)
  }

  /** Runs the validation stage: open and spawn one task per partition, await
      them all in order, then gather join errors first and task errors second. */
  method Validate<B>(plan: seq<Partition<B>>, checker: seq<Constraint>,
                     check: (seq<Constraint>, B) -> Outcome)
    returns (r: Outcome)
    ensures r == ValidationResult(plan, checker, check)
  {
    var tasks: seq<Task<B>> := [];
    for p := 0 to |plan|
      invariant |tasks| == p
      invariant forall q :: 0 <= q < p ==> plan[q].stream.Ok? && tasks[q] == Task(plan[q].stream.value, plan[q].panic)
    {
      match plan[p].stream {
        case Err(e) =>
          return Fail(e);
        case Ok(s) =>
          tasks := tasks + [Task(s, plan[p].panic)];
      }
    }
    ghost var spawned := SpawnAll(plan);
    assert spawned.Ok? && spawned.value == tasks;
    var joined := JoinAll(tasks, checker, check);
    assert joined == seq(|tasks|, i requires 0 <= i < |tasks| => JoinTask(tasks[i], checker, check));
    match CollectJoined(joined) {
      case Err(m) =>
        r := Fail(Generic(m));
      case Ok(outcomes) =>
        r := CollectOutcomes(outcomes);
    }
  }

  /** Opening streams comes first: the lowest-indexed partition whose stream
      cannot be opened decides the error, whatever the tasks would report. */
  lemma OpenErrorWins<B>(plan: seq<Partition<B>>, checker: seq<Constraint>,
                         check: (seq<Constraint>, B) -> Outcome, k: nat)
    requires k < |plan| && plan[k].stream.Err?
    requires forall j :: 0 <= j < k ==> plan[j].stream.Ok?
    ensures ValidationResult(plan, checker, check) == Fail(plan[k].stream.error)
  {
  }

  /** A join error is reported ahead of every task's own error: when all
      streams open, the lowest-indexed task that did not complete decides. */
  lemma JoinErrorReportedFirst<B>(plan: seq<Partition<B>>, checker: seq<Constraint>,
                                  check: (seq<Constraint>, B) -> Outcome, k: nat)
    requires forall i :: 0 <= i < |plan| ==> plan[i].stream.Ok?
    requires k < |plan| && plan[k].panic.Some?
    requires forall j :: 0 <= j < k ==> plan[j].panic.None?
    ensures ValidationResult(plan, checker, check) == Fail(Generic(plan[k].panic.value))
  {
    var tasks := SpawnAll(plan).value;
    var joined := seq(|tasks|, i requires 0 <= i < |tasks| => JoinTask(tasks[i], checker, check));
    assert joined[k].Panicked?;
    var c := CollectJoined(joined);
    var k' :| 0 <= k' < |joined| && joined[k'] == Panicked(c.error) &&
      forall j :: 0 <= j < k' ==> joined[j].Completed?;
    assert k' == k;
  }

  /** With every stream open and every task completed, the error reported is
      that of the lowest-indexed failing partition. */
  lemma LowestFailingPartitionReported<B>(plan: seq<Partition<B>>, checker: seq<Constraint>,
                                          check: (seq<Constraint>, B) -> Outcome, k: nat)
    requires forall i :: 0 <= i < |plan| ==> plan[i].stream.Ok? && plan[i].panic.None?
    requires k < |plan| && TaskResult(plan[k].stream.value, checker, check).Fail?
    requires forall j :: 0 <= j < k ==> TaskResult(plan[j].stream.value, checker, check).Pass?
    ensures ValidationResult(plan, checker, check) == TaskResult(plan[k].stream.value, checker, check)
  {
    var tasks := SpawnAll(plan).value;
    var joined := seq(|tasks|, i requires 0 <= i < |tasks| => JoinTask(tasks[i], checker, check));
    var outcomes := CollectJoined(joined).value;
    assert outcomes[k].Fail?;
    var r := CollectOutcomes(outcomes);
    var k' :| 0 <= k' < |outcomes| && outcomes[k'] == r && forall j :: 0 <= j < k' ==> outcomes[j].Pass?;
    assert k' == k;
  }

  /** Validation passes iff every stream opens, every task completes, and
      every batch of every partition reads cleanly and passes the check. */
  lemma ValidationPassesIff<B>(plan: seq<Partition<B>>, checker: seq<Constraint>,
                               check: (seq<Constraint>, B) -> Outcome)
    ensures ValidationResult(plan, checker, check).Pass? <==>
      forall i :: 0 <= i < |plan| ==>
        && plan[i].stream.Ok?
        && plan[i].panic.None?
        && forall j :: 0 <= j < |plan[i].stream.value| ==>
             plan[i].stream.value[j].Batch? && check(checker, plan[i].stream.value[j].batch).Pass?
  {
    forall i | 0 <= i < |plan| && plan[i].stream.Ok? {
      TaskPassesIff(plan[i].stream.value, checker, check);
    }
    var s := SpawnAll(plan);
    if s.Ok? {
      var tasks := s.value;
      var joined := seq(|tasks|, i requires 0 <= i < |tasks| => JoinTask(tasks[i], checker, check));
      var c := CollectJoined(joined);
      if c.Ok? {
        assert forall i :: 0 <= i < |plan| ==> c.value[i] == TaskResult(plan[i].stream.value, checker, check);
      }
    }
  }
}
