/** The add-constraint operation end to end: the configuration checks, the
    duplicate-name guard, validation of the existing rows, the metadata and
    protocol plan, and the commit. The scan engine, the row checker, the
    metadata encoder, the clock and the log store's commit are collaborators,
    collected in an `Env`. */
module Operation {
  import opened Kernel
  import opened Builder
  import opened Validator
  import opened Planner
  import opened Committer

  /** The collaborators the operation calls, as values:
      `buildScan` plans the scan of a snapshot in a session,
      `checkBatch` is the row checker applied to one batch,
      `nowMillis` is the wall-clock time of the commit,
      `encodeMetadata` is the metadata encoding step, giving its error if it fails,
      `commit` is the log store's commit, giving the new version or an error. */
  datatype Env<!B> = Env(
    buildScan: (TableState, LogStore, SessionState) -> Result<seq<Partition<B>>, DeltaTableError>,
    checkBatch: (seq<Constraint>, B) -> Outcome,
    nowMillis: int,
    encodeMetadata: Metadata -> Option<DeltaTableError>,
    commit: (LogStore, seq<Action>, DeltaOperation, TableState) -> Result<int, DeltaTableError>)

  /** What one execution did: its result, whether it got as far as planning
      a scan, and the actions it handed to the log store's commit, if any. */
  datatype Run = Run(
    result: Result<DeltaTable, DeltaTableError>,
    scanStarted: bool,
    committed: Option<seq<Action>>)

  const AlreadyExistsPrefix: string := "Constraint with name: "
  const AlreadyExistsInfix: string := " already exists, expr: "

  /** The error reported when the name is already registered: it names the
      constraint and quotes the expression that was refused. */
  function AlreadyExistsMessage(name: string, expr: string): (m: string)
    ensures |m| == |AlreadyExistsPrefix| + |name| + |AlreadyExistsInfix| + |expr|
    ensures m[..|AlreadyExistsPrefix|] == AlreadyExistsPrefix
    ensures m[|AlreadyExistsPrefix|..|AlreadyExistsPrefix| + |name|] == name
    ensures m[|m| - |expr|..] == expr
  {
    AlreadyExistsPrefix + name + AlreadyExistsInfix + expr
  }

  /** The one constraint the row checker is built with: the whole row must satisfy `expr`. */
  function CheckerFor(expr: string): (cs: seq<Constraint>)
    ensures |cs| == 1 && cs[0].target == "*" && cs[0].expr == expr
  {
    [Constraint("*", expr)]
  }

  /** The specification of one execution, stage by stage. */
  function Pipeline<B>(b: ConstraintBuilder, env: Env<B>): Run
  {
    match b.name
    case None => Run(Err(Generic("No name provided")), false, None)
    case Some(name) =>
      match b.expr
      case None => Run(Err(Generic("No expression provided")), false, None)
      case Some(e) =>
        var expr := ExprText(e);
        match b.snapshot.metadata
        case None => Run(Err(NoMetadata), false, None)
        case Some(md) =>
          if ConstraintKey(name) in md.configuration then
            Run(Err(Generic(AlreadyExistsMessage(name, expr))), false, None)
          else
            match env.buildScan(b.snapshot, b.logStore, SessionFor(b))
            case Err(err) => Run(Err(err), true, None)
            case Ok(plan) =>
              match ValidationResult(plan, CheckerFor(expr), env.checkBatch)
              case Fail(err) => Run(Err(err), true, None)
              case Pass => CommitStage(b, env, name, expr, md)
  }

  /** The stages after a passed validation: plan the new metadata and
      protocol, build the actions, commit and merge. */
  function CommitStage<B>(b: ConstraintBuilder, env: Env<B>, name: string, expr: string, md: Metadata): Run
  {
    var metadata := InsertConstraint(md, name, expr);
    var protocol := BumpProtocol(b.snapshot.protocol);
    var op := AddConstraint(name, expr);
    var commitInfo := BuildCommitInfo(b.snapshot, op, env.nowMillis);
    match env.encodeMetadata(metadata)
    case Some(err) => Run(Err(err), true, None)
    case None =>
      var actions := BuildActions(commitInfo, metadata, protocol);
      match env.commit(b.logStore, actions, op, b.snapshot)
      case Err(err) => Run(Err(err), true, Some(actions))
      case Ok(version) => Run(Ok(DeltaTable(b.logStore, Merge(b.snapshot, actions, version))), true, Some(actions))
  }

  /** Executes a configured builder: each check returns early on failure;
      once validation has passed, the local metadata is rebound with the
      constraint's key inserted into its configuration. */
  method Execute<B>(b: ConstraintBuilder, env: Env<B>) returns (run: Run)
    ensures run == Pipeline(b, env)
  {
    if b.name.None? {
      return Run(Err(Generic("No name provided")), false, None);
    }
    var name := b.name.value;
    if b.expr.None? {
      return Run(Err(Generic("No expression provided")), false, None);
    }
    var expr := ExprText(b.expr.value);
    if b.snapshot.metadata.None? {
      return Run(Err(NoMetadata), false, None);
    }
    var metadata := b.snapshot.metadata.value;
    var configurationKey := ConstraintKey(name);
    if configurationKey in metadata.configuration {
      return Run(Err(Generic(AlreadyExistsMessage(name, expr))), false, None);
    }

    var state := SessionFor(b);
    var checker := CheckerFor(expr);
    var scan := env.buildScan(b.snapshot, b.logStore, state);
    if scan.Err? {
      return Run(Err(scan.error), true, None);
    }
    var verdict := Validate(scan.value, checker, env.checkBatch);
    if verdict.Fail? {
      return Run(Err(verdict.error), true, None);
    }

    metadata := metadata.(configuration := metadata.configuration[configurationKey := Some(expr)]);
    var protocol := BumpProtocol(b.snapshot.protocol);
    var op := AddConstraint(name, expr);
    var commitInfo := BuildCommitInfo(b.snapshot, op, env.nowMillis);
    var encodeError := env.encodeMetadata(metadata);
    if encodeError.Some? {
      return Run(Err(encodeError.value), true, None);
    }
    var actions := BuildActions(commitInfo, metadata, protocol);
    var version := env.commit(b.logStore, actions, op, b.snapshot);
    if version.Err? {
      return Run(Err(version.error), true, Some(actions));
    }
    var snapshot := Merge(b.snapshot, actions, version.value);
    run := Run(Ok(DeltaTable(b.logStore, snapshot)), true, Some(actions));
  }

  /** A missing name is reported first, then a missing expression; neither
      reaches the scan or the commit. */
  lemma ConfigurationChecked<B>(b: ConstraintBuilder, env: Env<B>)
    ensures b.name.None? ==>
      Pipeline(b, env) == Run(Err(Generic("No name provided")), false, None)
    ensures b.name.Some? && b.expr.None? ==>
      Pipeline(b, env) == Run(Err(Generic("No expression provided")), false, None)
  {
  }

  /** A builder fresh from `New` always fails for want of a name. */
  lemma UnconfiguredBuilderFails<B>(store: LogStore, snapshot: TableState, env: Env<B>)
    ensures Pipeline(New(store, snapshot), env).result == Err(Generic("No name provided"))
  {
  }

  /** A name already registered in the configuration is refused whatever the
      expression, before any scan and without a commit. */
  lemma DuplicateNameRejected<B>(b: ConstraintBuilder, env: Env<B>, name: string, e: Expression)
    requires b.snapshot.metadata.Some?
    requires ConstraintKey(name) in b.snapshot.metadata.value.configuration
    ensures Pipeline(WithConstraint(b, name, e), env)
            == Run(Err(Generic(AlreadyExistsMessage(name, ExprText(e)))), false, None)
  {
  }

  /** The stages that ran before the commit leave no mark: a failed execution
      either handed nothing to the log store, or the log store refused it. */
  lemma FailureCommitsNothing<B>(b: ConstraintBuilder, env: Env<B>)
    ensures var run := Pipeline(b, env);
      run.result.Err? && run.committed.Some? ==>
        && b.name.Some? && b.expr.Some?
        && env.commit(b.logStore, run.committed.value,
                      AddConstraint(b.name.value, ExprText(b.expr.value)), b.snapshot).Err?
  {
  }

  /** A snapshot without metadata is refused once name and expression are
      present, before any scan and without a commit. */
  lemma NoMetadataRejected<B>(b: ConstraintBuilder, env: Env<B>)
    requires b.name.Some? && b.expr.Some? && b.snapshot.metadata.None?
    ensures Pipeline(b, env) == Run(Err(NoMetadata), false, None)
  {
  }

  /** Actions reach the log store only after every guard has passed, the
      scan was planned and the validation of the existing rows passed. */
  lemma CommitOnlyAfterValidation<B>(b: ConstraintBuilder, env: Env<B>)
    requires Pipeline(b, env).committed.Some?
    ensures b.name.Some? && b.expr.Some? && b.snapshot.metadata.Some?
    ensures ConstraintKey(b.name.value) !in b.snapshot.metadata.value.configuration
    ensures Pipeline(b, env).scanStarted
    ensures env.buildScan(b.snapshot, b.logStore, SessionFor(b)).Ok?
    ensures ValidationResult(env.buildScan(b.snapshot, b.logStore, SessionFor(b)).value,
                             CheckerFor(ExprText(b.expr.value)), env.checkBatch).Pass?
    ensures env.encodeMetadata(InsertConstraint(b.snapshot.metadata.value, b.name.value, ExprText(b.expr.value))).None?
  {
  }

  /** Soundness: an execution that succeeds has checked every batch of every
      partition of the scan, and every one passed the constraint. */
  lemma SuccessMeansAllRowsChecked<B>(b: ConstraintBuilder, env: Env<B>)
    requires Pipeline(b, env).result.Ok?
    ensures b.name.Some? && b.expr.Some?
    ensures var plan := env.buildScan(b.snapshot, b.logStore, SessionFor(b));
      && plan.Ok?
      && forall i :: 0 <= i < |plan.value| ==>
        && plan.value[i].stream.Ok?
        && plan.value[i].panic.None?
        && forall j :: 0 <= j < |plan.value[i].stream.value| ==>
             && plan.value[i].stream.value[j].Batch?
             && env.checkBatch(CheckerFor(ExprText(b.expr.value)), plan.value[i].stream.value[j].batch).Pass?
  {
    var plan := env.buildScan(b.snapshot, b.logStore, SessionFor(b)).value;
    ValidationPassesIff(plan, CheckerFor(ExprText(b.expr.value)), env.checkBatch);
  }

  /** Completeness: when the name is new, every batch reads cleanly and
      passes, and the encoder and the log store succeed, the operation
      succeeds with the committed version, the constraint registered and the
      protocol bumped. */
  lemma AllRowsValidSucceeds<B>(b: ConstraintBuilder, env: Env<B>, version: int)
    requires b.name.Some? && b.expr.Some? && b.snapshot.metadata.Some?
    requires ConstraintKey(b.name.value) !in b.snapshot.metadata.value.configuration
    requires var plan := env.buildScan(b.snapshot, b.logStore, SessionFor(b));
      && plan.Ok?
      && forall i :: 0 <= i < |plan.value| ==>
        && plan.value[i].stream.Ok?
        && plan.value[i].panic.None?
        && forall j :: 0 <= j < |plan.value[i].stream.value| ==>
             && plan.value[i].stream.value[j].Batch?
             && env.checkBatch(CheckerFor(ExprText(b.expr.value)), plan.value[i].stream.value[j].batch).Pass?
    requires env.encodeMetadata(InsertConstraint(b.snapshot.metadata.value, b.name.value, ExprText(b.expr.value))).None?
    requires var name, expr := b.name.value, ExprText(b.expr.value);
      var op := AddConstraint(name, expr);
      env.commit(b.logStore,
                 BuildActions(BuildCommitInfo(b.snapshot, op, env.nowMillis),
                              InsertConstraint(b.snapshot.metadata.value, name, expr),
                              BumpProtocol(b.snapshot.protocol)),
                 op, b.snapshot) == Ok(version)
    ensures Pipeline(b, env).result == Ok(DeltaTable(b.logStore, TableState(
      version,
      Some(InsertConstraint(b.snapshot.metadata.value, b.name.value, ExprText(b.expr.value))),
      BumpProtocol(b.snapshot.protocol),
      b.snapshot.files)))
  {
    var name, expr, md := b.name.value, ExprText(b.expr.value), b.snapshot.metadata.value;
    var plan := env.buildScan(b.snapshot, b.logStore, SessionFor(b)).value;
    ValidationPassesIff(plan, CheckerFor(expr), env.checkBatch);
    var op := AddConstraint(name, expr);
    MergeInstalls(b.snapshot, BuildCommitInfo(b.snapshot, op, env.nowMillis),
                  InsertConstraint(md, name, expr), BumpProtocol(b.snapshot.protocol), version);
  }

  /** What is handed to the log store: the audit record, the new metadata
      and the new protocol, in that order. */
  lemma CommittedActions<B>(b: ConstraintBuilder, env: Env<B>)
    requires Pipeline(b, env).committed.Some?
    ensures b.name.Some? && b.expr.Some? && b.snapshot.metadata.Some?
    ensures var actions := Pipeline(b, env).committed.value;
      var name, expr := b.name.value, ExprText(b.expr.value);
      && |actions| == 3
      && actions[0].CommitInfoAction?
      && actions[0].commitInfo.timestamp == Some(env.nowMillis)
      && actions[0].commitInfo.operation == Some("ADD CONSTRAINT")
      && actions[0].commitInfo.operationParameters == Some(map["name" := name, "expr" := expr])
      && actions[0].commitInfo.readVersion == Some(b.snapshot.version)
      && actions[0].commitInfo.isolationLevel == Some(Serializable)
      && actions[0].commitInfo.isBlindAppend == Some(false)
      && actions[1] == MetadataAction(InsertConstraint(b.snapshot.metadata.value, name, expr))
      && actions[2] == ProtocolAction(BumpProtocol(b.snapshot.protocol))
  {
  }

  /** A successful execution registers the constraint, keeps every other
      configuration entry and the file set, never lowers the protocol, and
      takes the version the log store assigned. */
  lemma SuccessfulSnapshot<B>(b: ConstraintBuilder, env: Env<B>)
    requires Pipeline(b, env).result.Ok?
    ensures b.name.Some? && b.expr.Some? && b.snapshot.metadata.Some?
    ensures var t := Pipeline(b, env).result.value;
      var name, expr := b.name.value, ExprText(b.expr.value);
      var old_md := b.snapshot.metadata.value;
      && t.logStore == b.logStore
      && Pipeline(b, env).committed.Some?
      && Ok(t.state.version) == env.commit(b.logStore, Pipeline(b, env).committed.value,
                                           AddConstraint(name, expr), b.snapshot)
      && t.state.metadata.Some?
      && ConstraintKey(name) !in old_md.configuration
      && t.state.metadata.value.configuration.Keys == old_md.configuration.Keys + {ConstraintKey(name)}
      && t.state.metadata.value.configuration[ConstraintKey(name)] == Some(expr)
      && (forall k :: k in old_md.configuration ==> t.state.metadata.value.configuration[k] == old_md.configuration[k])
      && ProtocolAtMost(b.snapshot.protocol, t.state.protocol)
      && t.state.protocol.minReaderVersion >= 1 && t.state.protocol.minWriterVersion >= 3
      && t.state.files == b.snapshot.files
  {
    var name, expr, md := b.name.value, ExprText(b.expr.value), b.snapshot.metadata.value;
    var op := AddConstraint(name, expr);
    var actions := Pipeline(b, env).committed.value;
    var version := env.commit(b.logStore, actions, op, b.snapshot).value;
    MergeInstalls(b.snapshot, BuildCommitInfo(b.snapshot, op, env.nowMillis),
                  InsertConstraint(md, name, expr), BumpProtocol(b.snapshot.protocol), version);
  }

  /** With a log store that commits at the next version, success advances
      the table's version by exactly one. */
  lemma VersionAdvancesByOne<B>(b: ConstraintBuilder, env: Env<B>)
    requires Pipeline(b, env).result.Ok?
    requires forall store, actions, op, s :: env.commit(store, actions, op, s).Ok? ==>
               env.commit(store, actions, op, s).value == s.version + 1
    ensures Pipeline(b, env).result.value.state.version == b.snapshot.version + 1
  {
  }

  /** Once a constraint is added, adding another under the same name to the
      resulting table fails, whatever its expression, without a scan or a commit. */
  lemma SameNameRejectedAfterSuccess<B>(store: LogStore, snapshot: TableState, name: string,
                                        e1: Expression, e2: Expression, env1: Env<B>, env2: Env<B>)
    requires Pipeline(WithConstraint(New(store, snapshot), name, e1), env1).result.Ok?
    ensures var t := Pipeline(WithConstraint(New(store, snapshot), name, e1), env1).result.value;
      Pipeline(WithConstraint(New(t.logStore, t.state), name, e2), env2)
        == Run(Err(Generic(AlreadyExistsMessage(name, ExprText(e2)))), false, None)
  {
    var b := WithConstraint(New(store, snapshot), name, e1);
    SuccessfulSnapshot(b, env1);
    var t := Pipeline(b, env1).result.value;
    DuplicateNameRejected(New(t.logStore, t.state), env2, name, e2);
  }
}
