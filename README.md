# Add check constraint — a Dafny model

This project models the add-check-constraint operation of delta-rs
(`crates/deltalake-core/src/operations/constraints.rs`). The operation
attaches a named row-level invariant to a Delta table. It runs these stages
in order:

1. **Configurator** (`Builder`): a `ConstraintBuilder` record built by value
   (`New`, `WithConstraint`, `WithSessionState`).
2. **Guards** (`Operation.Pipeline`): the name must be present, then the
   expression, then the snapshot's metadata. Then the configuration key
   `"delta.constraints." + name` must not be registered yet.
3. **Validator** (`Validator`): one task per partition of the scan plan. Each
   task pulls its batches in order and stops at the first read error or check
   failure. `join_all` polls all task handles together and returns their
   results in spawn order. Join errors are then collected first and task
   errors second.
4. **Planner** (`Planner`): the configuration with `key ↦ Some(expr)` added,
   and the protocol raised to reader version ≥ 1 and writer version ≥ 3 with
   the same feature sets.
5. **Committer** (`Committer`, `Operation.CommitStage`): the actions
   `[CommitInfo, Metadata, Protocol]` go to the log store's commit. The
   committed actions are then folded into the snapshot.

The validation stage is imperative, as in the source:
- `Validator.Validate` has a loop that opens the partitions and spawns their tasks.
- `Validator.JoinAll` awaits every task handle and returns the results in spawn order.
- `Validator.RunPartitionTask` consumes one stream with a `while` loop.

`Operation.Execute` is the early-returning body of `into_future`. Once
validation has passed it rebinds the local metadata with the key inserted.
Each method is proved equal to a specification function
(`ValidationResult`, `Pipeline`), and the lemmas state the source's
promises about those functions.

The collaborators are values in `Operation.Env`:
- the scan planner, which yields a sequence of partitions, each a stream of batches or read errors;
- the row checker;
- the metadata encoder;
- the wall clock;
- the log store's commit.

`Operation.Run` records three things: the result, whether a scan was
planned, and the action list handed to the commit, if any. This lets the
lemmas say that a failure never reached the scan or the commit.

The configuration key is `"delta.constraints.<name>"`.

`join_all` returns results in spawn order, and both `collect` passes stop at
the first error. So the reported error does not depend on which task
finishes first, and it is chosen in this order:
1. A stream that cannot be opened (`execute(p)?` at line 121) wins, because it
   ends the spawning loop.
2. Otherwise a join error wins.
3. Otherwise the error of the lowest-indexed failing partition is reported.

## Model

| member | source | states |
|---|---|---|
| `Builder.New` | crates/deltalake-core/src/operations/constraints.rs:37-45 | a new builder has no name, no expression and no session, and keeps the given snapshot and log store |
| `Builder.WithConstraint` | crates/deltalake-core/src/operations/constraints.rs:48-56 | sets both the name and the expression and leaves snapshot, log store and session as they were |
| `Builder.WithSessionState` | crates/deltalake-core/src/operations/constraints.rs:59-62 | sets only the session state; name, expression, snapshot and log store are unchanged |
| `Builder.LastConstraintWins` | crates/deltalake-core/src/operations/constraints.rs:48-56 | of two `with_constraint` calls the last one decides both name and expression |
| `Builder.SessionAndConstraintCommute` | crates/deltalake-core/src/operations/constraints.rs:48-62 | setting the session and setting the constraint can be done in either order |
| `Builder.ExprText` | crates/deltalake-core/src/operations/constraints.rs:78-80 | the expression text is the text the expression carries, whether it was given as raw text or as a parsed expression |
| `Builder.SessionChoice` | crates/deltalake-core/src/operations/constraints.rs:102-106 | a supplied session is the one used; every builder without one, however configured, uses a default session for its log store |
| `Validator.TaskPassesIff` | crates/deltalake-core/src/operations/constraints.rs:124-128 | a partition task succeeds iff every pulled item is a batch (no read error) and the checker passes it |
| `Validator.TaskFailsAtFirst` | crates/deltalake-core/src/operations/constraints.rs:124-127 | a task reports the error of its first failing item, whatever comes after it |
| `Validator.RunPartitionTask` | crates/deltalake-core/src/operations/constraints.rs:122-129 | the stream loop returns the task result; it pulls every item when it passes, and on failure it stops right after the first failing item (all earlier items passed) |
| `Validator.SpawnAll` | crates/deltalake-core/src/operations/constraints.rs:115-131 | spawning succeeds iff every partition's stream opens, giving one task per partition in order; otherwise the error is that of the lowest-indexed partition that failed to open |
| `Validator.JoinAll` | crates/deltalake-core/src/operations/constraints.rs:132-133 | awaits every task, whether or not others failed, and keeps spawn order |
| `Validator.CollectJoined` | crates/deltalake-core/src/operations/constraints.rs:132-136 | the first collect succeeds iff every task completed, and keeps their results in order; otherwise it gives the first join error in spawn order |
| `Validator.CollectOutcomes` | crates/deltalake-core/src/operations/constraints.rs:137-138 | the second collect passes iff every task passed; otherwise it gives the first failure in partition order |
| `Validator.Validate` | crates/deltalake-core/src/operations/constraints.rs:115-138 | the spawn loop, the join and the two collects together compute the validation verdict `ValidationResult` |
| `Validator.OpenErrorWins` | crates/deltalake-core/src/operations/constraints.rs:116-121 | a stream that fails to open decides the error (the lowest such partition), ahead of every task result |
| `Validator.JoinErrorReportedFirst` | crates/deltalake-core/src/operations/constraints.rs:132-136 | with all streams open, the lowest-indexed join error is reported (as a generic error) even when earlier partitions failed their check |
| `Validator.LowestFailingPartitionReported` | crates/deltalake-core/src/operations/constraints.rs:132-138 | with all streams open and all tasks completed, the error of the lowest-indexed failing partition is reported |
| `Validator.ValidationPassesIff` | crates/deltalake-core/src/operations/constraints.rs:115-138 | validation passes iff every stream opens, every task completes, and every batch of every partition reads cleanly and passes the check |
| `Planner.ConstraintKey` | crates/deltalake-core/src/operations/constraints.rs:93 | the key is the prefix `delta.constraints.` followed by exactly the name |
| `Planner.ConstraintKeyInjective` | crates/deltalake-core/src/operations/constraints.rs:93-95 | distinct names give distinct keys, so the duplicate check is per name |
| `Planner.InsertConstraint` | crates/deltalake-core/src/operations/constraints.rs:143-145 | the key maps to `Some(expr)`; the key set grows by the key only; every other entry and every other metadata field is unchanged |
| `Planner.InsertConstraintGrows` | crates/deltalake-core/src/operations/constraints.rs:143-145 | registering a name that is not yet registered adds exactly one configuration entry |
| `Planner.BumpProtocol` | crates/deltalake-core/src/operations/constraints.rs:147-161 | reader version is the maximum of the old one and 1, writer version the maximum of the old one and 3, feature sets unchanged |
| `Planner.BumpProtocolProperties` | crates/deltalake-core/src/operations/constraints.rs:147-161 | the bump never lowers a version, is monotone and idempotent, and leaves a protocol alone iff it already has reader ≥ 1 and writer ≥ 3 |
| `Committer.OperationParameters` | crates/deltalake-core/src/operations/constraints.rs:163-166 | the commit parameters are exactly `name` and `expr`, holding the constraint's name and expression |
| `Committer.BuildCommitInfo` | crates/deltalake-core/src/operations/constraints.rs:168-181 | the audit record is stamped with the given time and names the operation. Its parameters have exactly the keys `name` and `expr`, and they give back the operation descriptor. It reads at the snapshot's version, is Serializable and is not a blind append. Every other field is absent |
| `Committer.BuildActions` | crates/deltalake-core/src/operations/constraints.rs:183-187 | three actions: the audit record first and nowhere else, then the metadata, then the protocol |
| `Committer.MergeInstalls` | crates/deltalake-core/src/operations/constraints.rs:198-199 | folding the committed actions in installs the new metadata and protocol at the committed version and keeps the file set |
| `Operation.AlreadyExistsMessage` | crates/deltalake-core/src/operations/constraints.rs:96-99 | the duplicate-name error starts with "Constraint with name: ", then gives the name, and ends with the refused expression |
| `Operation.CheckerFor` | crates/deltalake-core/src/operations/constraints.rs:109 | the checker is built with exactly one constraint: the whole row (`*`) must satisfy the expression |
| `Operation.Execute` | crates/deltalake-core/src/operations/constraints.rs:70-201 | the early-returning body computes exactly the staged specification `Pipeline`: result, whether a scan started, and what was committed |
| `Operation.ConfigurationChecked` | crates/deltalake-core/src/operations/constraints.rs:74-86 | a missing name fails with "No name provided" before anything else; with a name, a missing expression fails with "No expression provided"; neither reaches the scan or the commit |
| `Operation.UnconfiguredBuilderFails` | crates/deltalake-core/src/operations/constraints.rs:74-77 | executing a builder fresh from `new` fails for want of a name |
| `Operation.DuplicateNameRejected` | crates/deltalake-core/src/operations/constraints.rs:93-100 | if the key is already in the configuration, the operation fails with "Constraint with name: … already exists, expr: …" whatever the expression, with no scan and no commit |
| `Operation.NoMetadataRejected` | crates/deltalake-core/src/operations/constraints.rs:88-92 | with a name and an expression present, a snapshot without metadata fails with `NoMetadata`, with no scan and no commit |
| `Operation.CommitOnlyAfterValidation` | crates/deltalake-core/src/operations/constraints.rs:88-189 | actions reach the log store only when the metadata is present, the key is new, the scan was planned, validation passed and the metadata encoded |
| `Operation.FailureCommitsNothing` | crates/deltalake-core/src/operations/constraints.rs:88-196 | a failed execution handed nothing to the log store, unless the log store's commit itself refused the actions |
| `Operation.SuccessMeansAllRowsChecked` | crates/deltalake-core/src/operations/constraints.rs:108-138 | a successful execution opened every partition, and every batch read cleanly and passed the wildcard constraint |
| `Operation.AllRowsValidSucceeds` | crates/deltalake-core/src/operations/constraints.rs:108-200 | when the name is new, every batch passes, encoding succeeds and the log store commits the operation's own `[CommitInfo, Metadata, Protocol]` at some version, the table is at that version with the constraint registered and the protocol bumped |
| `Operation.CommittedActions` | crates/deltalake-core/src/operations/constraints.rs:163-187 | the committed actions are exactly `[CommitInfo, Metadata, Protocol]`; the CommitInfo has timestamp = now, operation "ADD CONSTRAINT", parameters {name, expr}, read version = snapshot version, Serializable isolation and blind append false |
| `Operation.SuccessfulSnapshot` | crates/deltalake-core/src/operations/constraints.rs:143-200 | on success the version is the one the commit returned; the key maps to the expression and every other entry is kept; the protocol does not decrease and reaches reader 1 and writer 3; the files are kept |
| `Operation.VersionAdvancesByOne` | crates/deltalake-core/src/operations/constraints.rs:189-200 | with a log store that commits at the next version, success advances the version by exactly one |
| `Operation.SameNameRejectedAfterSuccess` | crates/deltalake-core/src/operations/constraints.rs:255-275 | after a constraint is added, adding one with the same name to the new table fails whatever the expression, with no scan and no commit |
| `Scenarios.ValidConstraintAdded` | crates/deltalake-core/src/operations/constraints.rs:235-251 | on a table whose values are 1 to 11, "value < 1000" is added and the table reaches version 1 |
| `Scenarios.InvalidDataRejected` | crates/deltalake-core/src/operations/constraints.rs:217-231 | on the same table, "value > 5" fails with the checker's error and nothing is committed |
| `Scenarios.ConflictingNameRejected` | crates/deltalake-core/src/operations/constraints.rs:255-275 | "value < 60" as "id" succeeds at version 1, and then "value < 10" as "id" fails without a commit |

## Left out

- Query-engine session creation and store registration (lines 102-106) are foreign calls. The session is only a value, `Builder.SessionState`, and the scan planner receives it.
- Scan plan building (lines 110-112) is abstract: `Env.buildScan` returns the partitions, or the build error.
- The tokio tasks run concurrently in the source. The model runs them one after another in spawn order. This changes no result, because the results are gathered in spawn order.
- A task that is spawned before a later partition's stream fails to open keeps running detached. The model does not run it, because its result is never observed.
- A task panic is modelled as a join error message given per partition (`Partition.panic`). The model does not say at which batch the panic happens, because only the join result is observed.
- The row checker's evaluation of predicates over Arrow record batches (lines 109, 126) is the function `Env.checkBatch`. The `Scenarios` module gives a small checker for a handful of comparison predicates.
- Turning a parsed expression into text (line 80) is done by a foreign formatter. A parsed expression is carried as the text the formatter produces.
- `Utc::now()` (line 174) is the value `Env.nowMillis`.
- `Metadata::try_from` (line 185) is a step that may fail, `Env.encodeMetadata`. On success the action carries the same fields.
- The log store's commit (lines 189-196) is `Env.commit`. Conflict detection is its business.
- `DeltaTableState::from_actions` (line 199) is treated as never failing.
- `DeltaTableState::merge` (line 199) is replaced by `Committer.Merge`. It installs the committed metadata and protocol and the new version, and keeps the file set. The merge flags are not modelled.
- The operation name "ADD CONSTRAINT" is defined in `crate::protocol`, which is not part of this model. The model uses that text.
- Other CommitInfo fields are left at their defaults (absent). `userId`, `userName`, `engineInfo` and `info` stand for them.
- Enforcement of a registered constraint on later writes (the tests at lines 279-314) belongs to the writer, not to this operation.
- Integer widths: versions are `i64`/`i32` in the source and unbounded here. The protocol bump cannot overflow, because it never increases a version beyond its old value or the constants 1 and 3.
