/** The table-format values the add-constraint operation reads and writes:
    the snapshot it starts from, the metadata and protocol it evolves, the
    log actions it commits, and the error values it can return. */
module Kernel {

  datatype Option<+T> = None | Some(value: T)

  /** A value or the error that prevented it (Rust's `Result<T, E>`). */
  datatype Result<+T, +E> = Ok(value: T) | Err(error: E)

  /** The outcome of a step that produces nothing but may fail (`DeltaResult<()>`). */
  datatype Outcome = Pass | Fail(error: DeltaTableError)

  /** The error values this operation can produce. Errors raised inside the
      scan engine, the row checker or the log store are carried as the
      collaborator reports them, so they are opaque here. */
  datatype DeltaTableError =
    | Generic(message: string)
    | NoMetadata
    | InvalidData(violations: seq<string>)

  /** Handle on the durable store that holds the transaction log. */
  datatype LogStore = LogStore(location: string)

  /** Minimum reader/writer versions and feature sets a client needs. */
  datatype Protocol = Protocol(
    minReaderVersion: int,
    minWriterVersion: int,
    readerFeatures: Option<set<string>>,
    writerFeatures: Option<set<string>>)

  /** Table metadata; constraints live in `configuration`. */
  datatype Metadata = Metadata(
    id: string,
    name: Option<string>,
    description: Option<string>,
    schemaString: string,
    partitionColumns: seq<string>,
    createdTime: Option<int>,
    configuration: map<string, Option<string>>)

  datatype IsolationLevel = Serializable | WriteSerializable | SnapshotIsolation

  /** Audit and conflict-detection record of one commit. Operation
      parameters are JSON strings; the map holds their text. */
  datatype CommitInfo = CommitInfo(
    timestamp: Option<int>,
    userId: Option<string>,
    userName: Option<string>,
    operation: Option<string>,
    operationParameters: Option<map<string, string>>,
    readVersion: Option<int>,
    isolationLevel: Option<IsolationLevel>,
    isBlindAppend: Option<bool>,
    engineInfo: Option<string>,
    info: map<string, string>)

  /** The log actions this operation writes (other variants exist in the
      log format but this operation never produces them). */
  datatype Action =
    | CommitInfoAction(commitInfo: CommitInfo)
    | MetadataAction(metadata: Metadata)
    | ProtocolAction(protocol: Protocol)

  /** The operation descriptor handed to the log store's commit. */
  datatype DeltaOperation = AddConstraint(name: string, expr: string)
  {
    /** The operation name recorded in the commit's audit record. */
    function Name(): string { "ADD CONSTRAINT" }
  }

  /** One row-level invariant: a target column ("*" for the whole row) and a
      predicate over it, as handed to the row checker. */
  datatype Constraint = Constraint(target: string, expr: string)

  /** An immutable, versioned view of the table. */
  datatype TableState = TableState(
    version: int,
    metadata: Option<Metadata>,
    protocol: Protocol,
    files: set<string>)

  /** An opened table: its log store and the live snapshot. */
  datatype DeltaTable = DeltaTable(logStore: LogStore, state: TableState)
}
