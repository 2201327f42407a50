/** The operation configurator: a record of the snapshot, the log store, and
    the optional constraint name, expression and session state, built up by
    value and consumed by the operation's execution. */
module Builder {
  import opened Kernel

  /** The predicate as the caller gave it: raw text, or an expression already
      parsed by the query engine. The parsed form is represented by the text
      its display formatter produces, which is what execution uses. */
  datatype Expression = StringExpr(text: string) | DataFusionExpr(display: string)

  /** The query-engine session used for the scan: one the caller supplied, or
      the default session created with the table's log store registered. */
  datatype SessionState = Supplied(id: nat) | DefaultFor(store: LogStore)

  datatype ConstraintBuilder = ConstraintBuilder(
    snapshot: TableState,
    name: Option<string>,
    expr: Option<Expression>,
    logStore: LogStore,
    state: Option<SessionState>)

  /** A fresh builder: nothing configured yet. */
  function New(logStore: LogStore, snapshot: TableState): (b: ConstraintBuilder)
    ensures b.name.None? && b.expr.None? && b.state.None?
    ensures b.snapshot == snapshot && b.logStore == logStore
  {
    ConstraintBuilder(snapshot, None, None, logStore, None)
  }

  /** Sets both the constraint name and its expression, replacing any earlier
      ones; nothing else changes. */
  function WithConstraint(b: ConstraintBuilder, column: string, expression: Expression): (r: ConstraintBuilder)
    ensures r.name == Some(column) && r.expr == Some(expression)
    ensures r.snapshot == b.snapshot && r.logStore == b.logStore && r.state == b.state
  {
    b.(name := Some(column), expr := Some(expression))
  }

  /** Sets the session state; nothing else changes. */
  function WithSessionState(b: ConstraintBuilder, state: SessionState): (r: ConstraintBuilder)
    ensures r.state == Some(state)
    ensures r.snapshot == b.snapshot && r.logStore == b.logStore
    ensures r.name == b.name && r.expr == b.expr
  {
    b.(state := Some(state))
  }

  /** The predicate's text: raw text as given, a parsed expression by its display form. */
  function ExprText(e: Expression): (s: string)
    ensures e == StringExpr(s) || e == DataFusionExpr(s)
  {
    match e
    case StringExpr(t) => t
    case DataFusionExpr(d) => d
  }

  /** The session the scan runs in: the configured one, else a default
      session bound to the table's log store. */
  function SessionFor(b: ConstraintBuilder): SessionState
  {
    match b.state
    case Some(st) => st
    case None => DefaultFor(b.logStore)
  }

  /** A session set with `WithSessionState` is the one the scan uses; any
      builder without one uses the default session for its log store. */
  lemma SessionChoice(b: ConstraintBuilder, s: SessionState)
    ensures SessionFor(WithSessionState(b, s)) == s
    ensures b.state.None? ==> SessionFor(b) == DefaultFor(b.logStore)
  {
  }

  /** Of two `WithConstraint` calls, the last one wins. */
  lemma LastConstraintWins(b: ConstraintBuilder, n1: string, e1: Expression, n2: string, e2: Expression)
    ensures WithConstraint(WithConstraint(b, n1, e1), n2, e2) == WithConstraint(b, n2, e2)
  {
  }

  /** Setting the session and setting the constraint do not interfere. */
  lemma SessionAndConstraintCommute(b: ConstraintBuilder, s: SessionState, n: string, e: Expression)
    ensures WithSessionState(WithConstraint(b, n, e), s) == WithConstraint(WithSessionState(b, s), n, e)
  {
  }
}
