/** The schema-evolution planner: the configuration key a constraint is
    registered under, the metadata with the constraint registered, and the
    protocol raised to the versions that understand check constraints. */
module Planner {
  import opened Kernel

  const ConstraintPrefix: string := "delta.constraints."

  /** The minimum reader and writer versions that support check constraints. */
  const ConstraintReaderVersion: int := 1
  const ConstraintWriterVersion: int := 3

  /** The configuration key under which constraint `name` is stored. */
  function ConstraintKey(name: string): (key: string)
    ensures |key| == |ConstraintPrefix| + |name|
    ensures key[..|ConstraintPrefix|] == ConstraintPrefix && key[|ConstraintPrefix|..] == name
  {
    ConstraintPrefix + name
  }

  /** Distinct constraint names are stored under distinct keys. */
  lemma ConstraintKeyInjective(a: string, b: string)
    ensures ConstraintKey(a) == ConstraintKey(b) ==> a == b
  {
  }

  /** The metadata with constraint `name` registered as `expr`: the key now
      maps to the expression, every other entry and every other field is
      kept as it was. */
  function InsertConstraint(md: Metadata, name: string, expr: string): (r: Metadata)
    ensures ConstraintKey(name) in r.configuration
    ensures r.configuration[ConstraintKey(name)] == Some(expr)
    ensures r.configuration.Keys == md.configuration.Keys + {ConstraintKey(name)}
    ensures forall k :: k in md.configuration && k != ConstraintKey(name) ==>
                          r.configuration[k] == md.configuration[k]
    ensures r.(configuration := md.configuration) == md
  {
    md.(configuration := md.configuration[ConstraintKey(name) := Some(expr)])
  }

  /** Registering a name that was not yet registered adds exactly one entry. */
  lemma InsertConstraintGrows(md: Metadata, name: string, expr: string)
    requires ConstraintKey(name) !in md.configuration
    ensures |InsertConstraint(md, name, expr).configuration| == |md.configuration| + 1
  {
  }

  /** The protocol with its minimum versions raised to those that support
      check constraints and its feature sets carried over. */
  function BumpProtocol(p: Protocol): (r: Protocol)
    ensures r.minReaderVersion >= p.minReaderVersion && r.minReaderVersion >= ConstraintReaderVersion
    ensures r.minReaderVersion == p.minReaderVersion || r.minReaderVersion == ConstraintReaderVersion
    ensures r.minWriterVersion >= p.minWriterVersion && r.minWriterVersion >= ConstraintWriterVersion
    ensures r.minWriterVersion == p.minWriterVersion || r.minWriterVersion == ConstraintWriterVersion
    ensures r.readerFeatures == p.readerFeatures && r.writerFeatures == p.writerFeatures
  {
    Protocol(
      if p.minReaderVersion > ConstraintReaderVersion then p.minReaderVersion else ConstraintReaderVersion,
      if p.minWriterVersion > ConstraintWriterVersion then p.minWriterVersion else ConstraintWriterVersion,
      p.readerFeatures,
      p.writerFeatures)
  }

  /** `p` asks no more of clients than `q` does. */
  predicate ProtocolAtMost(p: Protocol, q: Protocol) {
    p.minReaderVersion <= q.minReaderVersion && p.minWriterVersion <= q.minWriterVersion
  }

  /** Bumping never lowers a version, is monotone, and is idempotent: a
      table that already supports constraints keeps its protocol. */
  lemma BumpProtocolProperties(p: Protocol, q: Protocol)
    ensures ProtocolAtMost(p, BumpProtocol(p))
    ensures ProtocolAtMost(p, q) ==> ProtocolAtMost(BumpProtocol(p), BumpProtocol(q))
    ensures BumpProtocol(BumpProtocol(p)) == BumpProtocol(p)
    ensures p.minReaderVersion >= ConstraintReaderVersion && p.minWriterVersion >= ConstraintWriterVersion
            <==> BumpProtocol(p) == p
  {
  }
}
