/** A migration package as it is read from disk: a manifest and up to three scripts. */
module Migrations {
  import opened Collections
  import opened Canonical
  import opened DependencyOrder

  datatype Mode = Required | Forbidden

  datatype TransactionOperation =
    | Begin | Commit | Rollback
    | Savepoint | ReleaseSavepoint | RollbackToSavepoint
    | PrepareTransaction | CommitPrepared | RollbackPrepared
    | SetTransaction | SetSessionCharacteristics

  /** What the runner needs to know of one parsed statement. `NonTransactional` is any statement
      PostgreSQL refuses inside a transaction block; it discards the session when it is `DISCARD`,
      which releases every advisory lock the session holds. */
  datatype StatementKind =
    | TransactionControl(operation: TransactionOperation)
    | NonTransactional(discardsSession: bool)
    | Ordinary

  datatype ParsedScript = ParsedScript(statements: seq<StatementKind>, tree: Json)

  /** A script: its exact bytes and what the parser makes of them (`None` when it refuses them). */
  datatype Script = Script(sql: string, parsed: Option<ParsedScript>)

  datatype Reversibility = Reversible | Irreversible

  datatype Allow = Allow(rule: string, reason: string)

  datatype Manifest = Manifest(
    formatVersion: nat,
    id: Id,
    depends: seq<Id>,
    transaction: Mode,
    reversibility: Reversibility,
    irreversibleReason: Option<string>,
    allow: seq<Allow>)

  datatype Migration = Migration(
    manifest: Manifest,
    deploy: Script,
    revert: Option<Script>,
    verify: Option<Script>)
  {
    function Id(): Id { manifest.id }

    function Depends(): seq<DependencyOrder.Id> { manifest.depends }
  }

  /** The white space Rust's `trim` removes. */
  predicate IsWhitespace(c: char) {
    var n := c as int;
    9 <= n <= 13 || n == 0x20 || n == 0x85 || n == 0xA0 || n == 0x1680 || 0x2000 <= n <= 0x200A ||
    n == 0x2028 || n == 0x2029 || n == 0x202F || n == 0x205F || n == 0x3000
  }

  predicate IsBlank(s: string) {
    forall i | 0 <= i < |s| :: IsWhitespace(s[i])
  }

  // ----- Definition hashes -----

  /** The digest of a migration's definition, represented by what is hashed. `RawV1` binds the exact
      bytes of `deploy.sql`, `StructuralV1` its canonical parse tree; both bind identity, execution
      mode and the set of dependencies. SHA-256 is taken to be injective, so equal digests mean
      equal contents. */
  datatype Digest =
    | RawV1(id: Id, mode: Mode, depends: set<Id>, sql: string)
    | StructuralV1(id: Id, mode: Mode, depends: set<Id>, tree: Json)

  const RAW_V1 := "raw-v1"
  const STRUCTURAL_V1 := "structural-v1"

  predicate KnownAlgorithm(algorithm: string) {
    algorithm == RAW_V1 || algorithm == STRUCTURAL_V1
  }

  function RawDigest(m: Migration): Digest {
    RawV1(m.manifest.id, m.manifest.transaction, Elements(m.manifest.depends), m.deploy.sql)
  }

  /** Structural hashing needs a parse tree; there is no fallback when the script does not parse. */
  function StructuralDigest(m: Migration): Option<Digest> {
    match m.deploy.parsed
    case None => None
    case Some(p) =>
      Some(StructuralV1(m.manifest.id, m.manifest.transaction, Elements(m.manifest.depends), Canonicalize(p.tree)))
  }
}
