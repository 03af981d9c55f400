/** Manifest validation and the canonical text that definition hashes bind. */
module Manifests {
  import opened Collections
  import opened Text
  import opened DependencyOrder
  import opened Migrations

  const MANIFEST_FORMAT_VERSION: nat := 1

  datatype ManifestError =
    | UnsupportedFormatVersion(found: nat)
    | NotVersion7(id: Id)
    | SelfDependency(id: Id)
    | DuplicateDependency(id: Id)
    | ReasonMissing
    | ReasonUnexpected
    | SuppressionWithoutReason(rule: string)

  // ----- Validation -----

  /** The version nibble of a 128-bit UUID. */
  function VersionOf(id: Id): nat {
    id / 0x1000_0000_0000_0000_0000 % 16
  }

  predicate HasReason(m: Manifest) {
    m.irreversibleReason.Some? && !IsBlank(m.irreversibleReason.value)
  }

  predicate IsValid(m: Manifest) {
    && m.formatVersion == MANIFEST_FORMAT_VERSION
    && VersionOf(m.id) == 7
    && m.id !in m.depends
    && Distinct(m.depends)
    && (m.reversibility == Irreversible <==> HasReason(m))
    && (forall a | a in m.allow :: !IsBlank(a.reason))
  }

  /** Checks the invariants a parsed manifest has to meet and names the first that fails. A
      repeated dependency is reported at its second occurrence. */
  method Validate(m: Manifest) returns (r: Result<(), ManifestError>)
    ensures r.Ok? <==> IsValid(m)
    ensures r.Err? && r.error.DuplicateDependency? ==>
      exists i :: 0 <= i < |m.depends| && m.depends[i] == r.error.id && Distinct(m.depends[..i]) && m.depends[i] in m.depends[..i]
    ensures r.Err? && r.error.SuppressionWithoutReason? ==>
      exists i :: 0 <= i < |m.allow| && m.allow[i].rule == r.error.rule && IsBlank(m.allow[i].reason)
              && forall a | a in m.allow[..i] :: !IsBlank(a.reason)
    ensures r == Err(UnsupportedFormatVersion(m.formatVersion)) <==> m.formatVersion != MANIFEST_FORMAT_VERSION
    ensures r.Err? && r.error.NotVersion7? ==> r.error.id == m.id && VersionOf(m.id) != 7
    ensures r.Err? && r.error.SelfDependency? ==> r.error.id == m.id && m.id in m.depends
    ensures r == Err(ReasonMissing) ==> m.reversibility == Irreversible && !HasReason(m)
    ensures r == Err(ReasonUnexpected) ==> m.reversibility == Reversible && HasReason(m)
  {
    if m.formatVersion != MANIFEST_FORMAT_VERSION {
      return Err(UnsupportedFormatVersion(m.formatVersion));
    }
    if VersionOf(m.id) != 7 {
      return Err(NotVersion7(m.id));
    }
    if m.id in m.depends {
      return Err(SelfDependency(m.id));
    }
    var seen: set<Id> := {};
    for i := 0 to |m.depends|
      invariant seen == Elements(m.depends[..i])
      invariant Distinct(m.depends[..i])
    {
      if m.depends[i] in seen {
        assert m.depends[i] in m.depends[..i];
        return Err(DuplicateDependency(m.depends[i]));
      }
      assert m.depends[..i + 1] == m.depends[..i] + [m.depends[i]];
      seen := seen + {m.depends[i]};
    }
    assert m.depends[..|m.depends|] == m.depends;
    if m.reversibility == Irreversible && !HasReason(m) {
      return Err(ReasonMissing);
    }
    if m.reversibility == Reversible && HasReason(m) {
      return Err(ReasonUnexpected);
    }
    for i := 0 to |m.allow|
      invariant forall a | a in m.allow[..i] :: !IsBlank(a.reason)
    {
      if IsBlank(m.allow[i].reason) {
        return Err(SuppressionWithoutReason(m.allow[i].rule));
      }
      assert m.allow[..i + 1] == m.allow[..i] + [m.allow[i]];
    }
    assert m.allow[..|m.allow|] == m.allow;
    return Ok(());
  }

  // ----- Ids as text -----

  predicate IsUuid(id: Id) {
    id < 0x1_0000_0000_0000_0000_0000_0000_0000_0000
  }

  function HexDigit(n: nat): char
    requires n < 16
  {
    "0123456789abcdef"[n]
  }

  /** `n` in lowercase hexadecimal, padded or cut to `width` digits. */
  function Hex(n: nat, width: nat): (s: string)
    ensures |s| == width
  {
    if width == 0 then "" else Hex(n / 16, width - 1) + [HexDigit(n % 16)]
  }

  /** The hyphenated form: groups of 8, 4, 4, 4 and 12 digits. */
  function UuidText(id: Id): (s: string)
    ensures |s| == 36
  {
    var h := Hex(id, 32);
    h[..8] + "-" + h[8..12] + "-" + h[12..16] + "-" + h[16..20] + "-" + h[20..]
  }

  function Pow16(k: nat): nat {
    if k == 0 then 1 else 16 * Pow16(k - 1)
  }

  lemma {:induction false} HexInjective(a: nat, b: nat, width: nat)
    requires a < Pow16(width) && b < Pow16(width) && Hex(a, width) == Hex(b, width)
    ensures a == b
  {
    if width > 0 {
      SameEnds(Hex(a / 16, width - 1), HexDigit(a % 16), Hex(b / 16, width - 1), HexDigit(b % 16));
      HexInjective(a / 16, b / 16, width - 1);
    }
  }

  lemma SameEnds(p: string, c: char, q: string, e: char)
    requires p + [c] == q + [e]
    ensures p == q && c == e
  {
    assert (p + [c])[..|p|] == p && (q + [e])[..|q|] == q;
    assert (p + [c])[|p|] == c && (q + [e])[|q|] == e;
  }

  lemma UuidTextInjective(a: Id, b: Id)
    requires IsUuid(a) && IsUuid(b) && UuidText(a) == UuidText(b)
    ensures a == b
  {
    var s, t, g, h := UuidText(a), UuidText(b), Hex(a, 32), Hex(b, 32);
    assert s[..8] == g[..8] && s[9..13] == g[8..12] && s[14..18] == g[12..16] && s[19..23] == g[16..20] && s[24..] == g[20..];
    assert t[..8] == h[..8] && t[9..13] == h[8..12] && t[14..18] == h[12..16] && t[19..23] == h[16..20] && t[24..] == h[20..];
    assert g == g[..8] + g[8..12] + g[12..16] + g[16..20] + g[20..];
    assert h == h[..8] + h[8..12] + h[12..16] + h[16..20] + h[20..];
    Pow16Of32();
    HexInjective(a, b, 32);
  }

  lemma Pow16Of32()
    ensures Pow16(32) == 0x1_0000_0000_0000_0000_0000_0000_0000_0000
  {
    assert Pow16(8) == 0x1_0000_0000;
    assert Pow16(16) == 0x1_0000_0000_0000_0000;
    assert Pow16(24) == 0x1_0000_0000_0000_0000_0000_0000;
  }

  // ----- The canonical text -----

  function ModeText(mode: Mode): string {
    match mode
    case Required => "required"
    case Forbidden => "forbidden"
  }

  function DependEntries(depends: seq<Id>): seq<Entry<Id>> {
    seq(|depends|, i requires 0 <= i < |depends| => Entry(UuidText(depends[i]), depends[i]))
  }

  /** The dependency ids as text, sorted: how the list was written does not matter. */
  function CanonicalDepends(m: Manifest): seq<string> {
    var sorted := SortByKey(DependEntries(m.depends));
    seq(|sorted|, i requires 0 <= i < |sorted| => sorted[i].key)
  }

  function Join(parts: seq<string>): string {
    if parts == [] then "" else if |parts| == 1 then parts[0] else parts[0] + ("," + Join(parts[1..]))
  }

  /** The lines every definition text shares, followed by `tail`. */
  function Envelope(m: Manifest, tail: string): string {
    "\nid=" + (UuidText(m.id) +
      ("\ntransaction=" + (ModeText(m.transaction) +
        ("\ndepends=" + (Join(CanonicalDepends(m)) + ("\n" + tail))))))
  }

  const CANONICAL_HEADER := "zapadka.migration.v1"
  const STRUCTURAL_HEADER := "zapadka.migration.v2\nalgorithm=structural-v1"

  function CanonicalForm(m: Manifest): string {
    CANONICAL_HEADER + Envelope(m, "")
  }

  /** What `raw-v1` hashes, given the hex digest of the script's bytes. */
  function RawText(m: Manifest, deploySha: string): string {
    CanonicalForm(m) + "deploy_sha256=" + deploySha + "\n"
  }

  /** What `structural-v1` hashes, given the hex digest of the canonical tree. */
  function StructuralText(m: Manifest, structureSha: string): string {
    STRUCTURAL_HEADER + Envelope(m, "deploy_structure_sha256=" + structureSha + "\n")
  }

  /** What a manifest that was read and validated is known to hold. */
  predicate HasUuids(m: Manifest) {
    IsUuid(m.id) && Distinct(m.depends) && forall x | x in m.depends :: IsUuid(x)
  }

  predicate SameExecution(a: Manifest, b: Manifest) {
    a.id == b.id && a.transaction == b.transaction && Elements(a.depends) == Elements(b.depends)
  }

  lemma Cut(a: string, x: string, b: string, y: string)
    requires |a| == |b| && a + x == b + y
    ensures a == b && x == y
  {
    assert (a + x)[..|a|] == a && (b + y)[..|b|] == b;
    assert (a + x)[|a|..] == x && (b + y)[|b|..] == y;
  }

  lemma {:induction false} JoinLength(parts: seq<string>)
    requires forall s | s in parts :: |s| == 36
    ensures |Join(parts)| == if parts == [] then 0 else 37 * |parts| - 1
  {
    if |parts| > 1 {
      JoinLength(parts[1..]);
    }
  }

  lemma {:induction false} JoinInjective(a: seq<string>, b: seq<string>)
    requires (forall s | s in a :: |s| == 36) && (forall s | s in b :: |s| == 36)
    requires Join(a) == Join(b)
    ensures a == b
  {
    JoinLength(a);
    JoinLength(b);
    assert |a| == |b|;
    if |a| > 1 {
      Cut(a[0], "," + Join(a[1..]), b[0], "," + Join(b[1..]));
      Cut(",", Join(a[1..]), ",", Join(b[1..]));
      JoinInjective(a[1..], b[1..]);
      assert a == [a[0]] + a[1..] && b == [b[0]] + b[1..];
    }
  }

  lemma SortedEntries(m: Manifest)
    requires HasUuids(m)
    ensures SortedByKey(SortByKey(DependEntries(m.depends)))
    ensures forall e :: e in SortByKey(DependEntries(m.depends)) <==> e.value in m.depends && e.key == UuidText(e.value)
    ensures forall s | s in CanonicalDepends(m) :: |s| == 36
  {
    var entries := DependEntries(m.depends);
    forall i, j | 0 <= i < j < |entries| ensures entries[i].key != entries[j].key {
      if entries[i].key == entries[j].key {
        UuidTextInjective(m.depends[i], m.depends[j]);
      }
    }
    SortByKeySorts(entries);
    forall e ensures e in entries <==> e.value in m.depends && e.key == UuidText(e.value) {
      if e.value in m.depends && e.key == UuidText(e.value) {
        var i :| 0 <= i < |m.depends| && m.depends[i] == e.value;
        assert entries[i] == e;
      }
    }
    var sorted := SortByKey(entries);
    forall i | 0 <= i < |sorted| ensures |CanonicalDepends(m)[i]| == 36 {
      assert sorted[i] in sorted;
    }
  }

  /** The sorted dependency texts agree exactly when the dependency sets do. */
  lemma CanonicalDependsExactly(a: Manifest, b: Manifest)
    requires HasUuids(a) && HasUuids(b)
    ensures CanonicalDepends(a) == CanonicalDepends(b) <==> Elements(a.depends) == Elements(b.depends)
  {
    SortedEntries(a);
    SortedEntries(b);
    var sa, sb := SortByKey(DependEntries(a.depends)), SortByKey(DependEntries(b.depends));
    if Elements(a.depends) == Elements(b.depends) {
      assert forall x :: x in a.depends <==> x in b.depends by {
        assert forall x :: x in a.depends <==> x in Elements(a.depends);
      }
      SortedUnique(sa, sb);
    } else if CanonicalDepends(a) == CanonicalDepends(b) {
      DependsFromTexts(a, b);
      DependsFromTexts(b, a);
    }
  }

  lemma DependsFromTexts(a: Manifest, b: Manifest)
    requires HasUuids(a) && HasUuids(b) && CanonicalDepends(a) == CanonicalDepends(b)
    ensures Elements(a.depends) <= Elements(b.depends)
  {
    SortedEntries(a);
    SortedEntries(b);
    var sa, sb := SortByKey(DependEntries(a.depends)), SortByKey(DependEntries(b.depends));
    forall x | x in a.depends ensures x in b.depends {
      assert Entry(UuidText(x), x) in sa;
      var i :| 0 <= i < |sa| && sa[i] == Entry(UuidText(x), x);
      assert CanonicalDepends(a)[i] == CanonicalDepends(b)[i];
      assert sb[i] in sb;
      UuidTextInjective(x, sb[i].value);
    }
  }

  lemma EnvelopeExactly(a: Manifest, ta: string, b: Manifest, tb: string)
    requires HasUuids(a) && HasUuids(b) && |ta| == |tb|
    ensures Envelope(a, ta) == Envelope(b, tb) <==> SameExecution(a, b) && ta == tb
  {
    CanonicalDependsExactly(a, b);
    if Envelope(a, ta) == Envelope(b, tb) {
      EnvelopeParts(a, ta, b, tb);
      UuidTextInjective(a.id, b.id);
    }
  }

  lemma EnvelopeParts(a: Manifest, ta: string, b: Manifest, tb: string)
    requires HasUuids(a) && HasUuids(b) && |ta| == |tb| && Envelope(a, ta) == Envelope(b, tb)
    ensures UuidText(a.id) == UuidText(b.id) && a.transaction == b.transaction && ta == tb
    ensures CanonicalDepends(a) == CanonicalDepends(b)
  {
    var (ja, jb) := (Join(CanonicalDepends(a)), Join(CanonicalDepends(b)));
    var (da, db) := ("\ndepends=" + (ja + ("\n" + ta)), "\ndepends=" + (jb + ("\n" + tb)));
    var (ma, mb) := (ModeText(a.transaction), ModeText(b.transaction));
    var (xa, xb) := ("\ntransaction=" + (ma + da), "\ntransaction=" + (mb + db));
    Cut("\nid=", UuidText(a.id) + xa, "\nid=", UuidText(b.id) + xb);
    Cut(UuidText(a.id), xa, UuidText(b.id), xb);
    Cut("\ntransaction=", ma + da, "\ntransaction=", mb + db);
    assert (ma + da)[0] == ma[0] && (mb + db)[0] == mb[0];
    Cut(ma, da, mb, db);
    Cut("\ndepends=", ja + ("\n" + ta), "\ndepends=", jb + ("\n" + tb));
    Cut(ja, "\n" + ta, jb, "\n" + tb);
    Cut("\n", ta, "\n", tb);
    SortedEntries(a);
    SortedEntries(b);
    JoinInjective(CanonicalDepends(a), CanonicalDepends(b));
  }

  /** Two manifests have the same canonical text exactly when they agree on identity, execution mode
      and the set of dependencies. */
  lemma CanonicalFormExactly(a: Manifest, b: Manifest)
    requires HasUuids(a) && HasUuids(b)
    ensures CanonicalForm(a) == CanonicalForm(b) <==> SameExecution(a, b)
  {
    EnvelopeExactly(a, "", b, "");
    if CanonicalForm(a) == CanonicalForm(b) {
      Cut(CANONICAL_HEADER, Envelope(a, ""), CANONICAL_HEADER, Envelope(b, ""));
    }
  }

  /** The text behind a hash determines everything the hash is meant to bind, and the two
      algorithms never hash the same text. */
  lemma DefinitionTextsExactly(a: Manifest, sa: string, b: Manifest, sb: string)
    requires HasUuids(a) && HasUuids(b) && |sa| == 64 && |sb| == 64
    ensures RawText(a, sa) == RawText(b, sb) <==> SameExecution(a, b) && sa == sb
    ensures StructuralText(a, sa) == StructuralText(b, sb) <==> SameExecution(a, b) && sa == sb
    ensures RawText(a, sa) != StructuralText(b, sb)
  {
    hide CanonicalForm, SameExecution, HasUuids, RawText, StructuralText;
    RawTextExactly(a, sa, b, sb);
    StructuralTextExactly(a, sa, b, sb);
    VersionsDiffer(a, sa, b, sb);
  }

  lemma VersionsDiffer(a: Manifest, sa: string, b: Manifest, sb: string)
    ensures RawText(a, sa) != StructuralText(b, sb)
  {
    hide CanonicalDepends, Join, UuidText;
    assert RawText(a, sa)[19] == '1' && StructuralText(b, sb)[19] == '2';
  }

  lemma RawTextExactly(a: Manifest, sa: string, b: Manifest, sb: string)
    requires HasUuids(a) && HasUuids(b) && |sa| == |sb|
    ensures RawText(a, sa) == RawText(b, sb) <==> SameExecution(a, b) && sa == sb
  {
    CanonicalFormExactly(a, b);
    if RawText(a, sa) == RawText(b, sb) {
      assert RawText(a, sa) == CanonicalForm(a) + ("deploy_sha256=" + (sa + "\n"));
      assert RawText(b, sb) == CanonicalForm(b) + ("deploy_sha256=" + (sb + "\n"));
      Cut(CanonicalForm(a), "deploy_sha256=" + (sa + "\n"), CanonicalForm(b), "deploy_sha256=" + (sb + "\n"));
      Cut("deploy_sha256=", sa + "\n", "deploy_sha256=", sb + "\n");
      Cut(sa, "\n", sb, "\n");
    }
  }

  lemma StructuralTextExactly(a: Manifest, sa: string, b: Manifest, sb: string)
    requires HasUuids(a) && HasUuids(b) && |sa| == |sb|
    ensures StructuralText(a, sa) == StructuralText(b, sb) <==> SameExecution(a, b) && sa == sb
  {
    var ta, tb := "deploy_structure_sha256=" + sa + "\n", "deploy_structure_sha256=" + sb + "\n";
    EnvelopeExactly(a, ta, b, tb);
    if StructuralText(a, sa) == StructuralText(b, sb) {
      Cut(STRUCTURAL_HEADER, Envelope(a, ta), STRUCTURAL_HEADER, Envelope(b, tb));
      assert ta == "deploy_structure_sha256=" + (sa + "\n") && tb == "deploy_structure_sha256=" + (sb + "\n");
      Cut("deploy_structure_sha256=", sa + "\n", "deploy_structure_sha256=", sb + "\n");
      Cut(sa, "\n", sb, "\n");
    }
  }
}
