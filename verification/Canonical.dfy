/** The structural form of a parse tree: positions removed, object keys sorted. */
module Canonical {
  import opened Collections
  import opened Text

  /** A JSON value as the parser emits it. `Integer` is a number written without a fraction;
      `Real` is any other number, kept as text. */
  datatype Json =
    | Null
    | Bool(b: bool)
    | Integer(n: int)
    | Real(text: string)
    | Str(s: string)
    | Array(items: seq<Json>)
    | Object(members: seq<Entry<Json>>)

  /** Keys of one object never repeat; a JSON map guarantees it. */
  predicate WellFormed(v: Json) {
    match v
    case Array(items) => forall x | x in items :: WellFormed(x)
    case Object(members) => DistinctKeys(members) && forall e | e in members :: WellFormed(e.value)
    case _ => true
  }

  /** A number that fits in a signed 64-bit integer. */
  predicate IsI64(v: Json) {
    v.Integer? && -0x8000_0000_0000_0000 <= v.n < 0x8000_0000_0000_0000
  }

  const POSITION_KEYS: set<string> := {
    "location", "name_location", "stmt_location", "stmt_len",
    "list_start", "list_end", "rexpr_list_start", "rexpr_list_end"
  }

  predicate IsPosition(key: string, value: Json) {
    IsI64(value) && key in POSITION_KEYS
  }

  function StripPositions(v: Json): Json {
    match v
    case Array(items) => Array(StripItems(items))
    case Object(members) => Object(StripMembers(members))
    case _ => v
  }

  function StripItems(items: seq<Json>): seq<Json> {
    if items == [] then [] else [StripPositions(items[0])] + StripItems(items[1..])
  }

  function StripMembers(members: seq<Entry<Json>>): seq<Entry<Json>> {
    if members == [] then
      []
    else if IsPosition(members[0].key, members[0].value) then
      StripMembers(members[1..])
    else
      [Entry(members[0].key, StripPositions(members[0].value))] + StripMembers(members[1..])
  }

  function SortAllObjects(v: Json): Json {
    match v
    case Array(items) => Array(SortItems(items))
    case Object(members) => Object(SortByKey(SortMembers(members)))
    case _ => v
  }

  function SortItems(items: seq<Json>): seq<Json> {
    if items == [] then [] else [SortAllObjects(items[0])] + SortItems(items[1..])
  }

  function SortMembers(members: seq<Entry<Json>>): seq<Entry<Json>> {
    if members == [] then
      []
    else
      [Entry(members[0].key, SortAllObjects(members[0].value))] + SortMembers(members[1..])
  }

  function Canonicalize(statements: Json): Json {
    SortAllObjects(StripPositions(statements))
  }

  // ----- What canonical equality means -----

  predicate Has(members: seq<Entry<Json>>, key: string) {
    exists e :: e in members && e.key == key && !IsPosition(key, e.value)
  }

  /** Equal up to the order of object keys and the presence of positions; the order of arrays and
      every other value count. */
  ghost predicate Same(a: Json, b: Json)
    decreases a
  {
    match a
    case Array(items) =>
      b.Array? && |items| == |b.items| && forall i | 0 <= i < |items| :: Same(items[i], b.items[i])
    case Object(members) =>
      && b.Object?
      && (forall e | e in members && !IsPosition(e.key, e.value) ::
            exists f :: f in b.members && !IsPosition(f.key, f.value) && e.key == f.key && Same(e.value, f.value))
      && (forall f | f in b.members && !IsPosition(f.key, f.value) :: Has(members, f.key))
    case _ => a == b
  }

  function CanonicalMembers(members: seq<Entry<Json>>): seq<Entry<Json>> {
    SortMembers(StripMembers(members))
  }

  lemma {:induction false} CanonicalItems(items: seq<Json>)
    ensures var r := SortItems(StripItems(items));
      |r| == |items| && forall i | 0 <= i < |items| :: r[i] == Canonicalize(items[i])
  {
    if items != [] {
      CanonicalItems(items[1..]);
      assert ([StripPositions(items[0])] + StripItems(items[1..]))[1..] == StripItems(items[1..]);
    }
  }

  /** What is left of an object: every member that is not a position, canonicalized. */
  lemma {:induction false} CanonicalMembersIn(members: seq<Entry<Json>>, x: Entry<Json>)
    ensures x in CanonicalMembers(members) <==>
            exists e :: e in members && !IsPosition(e.key, e.value) && x == Entry(e.key, Canonicalize(e.value))
  {
    if members != [] {
      var e, rest := members[0], members[1..];
      CanonicalMembersIn(rest, x);
      assert forall f :: f in members <==> f == e || f in rest;
      if !IsPosition(e.key, e.value) {
        assert ([Entry(e.key, StripPositions(e.value))] + StripMembers(rest))[1..] == StripMembers(rest);
        assert CanonicalMembers(members) == [Entry(e.key, Canonicalize(e.value))] + CanonicalMembers(rest);
      }
    }
  }

  lemma {:induction false} CanonicalMembersDistinct(members: seq<Entry<Json>>)
    requires DistinctKeys(members)
    ensures DistinctKeys(CanonicalMembers(members))
  {
    if members != [] {
      var e, rest := members[0], members[1..];
      assert DistinctKeys(rest) by {
        assert forall i | 0 <= i < |rest| :: rest[i] == members[i + 1];
      }
      CanonicalMembersDistinct(rest);
      if !IsPosition(e.key, e.value) {
        assert ([Entry(e.key, StripPositions(e.value))] + StripMembers(rest))[1..] == StripMembers(rest);
        assert CanonicalMembers(members) == [Entry(e.key, Canonicalize(e.value))] + CanonicalMembers(rest);
        forall x | x in CanonicalMembers(rest) ensures x.key != e.key {
          CanonicalMembersIn(rest, x);
          var f :| f in rest && f.key == x.key;
          var k :| 1 <= k < |members| && members[k] == f;
        }
      }
    }
  }

  /** The induction hypothesis for objects: what is to be shown already holds of their members. */
  ghost predicate MembersAgree(a: seq<Entry<Json>>, b: seq<Entry<Json>>) {
    forall e, f | e in a && f in b :: Canonicalize(e.value) == Canonicalize(f.value) <==> Same(e.value, f.value)
  }

  ghost predicate SameMembers(a: seq<Entry<Json>>, b: seq<Entry<Json>>) {
    forall x :: x in CanonicalMembers(a) <==> x in CanonicalMembers(b)
  }

  lemma SameFromMembers(a: seq<Entry<Json>>, b: seq<Entry<Json>>)
    requires MembersAgree(a, b) && SameMembers(a, b)
    ensures Same(Object(a), Object(b))
  {
    forall e | e in a && !IsPosition(e.key, e.value)
      ensures exists f :: f in b && !IsPosition(f.key, f.value) && e.key == f.key && Same(e.value, f.value)
    {
      var x := Entry(e.key, Canonicalize(e.value));
      CanonicalMembersIn(a, x);
      CanonicalMembersIn(b, x);
    }
    forall f | f in b && !IsPosition(f.key, f.value) ensures Has(a, f.key) {
      var x := Entry(f.key, Canonicalize(f.value));
      CanonicalMembersIn(a, x);
      CanonicalMembersIn(b, x);
    }
  }

  lemma MembersFromSame(a: seq<Entry<Json>>, b: seq<Entry<Json>>)
    requires MembersAgree(a, b) && Same(Object(a), Object(b)) && DistinctKeys(b)
    ensures SameMembers(a, b)
  {
    forall x ensures x in CanonicalMembers(a) <==> x in CanonicalMembers(b) {
      CanonicalMembersIn(a, x);
      CanonicalMembersIn(b, x);
      if x in CanonicalMembers(b) {
        var f :| f in b && !IsPosition(f.key, f.value) && x == Entry(f.key, Canonicalize(f.value));
        assert Has(a, f.key);
        var e :| e in a && e.key == f.key && !IsPosition(f.key, e.value);
        var g :| g in b && !IsPosition(g.key, g.value) && e.key == g.key && Same(e.value, g.value);
        assert g == f;
      }
    }
  }

  /** Two trees have one canonical form exactly when they are the same up to key order and
      positions. */
  lemma {:induction false} CanonicalExactly(a: Json, b: Json)
    requires WellFormed(a) && WellFormed(b)
    ensures Canonicalize(a) == Canonicalize(b) <==> Same(a, b)
    decreases a
  {
    match a
    case Array(items) =>
      if b.Array? {
        CanonicalItems(items);
        CanonicalItems(b.items);
        forall i | 0 <= i < |items| && i < |b.items|
          ensures Canonicalize(items[i]) == Canonicalize(b.items[i]) <==> Same(items[i], b.items[i])
        {
          CanonicalExactly(items[i], b.items[i]);
        }
      }
    case Object(members) =>
      if b.Object? {
        CanonicalObjects(members, b.members);
      }
    case _ =>
  }

  lemma {:induction false} CanonicalObjects(a: seq<Entry<Json>>, b: seq<Entry<Json>>)
    requires WellFormed(Object(a)) && WellFormed(Object(b))
    ensures Canonicalize(Object(a)) == Canonicalize(Object(b)) <==> Same(Object(a), Object(b))
    decreases a
  {
    var ca, cb := CanonicalMembers(a), CanonicalMembers(b);
    CanonicalMembersDistinct(a);
    CanonicalMembersDistinct(b);
    SortByKeySorts(ca);
    SortByKeySorts(cb);
    assert MembersAgree(a, b) by {
      forall e, f | e in a && f in b
        ensures Canonicalize(e.value) == Canonicalize(f.value) <==> Same(e.value, f.value)
      {
        CanonicalExactly(e.value, f.value);
      }
    }
    if SortByKey(ca) == SortByKey(cb) {
      SameFromMembers(a, b);
    } else if Same(Object(a), Object(b)) {
      MembersFromSame(a, b);
      SortedUnique(SortByKey(ca), SortByKey(cb));
    }
  }

  /** What is dropped from an object: an integer of 64 bits under one of eight names, and nothing else. A
      position kept as text stays, and so does a number too large to be one. */
  lemma PositionsAreDropped(key: string, v: Json)
    ensures Canonicalize(Object([Entry(key, v)])) == Object([]) <==>
      && v.Integer? && -9223372036854775808 <= v.n <= 9223372036854775807
      && (key == "location" || key == "name_location" || key == "stmt_location" || key == "stmt_len"
          || key == "list_start" || key == "list_end" || key == "rexpr_list_start" || key == "rexpr_list_end")
  {
    var members := [Entry(key, v)];
    assert members[1..] == [] && members[0] in members;
    CanonicalMembersDistinct(members);
    SortByKeySorts(CanonicalMembers(members));
    assert Canonicalize(Object(members)) == Object(SortByKey(CanonicalMembers(members)));
    if IsPosition(key, v) {
      assert CanonicalMembers(members) == [];
    } else {
      var stripped := [Entry(key, StripPositions(v))];
      assert StripMembers(members) == stripped;
      assert stripped[1..] == [] && SortMembers(stripped) == [Entry(key, Canonicalize(v))];
      assert CanonicalMembers(members)[0] in SortByKey(CanonicalMembers(members));
    }
  }

  // ----- The canonical form itself -----

  /** No position anywhere, and every object's keys in order. */
  predicate IsCanonical(v: Json) {
    match v
    case Array(items) => forall x | x in items :: IsCanonical(x)
    case Object(members) =>
      SortedByKey(members) && forall e | e in members :: !IsPosition(e.key, e.value) && IsCanonical(e.value)
    case _ => true
  }

  lemma {:induction false} CanonicalizeIsCanonical(v: Json)
    requires WellFormed(v)
    ensures IsCanonical(Canonicalize(v))
    decreases v
  {
    match v
    case Array(items) =>
      CanonicalItems(items);
      forall i | 0 <= i < |items| ensures IsCanonical(Canonicalize(items[i])) {
        CanonicalizeIsCanonical(items[i]);
      }
    case Object(members) =>
      CanonicalMembersDistinct(members);
      SortByKeySorts(CanonicalMembers(members));
      forall x | x in CanonicalMembers(members) ensures !IsPosition(x.key, x.value) && IsCanonical(x.value) {
        CanonicalMembersIn(members, x);
        var e :| e in members && !IsPosition(e.key, e.value) && x == Entry(e.key, Canonicalize(e.value));
        CanonicalizeIsCanonical(e.value);
      }
    case _ =>
  }

  lemma {:induction false} CanonicalIsFixed(v: Json)
    requires IsCanonical(v)
    ensures Canonicalize(v) == v
    decreases v
  {
    match v
    case Array(items) =>
      CanonicalItems(items);
      forall i | 0 <= i < |items| ensures Canonicalize(items[i]) == items[i] {
        CanonicalIsFixed(items[i]);
      }
    case Object(members) =>
      CanonicalMembersFixed(members);
      SortOfSorted(members);
    case _ =>
  }

  lemma {:induction false} CanonicalMembersFixed(members: seq<Entry<Json>>)
    requires forall e | e in members :: !IsPosition(e.key, e.value) && IsCanonical(e.value)
    ensures CanonicalMembers(members) == members
    decreases members
  {
    if members != [] {
      var e, rest := members[0], members[1..];
      CanonicalIsFixed(e.value);
      CanonicalMembersFixed(rest);
      assert ([Entry(e.key, StripPositions(e.value))] + StripMembers(rest))[1..] == StripMembers(rest);
      assert members == [e] + rest;
    }
  }

  /** Canonicalizing again changes nothing. */
  lemma CanonicalizeTwice(v: Json)
    requires WellFormed(v)
    ensures Canonicalize(Canonicalize(v)) == Canonicalize(v)
  {
    CanonicalizeIsCanonical(v);
    CanonicalIsFixed(Canonicalize(v));
  }
}
