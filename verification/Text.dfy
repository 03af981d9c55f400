/** Lexicographic order on text and sorting by it. */
module Text {
  import opened Collections

  predicate TextLeq(a: string, b: string) {
    a == [] || (b != [] && (a[0] < b[0] || (a[0] == b[0] && TextLeq(a[1..], b[1..]))))
  }

  lemma TextLeqTotal(a: string, b: string)
    ensures TextLeq(a, b) || TextLeq(b, a)
  {
  }

  lemma TextLeqAntisymmetric(a: string, b: string)
    requires TextLeq(a, b) && TextLeq(b, a)
    ensures a == b
  {
    if a != [] {
      TextLeqAntisymmetric(a[1..], b[1..]);
      assert a == [a[0]] + a[1..] && b == [b[0]] + b[1..];
    }
  }

  lemma TextLeqTransitive(a: string, b: string, c: string)
    requires TextLeq(a, b) && TextLeq(b, c)
    ensures TextLeq(a, c)
  {
  }

  /** Something to sort, under the text to sort it by. */
  datatype Entry<+T> = Entry(key: string, value: T)

  predicate KeyLess<T>(a: Entry<T>, b: Entry<T>) {
    a.key != b.key && TextLeq(a.key, b.key)
  }

  predicate SortedByKey<T>(s: seq<Entry<T>>) {
    forall i, j :: 0 <= i < j < |s| ==> KeyLess(s[i], s[j])
  }

  predicate DistinctKeys<T>(s: seq<Entry<T>>) {
    forall i, j :: 0 <= i < j < |s| ==> s[i].key != s[j].key
  }

  function InsertByKey<T>(e: Entry<T>, s: seq<Entry<T>>): seq<Entry<T>> {
    if s == [] || TextLeq(e.key, s[0].key) then [e] + s else [s[0]] + InsertByKey(e, s[1..])
  }

  function SortByKey<T>(s: seq<Entry<T>>): seq<Entry<T>> {
    if s == [] then [] else InsertByKey(s[0], SortByKey(s[1..]))
  }

  lemma InsertKeeps<T(!new)>(e: Entry<T>, s: seq<Entry<T>>)
    ensures forall x :: x in InsertByKey(e, s) <==> x == e || x in s
  {
  }

  lemma {:induction false} InsertSorts<T(!new)>(e: Entry<T>, s: seq<Entry<T>>)
    requires SortedByKey(s) && forall x | x in s :: x.key != e.key
    ensures SortedByKey(InsertByKey(e, s))
  {
    if s == [] {
    } else if TextLeq(e.key, s[0].key) {
      forall i | 0 <= i < |s| ensures KeyLess(e, s[i]) {
        if i > 0 {
          assert KeyLess(s[0], s[i]);
          TextLeqTransitive(e.key, s[0].key, s[i].key);
        }
      }
    } else {
      TextLeqTotal(e.key, s[0].key);
      InsertSorts(e, s[1..]);
      InsertKeeps(e, s[1..]);
      var rest := InsertByKey(e, s[1..]);
      forall j | 0 <= j < |rest| ensures KeyLess(s[0], rest[j]) {
        assert rest[j] in rest;
        if rest[j] != e {
          var k :| 1 <= k < |s| && s[k] == rest[j];
          assert KeyLess(s[0], s[k]);
        }
      }
    }
  }

  lemma {:induction false} SortByKeySorts<T(!new)>(s: seq<Entry<T>>)
    requires DistinctKeys(s)
    ensures SortedByKey(SortByKey(s))
    ensures forall x :: x in SortByKey(s) <==> x in s
  {
    if s != [] {
      SortByKeySorts(s[1..]);
      InsertKeeps(s[0], SortByKey(s[1..]));
      forall x | x in SortByKey(s[1..]) ensures x.key != s[0].key {
        var k :| 1 <= k < |s| && s[k] == x;
      }
      InsertSorts(s[0], SortByKey(s[1..]));
      assert s == [s[0]] + s[1..];
    }
  }

  /** A sorted list is determined by what is in it. */
  lemma {:induction false} SortedUnique<T(!new)>(a: seq<Entry<T>>, b: seq<Entry<T>>)
    requires SortedByKey(a) && SortedByKey(b)
    requires forall x :: x in a <==> x in b
    ensures a == b
  {
    assert Elements(a) == Elements(b);
    EmptyElements(a);
    EmptyElements(b);
    if a != [] {
      FirstIsLeast(a, b[0]);
      FirstIsLeast(b, a[0]);
      if a[0] != b[0] {
        TextLeqAntisymmetric(a[0].key, b[0].key);
      }
      assert a == [a[0]] + a[1..] && b == [b[0]] + b[1..];
      assert a[0] !in a[1..] && b[0] !in b[1..];
      forall x ensures x in a[1..] <==> x in b[1..] {
        assert x in a[1..] <==> x in a && x != a[0];
        assert x in b[1..] <==> x in b && x != b[0];
      }
      SortedUnique(a[1..], b[1..]);
    }
  }

  lemma FirstIsLeast<T(!new)>(s: seq<Entry<T>>, x: Entry<T>)
    requires SortedByKey(s) && x in s
    ensures s[0] == x || KeyLess(s[0], x)
  {
  }

  lemma {:induction false} SortOfSorted<T(!new)>(s: seq<Entry<T>>)
    requires SortedByKey(s)
    ensures SortByKey(s) == s
  {
    SortByKeySorts(s);
    SortedUnique(SortByKey(s), s);
  }
}
