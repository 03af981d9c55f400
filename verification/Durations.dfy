/** Timeouts: reading PostgreSQL's spelling and printing it back. */
module Durations {
  import opened Collections
  import opened Migrations

  const U64_MAX: nat := 0xFFFF_FFFF_FFFF_FFFF

  function TrimStart(s: string): (r: string)
    ensures |r| <= |s|
  {
    if s != [] && IsWhitespace(s[0]) then TrimStart(s[1..]) else s
  }

  function TrimEnd(s: string): (r: string)
    ensures |r| <= |s|
  {
    if s != [] && IsWhitespace(Last(s)) then TrimEnd(s[..|s| - 1]) else s
  }

  function Trim(s: string): string {
    TrimEnd(TrimStart(s))
  }

  predicate IsDigit(c: char) {
    '0' <= c <= '9'
  }

  predicate AllDigits(s: string) {
    forall i | 0 <= i < |s| :: IsDigit(s[i])
  }

  /** How many ASCII digits the text starts with. */
  function LeadingDigits(s: string): (n: nat)
    ensures n <= |s| && AllDigits(s[..n]) && (n < |s| ==> !IsDigit(s[n]))
  {
    if s != [] && IsDigit(s[0]) then
      var n := LeadingDigits(s[1..]);
      assert s[..n + 1] == [s[0]] + s[1..][..n];
      n + 1
    else 0
  }

  function DecimalValue(s: string): nat
    requires AllDigits(s)
  {
    if s == [] then 0 else 10 * DecimalValue(s[..|s| - 1]) + (Last(s) - '0') as nat
  }

  function Decimal(n: nat): (s: string)
    ensures s != [] && AllDigits(s)
  {
    if n < 10 then [('0' as int + n) as char] else Decimal(n / 10) + [('0' as int + n % 10) as char]
  }

  /** An unsigned 64-bit parse of a digit string: refused when empty or out of range. */
  function ParseU64(s: string): Option<nat>
    requires AllDigits(s)
  {
    if s == [] || DecimalValue(s) > U64_MAX then None else Some(DecimalValue(s))
  }

  function Multiplier(unit: string): Option<nat> {
    if unit in {"", "ms"} then Some(1)
    else if unit in {"s", "sec", "secs", "second", "seconds"} then Some(1_000)
    else if unit in {"min", "mins", "minute", "minutes"} then Some(60_000)
    else if unit in {"h", "hr", "hour", "hours"} then Some(3_600_000)
    else None
  }

  /** The milliseconds a timeout text stands for, or `None` where the parser reports an error. */
  function Parse(text: string): Option<nat> {
    var t := Trim(text);
    if t == [] then
      None
    else
      var digits := LeadingDigits(t);
      match ParseU64(t[..digits])
      case None => None
      case Some(number) =>
        match Multiplier(Trim(t[digits..]))
        case None => None
        case Some(multiplier) => if number * multiplier > U64_MAX then None else Some(number * multiplier)
  }

  function Display(ms: nat): string {
    if ms == 0 then "0"
    else if ms % 3_600_000 == 0 then Decimal(ms / 3_600_000) + "h"
    else if ms % 60_000 == 0 then Decimal(ms / 60_000) + "min"
    else if ms % 1_000 == 0 then Decimal(ms / 1_000) + "s"
    else Decimal(ms) + "ms"
  }

  // ----- What is accepted -----

  /** One way to read a text: blanks, a number, blanks, a unit, blanks. */
  datatype Reading = Reading(before: string, digits: string, between: string, unit: string, after: string)
  {
    function Text(): string {
      before + (digits + (between + (unit + after)))
    }

    predicate IsProper() {
      && IsBlank(before) && IsBlank(between) && IsBlank(after)
      && digits != [] && AllDigits(digits)
      && Multiplier(unit).Some?
    }

    function Value(): nat
      requires IsProper()
    {
      DecimalValue(digits) * Multiplier(unit).value
    }
  }

  ghost predicate Reads(text: string, ms: nat) {
    exists r: Reading :: r.Text() == text && r.IsProper() && r.Value() == ms && ms <= U64_MAX
                         && DecimalValue(r.digits) <= U64_MAX
  }

  lemma {:induction false} TrimStartSplits(s: string)
    ensures var k := |s| - |TrimStart(s)|; IsBlank(s[..k]) && TrimStart(s) == s[k..]
    ensures TrimStart(s) != [] ==> !IsWhitespace(TrimStart(s)[0])
  {
    if s != [] && IsWhitespace(s[0]) {
      TrimStartSplits(s[1..]);
      var k := |s[1..]| - |TrimStart(s[1..])|;
      assert s[..k + 1] == [s[0]] + s[1..][..k];
    }
  }

  lemma {:induction false} TrimEndSplits(s: string)
    ensures var k := |TrimEnd(s)|; IsBlank(s[k..]) && TrimEnd(s) == s[..k]
    ensures TrimEnd(s) != [] ==> !IsWhitespace(Last(TrimEnd(s)))
  {
    if s != [] && IsWhitespace(Last(s)) {
      var p := s[..|s| - 1];
      TrimEndSplits(p);
      var k := |TrimEnd(p)|;
      assert s[k..] == p[k..] + [Last(s)];
    }
  }

  lemma {:induction false} TrimStartBlank(pre: string, s: string)
    requires IsBlank(pre) && (s != [] ==> !IsWhitespace(s[0]))
    ensures TrimStart(pre + s) == s
    decreases |pre|
  {
    if pre == [] {
      assert pre + s == s;
    } else {
      assert (pre + s)[1..] == pre[1..] + s;
      TrimStartBlank(pre[1..], s);
    }
  }

  lemma {:induction false} TrimEndBlank(s: string, post: string)
    requires IsBlank(post) && (s != [] ==> !IsWhitespace(Last(s)))
    ensures TrimEnd(s + post) == s
    decreases |post|
  {
    if post == [] {
      assert s + post == s;
    } else {
      assert (s + post)[..|s + post| - 1] == s + post[..|post| - 1];
      assert Last(s + post) == Last(post);
      TrimEndBlank(s, post[..|post| - 1]);
    }
  }

  lemma TrimAround(pre: string, s: string, post: string)
    requires IsBlank(pre) && IsBlank(post)
    requires s != [] ==> !IsWhitespace(s[0]) && !IsWhitespace(Last(s))
    ensures Trim(pre + (s + post)) == s
  {
    if s == [] {
      assert pre + (s + post) == (pre + post) + [];
      TrimStartBlank(pre + post, []);
    } else {
      TrimStartBlank(pre, s + post);
      TrimEndBlank(s, post);
    }
  }

  lemma {:induction false} LeadingDigitsOf(digits: string, rest: string)
    requires AllDigits(digits) && (rest != [] ==> !IsDigit(rest[0]))
    ensures LeadingDigits(digits + rest) == |digits|
  {
    if digits == [] {
      assert digits + rest == rest;
    } else {
      assert (digits + rest)[1..] == digits[1..] + rest;
      LeadingDigitsOf(digits[1..], rest);
    }
  }

  lemma UnitShape(unit: string)
    requires Multiplier(unit).Some? && unit != []
    ensures !IsDigit(unit[0]) && !IsWhitespace(unit[0]) && !IsWhitespace(Last(unit))
  {
  }

  lemma TrimmedReading(r: Reading)
    requires r.IsProper()
    ensures Trim(r.Text()) == r.digits + if r.unit == [] then [] else r.between + r.unit
    ensures r.unit != [] ==> !IsDigit((r.between + r.unit)[0])
  {
    hide DecimalValue, Trim, Multiplier;
    var t := r.digits + if r.unit == [] then [] else r.between + r.unit;
    if r.unit == [] {
      assert r.Text() == r.before + (t + (r.between + r.after));
      TrimAround(r.before, t, r.between + r.after);
    } else {
      UnitShape(r.unit);
      assert r.Text() == r.before + (t + r.after);
      assert Last(t) == Last(r.unit);
      TrimAround(r.before, t, r.after);
    }
  }

  lemma TrimmedUnit(r: Reading)
    requires r.IsProper() && r.unit != []
    ensures Trim(r.between + r.unit) == r.unit
  {
    hide DecimalValue, Trim;
    UnitShape(r.unit);
    EmptyConcat(r.unit);
    TrimAround(r.between, r.unit, []);
  }

  /** Every proper reading that stays in range is accepted, with the value it reads. */
  lemma ReadingParses(r: Reading)
    requires r.IsProper()
    ensures Parse(r.Text()) ==
            if DecimalValue(r.digits) <= U64_MAX && r.Value() <= U64_MAX then Some(r.Value()) else None
  {
    hide Trim, LeadingDigits, IsBlank, Multiplier, DecimalValue;
    var rest := if r.unit == [] then [] else r.between + r.unit;
    var t := r.digits + rest;
    TrimmedReading(r);
    LeadingDigitsOf(r.digits, rest);
    assert t[..|r.digits|] == r.digits && t[|r.digits|..] == rest;
    if r.unit != [] {
      TrimmedUnit(r);
    } else {
      assert Trim(rest) == [] by { TrimAround([], [], []); assert [] + ([] + []) == rest; }
    }
  }

  lemma TrimSplits(s: string) returns (pre: string, post: string)
    ensures s == pre + (Trim(s) + post) && IsBlank(pre) && IsBlank(post)
  {
    var u := TrimStart(s);
    TrimStartSplits(s);
    TrimEndSplits(u);
    pre, post := s[..|s| - |u|], u[|TrimEnd(u)|..];
    assert s == pre + u;
    assert u == TrimEnd(u) + post;
  }

  lemma ParsedReading(text: string) returns (r: Reading)
    requires Parse(text).Some?
    ensures r.IsProper() && r.Text() == text && r.Value() == Parse(text).value <= U64_MAX
    ensures DecimalValue(r.digits) <= U64_MAX
  {
    var t := Trim(text);
    var n := LeadingDigits(t);
    var before, after := TrimSplits(text);
    var between, trailing := TrimSplits(t[n..]);
    r := Reading(before, t[..n], between, Trim(t[n..]), trailing + after);
    assert t == t[..n] + t[n..];
    Reassociate(before, t[..n], between, Trim(t[n..]), trailing, after);
  }

  lemma Reassociate(a: string, b: string, c: string, d: string, e: string, f: string)
    ensures a + ((b + (c + (d + e))) + f) == a + (b + (c + (d + (e + f))))
  {
  }

  /** A text is accepted exactly when it can be read in range, and with that value: a number times
      a unit that overflows 64 bits is refused, never wrapped. */
  lemma ParseExactly(text: string, ms: nat)
    ensures Parse(text) == Some(ms) <==> Reads(text, ms)
  {
    if Parse(text) == Some(ms) {
      var r := ParsedReading(text);
    }
    if Reads(text, ms) {
      var r: Reading :| r.Text() == text && r.IsProper() && r.Value() == ms && ms <= U64_MAX
                        && DecimalValue(r.digits) <= U64_MAX;
      ReadingParses(r);
    }
  }

  lemma {:induction false} DecimalReads(n: nat)
    ensures DecimalValue(Decimal(n)) == n
  {
    if n >= 10 {
      DecimalReads(n / 10);
      assert Decimal(n)[..|Decimal(n)| - 1] == Decimal(n / 10);
    } else {
      assert Decimal(n)[..0] == [];
    }
  }

  lemma PrintedNumber(number: nat, unit: string, multiplier: nat)
    requires Multiplier(unit) == Some(multiplier)
    requires number <= U64_MAX && number * multiplier <= U64_MAX
    ensures Parse(Decimal(number) + unit) == Some(number * multiplier)
  {
    var r := Reading("", Decimal(number), "", unit, "");
    DecimalReads(number);
    assert r.Text() == Decimal(number) + unit;
    ReadingParses(r);
  }

  lemma PrintedUnits()
    ensures Multiplier("") == Some(1) && Multiplier("ms") == Some(1)
    ensures Multiplier("s") == Some(1_000)
    ensures Multiplier("min") == Some(60_000)
    ensures Multiplier("h") == Some(3_600_000)
  {
  }

  lemma PrintedParts(ms: nat) returns (number: nat, unit: string, multiplier: nat)
    requires ms <= U64_MAX
    ensures Display(ms) == Decimal(number) + unit && Multiplier(unit) == Some(multiplier)
    ensures number <= U64_MAX && number * multiplier == ms
  {
    PrintedUnits();
    if ms == 0 {
      number, unit, multiplier := 0, "", 1;
      assert Decimal(0) + "" == "0";
    } else if ms % 3_600_000 == 0 {
      number, unit, multiplier := ms / 3_600_000, "h", 3_600_000;
    } else if ms % 60_000 == 0 {
      number, unit, multiplier := ms / 60_000, "min", 60_000;
    } else if ms % 1_000 == 0 {
      number, unit, multiplier := ms / 1_000, "s", 1_000;
    } else {
      number, unit, multiplier := ms, "ms", 1;
    }
  }

  /** Every 64-bit timeout survives being printed and read back. */
  lemma RoundTrip(ms: nat)
    requires ms <= U64_MAX
    ensures Parse(Display(ms)) == Some(ms)
  {
    var number, unit, multiplier := PrintedParts(ms);
    PrintedNumber(number, unit, multiplier);
  }

  /** Whatever text was accepted, what is printed for it stands for the same value. */
  lemma PrintedFormIsStable(text: string)
    requires Parse(text).Some?
    ensures Parse(Display(Parse(text).value)) == Parse(text)
  {
    var r := ParsedReading(text);
    RoundTrip(Parse(text).value);
  }
}
