/** Release tags vMAJOR.MINOR.PATCH: their order, and reading and writing them. */
module VersionText {
  import opened Options
  const MAX_INT64: nat := 0x7fff_ffff_ffff_ffff

  datatype Version = Version(major: nat, minor: nat, patch: nat)

  /** Components that fit a signed 64-bit integer. */
  predicate InRange(v: Version) {
    v.major <= MAX_INT64 && v.minor <= MAX_INT64 && v.patch <= MAX_INT64
  }

  predicate Less(v: Version, o: Version) {
    if v.major != o.major then v.major < o.major
    else if v.minor != o.minor then v.minor < o.minor
    else v.patch < o.patch
  }

  // ---- Numbers ----

  predicate IsDigit(c: char) {
    '0' <= c <= '9'
  }

  function DigitValue(c: char): nat
    requires IsDigit(c)
  {
    c as nat - '0' as nat
  }

  function DigitOf(n: nat): (c: char)
    requires n < 10
    ensures IsDigit(c) && DigitValue(c) == n
  {
    ('0' as nat + n) as char
  }

  predicate AllDigits(s: string) {
    forall i | 0 <= i < |s| :: IsDigit(s[i])
  }

  /** 0 or [1-9][0-9]* */
  predicate Canonical(s: string) {
    s != "" && AllDigits(s) && (s[0] == '0' ==> |s| == 1)
  }

  function Value(s: string): nat
    requires AllDigits(s)
  {
    if s == "" then 0 else Value(s[..|s| - 1]) * 10 + DigitValue(s[|s| - 1])
  }

  function Digits(n: nat): string {
    if n < 10 then [DigitOf(n)] else Digits(n / 10) + [DigitOf(n % 10)]
  }

  lemma {:induction false} DigitsReadBack(n: nat)
    ensures Canonical(Digits(n)) && Value(Digits(n)) == n && (n > 0 ==> Digits(n)[0] != '0')
  {
    if n < 10 {
      assert Digits(n)[..0] == "";
    } else {
      DigitsReadBack(n / 10);
      assert Digits(n)[..|Digits(n)| - 1] == Digits(n / 10);
    }
  }

  lemma {:induction false} CanonicalPositive(s: string)
    requires Canonical(s) && s[0] != '0'
    ensures Value(s) > 0
  {
    if |s| > 1 { CanonicalPositive(s[..|s| - 1]); }
  }

  lemma {:induction false} ValueWritesBack(s: string)
    requires Canonical(s)
    ensures Digits(Value(s)) == s
  {
    var last := |s| - 1;
    if last == 0 {
      assert s[..0] == "" && s == [s[0]];
    } else {
      CanonicalPositive(s[..last]);
      ValueWritesBack(s[..last]);
      assert s == s[..last] + [s[last]];
    }
  }

  function ParseNumber(s: string): Option<nat> {
    if Canonical(s) && Value(s) <= MAX_INT64 then Some(Value(s)) else None
  }

  lemma NumberRoundTrip(s: string, n: nat)
    ensures ParseNumber(s) == Some(n) <==> s == Digits(n) && n <= MAX_INT64
  {
    DigitsReadBack(n);
    if Canonical(s) { ValueWritesBack(s); }
  }

  lemma NumberHasNoDot(n: nat)
    ensures '.' !in Digits(n)
  {
    DigitsReadBack(n);
  }

  // ---- Versions ----

  datatype Cut = Cut(head: string, tail: string)

  /** Around the first dot. */
  function CutDot(s: string): Option<Cut> {
    if s == "" then None
    else if s[0] == '.' then Some(Cut("", s[1..]))
    else match CutDot(s[1..])
      case None => None
      case Some(c) => Some(Cut([s[0]] + c.head, c.tail))
  }

  lemma {:induction false} CutExactly(s: string, a: string, b: string)
    ensures CutDot(s) == Some(Cut(a, b)) <==> s == a + "." + b && '.' !in a
  {
    if s != "" && s[0] != '.' {
      if a == "" {
        assert (a + "." + b)[0] == '.';
      } else {
        CutExactly(s[1..], a[1..], b);
        assert a == [a[0]] + a[1..];
        assert a + "." + b == [a[0]] + (a[1..] + "." + b);
        assert s == [s[0]] + s[1..];
        assert '.' in a <==> a[0] == '.' || '.' in a[1..];
      }
    } else if s != "" && a != "" {
      assert (a + "." + b)[0] == a[0];
    } else if s != "" {
      assert a + "." + b == ['.'] + b && s == [s[0]] + s[1..];
    }
  }

  function Text(v: Version): string {
    "v" + Digits(v.major) + "." + Digits(v.minor) + "." + Digits(v.patch)
  }

  function ParseVersion(s: string): Option<Version> {
    if s == "" || s[0] != 'v' then None
    else match CutDot(s[1..])
      case None => None
      case Some(c) => match CutDot(c.tail)
        case None => None
        case Some(d) =>
          var (major, minor, patch) := (ParseNumber(c.head), ParseNumber(d.head), ParseNumber(d.tail));
          if major.Some? && minor.Some?
            && patch.Some? then Some(Version(major.value, minor.value, patch.value)) else None
  }

  lemma ParseText(v: Version)
    requires InRange(v)
    ensures ParseVersion(Text(v)) == Some(v)
  {
    var (a, b, c) := (Digits(v.major), Digits(v.minor), Digits(v.patch));
    NumberRoundTrip(a, v.major);
    NumberRoundTrip(b, v.minor);
    NumberRoundTrip(c, v.patch);
    NumberHasNoDot(v.major);
    NumberHasNoDot(v.minor);
    assert Text(v)[1..] == a + "." + (b + "." + c);
    CutExactly(Text(v)[1..], a, b + "." + c);
    CutExactly(b + "." + c, b, c);
  }

  lemma JoinParts(s: string, a: string, b: string, c: string)
    requires s != "" && s[0] == 'v' && s[1..] == a + "." + (b + "." + c)
    ensures s == "v" + a + "." + b + "." + c
  {
    assert s == "v" + s[1..];
  }

  lemma TextParsed(s: string, v: Version)
    requires ParseVersion(s) == Some(v)
    ensures s == Text(v) && InRange(v)
  {
    var c := CutDot(s[1..]).value;
    var d := CutDot(c.tail).value;
    CutExactly(s[1..], c.head, c.tail);
    CutExactly(c.tail, d.head, d.tail);
    NumberRoundTrip(c.head, v.major);
    NumberRoundTrip(d.head, v.minor);
    NumberRoundTrip(d.tail, v.patch);
    JoinParts(s, c.head, d.head, d.tail);
  }

  /** A tag names a version exactly when it is the version's own text and fits 64 bits: every
      version has one spelling, and every other tag is rejected. */
  lemma TagRoundTrip(s: string, v: Version)
    ensures ParseVersion(s) == Some(v) <==> s == Text(v) && InRange(v)
  {
    if InRange(v) { ParseText(v); }
    if ParseVersion(s) == Some(v) { TextParsed(s, v); }
  }
}
