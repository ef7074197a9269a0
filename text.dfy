/** String operations the build script relies on: Kotlin's `split` on a
    one-character delimiter, joining with that delimiter, one-character
    `replace`, `startsWith("v")` and the decimal rendering of an `Int` in a
    string template. */
module Text {

  /** Kotlin `s.split(d)` with no limit: every piece between delimiters,
      empty pieces included, so the result is never empty. */
  function Split(s: string, d: char): (parts: seq<string>)
    ensures |parts| >= 1
    ensures forall k :: 0 <= k < |parts| ==> d !in parts[k]
    decreases |s|
  {
    if s == [] then [""]
    else
      var rest := Split(s[1..], d);
      if s[0] == d then [""] + rest
      else [[s[0]] + rest[0]] + rest[1..]
  }

  /** Kotlin `joinToString(d)` over a non-empty list. */
  function Join(parts: seq<string>, d: char): (s: string)
    requires |parts| >= 1
    decreases |parts|
  {
    if |parts| == 1 then parts[0] else parts[0] + [d] + Join(parts[1..], d)
  }

  /** Kotlin `s.replace(a, b)` with one-character strings `a` and `b`. */
  function ReplaceChar(s: string, a: char, b: char): (r: string)
    ensures |r| == |s|
    ensures a != b ==> a !in r
  {
    seq(|s|, i requires 0 <= i < |s| => if s[i] == a then b else s[i])
  }

  /** Kotlin `s.startsWith("v")`. */
  predicate StartsWithV(s: string) {
    |s| > 0 && s[0] == 'v'
  }

  function DigitChar(d: nat): (c: char)
    requires d < 10
    ensures '0' <= c <= '9' && c as int - '0' as int == d
  {
    ('0' as int + d) as char
  }

  /** Decimal digits of a natural number, most significant first. */
  function NatDigits(n: nat): (s: string)
    ensures |s| >= 1
    ensures forall i :: 0 <= i < |s| ==> '0' <= s[i] <= '9'
    ensures n >= 10 ==> |s| >= 2
    decreases n
  {
    if n < 10 then [DigitChar(n)] else NatDigits(n / 10) + [DigitChar(n % 10)]
  }

  /** An `Int` as Kotlin renders it inside a string template. */
  function IntToString(i: int): (s: string)
    ensures |s| >= 1
    ensures '/' !in s
    ensures s[0] == '-' <==> i < 0
  {
    if i < 0 then "-" + NatDigits(-i) else NatDigits(i)
  }

  /** Joining the pieces of a split gives the original string back. */
  lemma {:induction false} JoinSplit(s: string, d: char)
    ensures Join(Split(s, d), d) == s
    decreases |s|
  {
    if s != [] {
      JoinSplit(s[1..], d);
      var rest := Split(s[1..], d);
      if s[0] != d && |rest| > 1 {
        assert Join(rest, d) == rest[0] + [d] + Join(rest[1..], d);
        assert rest[1..][1..] == rest[2..];
      }
    }
  }

  /** Splitting a string that has no delimiter leaves it whole. */
  lemma {:induction false} SplitNoDelimiter(s: string, d: char)
    requires d !in s
    ensures Split(s, d) == [s]
    decreases |s|
  {
    if s != [] {
      SplitNoDelimiter(s[1..], d);
      assert [s[0]] + s[1..] == s;
    }
  }

  /** A delimiter-free head followed by the delimiter splits off as one piece. */
  lemma {:induction false} SplitHead(p: string, t: string, d: char)
    requires d !in p
    ensures Split(p + [d] + t, d) == [p] + Split(t, d)
    decreases |p|
  {
    if p == [] {
      assert [] + [d] + t == [d] + t;
      assert ([d] + t)[1..] == t;
    } else {
      var s := p + [d] + t;
      assert s[1..] == p[1..] + [d] + t;
      SplitHead(p[1..], t, d);
      assert [p[0]] + p[1..] == p;
    }
  }

  /** Splitting a join of delimiter-free pieces gives the pieces back. */
  lemma {:induction false} SplitJoin(parts: seq<string>, d: char)
    requires |parts| >= 1
    requires forall k :: 0 <= k < |parts| ==> d !in parts[k]
    ensures Split(Join(parts, d), d) == parts
    decreases |parts|
  {
    if |parts| == 1 {
      SplitNoDelimiter(parts[0], d);
    } else {
      SplitJoin(parts[1..], d);
      SplitHead(parts[0], Join(parts[1..], d), d);
      assert [parts[0]] + parts[1..] == parts;
    }
  }

  /** Replacing `a` by `b` and back restores a string that had no `b`. */
  lemma ReplaceRoundTrip(s: string, a: char, b: char)
    requires b !in s
    ensures ReplaceChar(ReplaceChar(s, a, b), b, a) == s
  {
  }

  /** Different naturals have different decimal renderings. */
  lemma {:induction false} NatDigitsInjective(m: nat, n: nat)
    requires NatDigits(m) == NatDigits(n)
    ensures m == n
    decreases m
  {
    var sm, sn := NatDigits(m), NatDigits(n);
    if m < 10 || n < 10 {
      assert |sm| == |sn|;
      assert m < 10 && n < 10;
      assert DigitChar(m) == sm[0] == sn[0] == DigitChar(n);
    } else {
      var hm, hn := NatDigits(m / 10), NatDigits(n / 10);
      assert sm == hm + [DigitChar(m % 10)];
      assert sn == hn + [DigitChar(n % 10)];
      assert hm == sm[..|sm| - 1] == sn[..|sn| - 1] == hn;
      NatDigitsInjective(m / 10, n / 10);
      assert DigitChar(m % 10) == sm[|sm| - 1] == sn[|sn| - 1] == DigitChar(n % 10);
    }
  }

  /** Different integers have different string renderings. */
  lemma IntToStringInjective(i: int, j: int)
    requires IntToString(i) == IntToString(j)
    ensures i == j
  {
    var si, sj := IntToString(i), IntToString(j);
    if i < 0 {
      assert si[1..] == NatDigits(-i) && sj[1..] == NatDigits(-j);
      NatDigitsInjective(-i, -j);
    } else {
      NatDigitsInjective(i, j);
    }
  }
}
