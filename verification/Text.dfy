/** Strings: splitting and joining at a separator, decimal numbers. */
module Text {
  /** How many characters come before the first `stop`. */
  function Until(s: string, stop: char): (n: nat)
    ensures n <= |s| && stop !in s[..n] && (n < |s| ==> s[n] == stop)
  {
    if s == "" || s[0] == stop then 0 else 1 + Until(s[1..], stop)
  }

  /** `split`. */
  function Split(s: string, at: char): (parts: seq<string>)
    ensures |parts| > 0
    decreases |s|
  {
    var n := Until(s, at);
    if n == |s| then [s] else [s[..n]] + Split(s[n + 1..], at)
  }

  /** `join`. */
  function Join(parts: seq<string>, at: char): string {
    if parts == [] then ""
    else if |parts| == 1 then parts[0]
    else parts[0] + [at] + Join(parts[1..], at)
  }

  lemma {:induction false} JoinSplit(s: string, at: char)
    ensures Join(Split(s, at), at) == s
    decreases |s|
  {
    var n := Until(s, at);
    if n < |s| {
      JoinSplit(s[n + 1..], at);
      assert s == s[..n] + [at] + s[n + 1..];
      assert Split(s, at)[1..] == Split(s[n + 1..], at);
    }
  }

  /** No part contains the separator. */
  lemma {:induction false} PartsPlain(s: string, at: char)
    ensures forall part <- Split(s, at) :: at !in part
    decreases |s|
  {
    var n := Until(s, at);
    if n < |s| {
      PartsPlain(s[n + 1..], at);
    }
  }

  lemma FirstPart(a: string, rest: string, at: char)
    requires at !in a
    ensures Split(a + [at] + rest, at) == [a] + Split(rest, at)
  {
    var s := a + [at] + rest;
    assert s[|a|] == at && s[..|a|] == a && s[|a| + 1..] == rest;
    assert forall i :: 0 <= i < |a| ==> s[i] == a[i];
    assert forall i :: 0 <= i < |a| ==> s[i] != at;
    assert Until(s, at) == |a|;
  }

  /** Splitting at a separator splits both sides. */
  lemma {:induction false} SplitBoth(a: string, b: string, at: char)
    ensures Split(a + [at] + b, at) == Split(a, at) + Split(b, at)
    decreases |a|
  {
    var n := Until(a, at);
    if n == |a| {
      assert a[..n] == a;
      FirstPart(a, b, at);
    } else {
      var first, rest := a[..n], a[n + 1..];
      assert a == first + [at] + rest;
      hide Split;
      SplitBoth(rest, b, at);
      SplitStep(first, rest, b, at);
    }
  }

  lemma SplitStep(first: string, rest: string, b: string, at: char)
    requires at !in first && Split(rest + [at] + b, at) == Split(rest, at) + Split(b, at)
    ensures Split(first + [at] + rest + [at] + b, at) == Split(first + [at] + rest, at) + Split(b, at)
  {
    hide Split;
    Regroup(first, rest, b, at);
    FirstPart(first, rest, at);
    FirstPart(first, rest + [at] + b, at);
  }

  lemma Regroup(x: string, y: string, z: string, at: char)
    ensures x + [at] + y + [at] + z == x + [at] + (y + [at] + z)
  {
  }

  lemma {:induction false} JoinBoth(a: seq<string>, b: seq<string>, at: char)
    requires a != [] && b != []
    ensures Join(a + b, at) == Join(a, at) + [at] + Join(b, at)
    decreases |a|
  {
    if |a| == 1 {
      assert (a + b)[1..] == b;
    } else {
      JoinBoth(a[1..], b, at);
      assert (a + b)[1..] == a[1..] + b;
    }
  }

  // ---- Decimal numbers ----

  const DIGITS := "0123456789"

  function Decimal(n: nat): (s: string)
    ensures |s| > 0 && forall c <- s :: '0' <= c <= '9'
  {
    if n < 10 then [DIGITS[n]] else Decimal(n / 10) + [DIGITS[n % 10]]
  }

  predicate IsDecimal(s: string) {
    s != "" && forall c <- s :: '0' <= c <= '9'
  }

  function Value(s: string): nat {
    if s == "" then 0
    else
      var c := s[|s| - 1];
      10 * Value(s[..|s| - 1]) + if '0' <= c <= '9' then c as nat - '0' as nat else 0
  }

  lemma {:induction false} DecimalRoundTrip(n: nat)
    ensures Value(Decimal(n)) == n
  {
    if n >= 10 {
      DecimalRoundTrip(n / 10);
      assert Decimal(n)[..|Decimal(n)| - 1] == Decimal(n / 10);
    } else {
      assert Decimal(n)[..0] == "";
    }
  }

  lemma LastDigit(v: nat, d: nat)
    requires d < 10
    ensures Decimal(10 * v + d) == if v == 0 then [DIGITS[d]] else Decimal(v) + [DIGITS[d]]
  {
    assert (10 * v + d) / 10 == v && (10 * v + d) % 10 == d;
  }

  /** The other way round: digits without a leading zero are the number they say. */
  lemma {:induction false} ValueRoundTrip(s: string)
    requires IsDecimal(s) && (s == "0" || s[0] != '0')
    ensures Decimal(Value(s)) == s && (s != "0" ==> Value(s) > 0)
  {
    hide Decimal;
    var init, c := s[..|s| - 1], s[|s| - 1];
    assert c in s && s == init + [c];
    LastDigit(Value(init), c as nat - '0' as nat);
    Digit(c);
    if init != "" {
      assert forall d <- init :: d in s;
      ValueRoundTrip(init);
    }
  }

  lemma Digit(c: char)
    requires '0' <= c <= '9'
    ensures DIGITS[c as nat - '0' as nat] == c
  {
  }
}
