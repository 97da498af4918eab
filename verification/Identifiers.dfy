/** Identifiers: decimal rendering, the derived job identifier, random identifiers and the
    byte-wise string order used as a tie breaker. */
module Identifiers {
  type Time = nat  // nanoseconds; 0 is the zero time
  type ID = string // "" means absent

  function Digit(d: nat): (c: char)
    requires d < 10
    ensures '0' <= c <= '9'
  {
    "0123456789"[d]
  }

  function Decimal(n: nat): (r: string)
    ensures r != ""
    ensures forall i :: 0 <= i < |r| ==> '0' <= r[i] <= '9'
  {
    if n < 10 then [Digit(n)] else Decimal(n / 10) + [Digit(n % 10)]
  }

  lemma {:induction false} DecimalInjective(a: nat, b: nat)
    requires Decimal(a) == Decimal(b)
    ensures a == b
  {
    var x, y := Decimal(a), Decimal(b);
    assert x[|x| - 1] == Digit(a % 10) && y[|y| - 1] == Digit(b % 10);
    if a >= 10 && b >= 10 {
      assert x[..|x| - 1] == Decimal(a / 10) && y[..|y| - 1] == Decimal(b / 10);
      DecimalInjective(a / 10, b / 10);
    }
  }

  lemma NoSeparatorAfter(a: string, x: string, c: char, k: nat)
    requires c !in x
    ensures |a| < k < |a + [c] + x| ==> (a + [c] + x)[k] != c
  {
    if |a| < k < |a + [c] + x| {
      assert (a + [c] + x)[k] == x[k - |a| - 1];
    }
  }

  /** A string is split by its last separator in one way only. */
  lemma LastSeparator(a: string, x: string, b: string, y: string, c: char)
    requires a + [c] + x == b + [c] + y
    requires c !in x && c !in y
    ensures a == b && x == y
  {
    var s := a + [c] + x;
    NoSeparatorAfter(a, x, c, |b|);
    NoSeparatorAfter(b, y, c, |a|);
    assert a == s[..|a|] && b == s[..|b|] && x == s[|a| + 1..] && y == s[|b| + 1..];
  }

  /** The identifier of a periodic job: monitor plus planned instant (the clock when none is planned). */
  function NewCheckJobID(monitor: ID, nextCheckAt: Time, clock: Time): (r: ID)
    ensures r != ""
  {
    "job_" + monitor + "_" + Decimal(if nextCheckAt == 0 then clock else nextCheckAt)
  }

  /** Two planned checks share an identifier only if they are the same monitor at the same instant. */
  lemma JobIDInjective(m: ID, t: Time, c: Time, m': ID, t': Time, c': Time)
    requires t != 0 && t' != 0
    requires NewCheckJobID(m, t, c) == NewCheckJobID(m', t', c')
    ensures m == m' && t == t'
  {
    LastSeparator("job_" + m, Decimal(t), "job_" + m', Decimal(t'), '_');
    assert ("job_" + m)[4..] == m && ("job_" + m')[4..] == m';
    DecimalInjective(t, t');
  }

  /** The shape of what newID yields: the prefix, one underscore, then hexadecimal or decimal digits. */
  predicate RandomID(prefix: string, id: ID) {
    |prefix| < |id| && id[..|prefix| + 1] == prefix + "_" && '_' !in id[|prefix| + 1..]
  }

  /** A random job identifier is never the identifier of a planned check. */
  lemma RandomIsNotDerived(m: ID, t: Time, c: Time)
    ensures !RandomID("job", NewCheckJobID(m, t, c))
  {
    var id := NewCheckJobID(m, t, c);
    var at := 4 + |m|;
    assert id[at] == '_';
    assert id[4..][at - 4] == '_';
  }

  /** An alert's idempotency key. */
  function AlertKey(incident: ID, failures: nat): ID {
    incident + ":failure:" + Decimal(failures)
  }

  lemma AlertKeyInjective(i: ID, n: nat, i': ID, n': nat)
    requires AlertKey(i, n) == AlertKey(i', n')
    ensures i == i' && n == n'
  {
    assert AlertKey(i, n) == (i + ":failure") + [':'] + Decimal(n);
    assert AlertKey(i', n') == (i' + ":failure") + [':'] + Decimal(n');
    LastSeparator(i + ":failure", Decimal(n), i' + ":failure", Decimal(n'), ':');
    assert (i + ":failure")[..|i|] == i && (i' + ":failure")[..|i'|] == i';
    DecimalInjective(n, n');
  }

  predicate StringLess(a: string, b: string) {
    b != "" && (a == "" || a[0] < b[0] || (a[0] == b[0] && StringLess(a[1..], b[1..])))
  }

  lemma {:induction false} StringLessTotal(a: string, b: string)
    ensures StringLess(a, b) || StringLess(b, a) || a == b
    ensures !(StringLess(a, b) && StringLess(b, a))
    ensures a == b ==> !StringLess(a, b)
  {
    if a != "" && b != "" {
      StringLessTotal(a[1..], b[1..]);
      assert a == [a[0]] + a[1..] && b == [b[0]] + b[1..];
    }
  }

  lemma {:induction false} StringLessTransitive(a: string, b: string, c: string)
    requires StringLess(a, b) && StringLess(b, c)
    ensures StringLess(a, c)
  {
    if a != "" && a[0] == b[0] == c[0] {
      StringLessTransitive(a[1..], b[1..], c[1..]);
    }
  }
}
