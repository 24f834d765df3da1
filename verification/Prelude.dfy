/** Shared vocabulary: optional values, clock readings, and the byte-wise order on identifiers. */
module Prelude {
  datatype Option<+T> = None | Some(value: T)

  /** Nanoseconds. The zero time of the program is modelled by an absent value. */
  type Time = int

  const SECOND: int := 1_000_000_000
  const MINUTE: int := 60 * SECOND

  function Max(a: int, b: int): int {
    if a < b then b else a
  }

  function Min(a: int, b: int): int {
    if a < b then a else b
  }

  /** Reads a time map; a missing key reads as the zero time. */
  function At(m: map<string, Time>, id: string): Option<Time> {
    if id in m then Some(m[id]) else None
  }

  /** `now.Before(t)`; nothing is before the zero time. */
  predicate Before(now: Time, t: Option<Time>) {
    t.Some? && now < t.value
  }

  /** `now.After(t)`; every clock reading is after the zero time. */
  predicate After(now: Time, t: Option<Time>) {
    t.Some? ==> t.value < now
  }

  lemma Associative<T>(a: seq<T>, b: seq<T>, c: seq<T>)
    ensures a + (b + c) == a + b + c
  {
  }

  /** Lexicographic order on identifiers. */
  predicate StringLess(a: string, b: string) {
    b != [] && (a == [] || a[0] < b[0] || (a[0] == b[0] && StringLess(a[1..], b[1..])))
  }

  lemma {:induction false} StringLessTotal(a: string, b: string)
    ensures a == b || StringLess(a, b) || StringLess(b, a)
    ensures !(StringLess(a, b) && StringLess(b, a))
    ensures !StringLess(a, a)
  {
    if a != [] {
      StringLessTotal(a[1..], a[1..]);
      if b != [] && a[0] == b[0] {
        StringLessTotal(a[1..], b[1..]);
        if a[1..] == b[1..] {
          assert a == [a[0]] + a[1..] == b;
        }
      }
    }
  }

  /** Agreeing up to position k, a string is lesser there if it ends or has the lesser character. */
  predicate LesserAt(a: string, b: string, k: nat) {
    k <= |a| && k < |b| && a[..k] == b[..k] && (k == |a| || a[k] < b[k])
  }

  lemma LesserTail(a: string, b: string, k: nat)
    requires a != [] && b != []
    ensures LesserAt(a, b, k + 1) <==> a[0] == b[0] && LesserAt(a[1..], b[1..], k)
  {
    if k + 1 <= |a| && k + 1 <= |b| {
      assert a[..k + 1] == [a[0]] + a[1..][..k] && b[..k + 1] == [b[0]] + b[1..][..k];
    }
  }

  /** At their first difference the lesser string ends, or has the lesser character. */
  lemma {:induction false} StringLessExact(a: string, b: string)
    ensures StringLess(a, b) <==> exists k: nat :: LesserAt(a, b, k)
  {
    assert a[..0] == b[..0];
    if a == [] || b == [] {
      assert LesserAt(a, b, 0) <==> StringLess(a, b);
    } else {
      StringLessExact(a[1..], b[1..]);
      if k: nat :| LesserAt(a[1..], b[1..], k) {
        LesserTail(a, b, k);
      }
      if k: nat :| LesserAt(a, b, k) {
        if k > 0 {
          LesserTail(a, b, k - 1);
        }
      }
      assert a[0] < b[0] ==> LesserAt(a, b, 0);
    }
  }

  lemma {:induction false} StringLessTransitive(a: string, b: string, c: string)
    requires StringLess(a, b) && StringLess(b, c)
    ensures StringLess(a, c)
  {
    if a != [] && a[0] == b[0] == c[0] {
      StringLessTransitive(a[1..], b[1..], c[1..]);
    }
  }
}
