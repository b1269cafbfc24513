/** Values shared by every part of the model. */
module Common {

  // UUIDs are compared, ordered (`ORDER BY id`) and generated, never inspected.
  type Uuid = nat

  // Nanoseconds since the epoch, or a span of nanoseconds.
  type Time = int

  datatype Option<+T> = None | Some(value: T)

  datatype Result<+T, +E> = Ok(value: T) | Err(error: E)

  // SHA-256 is taken to be injective, so a digest is its preimage under a constructor.
  datatype Digest = Sha256(raw: string)

  /** How one storage call goes: it works, it never reaches the store, or it takes effect
      there but the caller is told that it failed. */
  datatype Fault = Healthy | LostRequest | LostReply

  const MAX_INT64: int := 0x7fff_ffff_ffff_ffff
  const MIN_INT64: int := -0x8000_0000_0000_0000

  // Go's int64 arithmetic wraps around.
  function Wrap64(x: int): (r: int)
    ensures MIN_INT64 <= r <= MAX_INT64
    ensures MIN_INT64 <= x <= MAX_INT64 ==> r == x
    ensures (r - x) % 0x1_0000_0000_0000_0000 == 0
  {
    (x - MIN_INT64) % 0x1_0000_0000_0000_0000 + MIN_INT64
  }

  // Go's integer division truncates toward zero.
  function Quotient(a: int, b: int): int
    requires b > 0
  {
    if a >= 0 then a / b else -((-a) / b)
  }

  /** The quotient lies between zero and the exact one, less than one away from it. */
  lemma QuotientTruncates(a: int, b: int)
    requires b > 0
    ensures a >= 0 ==> 0 <= a - Quotient(a, b) * b < b
    ensures a <= 0 ==> -b < a - Quotient(a, b) * b <= 0
  {
  }

  // PostgreSQL refuses text with a NUL character, as a parameter and in a column.
  predicate NulFree(s: string) {
    '\0' !in s
  }

  /** The elements of `s` that satisfy `keep`, in order: what a WHERE clause leaves. */
  function Select<T>(s: seq<T>, keep: T -> bool): seq<T> {
    if s == [] then []
    else
      var rest := Select(s[..|s| - 1], keep);
      if keep(s[|s| - 1]) then rest + [s[|s| - 1]] else rest
  }

  lemma {:induction false} SelectMembers<T>(s: seq<T>, keep: T -> bool)
    ensures forall x :: x in Select(s, keep) <==> x in s && keep(x)
  {
    if s != [] {
      SelectMembers(s[..|s| - 1], keep);
      assert s == s[..|s| - 1] + [s[|s| - 1]];
    }
  }

  lemma {:induction false} SelectAgrees<T>(s: seq<T>, p: T -> bool, q: T -> bool)
    requires forall x :: x in s ==> p(x) == q(x)
    ensures Select(s, p) == Select(s, q)
  {
    if s != [] {
      SelectAgrees(s[..|s| - 1], p, q);
    }
  }

  lemma SelectSnoc<T>(s: seq<T>, x: T, keep: T -> bool)
    ensures Select(s + [x], keep) == if keep(x) then Select(s, keep) + [x] else Select(s, keep)
  {
  }

  /** An injection of a set into `0..n` bounds the size of the set. */
  lemma {:induction false} Pigeonhole<T>(s: set<T>, slot: T -> int, n: nat)
    requires forall x :: x in s ==> 0 <= slot(x) < n
    requires forall x, y :: x in s && y in s && slot(x) == slot(y) ==> x == y
    ensures |s| <= n
    decreases n
  {
    if s != {} {
      if x :| x in s && slot(x) == n - 1 {
        Pigeonhole(s - {x}, slot, n - 1);
      } else {
        var x :| x in s;
        Pigeonhole(s, slot, n - 1);
      }
    }
  }
}
