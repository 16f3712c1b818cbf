/** Values shared by every module of the model: optional values and results, the
    fixed-width integers the source casts between, and the fan-out delivery that
    the observer and renderer lists of both players perform. */
module Base {

  datatype Option<+T> = None | Some(value: T)

  datatype Result<+T, +E> = Ok(value: T) | Err(error: E)

  type byte = b: int | 0 <= b < 0x100

  const U64_LIMIT: int := 0x1_0000_0000_0000_0000
  const I64_LIMIT: int := 0x8000_0000_0000_0000

  type u64 = n: int | 0 <= n < U64_LIMIT

  /** Rust's `n as i64` on a u64: the same 64 bits read as two's complement. */
  function AsI64(n: u64): (r: int)
    ensures -I64_LIMIT <= r < I64_LIMIT
    ensures n < I64_LIMIT ==> r == n
    ensures n >= I64_LIMIT ==> r < 0 && r + U64_LIMIT == n
  {
    if n < I64_LIMIT then n else n - U64_LIMIT
  }

  /** Rust's `x as u64` on a float: truncation toward zero, saturating at both ends. */
  function SaturatingU64(x: real): (r: u64)
    ensures x <= 0.0 ==> r == 0
    ensures 0.0 <= x < U64_LIMIT as real ==> r as real <= x < r as real + 1.0
    ensures x >= U64_LIMIT as real ==> r == U64_LIMIT - 1
  {
    if x <= 0.0 then 0
    else if x >= U64_LIMIT as real then U64_LIMIT - 1
    else x.Floor
  }

  /** One delivery of `x` to every target, in the targets' order. */
  function Fanout<L, X>(targets: seq<L>, x: X): (d: seq<(L, X)>)
    ensures |d| == |targets|
    ensures forall i :: 0 <= i < |targets| ==> d[i] == (targets[i], x)
  {
    if targets == [] then [] else [(targets[0], x)] + Fanout(targets[1..], x)
  }

  lemma {:induction false} FanoutAppend<L, X>(a: seq<L>, b: seq<L>, x: X)
    ensures Fanout(a + b, x) == Fanout(a, x) + Fanout(b, x)
  {
    var l, r := Fanout(a + b, x), Fanout(a, x) + Fanout(b, x);
    assert |l| == |r|;
    forall i | 0 <= i < |l| ensures l[i] == r[i] {
      if i < |a| {
        assert (a + b)[i] == a[i];
      } else {
        assert (a + b)[i] == b[i - |a|];
      }
    }
  }

  /** Every registration receives exactly one copy: the number of deliveries to `t`
      is the number of times `t` is registered, and nothing but `x` is delivered. */
  lemma {:induction false} FanoutCount<L, X>(targets: seq<L>, x: X, t: L, y: X)
    ensures multiset(Fanout(targets, x))[(t, y)] == if y == x then multiset(targets)[t] else 0
  {
    if targets != [] {
      FanoutCount(targets[1..], x, t, y);
      assert targets == [targets[0]] + targets[1..];
      assert Fanout(targets, x) == [(targets[0], x)] + Fanout(targets[1..], x);
    }
  }

  /** With pairwise distinct registrations, each registered target gets exactly one copy. */
  lemma FanoutOnceEach<L, X>(targets: seq<L>, x: X, t: L)
    requires forall i, j :: 0 <= i < j < |targets| ==> targets[i] != targets[j]
    requires t in targets
    ensures multiset(Fanout(targets, x))[(t, x)] == 1
  {
    FanoutCount(targets, x, t, x);
    DistinctCount(targets, t);
  }

  lemma {:induction false} DistinctCount<L>(s: seq<L>, t: L)
    requires forall i, j :: 0 <= i < j < |s| ==> s[i] != s[j]
    requires t in s
    ensures multiset(s)[t] == 1
  {
    assert s == [s[0]] + s[1..];
    if s[0] == t {
      assert t !in s[1..] by {
        forall k | 0 <= k < |s[1..]| ensures s[1..][k] != t {
          assert s[1..][k] == s[k + 1];
        }
      }
      assert multiset(s[1..])[t] == 0;
    } else {
      DistinctCount(s[1..], t);
    }
  }
}
