/** Big-endian byte strings, as big.Int and go-ethereum's common package read and write them. */
module Bytes {
  import opened Sequences

  type byte = x: int | 0 <= x < 256

  function Pow256(n: nat): (r: nat)
    ensures r > 0
  {
    if n == 0 then 1 else 256 * Pow256(n - 1)
  }

  /** big.Int.SetBytes. */
  function BigEndian(s: seq<byte>): nat {
    if s == [] then 0 else 256 * BigEndian(s[..|s| - 1]) + s[|s| - 1]
  }

  /** big.Int.Bytes: no leading zero bytes. */
  function Minimal(v: nat): seq<byte> {
    if v == 0 then [] else Minimal(v / 256) + [v % 256]
  }

  function Zeros(n: nat): (r: seq<byte>)
    ensures |r| == n && forall i :: 0 <= i < n ==> r[i] == 0
  {
    if n == 0 then [] else [0] + Zeros(n - 1)
  }

  /** common.LeftPadBytes: a slice that is already long enough comes back as it is. */
  function LeftPad(s: seq<byte>, n: nat): (r: seq<byte>)
    ensures |r| == if |s| < n then n else |s|
  {
    if |s| >= n then s else Zeros(n - |s|) + s
  }

  /** The last n bytes, or all of them: common.BytesToHash and common.BytesToAddress crop from the left. */
  function Last(s: seq<byte>, n: nat): (r: seq<byte>)
    ensures |r| <= n
  {
    if |s| > n then s[|s| - n..] else s
  }

  lemma {:induction false} BigEndianBound(s: seq<byte>)
    ensures BigEndian(s) < Pow256(|s|)
  {
    if s != [] {
      BigEndianBound(s[..|s| - 1]);
    }
  }

  lemma {:induction false} BigEndianAppend(a: seq<byte>, b: seq<byte>)
    ensures BigEndian(a + b) == BigEndian(a) * Pow256(|b|) + BigEndian(b)
    decreases |b|
  {
    if b == [] {
      assert a + b == a;
    } else {
      var b' := b[..|b| - 1];
      AppendAllButLast(a, b);
      BigEndianAppend(a, b');
      MulShuffle(BigEndian(a), Pow256(|b'|));
    }
  }

  lemma MulShuffle(x: int, y: int)
    ensures 256 * (x * y) == x * (256 * y)
  {
  }

  /** The number a suffix spells is the remainder of the whole number. */
  lemma BigEndianSuffix(s: seq<byte>, k: nat)
    requires k <= |s|
    ensures BigEndian(s[k..]) == BigEndian(s) % Pow256(|s| - k)
  {
    assert s == s[..k] + s[k..];
    BigEndianAppend(s[..k], s[k..]);
    BigEndianBound(s[k..]);
    RemainderUnique(BigEndian(s), BigEndian(s[..k]), Pow256(|s| - k), BigEndian(s[k..]));
  }

  lemma RemainderUnique(x: nat, q: nat, m: nat, r: nat)
    requires m > 0 && x == q * m + r && r < m
    ensures x % m == r && x / m == q
  {
    var d := x / m - q;
    assert d * m == r - x % m by {
      assert x == m * (x / m) + x % m;
      assert d * m == m * (x / m) - q * m;
    }
    assert d <= 0 || d * m >= m;
    assert d >= 0 || d * m <= 0 - m;
  }

  lemma {:induction false} ZerosAreZero(n: nat)
    ensures BigEndian(Zeros(n)) == 0
  {
    if n > 0 {
      ZerosAreZero(n - 1);
      assert Zeros(n)[..n - 1] == Zeros(n - 1);
    }
  }

  lemma PaddingKeepsValue(s: seq<byte>, n: nat)
    ensures BigEndian(LeftPad(s, n)) == BigEndian(s)
  {
    if |s| < n {
      ZerosAreZero(n - |s|);
      BigEndianAppend(Zeros(n - |s|), s);
    }
  }

  lemma {:induction false} MinimalSpells(v: nat)
    ensures BigEndian(Minimal(v)) == v
  {
    if v > 0 {
      MinimalSpells(v / 256);
      assert Minimal(v)[..|Minimal(v)| - 1] == Minimal(v / 256);
    }
  }

  /** A number fits n bytes exactly when it is below 256 to the n. */
  lemma {:induction false} MinimalFits(v: nat, n: nat)
    ensures |Minimal(v)| <= n <==> v < Pow256(n)
    decreases n
  {
    if v > 0 && n > 0 {
      MinimalFits(v / 256, n - 1);
    }
  }

  /** Byte strings of one length are told apart by the numbers they spell. */
  lemma {:induction false} BigEndianInjective(a: seq<byte>, b: seq<byte>)
    requires |a| == |b| && BigEndian(a) == BigEndian(b)
    ensures a == b
  {
    if a != [] {
      BigEndianInjective(a[..|a| - 1], b[..|b| - 1]);
      assert a == a[..|a| - 1] + [a[|a| - 1]];
      assert b == b[..|b| - 1] + [b[|b| - 1]];
    }
  }
}
