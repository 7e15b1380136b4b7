/** The 32-bit FNV-1a hash that turns message names into message ids (src/ipc_internal.h). */
module Fnv {
  import opened Types
  import opened Bits

  const OFFSET_BASIS: Uint32 := 0x811c9dc5
  const PRIME := 0x01000193
  /** The multiplicative inverse of PRIME modulo 2^32; PRIME is odd, so it has one. */
  const PRIME_INVERSE := 0x359c449b

  function XorByte(h: Uint32, b: Byte): Uint32 {
    XorStaysUint32(h, b);
    Xor(h, b)
  }

  lemma XorStaysUint32(h: Uint32, b: Byte)
    ensures Xor(h, b) < UINT32_LIMIT
  {
    Pow2Values();
    XorBounded(h, b, 32);
  }

  lemma Pow2Values()
    ensures Pow2(32) == UINT32_LIMIT
  {
    assert Pow2(8) == 0x100;
    assert Pow2(16) == 0x1_0000;
    assert Pow2(24) == 0x100_0000;
  }

  /** `h = (h ^ byte) * prime` on a uint32_t. */
  function Step(h: Uint32, b: Byte): Uint32 {
    (XorByte(h, b) * PRIME) % UINT32_LIMIT
  }

  /** Undoes `Step` for the same byte. */
  function Unstep(h: Uint32, b: Byte): Uint32 {
    XorByte((h * PRIME_INVERSE) % UINT32_LIMIT, b)
  }

  /** The hash state after absorbing `s` from state `h`. */
  function HashFrom(h: Uint32, s: seq<Byte>): Uint32
    decreases |s|
  {
    if s == [] then h else HashFrom(Step(h, s[0]), s[1..])
  }

  function Hash(s: seq<Byte>): Uint32 {
    HashFrom(OFFSET_BASIS, s)
  }

  lemma ModShift(x: Uint32, t: int)
    ensures (x + UINT32_LIMIT * t) % UINT32_LIMIT == x
  {}

  /** Multiplying by `a` and then by `b`, both times modulo 2^32, is the identity when a * b is 1 modulo 2^32. */
  lemma InversePair(x: Uint32, a: nat, b: nat, c: nat)
    requires a * b == 1 + UINT32_LIMIT * c
    ensures (((x * a) % UINT32_LIMIT) * b) % UINT32_LIMIT == x
  {
    var q, r := (x * a) / UINT32_LIMIT, (x * a) % UINT32_LIMIT;
    calc {
      r * b;
      (x * a - UINT32_LIMIT * q) * b;
      x * (a * b) - UINT32_LIMIT * (q * b);
      x * (1 + UINT32_LIMIT * c) - UINT32_LIMIT * (q * b);
      x + UINT32_LIMIT * (c * x - q * b);
    }
    ModShift(x, c * x - q * b);
  }

  lemma InverseCancels(x: Uint32)
    ensures (((x * PRIME) % UINT32_LIMIT) * PRIME_INVERSE) % UINT32_LIMIT == x
    ensures (((x * PRIME_INVERSE) % UINT32_LIMIT) * PRIME) % UINT32_LIMIT == x
  {
    InversePair(x, PRIME, PRIME_INVERSE, 3513497);
    InversePair(x, PRIME_INVERSE, PRIME, 3513497);
  }

  /** Each byte step is a bijection on 32-bit states. */
  lemma StepBijective(h: Uint32, b: Byte)
    ensures Unstep(Step(h, b), b) == h && Step(Unstep(h, b), b) == h
  {
    InverseCancels(XorByte(h, b));
    InverseCancels(h);
    XorTwice(h, b);
    XorTwice((h * PRIME_INVERSE) % UINT32_LIMIT, b);
  }

  /** From one state, different bytes lead to different states. */
  lemma StepSeparatesBytes(h: Uint32, a: Byte, b: Byte)
    requires a != b
    ensures Step(h, a) != Step(h, b)
  {
    InverseCancels(XorByte(h, a));
    InverseCancels(XorByte(h, b));
    XorCommutes(h, a);
    XorCommutes(h, b);
    XorTwice(a, h);
    XorTwice(b, h);
  }

  /** Absorbing the same bytes keeps different states different: a common suffix never merges two hashes. */
  lemma {:induction false} SuffixKeepsApart(g: Uint32, h: Uint32, s: seq<Byte>)
    requires g != h
    ensures HashFrom(g, s) != HashFrom(h, s)
    decreases |s|
  {
    if s != [] {
      StepBijective(g, s[0]);
      StepBijective(h, s[0]);
      SuffixKeepsApart(Step(g, s[0]), Step(h, s[0]), s[1..]);
    }
  }

  /** Two names of one length that differ in exactly one byte never share a message id. */
  lemma {:induction false} OneByteApartHashesDiffer(h: Uint32, s: seq<Byte>, t: seq<Byte>, i: nat)
    requires |s| == |t| && i < |s| && s[i] != t[i]
    requires forall j :: 0 <= j < |s| && j != i ==> s[j] == t[j]
    ensures HashFrom(h, s) != HashFrom(h, t)
    decreases i
  {
    if i == 0 {
      StepSeparatesBytes(h, s[0], t[0]);
      assert s[1..] == t[1..];
      SuffixKeepsApart(Step(h, s[0]), Step(h, t[0]), s[1..]);
    } else {
      OneByteApartHashesDiffer(Step(h, s[0]), s[1..], t[1..], i - 1);
    }
  }

  /** `n` is where the C string `s` ends. */
  ghost predicate Terminated(s: seq<Byte>, n: nat) {
    n < |s| && s[n] == 0 && forall i :: 0 <= i < n ==> s[i] != 0
  }

  lemma {:induction false} HashFromSnoc(h: Uint32, s: seq<Byte>, b: Byte)
    ensures HashFrom(h, s + [b]) == Step(HashFrom(h, s), b)
    decreases |s|
  {
    if s != [] {
      assert (s + [b])[1..] == s[1..] + [b];
      HashFromSnoc(Step(h, s[0]), s[1..], b);
    }
  }

  /** _ipc_fnv1a: hashes the bytes before the terminating NUL. */
  method Fnv1a(s: array<Byte>, ghost n: nat) returns (h: Uint32)
    requires Terminated(s[..], n)
    ensures h == Hash(s[..n])
  {
    h := OFFSET_BASIS;
    var p := 0;
    while s[p] != 0
      invariant p <= n
      invariant h == Hash(s[..p])
      decreases n - p
    {
      assert s[..p + 1] == s[..p] + [s[p]];
      HashFromSnoc(OFFSET_BASIS, s[..p], s[p]);
      h := (XorByte(h, s[p]) * PRIME) % UINT32_LIMIT;
      p := p + 1;
    }
  }

  /** The published FNV-1a values of the empty string and of "a". */
  lemma KnownHashes()
    ensures Hash([]) == 0x811c9dc5 && Hash([97]) == 0xe40c292c
  {
    XorZero(16922939);
    assert Xor(33845879, 1) == 33845878;
    assert Xor(67691758, 3) == 67691757;
    assert Xor(135383516, 6) == 135383514;
    assert Xor(270767032, 12) == 270767028;
    assert Xor(541534065, 24) == 541534057;
    assert Xor(1083068130, 48) == 1083068114;
    assert Xor(2166136261, 97) == 2166136228;
    assert Step(OFFSET_BASIS, 97) == 0xe40c292c;
    assert [97 as Byte][1..] == [];
  }
}
