/** The hash in the name of a chunk Secret: 64-bit FNV-1a, written in base 32 (RFC 4648, section 6) with the
    driver's own alphabet and without padding. */
module Hashing {
  import opened SecretApi

  const HASH_LENGTH := 13
  const ALPHABET := "abcdefghijklmnopqrstuvwxyz123456"

  predicate IsHashChar(c: char) {
    'a' <= c <= 'z' || '1' <= c <= '6'
  }

  predicate IsHash(s: string) {
    |s| == HASH_LENGTH && forall i :: 0 <= i < |s| ==> IsHashChar(s[i])
  }

  const MODULUS := 0x1_0000_0000_0000_0000

  /** An unsigned number of 64 bits. */
  type Word = n: nat | n < MODULUS

  const FNV_OFFSET: Word := 14695981039346656037
  const FNV_PRIME := 1099511628211

  function Pow2(n: nat): (p: nat)
    ensures p > 0
  {
    if n == 0 then 1 else 2 * Pow2(n - 1)
  }

  /** Exclusive or of the lowest `n` bits. */
  function XorBits(a: nat, b: nat, n: nat): (x: nat)
    ensures x < Pow2(n)
  {
    if n == 0 then 0 else 2 * XorBits(a / 2, b / 2, n - 1) + (if a % 2 == b % 2 then 0 else 1)
  }

  /** Only the lowest byte is changed. */
  function Xor(h: Word, b: bv8): Word {
    assert Pow2(8) == 256 && h / 256 < 0x100_0000_0000_0000;
    h / 256 * 256 + XorBits(h % 256, b as nat, 8)
  }

  /** The product wraps around. */
  function FnvStep(h: Word, b: bv8): Word {
    Xor(h, b) * FNV_PRIME % MODULUS
  }

  function Fnv(data: Bytes): Word {
    if data == [] then FNV_OFFSET else FnvStep(Fnv(data[..|data| - 1]), data[|data| - 1])
  }

  function Pow32(n: nat): (p: nat)
    ensures p > 0
  {
    if n == 0 then 1 else 32 * Pow32(n - 1)
  }

  /** The last `n` base-32 digits of `v`, most significant first. */
  function Encode32(v: nat, n: nat): (s: string)
    ensures |s| == n && forall i :: 0 <= i < n ==> IsHashChar(s[i])
  {
    if n == 0 then "" else DigitRoundTrip(v % 32); Encode32(v / 32, n - 1) + [ALPHABET[v % 32]]
  }

  function DigitValue(c: char): nat
  {
    if 'a' <= c <= 'z' then (c - 'a') as nat
    else if '1' <= c <= '6' then 26 + (c - '1') as nat
    else 0
  }

  function Decode32(s: string): nat {
    if s == "" then 0 else 32 * Decode32(s[..|s| - 1]) + DigitValue(s[|s| - 1])
  }

  lemma DigitRoundTrip(d: nat)
    requires d < 32
    ensures IsHashChar(ALPHABET[d]) && DigitValue(ALPHABET[d]) == d
  {
    assert forall i :: 0 <= i < 26 ==> ALPHABET[i] == 'a' + i as char;
    assert forall i :: 26 <= i < 32 ==> ALPHABET[i] == '1' + (i - 26) as char;
  }

  lemma {:induction false} Base32RoundTrip(v: nat, n: nat)
    requires v < Pow32(n)
    ensures Decode32(Encode32(v, n)) == v
  {
    if n > 0 {
      Base32RoundTrip(v / 32, n - 1);
      DigitRoundTrip(v % 32);
      var s := Encode32(v, n);
      assert s[..n - 1] == Encode32(v / 32, n - 1);
    }
  }

  /** 64 bits do not fill 13 digits of 5 bits: a zero bit is appended. */
  function HashText(h: Word): (s: string)
    ensures IsHash(s)
  {
    Encode32(2 * h, HASH_LENGTH)
  }

  function HashOf(data: Bytes): (s: string)
    ensures IsHash(s)
  {
    HashText(Fnv(data))
  }

  lemma Pow32Of13()
    ensures Pow32(13) == 0x2_0000_0000_0000_0000
  {
    assert Pow32(4) == 0x10_0000;
    assert Pow32(8) == 0x100_0000_0000;
    assert Pow32(12) == 0x1000_0000_0000_0000;
  }

  lemma HashTextDecodes(h: Word, n: nat)
    requires n == HASH_LENGTH
    ensures Decode32(Encode32(2 * h, n)) == 2 * h
  {
    Pow32Of13();
    Base32RoundTrip(2 * h, n);
  }

  /** Read as a number of 13 digits, the text is the sum with a zero bit appended. */
  lemma HashTextValue(h: Word)
    ensures Decode32(HashText(h)) == 2 * h
  {
    HashTextDecodes(h, HASH_LENGTH);
  }

  /** The encoding loses nothing: two chunks get the same hash text exactly when their 64-bit sums agree. */
  lemma HashTextInjective(g: Word, h: Word)
    ensures HashText(g) == HashText(h) <==> g == h
  {
    HashTextValue(g);
    HashTextValue(h);
  }

  /* ---------- What the hash tells apart ---------- */

  /** The inverse of the prime modulo 2^64. */
  const FNV_INVERSE := 14886173955864302971

  lemma TimesPrimeInjective(x: Word, y: Word)
    requires x * FNV_PRIME % MODULUS == y * FNV_PRIME % MODULUS
    ensures x == y
  {
    var p, q := x * FNV_PRIME / MODULUS, y * FNV_PRIME / MODULUS;
    assert (x - y) * FNV_PRIME == (p - q) * MODULUS;
    assert FNV_PRIME * FNV_INVERSE == 1 + 887285111055 * MODULUS;
    assert x - y == ((p - q) * FNV_INVERSE - (x - y) * 887285111055) * MODULUS;
  }

  lemma {:induction false} XorBitsInjective(v: nat, w: nat, b: nat, c: nat, n: nat)
    requires v < Pow2(n) && w < Pow2(n) && b < Pow2(n) && c < Pow2(n) && XorBits(v, b, n) == XorBits(w, c, n)
    ensures v == w <==> b == c
  {
    if n > 0 {
      XorBitsInjective(v / 2, w / 2, b / 2, c / 2, n - 1);
    }
  }

  lemma XorParts(h: Word, b: bv8)
    ensures Xor(h, b) / 256 == h / 256 && Xor(h, b) % 256 == XorBits(h % 256, b as nat, 8)
  {
    assert Pow2(8) == 256;
  }

  lemma XorInjective(g: Word, h: Word, b: bv8, c: bv8)
    requires Xor(g, b) == Xor(h, c)
    ensures b == c <==> g == h
  {
    XorParts(g, b);
    XorParts(h, c);
    assert Pow2(8) == 256;
    XorBitsInjective(g % 256, h % 256, b as nat, c as nat, 8);
    assert b as nat == c as nat <==> b == c;
  }

  /** A step loses nothing: other bytes and other sums before it give other sums after it. */
  lemma FnvStepInjective(g: Word, h: Word, b: bv8, c: bv8)
    requires FnvStep(g, b) == FnvStep(h, c)
    ensures b == c <==> g == h
  {
    TimesPrimeInjective(Xor(g, b), Xor(h, c));
    XorInjective(g, h, b, c);
  }

  /** Changing one byte changes the hash, wherever the byte is. */
  lemma {:induction false} OneByteChangesHash(data: Bytes, i: nat, b: bv8)
    requires i < |data| && data[i] != b
    ensures Fnv(data[i := b]) != Fnv(data) && HashOf(data[i := b]) != HashOf(data)
    decreases |data|
  {
    var other, n := data[i := b], |data| - 1;
    if i == n {
      assert other[..n] == data[..n];
    } else {
      assert other[..n] == data[..n][i := b];
      OneByteChangesHash(data[..n], i, b);
    }
    if Fnv(other) == Fnv(data) {
      FnvStepInjective(Fnv(other[..n]), Fnv(data[..n]), other[n], data[n]);
    }
    HashTextInjective(Fnv(other), Fnv(data));
  }

  lemma FnvOfTwo(b: bv8, c: bv8)
    ensures Fnv([b]) == FnvStep(FNV_OFFSET, b) && Fnv([b, c]) == FnvStep(Fnv([b]), c)
  {
    assert [b][..0] == [] && [b, c][..1] == [b];
  }

  lemma FnvStepOf(h: Word, b: bv8, byte: nat, last: nat, low: nat, sum: Word)
    requires b as nat == byte && h % 256 == last && XorBits(last, byte, 8) == low && low < 256
    requires (h - last + low) * FNV_PRIME % MODULUS == sum
    ensures FnvStep(h, b) == sum
  {
    assert h / 256 * 256 == h - last;
  }

  lemma FirstXor()
    ensures XorBits(37, 97, 8) == 68
  {
    assert XorBits(0, 0, 1) == 0;
    assert XorBits(0, 1, 2) == 1;
    assert XorBits(1, 3, 3) == 2;
    assert XorBits(2, 6, 4) == 4;
    assert XorBits(4, 12, 5) == 8;
    assert XorBits(9, 24, 6) == 17;
    assert XorBits(18, 48, 7) == 34;
  }

  lemma FirstStep(a: bv8)
    requires a as nat == 97
    ensures FnvStep(0xcbf29ce484222325, a) == 0xaf63dc4c8601ec8c
  {
    FirstXor();
    FnvStepOf(0xcbf29ce484222325, a, 97, 37, 68, 0xaf63dc4c8601ec8c);
  }

  lemma SecondXor()
    ensures XorBits(140, 98, 8) == 238
  {
    assert XorBits(1, 0, 1) == 1;
    assert XorBits(2, 1, 2) == 3;
    assert XorBits(4, 3, 3) == 7;
    assert XorBits(8, 6, 4) == 14;
    assert XorBits(17, 12, 5) == 29;
    assert XorBits(35, 24, 6) == 59;
    assert XorBits(70, 49, 7) == 119;
  }

  lemma SecondStep(b: bv8)
    requires b as nat == 98
    ensures FnvStep(0xaf63dc4c8601ec8c, b) == 0x089c4407b545986a
  {
    SecondXor();
    FnvStepOf(0xaf63dc4c8601ec8c, b, 98, 140, 238, 0x089c4407b545986a);
  }

  /** Published sums of FNV-1a with 64 bits: of nothing, of the letter a, and of the letters ab. */
  lemma FnvTestVectors(a: bv8, b: bv8)
    requires a as nat == 97 && b as nat == 98
    ensures Fnv([]) == 0xcbf29ce484222325 && Fnv([a]) == 0xaf63dc4c8601ec8c && Fnv([a, b]) == 0x089c4407b545986a
  {
    FnvOfTwo(a, b);
    FirstStep(a);
    SecondStep(b);
  }

  /** The one hasher that all chunks share. */
  class Hasher {
    var sum: Word

    constructor ()
      ensures sum == FNV_OFFSET
    {
      sum := FNV_OFFSET;
    }

    method Reset()
      modifies this
      ensures sum == FNV_OFFSET
    {
      sum := FNV_OFFSET;
    }

    method Write(data: Bytes)
      modifies this
      ensures old(sum) == FNV_OFFSET ==> sum == Fnv(data)
    {
      var i := 0;
      while i < |data|
        invariant 0 <= i <= |data|
        invariant old(sum) == FNV_OFFSET ==> sum == Fnv(data[..i])
      {
        assert data[..i + 1][..i] == data[..i];
        sum := FnvStep(sum, data[i]);
        i := i + 1;
      }
      assert data[..|data|] == data;
    }

    /** Whatever was hashed before does not matter. */
    method HashForData(data: Bytes) returns (text: string)
      modifies this
      ensures text == HashOf(data)
    {
      Reset();
      Write(data);
      text := HashText(sum);
    }
  }
}
