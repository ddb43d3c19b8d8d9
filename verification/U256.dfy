/** The 256-bit codec of the order feed: four 64-bit limbs, and 32 bytes, big-endian. */
module U256 {
  import opened Common

  type byte = x: int | 0 <= x < 256

  datatype U256Limbs = U256Limbs(limb1: nat, limb2: nat, limb3: nat, limb4: nat)

  function Pow256(k: nat): (p: nat)
    ensures p > 0
  {
    if k == 0 then 1 else 256 * Pow256(k - 1)
  }

  const TWO_64: nat := 0x1_0000_0000_0000_0000

  ghost predicate InRange(u: U256Limbs) {
    u.limb1 < TWO_64 && u.limb2 < TWO_64 && u.limb3 < TWO_64 && u.limb4 < TWO_64
  }

  // ---------------------------------------------------------------- what the codec means

  /** The number some bytes stand for, most significant first. */
  ghost function ValueBE(bs: seq<byte>): nat {
    if bs == [] then 0 else 256 * ValueBE(bs[..|bs| - 1]) + bs[|bs| - 1]
  }

  /** The last n bytes of a number, most significant first. */
  ghost function LastBytes(x: nat, n: nat): (bs: seq<byte>)
    ensures |bs| == n
  {
    if n == 0 then [] else LastBytes(x / 256, n - 1) + [x % 256]
  }

  ghost function BytesBE(u: U256Limbs): (bs: seq<byte>)
    ensures |bs| == 32
  {
    LastBytes(u.limb4, 8) + LastBytes(u.limb3, 8) + LastBytes(u.limb2, 8) + LastBytes(u.limb1, 8)
  }

  ghost function LimbsBE(bs: seq<byte>): U256Limbs
    requires |bs| == 32
  {
    U256Limbs(ValueBE(bs[24..32]), ValueBE(bs[16..24]), ValueBE(bs[8..16]), ValueBE(bs[0..8]))
  }

  function ToBigInt(u: U256Limbs): nat {
    u.limb1 + u.limb2 * TWO_64 + u.limb3 * (TWO_64 * TWO_64) + u.limb4 * (TWO_64 * TWO_64 * TWO_64)
  }

  // ---------------------------------------------------------------- division by powers

  lemma DivideTwice(x: nat, p: nat)
    requires p > 0
    ensures x / 256 / p == x / (256 * p)
  {
    var q, r := x / 256 / p, x / 256 % p;
    assert x / 256 == p * q + r;
    var rest := 256 * r + x % 256;
    assert x == 256 * (p * q + r) + x % 256 == (256 * p) * q + rest;
    assert 0 <= rest < 256 * p;
    QuotientIs(x, 256 * p, q, rest);
  }

  lemma QuotientIs(x: int, d: int, q: int, r: int)
    requires d > 0 && x == d * q + r && 0 <= r < d
    ensures x / d == q && x % d == r
  {
    assert x == d * (x / d) + x % d;
    assert d * (x / d - q) == r - x % d;
    Multiples(d, x / d - q);
  }

  lemma {:induction false} LastBytesAt(x: nat, n: nat, i: nat)
    requires i < n
    ensures LastBytes(x, n)[i] == x / Pow256(n - 1 - i) % 256
  {
    if i == n - 1 {
      assert Pow256(0) == 1;
    } else {
      LastBytesAt(x / 256, n - 1, i);
      DivideTwice(x, Pow256(n - 2 - i));
    }
  }

  lemma {:induction false} LastBytesOfValue(bs: seq<byte>)
    ensures LastBytes(ValueBE(bs), |bs|) == bs
  {
    if bs != [] {
      LastBytesOfValue(bs[..|bs| - 1]);
    }
  }

  lemma RemainderTwice(x: nat, p: nat)
    requires p > 0
    ensures x % (256 * p) == 256 * (x / 256 % p) + x % 256
  {
    var q, r := x / 256 / p, x / 256 % p;
    assert x / 256 == p * q + r;
    assert x == 256 * (p * q + r) + x % 256 == (256 * p) * q + (256 * r + x % 256);
    QuotientIs(x, 256 * p, q, 256 * r + x % 256);
  }

  lemma {:induction false} ValueOfLastBytes(x: nat, n: nat)
    ensures ValueBE(LastBytes(x, n)) == x % Pow256(n)
  {
    if n > 0 {
      ValueOfLastBytes(x / 256, n - 1);
      RemainderTwice(x, Pow256(n - 1));
    }
  }

  lemma {:induction false} ValueBelow(bs: seq<byte>)
    ensures ValueBE(bs) < Pow256(|bs|)
  {
    if bs != [] {
      ValueBelow(bs[..|bs| - 1]);
    }
  }

  lemma {:induction false} ValueOfConcat(a: seq<byte>, b: seq<byte>)
    ensures ValueBE(a + b) == ValueBE(a) * Pow256(|b|) + ValueBE(b)
  {
    if b == [] {
      assert a + b == a;
    } else {
      var n := |b| - 1;
      assert (a + b)[..|a + b| - 1] == a + b[..n];
      ValueOfConcat(a, b[..n]);
      Regroup(ValueBE(a), Pow256(n));
    }
  }

  lemma Regroup(a: nat, p: nat)
    ensures a * (256 * p) == 256 * (a * p)
  {
  }

  lemma EightBytes()
    ensures Pow256(8) == TWO_64
  {
    assert Pow256(4) == 0x1_0000_0000 by {
      assert Pow256(2) == 0x1_0000;
    }
    assert Pow256(6) == 0x1_0000_0000_0000;
  }

  // ---------------------------------------------------------------- round trips

  /** Bytes to limbs and back. */
  lemma BytesRoundTrip(bs: seq<byte>)
    requires |bs| == 32
    ensures BytesBE(LimbsBE(bs)) == bs && InRange(LimbsBE(bs))
  {
    EightBytes();
    LastBytesOfValue(bs[0..8]);
    LastBytesOfValue(bs[8..16]);
    LastBytesOfValue(bs[16..24]);
    LastBytesOfValue(bs[24..32]);
    ValueBelow(bs[0..8]);
    ValueBelow(bs[8..16]);
    ValueBelow(bs[16..24]);
    ValueBelow(bs[24..32]);
    assert bs == bs[0..8] + bs[8..16] + bs[16..24] + bs[24..32];
  }

  lemma LimbSurvivesIff(x: nat)
    ensures ValueBE(LastBytes(x, 8)) == x <==> x < TWO_64
  {
    EightBytes();
    ValueOfLastBytes(x, 8);
  }

  /** Limbs to bytes and back: exactly the limbs in range survive. */
  lemma LimbsRoundTripIff(u: U256Limbs)
    ensures LimbsBE(BytesBE(u)) == u <==> InRange(u)
  {
    var bs := BytesBE(u);
    assert bs[0..8] == LastBytes(u.limb4, 8);
    assert bs[8..16] == LastBytes(u.limb3, 8);
    assert bs[16..24] == LastBytes(u.limb2, 8);
    assert bs[24..32] == LastBytes(u.limb1, 8);
    LimbSurvivesIff(u.limb1);
    LimbSurvivesIff(u.limb2);
    LimbSurvivesIff(u.limb3);
    LimbSurvivesIff(u.limb4);
  }

  lemma ValueOfEights(a: seq<byte>, b: seq<byte>, c: seq<byte>, d: seq<byte>)
    requires |b| == 8 && |c| == 8 && |d| == 8
    ensures ValueBE(a + b + c + d) == ((ValueBE(a) * TWO_64 + ValueBE(b)) * TWO_64 + ValueBE(c)) * TWO_64 + ValueBE(d)
  {
    EightBytes();
    ValueOfConcat(a + b + c, d);
    ValueOfConcat(a + b, c);
    ValueOfConcat(a, b);
  }

  /** The bigint of the limbs is the big-endian value of the bytes. */
  lemma BigIntIsValue(bs: seq<byte>)
    requires |bs| == 32
    ensures ToBigInt(LimbsBE(bs)) == ValueBE(bs)
  {
    var a, b, c, d := bs[0..8], bs[8..16], bs[16..24], bs[24..32];
    assert bs == a + b + c + d;
    ValueOfEights(a, b, c, d);
  }

  ghost function LimbsOf(n: nat): U256Limbs {
    U256Limbs(n % TWO_64, n / TWO_64 % TWO_64, n / TWO_64 / TWO_64 % TWO_64, n / TWO_64 / TWO_64 / TWO_64)
  }

  /** Limbs in range and numbers below 2^256 are in bijection: each number has its limbs... */
  lemma BigIntOfLimbs(n: nat)
    requires n < TWO_64 * TWO_64 * TWO_64 * TWO_64
    ensures InRange(LimbsOf(n)) && ToBigInt(LimbsOf(n)) == n
  {
    var a := n / TWO_64;
    var b := a / TWO_64;
    assert n == TWO_64 * a + n % TWO_64;
    assert a == TWO_64 * b + a % TWO_64;
    assert b == TWO_64 * (b / TWO_64) + b % TWO_64;
  }

  /** ...and each choice of limbs its number. */
  lemma LimbsOfBigInt(u: U256Limbs)
    requires InRange(u)
    ensures LimbsOf(ToBigInt(u)) == u && ToBigInt(u) < TWO_64 * TWO_64 * TWO_64 * TWO_64
  {
    var c := u.limb3 + TWO_64 * u.limb4;
    var b := u.limb2 + TWO_64 * c;
    assert ToBigInt(u) == u.limb1 + TWO_64 * b;
    QuotientIs(ToBigInt(u), TWO_64, b, u.limb1);
    QuotientIs(b, TWO_64, c, u.limb2);
    QuotientIs(c, TWO_64, u.limb4, u.limb3);
  }

  // ---------------------------------------------------------------- the loops

  lemma ByteMore(bytes: seq<byte>, k: nat)
    requires |bytes| == 8 && k < 8
    ensures ValueBE(bytes[7 - k..]) == ValueBE(bytes[8 - k..]) + bytes[7 - k] * Pow256(k)
  {
    assert bytes[7 - k..] == [bytes[7 - k]] + bytes[8 - k..];
    ValueOfConcat([bytes[7 - k]], bytes[8 - k..]);
    assert ValueBE([bytes[7 - k]]) == bytes[7 - k];
  }

  /** Reading past the end of the buffer throws; bytes after the eighth are not looked at. */
  method BytesToU64(data: seq<byte>, bigEndian: bool) returns (result: Result<nat, string>)
    ensures result.Ok? <==> |data| >= 8
    ensures result.Ok? ==> result.value == ValueBE(if bigEndian then data[..8] else Reversed(data[..8]))
  {
    var order := if bigEndian then [7, 6, 5, 4, 3, 2, 1, 0] else [0, 1, 2, 3, 4, 5, 6, 7];
    assert forall k :: 0 <= k < 8 ==> order[k] == if bigEndian then 7 - k else k;
    ghost var bytes := if |data| < 8 then LastBytes(0, 8) else if bigEndian then data[..8] else Reversed(data[..8]);
    assert |data| >= 8 ==> forall k :: 0 <= k < 8 ==> bytes[7 - k] == data[order[k]];
    var sum := 0;
    for counter := 0 to 8
      invariant |data| >= 8 ==> sum == ValueBE(bytes[8 - counter..])
      invariant counter <= |data| && (bigEndian && counter > 0 ==> |data| >= 8)
    {
      var i := order[counter];
      if i >= |data| {
        return Err("cannot convert undefined to a bigint");
      }
      ByteMore(bytes, counter);
      sum := sum + data[i] * Pow256(counter);
    }
    return Ok(sum);
  }

  ghost function Reversed(s: seq<byte>): (r: seq<byte>)
    ensures |r| == |s|
    ensures forall i :: 0 <= i < |s| ==> r[i] == s[|s| - 1 - i]
  {
    if s == [] then [] else Reversed(s[1..]) + [s[0]]
  }

  /** The limb the i-th byte belongs to. */
  function LimbAt(u: U256Limbs, i: nat): nat {
    match i / 8
    case 0 => u.limb4
    case 1 => u.limb3
    case 2 => u.limb2
    case _ => u.limb1
  }

  lemma ByteAt(u: U256Limbs, i: nat)
    requires i < 32
    ensures BytesBE(u)[i] == LimbAt(u, i) / Pow256(7 - i % 8) % 256
  {
    LastBytesAt(LimbAt(u, i), 8, i % 8);
    assert BytesBE(u)[i] == LastBytes(LimbAt(u, i), 8)[i % 8];
  }

  method ToBytesBE(u: U256Limbs) returns (result: array<byte>)
    ensures fresh(result) && result[..] == BytesBE(u)
  {
    result := new byte[32](_ => 0);
    for i := 0 to 32
      invariant forall j :: 0 <= j < i ==> result[j] == BytesBE(u)[j]
    {
      ByteAt(u, i);
      var shift := 7 - i % 8;
      match i / 8 {
        case 0 => result[i] := u.limb4 / Pow256(shift) % 256;
        case 1 => result[i] := u.limb3 / Pow256(shift) % 256;
        case 2 => result[i] := u.limb2 / Pow256(shift) % 256;
        case _ => result[i] := u.limb1 / Pow256(shift) % 256;
      }
    }
  }

  /** `Buffer.subarray`: what lies within the buffer. */
  function Subarray(data: seq<byte>, from: nat, to: nat): seq<byte>
    requires from <= to
  {
    if |data| <= from then [] else data[from..if |data| < to then |data| else to]
  }

  method FromBytesBE(data: seq<byte>) returns (u: Result<U256Limbs, string>)
    ensures u.Ok? <==> |data| >= 32
    ensures u.Ok? ==> u.value == LimbsBE(data[..32])
  {
    var limb4 := BytesToU64(Subarray(data, 0, 8), true);
    var limb3 := BytesToU64(Subarray(data, 8, 16), true);
    var limb2 := BytesToU64(Subarray(data, 16, 24), true);
    var limb1 := BytesToU64(Subarray(data, 24, 32), true);
    if limb4.Err? || limb3.Err? || limb2.Err? || limb1.Err? {
      return Err("cannot convert undefined to a bigint");
    }
    u := Ok(U256Limbs(limb1.value, limb2.value, limb3.value, limb4.value));
    ghost var b := data[..32];
    assert b[0..8] == data[0..8][..8] && b[8..16] == data[8..16][..8];
    assert b[16..24] == data[16..24][..8] && b[24..32] == data[24..32][..8];
  }
}
