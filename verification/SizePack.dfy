/**
 * The two size codecs of lib/vtrc/common/sizepack-policy.h: a little-endian base-128 varint
 * (ULEB128, section 7.6 of DWARF Version 5) and a big-endian fixed-width integer, both over the
 * 64-bit `size_t`. Masks and shifts of unsigned words are written as `%`, `/` and `*`; an `|` of
 * disjoint bit fields is written as `+`.
 */
module SizePack {
  import opened Bytes
  import opened Sequences

  const WIDTH: nat := 8

  // ---- varint: reference definitions -------------------------------------------------------

  function VarintPack(n: nat): (s: seq<byte>)
    ensures s != [] && s[|s| - 1] < 128
    ensures forall i :: 0 <= i < |s| - 1 ==> s[i] >= 128
  {
    if n < 128 then [n] else [n % 128 + 128] + VarintPack(n / 128)
  }

  /** Octets up to and including the first one below 0x80; 0 when there is none. */
  function VarintLength(s: seq<byte>): (len: nat)
    ensures len <= |s|
  {
    if s == [] then 0
    else if s[0] < 128 then 1
    else if VarintLength(s[1..]) == 0 then 0 else 1 + VarintLength(s[1..])
  }

  /** The base-128 number read up to the first octet below 0x80, or to the end. */
  function VarintValue(s: seq<byte>): nat {
    if s == [] then 0
    else if s[0] < 128 then s[0]
    else s[0] - 128 + 128 * VarintValue(s[1..])
  }

  function Pow128(k: nat): (p: nat)
    ensures p > 0
  {
    if k == 0 then 1 else 128 * Pow128(k - 1)
  }

  // ---- varint: laws ------------------------------------------------------------------------

  /** The length is the position of the first octet below 0x80. */
  lemma {:induction false} VarintLengthIs(s: seq<byte>, k: nat)
    requires k < |s| && s[k] < 128 && forall i :: 0 <= i < k ==> s[i] >= 128
    ensures VarintLength(s) == k + 1
  {
    if k > 0 {
      VarintLengthIs(s[1..], k - 1);
    }
  }

  lemma {:induction false} VarintLengthZero(s: seq<byte>)
    requires forall i :: 0 <= i < |s| ==> s[i] >= 128
    ensures VarintLength(s) == 0
  {
    if s != [] {
      VarintLengthZero(s[1..]);
    }
  }

  lemma {:induction false} VarintValueOfPack(n: nat, rest: seq<byte>)
    ensures VarintValue(VarintPack(n) + rest) == n
  {
    var s := VarintPack(n) + rest;
    if n < 128 {
      assert s[0] == n;
    } else {
      VarintValueOfPack(n / 128, rest);
      assert s[1..] == VarintPack(n / 128) + rest;
    }
  }

  lemma {:induction false} VarintPackWidth(n: nat, k: nat)
    requires n < Pow128(k + 1)
    ensures |VarintPack(n)| <= k + 1
  {
    if n >= 128 {
      assert Pow128(k + 1) == 128 * Pow128(k);
      VarintPackWidth(n / 128, k - 1);
    }
  }

  /** Packing any word takes at most ten octets and is undone whatever follows it. */
  lemma VarintRoundTrip(n: word, rest: seq<byte>)
    ensures 1 <= |VarintPack(n)| <= 10
    ensures VarintLength(VarintPack(n) + rest) == |VarintPack(n)|
    ensures VarintValue(VarintPack(n) + rest) == n
  {
    var p := VarintPack(n);
    VarintValueOfPack(n, rest);
    VarintLengthIs(p + rest, |p| - 1);
    assert Pow128(5) == 0x8_0000_0000;
    assert Pow128(10) == 0x40_0000_0000_0000_0000;
    VarintPackWidth(n, 9);
  }

  /** A size cut anywhere before its last octet is not yet readable. */
  lemma VarintProperPrefix(n: word, k: nat)
    requires k < |VarintPack(n)|
    ensures VarintLength(VarintPack(n)[..k]) == 0
  {
    VarintLengthZero(VarintPack(n)[..k]);
  }

  /** A readable length and its value depend only on the octets they cover. */
  lemma {:induction false} VarintPrefixOnly(s: seq<byte>, more: seq<byte>)
    requires VarintLength(s) > 0
    ensures VarintLength(s + more) == VarintLength(s)
    ensures VarintValue(s + more) == VarintValue(s)
  {
    if s[0] >= 128 {
      assert (s + more)[1..] == s[1..] + more;
      VarintPrefixOnly(s[1..], more);
    }
  }

  /** Re-packing what was read gives back the octets read exactly for the minimal encodings. */
  lemma {:induction false} VarintMinimal(s: seq<byte>)
    requires VarintLength(s) > 0
    ensures VarintPack(VarintValue(s)) == s[..VarintLength(s)]
            <==> VarintLength(s) == 1 || s[VarintLength(s) - 1] != 0
  {
    var len, v := VarintLength(s), VarintValue(s);
    if s[0] < 128 {
      assert s[..1] == [s[0]];
    } else {
      var t := s[1..];
      VarintMinimal(t);
      assert s[..len] == [s[0]] + t[..len - 1];
      assert v / 128 == VarintValue(t) && v % 128 == s[0] - 128;
      if v < 128 {
        assert VarintValue(t) == 0;
        assert |VarintPack(v)| == 1 < len;
        ZeroValue(t);
        assert s[len - 1] == t[len - 2] == 0;
      } else {
        assert VarintPack(v) == [s[0]] + VarintPack(VarintValue(t));
        assert VarintPack(v) == s[..len] <==> VarintPack(VarintValue(t)) == t[..len - 1] by {
          if VarintPack(v) == s[..len] {
            assert VarintPack(VarintValue(t)) == VarintPack(v)[1..] == s[..len][1..] == t[..len - 1];
          }
        }
        if len == 2 {
          assert t[0] == VarintValue(t);
        }
      }
    }
  }

  lemma {:induction false} ZeroValue(s: seq<byte>)
    requires VarintLength(s) > 0 && VarintValue(s) == 0
    ensures s[VarintLength(s) - 1] == 0
  {
    if s[0] >= 128 {
      ZeroValue(s[1..]);
    }
  }

  // ---- varint: the loops -------------------------------------------------------------------

  method PackVarint(size: word) returns (res: seq<byte>)
    ensures res == VarintPack(size)
  {
    var left: nat := size;
    res := [];
    while left > 0x7F
      invariant VarintPack(size) == res + VarintPack(left)
    {
      ghost var next := [left % 128 + 128];
      assert res + (next + VarintPack(left / 128)) == (res + next) + VarintPack(left / 128);
      res := res + [left % 128 + 128];
      left := left / 128;
    }
    res := res + [left];
  }

  lemma NextPacked(p: seq<byte>, index: nat, left: nat)
    requires index <= |p| && p[index..] == VarintPack(left)
    ensures left > 0x7F ==> index + 1 < |p| && p[index] == left % 128 + 128 && p[index + 1..] == VarintPack(left / 128)
    ensures left <= 0x7F ==> index + 1 == |p| && p[index] == left
  {
    var t := p[index..];
    assert p[index] == t[0] && p[index + 1..] == t[1..];
  }

  /** The overload writing into a caller's buffer, which must have room for the encoding. */
  method PackVarintTo(size: word, buffer: array<byte>) returns (index: nat)
    requires |VarintPack(size)| <= buffer.Length
    modifies buffer
    ensures index == |VarintPack(size)|
    ensures buffer[..index] == VarintPack(size)
    ensures forall k :: index <= k < buffer.Length ==> buffer[k] == old(buffer[k])
  {
    hide VarintPack;
    var left: nat := size;
    ghost var p := VarintPack(size);
    assert p[0..] == p;
    index := 0;
    while left > 0x7F
      invariant index < |p| && p[index..] == VarintPack(left)
      invariant forall k :: 0 <= k < index ==> buffer[k] == p[k]
      invariant forall k :: index <= k < buffer.Length ==> buffer[k] == old(buffer[k])
    {
      NextPacked(p, index, left);
      buffer[index] := left % 128 + 128;
      index := index + 1;
      left := left / 128;
    }
    NextPacked(p, index, left);
    buffer[index] := left;
    index := index + 1;
  }

  method LengthVarint(s: seq<byte>) returns (length: nat)
    ensures length == VarintLength(s)
  {
    var last: byte := 0x80;
    var i := 0;
    while i != |s| && last >= 128
      invariant i <= |s|
      invariant last >= 128 ==> forall k :: 0 <= k < i ==> s[k] >= 128
      invariant last < 128 ==> i > 0 && s[i - 1] == last && forall k :: 0 <= k < i - 1 ==> s[k] >= 128
    {
      last := s[i];
      i := i + 1;
    }
    if last >= 128 {
      VarintLengthZero(s);
      length := 0;
    } else {
      VarintLengthIs(s, i - 1);
      length := i;
    }
  }

  /** The significant octets of a packed word. A zero takes one octet packed and none here. */
  method PackedLengthVarint(input: word) returns (res: nat)
    ensures input > 0 ==> res == |VarintPack(input)|
    ensures input == 0 ==> res == 0 && |VarintPack(input)| == 1
  {
    var left: nat := input;
    res := 0;
    while left != 0
      invariant left > 0 ==> res + |VarintPack(left)| == |VarintPack(input)|
      invariant left == 0 && input > 0 ==> res == |VarintPack(input)|
      invariant input == 0 ==> res == 0 && left == 0
    {
      assert left < 128 ==> |VarintPack(left)| == 1;
      res := res + 1;
      left := left / 128;
    }
  }

  /** The octets `unpack` looks at: to the terminator if there is one, else all. */
  function Visited(s: seq<byte>): nat {
    if VarintLength(s) > 0 then VarintLength(s) else |s|
  }

  lemma Distribute(a: nat, p: nat, b: nat)
    ensures 128 * (a + p * b) == 128 * a + (128 * p) * b
  {
  }

  lemma {:induction false} ValueSplit(s: seq<byte>, k: nat)
    requires k <= |s| && forall i :: 0 <= i < k ==> s[i] >= 128
    ensures VarintValue(s) == VarintValue(s[..k]) + Pow128(k) * VarintValue(s[k..])
  {
    if k == 0 {
      assert s[0..] == s;
    } else {
      ValueSplit(s[1..], k - 1);
      assert s[..k][1..] == s[1..][..k - 1];
      assert s[1..][k - 1..] == s[k..];
      Distribute(VarintValue(s[1..][..k - 1]), Pow128(k - 1), VarintValue(s[k..]));
    }
  }

  lemma LastValue(s: seq<byte>, i: nat)
    requires i < |s|
    ensures s[i] >= 128 ==> VarintValue(s[..i + 1][i..]) == s[i] % 128
    ensures s[i] < 128 ==> VarintValue(s[i..]) == s[i] % 128
  {
    assert s[i..][0] == s[i];
    var one := s[..i + 1][i..];
    assert one == [s[i]] && one[1..] == [];
  }

  lemma NextOctet(s: seq<byte>, i: nat)
    requires i < |s| && forall k :: 0 <= k < i ==> s[k] >= 128
    ensures s[i] >= 128 ==> VarintValue(s[..i + 1]) == VarintValue(s[..i]) + Pow128(i) * (s[i] % 128)
    ensures s[i] < 128 ==> VarintValue(s) == VarintValue(s[..i]) + Pow128(i) * (s[i] % 128)
  {
    LastValue(s, i);
    TakeOneMore(s, i);
    hide Pow128, VarintValue;
    ValueSplit(s, i);
    ValueSplit(s[..i + 1], i);
  }

  lemma WrapSum(a: nat, b: nat)
    ensures Wrap(Wrap(a) + b) == Wrap(a + b)
  {
  }

  /**
   * The source shifts by 7 a visited octet, so at most ten octets may be visited; the tenth is
   * truncated to the word. Its only caller checks the length first.
   */
  method UnpackVarint(s: seq<byte>) returns (res: word)
    requires Visited(s) <= 10
    ensures res == VarintValue(s) % WORD
  {
    res := 0;
    var last: byte := 0x80;
    var i := 0;
    ghost var exact := 0;
    while i != |s| && last >= 128
      invariant i <= |s|
      invariant last >= 128 ==> forall k :: 0 <= k < i ==> s[k] >= 128
      invariant last >= 128 ==> exact == VarintValue(s[..i])
      invariant last < 128 ==> exact == VarintValue(s)
      invariant res == exact % WORD
    {
      last := s[i];
      NextOctet(s, i);
      ghost var before := exact;
      exact := exact + Pow128(i) * (last % 128);
      WrapSum(before, Pow128(i) * (last % 128));
      res := Wrap(res + Pow128(i) * (last % 128));
      i := i + 1;
    }
    if last >= 128 {
      assert s[..i] == s;
    }
  }

  // ---- fixint ------------------------------------------------------------------------------

  function Pow256(k: nat): (p: nat)
    ensures p > 0
  {
    if k == 0 then 1 else 256 * Pow256(k - 1)
  }

  /** The `width` low octets of `n`, the highest first. */
  function FixintBytes(n: nat, width: nat): (s: seq<byte>)
    ensures |s| == width
  {
    if width == 0 then [] else FixintBytes(n / 256, width - 1) + [n % 256]
  }

  function FixintNumber(s: seq<byte>): nat {
    if s == [] then 0 else 256 * FixintNumber(s[..|s| - 1]) + s[|s| - 1]
  }

  function FixintPack(n: nat): (s: seq<byte>)
    ensures |s| == WIDTH
  {
    FixintBytes(n, WIDTH)
  }

  function FixintLength(s: seq<byte>): nat {
    if |s| < WIDTH then 0 else WIDTH
  }

  /** Reading fewer octets than the width leaves the low ones zero. */
  function FixintValue(s: seq<byte>): nat {
    if |s| < WIDTH then FixintNumber(s) * Pow256(WIDTH - |s|) else FixintNumber(s[..WIDTH])
  }

  lemma {:induction false} FixintNumberOfBytes(n: nat, width: nat)
    requires n < Pow256(width)
    ensures FixintNumber(FixintBytes(n, width)) == n
  {
    if width > 0 {
      FixintNumberOfBytes(n / 256, width - 1);
      var s := FixintBytes(n, width);
      assert s[..|s| - 1] == FixintBytes(n / 256, width - 1);
    }
  }

  lemma FixintRoundTrip(n: word, rest: seq<byte>)
    ensures FixintLength(FixintPack(n) + rest) == |FixintPack(n)| == 8
    ensures FixintValue(FixintPack(n) + rest) == n
  {
    assert Pow256(4) == 0x1_0000_0000;
    assert Pow256(8) == WORD;
    FixintNumberOfBytes(n, WIDTH);
    assert (FixintPack(n) + rest)[..WIDTH] == FixintPack(n);
  }

  lemma {:induction false} FixintNumberBound(s: seq<byte>)
    ensures FixintNumber(s) < Pow256(|s|)
  {
    if s != [] {
      FixintNumberBound(s[..|s| - 1]);
    }
  }

  lemma FixintValueIsWord(s: seq<byte>)
    requires |s| >= WIDTH
    ensures FixintValue(s) < WORD
  {
    FixintNumberBound(s[..WIDTH]);
    assert Pow256(4) == 0x1_0000_0000;
    assert Pow256(8) == WORD;
  }

  method PackFixint(size: word) returns (res: array<byte>)
    ensures fresh(res) && res[..] == FixintPack(size)
  {
    res := new byte[WIDTH](_ => 0);
    PackFixintTo(size, res);
    assert res[..] == res[..WIDTH];
  }

  method PackFixintTo(size: word, result: array<byte>)
    requires WIDTH <= result.Length
    modifies result
    ensures result[..WIDTH] == FixintPack(size)
    ensures result[WIDTH..] == old(result[WIDTH..])
  {
    var left: nat := size;
    var current: nat := WIDTH;
    assert result[WIDTH..WIDTH] == [];
    while current > 0
      invariant current <= WIDTH
      invariant FixintPack(size) == FixintBytes(left, current) + result[current..WIDTH]
      invariant result[WIDTH..] == old(result[WIDTH..])
    {
      assert FixintBytes(left, current) == FixintBytes(left / 256, current - 1) + [left % 256];
      ghost var tail := result[current..WIDTH];
      result[current - 1] := left % 256;
      assert result[current - 1..WIDTH] == [result[current - 1]] + tail;
      left := left / 256;
      current := current - 1;
    }
  }

  lemma ShiftIn(a: nat, b: nat, p: nat)
    ensures (256 * a + b) * p == a * (256 * p) + b * p
  {
  }

  lemma FixintStep(s: seq<byte>, i: nat, cur: nat)
    requires i < |s| && cur > 0
    ensures
      FixintNumber(s[..i + 1]) * Pow256(cur - 1) == FixintNumber(s[..i]) * Pow256(cur) + s[i] * Pow256(cur - 1)
  {
    TakeOneMore(s, i);
    assert FixintNumber(s[..i + 1]) == 256 * FixintNumber(s[..i]) + s[i];
    assert Pow256(cur) == 256 * Pow256(cur - 1);
    hide FixintNumber, Pow256;
    ShiftIn(FixintNumber(s[..i]), s[i], Pow256(cur - 1));
  }

  lemma FixintStart(s: seq<byte>)
    ensures FixintNumber(s[..0]) == 0 && Pow256(0) == 1
  {
  }

  method UnpackFixint(s: seq<byte>) returns (res: nat)
    ensures res == FixintValue(s)
  {
    FixintStart(s);
    assert |s| <= WIDTH ==> s[..|s|] == s;
    hide FixintNumber, Pow256;
    res := 0;
    var cur: nat, i: nat := WIDTH, 0;
    while cur > 0 && i != |s|
      invariant cur + i == WIDTH && i <= |s|
      invariant res == FixintNumber(s[..i]) * Pow256(cur)
    {
      FixintStep(s, i, cur);
      res := res + s[i] * Pow256(cur - 1);
      cur, i := cur - 1, i + 1;
    }
  }

  // ---- the policy parameter ----------------------------------------------------------------

  /** The template parameter of the parser and the serializer. */
  datatype Policy = Varint | Fixint {

    function MaxLength(): nat {
      match this
      case Varint => 64 / 7 + 1
      case Fixint => WIDTH
    }

    function Pack(n: nat): seq<byte> {
      match this
      case Varint => VarintPack(n)
      case Fixint => FixintPack(n)
    }

    function SizeLength(s: seq<byte>): (len: nat)
      ensures len <= |s|
    {
      match this
      case Varint => VarintLength(s)
      case Fixint => FixintLength(s)
    }

    function Unpack(s: seq<byte>): nat {
      match this
      case Varint => VarintValue(s) % WORD
      case Fixint => FixintValue(s)
    }

    lemma RoundTrip(n: word, rest: seq<byte>)
      ensures 1 <= SizeLength(Pack(n) + rest) == |Pack(n)| <= MaxLength()
      ensures Unpack(Pack(n) + rest) == n
    {
      match this
      case Varint => VarintRoundTrip(n, rest);
      case Fixint => FixintRoundTrip(n, rest);
    }

    lemma ProperPrefix(n: word, k: nat)
      requires k < |Pack(n)|
      ensures SizeLength(Pack(n)[..k]) == 0
    {
      match this
      case Varint => VarintProperPrefix(n, k);
      case Fixint =>
    }

    lemma PrefixOnly(s: seq<byte>, more: seq<byte>)
      requires SizeLength(s) > 0
      ensures SizeLength(s + more) == SizeLength(s) && Unpack(s + more) == Unpack(s)
    {
      match this
      case Varint => VarintPrefixOnly(s, more);
      case Fixint => assert (s + more)[..WIDTH] == s[..WIDTH];
    }
  }
}
