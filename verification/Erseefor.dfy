/** The stream cipher of lib/vtrc/common/erseefor.h (RC4) and its transformer with 3072 octets dropped. */
module Erseefor {
  import opened Bytes
  import opened Sequences

  const DROP_KEY_INIT: nat := 3072

  /** The value of a cipher object: `state_`, `si1_` and `si2_`. */
  datatype State = State(s: seq<byte>, i: byte, j: byte)

  function Identity(): (s: seq<byte>)
    ensures |s| == 256
  {
    seq(256, i requires 0 <= i < 256 => i)
  }

  type Box = st: State | |st.s| == 256 witness State(Identity(), 0, 0)

  ghost predicate Permutation(s: seq<byte>) {
    |s| == 256 && multiset(s) == multiset(Identity())
  }

  function SwapAt(s: seq<byte>, i: byte, j: byte): (t: seq<byte>)
    requires |s| == 256
    ensures |t| == 256
  {
    s[i := s[j]][j := s[i]]
  }

  function Advance(st: State): (next: State)
    requires |st.s| == 256
    ensures |next.s| == 256
  {
    var i: byte := (st.i + 1) % 256;
    var j: byte := (st.j + st.s[i]) % 256;
    State(SwapAt(st.s, i, j), i, j)
  }

  function KeyOctet(st: State): byte
    requires |st.s| == 256
  {
    var x: int, y: int := st.s[st.i], st.s[st.j];
    st.s[(x + y) % 256]
  }

  /** The state after `n` octets. */
  function Run(st: State, n: nat): (last: State)
    requires |st.s| == 256
    ensures |last.s| == 256
    decreases n
  {
    if n == 0 then st else Run(Advance(st), n - 1)
  }

  function Keystream(st: State, n: nat): (ks: seq<byte>)
    requires |st.s| == 256
    ensures |ks| == n
    decreases n
  {
    if n == 0 then [] else [KeyOctet(Advance(st))] + Keystream(Advance(st), n - 1)
  }

  function XorAll(data: seq<byte>, pad: seq<byte>): (r: seq<byte>)
    requires |data| == |pad|
    ensures |r| == |data|
  {
    seq(|data|, k requires 0 <= k < |data| => Xor(data[k], pad[k]))
  }

  function Crypt(st: State, data: seq<byte>): (r: seq<byte>)
    requires |st.s| == 256
    ensures |r| == |data|
  {
    XorAll(data, Keystream(st, |data|))
  }

  /** The box position the key schedule swaps with position `i`. */
  function Partner(s: seq<byte>, k: byte, i: nat, key: seq<byte>): byte
    requires |s| == 256 && i < 256 && key != []
  {
    (k + s[i] + key[i % |key|]) % 256
  }

  /** The key schedule from position `i` on. */
  function Schedule(s: seq<byte>, k: byte, i: nat, key: seq<byte>): (r: seq<byte>)
    requires |s| == 256 && i <= 256 && key != []
    ensures |r| == 256
    decreases 256 - i
  {
    if i == 256 then s
    else
      var k' := Partner(s, k, i, key);
      Schedule(SwapAt(s, i, k'), k', i + 1, key)
  }

  function Keyed(key: seq<byte>): (st: State)
    requires key != []
    ensures |st.s| == 256
  {
    State(Schedule(Identity(), 0, 0, key), 0, 0)
  }

  /** The state of a fresh transformer: keyed, then 3072 octets dropped. */
  function Fresh(key: seq<byte>): (st: State)
    requires key != []
    ensures |st.s| == 256
  {
    Run(Keyed(key), DROP_KEY_INIT)
  }

  // ---- laws --------------------------------------------------------------------------------

  lemma SwapKeepsPermutation(s: seq<byte>, i: byte, j: byte)
    requires Permutation(s)
    ensures Permutation(SwapAt(s, i, j))
  {
  }

  /** The box stays a permutation of 0..255 for ever. */
  lemma {:induction false} RunKeepsPermutation(st: State, n: nat)
    requires Permutation(st.s)
    ensures Permutation(Run(st, n).s)
    decreases n
  {
    if n > 0 {
      SwapKeepsPermutation(st.s, Advance(st).i, Advance(st).j);
      RunKeepsPermutation(Advance(st), n - 1);
    }
  }

  lemma {:induction false} ScheduleKeepsPermutation(s: seq<byte>, k: byte, i: nat, key: seq<byte>)
    requires Permutation(s) && i <= 256 && key != []
    ensures Permutation(Schedule(s, k, i, key))
    decreases 256 - i
  {
    assert |s| == 256;
    hide Permutation, SwapAt, Partner;
    if i < 256 {
      var k' := Partner(s, k, i, key);
      SwapKeepsPermutation(s, i, k');
      ScheduleKeepsPermutation(SwapAt(s, i, k'), k', i + 1, key);
    }
  }

  lemma KeyedIsPermutation(key: seq<byte>)
    requires key != []
    ensures Permutation(Keyed(key).s)
  {
    ScheduleKeepsPermutation(Identity(), 0, 0, key);
  }

  lemma FreshIsPermutation(key: seq<byte>)
    requires key != []
    ensures Permutation(Fresh(key).s)
  {
    KeyedIsPermutation(key);
    RunKeepsPermutation(Keyed(key), DROP_KEY_INIT);
  }

  /** A step loses nothing, so two states that differ never meet again. */
  lemma AdvanceInjective(a: State, b: State)
    requires |a.s| == |b.s| == 256 && Advance(a) == Advance(b)
    ensures a == b
  {
    var c := Advance(a);
    assert a.i == b.i;
    assert SwapAt(c.s, c.i, c.j) == a.s;
    assert SwapAt(c.s, c.i, c.j) == b.s;
    assert a.s[c.i] == b.s[c.i];
  }

  lemma {:induction false} RunInjective(a: State, b: State, n: nat)
    requires |a.s| == |b.s| == 256
    ensures Run(a, n) == Run(b, n) <==> a == b
    decreases n
  {
    if n > 0 {
      RunInjective(Advance(a), Advance(b), n - 1);
      if Advance(a) == Advance(b) {
        AdvanceInjective(a, b);
      }
    }
  }

  lemma XorAllUndoes(data: seq<byte>, pad: seq<byte>)
    requires |data| == |pad|
    ensures XorAll(XorAll(data, pad), pad) == data
  {
    forall k | 0 <= k < |data| ensures Xor(Xor(data[k], pad[k]), pad[k]) == data[k] {
      XorUndoes(data[k], pad[k]);
    }
  }

  /** Two instances in equal states undo each other on any data. */
  lemma CryptUndoes(st: State, data: seq<byte>)
    requires |st.s| == 256
    ensures Crypt(st, Crypt(st, data)) == data
  {
    XorAllUndoes(data, Keystream(st, |data|));
  }

  lemma {:induction false} RunSum(st: State, m: nat, n: nat)
    requires |st.s| == 256
    ensures Run(Run(st, m), n) == Run(st, m + n)
    ensures Keystream(st, m + n) == Keystream(st, m) + Keystream(Run(st, m), n)
    decreases m
  {
    hide Advance, KeyOctet;
    if m == 0 {
      EmptyLeft(Keystream(st, n));
    } else {
      var next := Advance(st);
      RunSum(next, m - 1, n);
      var first, mid, last := [KeyOctet(next)], Keystream(next, m - 1), Keystream(Run(next, m - 1), n);
      Assoc(first, mid, last);
    }
  }

  lemma XorAllConcat(a: seq<byte>, b: seq<byte>, ka: seq<byte>, kb: seq<byte>)
    requires |a| == |ka| && |b| == |kb|
    ensures XorAll(a + b, ka + kb) == XorAll(a, ka) + XorAll(b, kb)
  {
    hide Xor;
    forall k | 0 <= k < |a + b|
      ensures XorAll(a + b, ka + kb)[k] == (XorAll(a, ka) + XorAll(b, kb))[k]
    {
      if k < |a| {
        assert (a + b)[k] == a[k] && (ka + kb)[k] == ka[k];
      } else {
        assert (a + b)[k] == b[k - |a|] && (ka + kb)[k] == kb[k - |a|];
      }
    }
  }

  /** Transforming a + b is transforming a, then b. */
  lemma CryptConcat(st: State, a: seq<byte>, b: seq<byte>)
    requires |st.s| == 256
    ensures Crypt(st, a + b) == Crypt(st, a) + Crypt(Run(st, |a|), b)
    ensures Run(st, |a + b|) == Run(Run(st, |a|), |b|)
  {
    hide Run, Keystream, Xor;
    assert |a + b| == |a| + |b|;
    RunSum(st, |a|, |b|);
    XorAllConcat(a, b, Keystream(st, |a|), Keystream(Run(st, |a|), |b|));
  }

  lemma RunNone(st: State)
    requires |st.s| == 256
    ensures Run(st, 0) == st && Keystream(st, 0) == []
  {
  }

  lemma OneStep(st: State)
    requires |st.s| == 256
    ensures Run(st, 1) == Advance(st) && Keystream(st, 1) == [KeyOctet(Advance(st))]
  {
    hide Advance, KeyOctet;
    assert Keystream(st, 1) == [KeyOctet(Advance(st))] + Keystream(Advance(st), 0);
    EmptyRight([KeyOctet(Advance(st))]);
  }

  lemma RunLast(st: State, n: nat)
    requires |st.s| == 256
    ensures Run(st, n + 1) == Advance(Run(st, n))
    ensures Keystream(st, n + 1) == Keystream(st, n) + [KeyOctet(Run(st, n + 1))]
  {
    hide Advance, KeyOctet;
    RunSum(st, n, 1);
    OneStep(Run(st, n));
  }

  // ---- a worked example --------------------------------------------------------------------

  /** The key of 256 octets whose schedule swaps each position with itself. */
  function StillKey(): (key: seq<byte>)
    ensures |key| == 256 && key[0] == 0 && forall i | 0 < i < 256 :: key[i] == (257 - i) % 256
  {
    seq(256, i requires 0 <= i < 256 => if i == 0 then 0 else (257 - i) % 256)
  }

  lemma SwapSelf(i: byte)
    ensures SwapAt(Identity(), i, i) == Identity()
  {
  }

  lemma {:induction false} StillSchedule(k: byte, i: nat)
    requires i <= 256 && k == (if i == 0 then 0 else i - 1)
    ensures Schedule(Identity(), k, i, StillKey()) == Identity()
    decreases 256 - i
  {
    if i < 256 {
      assert i % 256 == i && Identity()[i] == i;
      assert Partner(Identity(), k, i, StillKey()) == i;
      SwapSelf(i);
      hide SwapAt, Identity, StillKey, Partner;
      StillSchedule(i, i + 1);
    }
  }

  lemma KeystreamFirst(st: State, n: nat)
    requires |st.s| == 256
    ensures Keystream(st, n + 1) == [KeyOctet(Advance(st))] + Keystream(Advance(st), n)
  {
    hide KeyOctet, Advance;
  }

  /** A step whose indices are known. */
  lemma StepTo(st: State, i: byte, j: byte)
    requires |st.s| == 256 && i == (st.i + 1) % 256 && j == (st.j + st.s[i]) % 256
    ensures Advance(st) == State(SwapAt(st.s, i, j), i, j)
  {
  }

  function Still1(): (st: State)
    ensures |st.s| == 256
  {
    State(SwapAt(Identity(), 1, 1), 1, 1)
  }

  function Still2(): (st: State)
    ensures |st.s| == 256
  {
    State(SwapAt(Still1().s, 2, 3), 2, 3)
  }

  function Still3(): (st: State)
    ensures |st.s| == 256
  {
    State(SwapAt(Still2().s, 3, 5), 3, 5)
  }

  function Still4(): (st: State)
    ensures |st.s| == 256
  {
    State(SwapAt(Still3().s, 4, 9), 4, 9)
  }

  lemma StillBoxes()
    ensures Still1().s[2] == 2 && Still2().s[3] == 2 && Still3().s[4] == 4
  {
  }

  lemma StillSteps()
    ensures Advance(State(Identity(), 0, 0)) == Still1() && Advance(Still1()) == Still2()
    ensures Advance(Still2()) == Still3() && Advance(Still3()) == Still4()
  {
    StillBoxes();
    assert Identity()[1] == 1;
    hide Identity, SwapAt, Advance;
    StepTo(State(Identity(), 0, 0), 1, 1);
    StepTo(Still1(), 2, 3);
    StepTo(Still2(), 3, 5);
    StepTo(Still3(), 4, 9);
  }

  lemma StillOctets()
    ensures KeyOctet(Still1()) == 2 && KeyOctet(Still2()) == 5 && KeyOctet(Still3()) == 7 && KeyOctet(Still4()) == 13
  {
  }

  lemma StillKeyed()
    ensures Keyed(StillKey()) == State(Identity(), 0, 0)
  {
    StillSchedule(0, 0);
    hide Schedule, Identity, StillKey;
  }

  lemma CryptIs(st: State, data: seq<byte>)
    requires |st.s| == 256
    ensures Crypt(st, data) == XorAll(data, Keystream(st, |data|))
  {
  }

  /** With that key, zeros are enciphered as 2, 5, 7, 13. */
  lemma StillExample()
    ensures Crypt(Keyed(StillKey()), [0, 0, 0, 0]) == [2, 5, 7, 13]
  {
    hide *;
    StillKeyed();
    StillStream();
    CryptIs(Keyed(StillKey()), [0, 0, 0, 0]);
    ZerosTaken([0, 0, 0, 0], [2, 5, 7, 13]);
  }

  /** Zeros show the keystream. */
  lemma ZerosTaken(zeros: seq<byte>, pad: seq<byte>)
    requires |zeros| == |pad| && forall i | 0 <= i < |zeros| :: zeros[i] == 0
    ensures XorAll(zeros, pad) == pad
  {
    forall i | 0 <= i < |pad| ensures XorAll(zeros, pad)[i] == pad[i] {
      XorZero(pad[i]);
    }
    hide Xor;
  }

  lemma StillStream()
    ensures Keystream(State(Identity(), 0, 0), 4) == [2, 5, 7, 13]
  {
    StillSteps();
    StillOctets();
    hide KeyOctet, Advance, Identity, Keystream, Still1, Still2, Still3, Still4;
    KeystreamFirst(State(Identity(), 0, 0), 3);
    KeystreamFirst(Still1(), 2);
    KeystreamFirst(Still2(), 1);
    KeystreamFirst(Still3(), 0);
    RunNone(Still4());
    assert [2] + ([5] + ([7] + ([13] + []))) == [2, 5, 7, 13];
  }

  /** A fresh transformer goes on where the keyed cipher is after 3072 octets, whatever these are. */
  lemma FreshGoesOn(key: seq<byte>, dropped: seq<byte>, data: seq<byte>)
    requires key != [] && |dropped| == 3072
    ensures Crypt(Keyed(key), dropped + data)[3072..] == Crypt(Fresh(key), data)
  {
    hide Crypt, Keyed;
    CryptConcat(Keyed(key), dropped, data);
    SplitConcat(Crypt(Keyed(key), dropped), Crypt(Fresh(key), data));
  }

  // ---- the cipher object -------------------------------------------------------------------

  class Cipher {
    const state: array<byte>
    var si1: byte
    var si2: byte

    ghost predicate Valid()
      reads this, state
    {
      state.Length == 256 && Permutation(state[..])
    }

    ghost function Value(): (st: State)
      reads this, state
    {
      State(state[..], si1, si2)
    }

    constructor (key: seq<byte>)
      requires key != []
      ensures Valid() && fresh(state) && Value() == Keyed(key)
    {
      state := new byte[256](_ => 0);
      si1, si2 := 0, 0;
      new;
      var i := 0;
      while i < 256
        invariant 0 <= i <= 256 && si1 == si2 == 0
        invariant forall k :: 0 <= k < i ==> state[k] == k
      {
        state[i] := i;
        i := i + 1;
      }
      assert state[..] == Identity();
      MixKey(key);
      KeyedIsPermutation(key);
    }

    method Exchange(a: byte, b: byte)
      requires state.Length == 256
      modifies state
      ensures state[..] == SwapAt(old(state[..]), a, b)
    {
      var t := state[a];
      state[a] := state[b];
      state[b] := t;
    }

    /** The second loop of `init_key`. */
    method MixKey(key: seq<byte>)
      requires state.Length == 256 && state[..] == Identity() && si1 == si2 == 0 && key != []
      modifies state
      ensures Value() == Keyed(key)
    {
      hide SwapAt, Identity;
      var k: byte := 0;
      var i := 0;
      while i < 256
        invariant 0 <= i <= 256
        invariant Schedule(state[..], k, i, key) == Keyed(key).s
      {
        k := (k + state[i] + key[i % |key|]) % 256;
        Exchange(i, k);
        i := i + 1;
      }
    }

    /** The shared first half of `drop` and `transform`. */
    method Step()
      requires Valid()
      modifies this, state
      ensures Valid() && Value() == Advance(old(Value()))
    {
      si1 := (si1 + 1) % 256;
      si2 := (si2 + state[si1]) % 256;
      SwapKeepsPermutation(state[..], si1, si2);
      Exchange(si1, si2);
    }

    method Drop(count: nat)
      requires Valid()
      modifies this, state
      ensures Valid() && Value() == Run(old(Value()), count)
    {
      var i := 0;
      while i < count
        invariant 0 <= i <= count && Valid()
        invariant Value() == Run(old(Value()), i)
      {
        RunLast(old(Value()), i);
        Step();
        i := i + 1;
      }
    }

    method Transform(data: array<byte>)
      requires Valid() && data != state
      modifies this, state, data
      ensures Valid() && Value() == Run(old(Value()), data.Length)
      ensures data[..] == Crypt(old(Value()), old(data[..]))
    {
      hide Advance, Run, Xor;
      ghost var st, plain := Value(), data[..];
      RunNone(st);
      var b := 0;
      while b != data.Length
        invariant 0 <= b <= data.Length && Valid()
        invariant Value() == Run(st, b)
        invariant forall k :: b <= k < data.Length ==> data[k] == plain[k]
        invariant forall k :: 0 <= k < b ==> data[k] == Xor(plain[k], Keystream(st, b)[k])
      {
        RunLast(st, b);
        Step();
        var x: int, y: int := state[si1], state[si2];
        var k := (x + y) % 256;
        data[b] := Xor(data[b], state[k]);
        b := b + 1;
      }
    }
  }

  method CreateTransformer(key: seq<byte>) returns (c: Cipher)
    requires key != []
    ensures fresh(c) && fresh(c.state) && c.Valid() && c.Value() == Fresh(key)
  {
    c := new Cipher(key);
    c.Drop(DROP_KEY_INIT);
  }
}
