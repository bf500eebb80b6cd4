/** Packing and popping of messages, lib/vtrc/common/lowlevel-protocol-default.cpp. */
module Lowlevel {
  import opened Bytes
  import opened Sequences
  import opened SizePack
  import opened DataQueue
  import Crc32
  import Erseefor
  import opened Wrappers

  // ---- hash and cipher values --------------------------------------------------------------

  datatype Hasher = NoHash | CrcHash {

    function Size(): nat {
      match this
      case NoHash => 0
      case CrcHash => Crc32.LENGTH
    }

    function Get(data: seq<byte>): (hash: seq<byte>)
      ensures |hash| == Size()
    {
      match this
      case NoHash => []
      case CrcHash => Crc32.Get(data)
    }

    predicate Check(data: seq<byte>, hash: seq<byte>) {
      match this
      case NoHash => true
      case CrcHash => Crc32.Check(data, hash)
    }

    lemma ChecksWhatItGot(data: seq<byte>)
      ensures Check(data, Get(data) + data)
    {
      if CrcHash? {
        Crc32.CheckAcceptsGet(data, data);
      }
    }
  }

  function PadOf(pad: (seq<nat>, nat) -> byte, calls: seq<nat>, n: nat): (r: seq<byte>)
    ensures |r| == n
  {
    seq(n, k requires 0 <= k < n => pad(calls, k))
  }

  /**
   * A transformer object by value: none, RC4, or any other cipher that xors a message with octets
   * fixed by its key and by the lengths of the messages before it.
   */
  datatype Transformer =
    | Plain
    | Rc4(state: Erseefor.Box)
    | Keyed(pad: (seq<nat>, nat) -> byte, calls: seq<nat>)
  {
    function Apply(data: seq<byte>): (r: seq<byte>)
      ensures |r| == |data|
    {
      match this
      case Plain => data
      case Rc4(st) => Erseefor.Crypt(st, data)
      case Keyed(pad, calls) => Erseefor.XorAll(data, PadOf(pad, calls, |data|))
    }

    /** The object after transforming `n` octets. */
    function After(n: nat): Transformer {
      match this
      case Plain => this
      case Rc4(st) => Rc4(Erseefor.Run(st, n))
      case Keyed(pad, calls) => Keyed(pad, calls + [n])
    }

    lemma ApplyUndoes(data: seq<byte>)
      ensures Apply(Apply(data)) == data
    {
      match this
      case Plain =>
      case Rc4(st) => Erseefor.CryptUndoes(st, data);
      case Keyed(pad, calls) =>
        Erseefor.XorAllUndoes(data, PadOf(pad, calls, |data|));
    }
  }

  // ---- one direction of a connection -------------------------------------------------------

  datatype Codec = Codec(hasher: Hasher, transformer: Transformer) {

    /** The body of a message: hash and data, enciphered. */
    function Seal(data: seq<byte>): (body: seq<byte>)
      ensures |body| == hasher.Size() + |data|
    {
      transformer.Apply(hasher.Get(data) + data)
    }

    function Packed(data: seq<byte>): seq<byte> {
      Frame(Varint, Seal(data))
    }

    /** What popping a body yields; nothing when it is too short or its hash is wrong. */
    function Open(body: seq<byte>): Option<seq<byte>> {
      var plain := transformer.Apply(body);
      var h := hasher.Size();
      if |plain| >= h && hasher.Check(plain[h..], plain) then Some(plain[h..]) else None
    }

    /** The codec after a body of `n` octets was sealed or opened. */
    function After(n: nat): Codec {
      Codec(hasher, transformer.After(n))
    }

    /** A body sealed in the same state opens to the data and leaves both sides in the same state. */
    lemma OpenSeal(data: seq<byte>)
      ensures Open(Seal(data)) == Some(data)
    {
      hide Hasher.Check, Hasher.Get, Transformer.Apply;
      var plain := hasher.Get(data) + data;
      transformer.ApplyUndoes(plain);
      hasher.ChecksWhatItGot(data);
      assert plain[hasher.Size()..] == data;
    }

    function Advanced(payloads: seq<seq<byte>>): Codec
      decreases |payloads|
    {
      if payloads == [] then this else After(|Seal(payloads[0])|).Advanced(payloads[1..])
    }

    function Bodies(payloads: seq<seq<byte>>): (bodies: seq<seq<byte>>)
      ensures |bodies| == |payloads|
      decreases |payloads|
    {
      if payloads == [] then []
      else [Seal(payloads[0])] + After(|Seal(payloads[0])|).Bodies(payloads[1..])
    }

    lemma {:induction false} AdvancedConcat(a: seq<seq<byte>>, b: seq<seq<byte>>)
      ensures Advanced(a + b) == Advanced(a).Advanced(b)
      ensures Bodies(a + b) == Bodies(a) + Advanced(a).Bodies(b)
      decreases |a|
    {
      hide Seal;
      if a == [] {
        EmptyLeft(b);
        EmptyLeft(Bodies(b));
      } else {
        var next := After(|Seal(a[0])|);
        next.AdvancedConcat(a[1..], b);
        TailConcat(a, b);
        Assoc([Seal(a[0])], next.Bodies(a[1..]), Advanced(a).Bodies(b));
      }
    }

    lemma {:induction false} BodyAt(payloads: seq<seq<byte>>, k: nat)
      requires k < |payloads|
      ensures |Bodies(payloads)[k]| == hasher.Size() + |payloads[k]|
      decreases |payloads|
    {
      if k > 0 {
        After(|Seal(payloads[0])|).BodyAt(payloads[1..], k - 1);
      }
    }
  }

  // ---- what goes over the wire -------------------------------------------------------------

  /** What is enciphered for each payload: its hash and the payload. */
  function Plains(h: Hasher, payloads: seq<seq<byte>>): (plains: seq<seq<byte>>)
    ensures |plains| == |payloads|
  {
    seq(|payloads|, i requires 0 <= i < |payloads| => h.Get(payloads[i]) + payloads[i])
  }

  lemma PlainsTail(h: Hasher, payloads: seq<seq<byte>>)
    requires payloads != []
    ensures Plains(h, payloads)[0] == h.Get(payloads[0]) + payloads[0]
    ensures Plains(h, payloads)[1..] == Plains(h, payloads[1..])
  {
    hide Hasher.Get;
  }

  /** With RC4 all bodies together are one stretch of plain octets, enciphered in one go. */
  lemma {:induction false} Rc4Stream(c: Codec, payloads: seq<seq<byte>>)
    requires c.transformer.Rc4?
    ensures Flatten(c.Bodies(payloads)) == Erseefor.Crypt(c.transformer.state, Flatten(Plains(c.hasher, payloads)))
    decreases |payloads|
  {
    var st := c.transformer.state;
    if payloads == [] {
      assert Erseefor.Crypt(st, []) == [];
    } else {
      var plain := c.hasher.Get(payloads[0]) + payloads[0];
      var next := c.After(|plain|);
      PlainsTail(c.hasher, payloads);
      assert |c.Seal(payloads[0])| == |plain|;
      TailConcat([c.Seal(payloads[0])], next.Bodies(payloads[1..]));
      EmptyLeft(next.Bodies(payloads[1..]));
      hide Hasher.Get, Plains, Erseefor.Crypt, Erseefor.Run;
      Rc4Stream(next, payloads[1..]);
      Erseefor.CryptConcat(st, plain, Flatten(Plains(c.hasher, payloads[1..])));
    }
  }

  /** The octets enciphered for the first `k` payloads, message by message. */
  function Lengths(h: Hasher, payloads: seq<seq<byte>>, k: nat): (lengths: seq<nat>)
    requires k <= |payloads|
    ensures |lengths| == k && forall i | 0 <= i < k :: lengths[i] == h.Size() + |payloads[i]|
  {
    if k == 0 then [] else Lengths(h, payloads, k - 1) + [h.Size() + |payloads[k - 1]|]
  }

  lemma LengthsTail(h: Hasher, payloads: seq<seq<byte>>, k: nat)
    requires 0 < k <= |payloads|
    ensures Lengths(h, payloads, k) == [h.Size() + |payloads[0]|] + Lengths(h, payloads[1..], k - 1)
  {
  }

  /** `plain` under the pad of the cipher after messages of the lengths `calls`. */
  function Padded(pad: (seq<nat>, nat) -> byte, calls: seq<nat>, plain: seq<byte>): seq<byte> {
    Erseefor.XorAll(plain, PadOf(pad, calls, |plain|))
  }

  lemma SealKeyed(c: Codec, data: seq<byte>)
    requires c.transformer.Keyed?
    ensures c.Seal(data) == Padded(c.transformer.pad, c.transformer.calls, c.hasher.Get(data) + data)
  {
    hide Hasher.Get, PadOf, Erseefor.XorAll;
  }

  lemma AfterKeyed(c: Codec, n: nat)
    requires c.transformer.Keyed?
    ensures c.After(n) == Codec(c.hasher, Keyed(c.transformer.pad, c.transformer.calls + [n]))
  {
  }

  lemma BodyNext(c: Codec, payloads: seq<seq<byte>>, k: nat)
    requires 0 < k < |payloads|
    ensures c.Bodies(payloads)[k] == c.After(c.hasher.Size() + |payloads[0]|).Bodies(payloads[1..])[k - 1]
  {
    hide Codec.Seal, Codec.After;
  }

  lemma BodyFirst(c: Codec, payloads: seq<seq<byte>>)
    requires payloads != []
    ensures c.Bodies(payloads)[0] == c.Seal(payloads[0])
  {
    hide Codec.Seal, Codec.After;
  }

  /** With any other cipher each body is its plain octets under the pad for the lengths before it. */
  lemma {:induction false} KeyedStream(c: Codec, payloads: seq<seq<byte>>, k: nat)
    requires c.transformer.Keyed? && k < |payloads|
    ensures
      var calls := c.transformer.calls + Lengths(c.hasher, payloads, k);
      c.Bodies(payloads)[k] == Padded(c.transformer.pad, calls, c.hasher.Get(payloads[k]) + payloads[k])
    decreases |payloads|
  {
    var calls := c.transformer.calls;
    hide *;
    if k == 0 {
      assert Lengths(c.hasher, payloads, 0) == [];
      EmptyRight(calls);
      BodyFirst(c, payloads);
      SealKeyed(c, payloads[0]);
    } else {
      var n := c.hasher.Size() + |payloads[0]|;
      AfterKeyed(c, n);
      BodyNext(c, payloads, k);
      KeyedStream(c.After(n), payloads[1..], k - 1);
      LengthsTail(c.hasher, payloads, k);
      Assoc(calls, [n], Lengths(c.hasher, payloads[1..], k - 1));
    }
  }

  /** Without a cipher each body is its hash and payload. */
  lemma {:induction false} PlainStream(c: Codec, payloads: seq<seq<byte>>)
    requires c.transformer.Plain?
    ensures c.Bodies(payloads) == Plains(c.hasher, payloads)
    decreases |payloads|
  {
    hide Hasher.Get;
    if payloads != [] {
      PlainStream(c, payloads[1..]);
      PlainsTail(c.hasher, payloads);
      HeadTail(Plains(c.hasher, payloads));
    }
  }

  // ---- what a wrong hash does --------------------------------------------------------------

  /** A body whose data differs from what was hashed within four consecutive octets does not open. */
  lemma BurstRefused(t: Transformer, before: seq<byte>, w: seq<byte>, w': seq<byte>, after: seq<byte>, body: seq<byte>)
    requires |w| == |w'| <= 4 && w != w'
    requires t.Apply(body) == Crc32.Get(before + w + after) + (before + w' + after)
    ensures Codec(CrcHash, t).Open(body) == None
  {
    hide Crc32.Get, Transformer.Apply;
    var hash, data := Crc32.Get(before + w + after), before + w' + after;
    SplitConcat(hash, data);
    Crc32.BurstDetected(before, w, w', after);
    assert (hash + data)[..Crc32.LENGTH] == hash[..Crc32.LENGTH];
  }

  /** Nor does one whose hash is another. */
  lemma OtherHashRefused(t: Transformer, hash: seq<byte>, data: seq<byte>, body: seq<byte>)
    requires |hash| == 4 && hash != Crc32.Get(data) && t.Apply(body) == hash + data
    ensures Codec(CrcHash, t).Open(body) == None
  {
    hide Crc32.Get, Transformer.Apply;
    SplitConcat(hash, data);
  }

  /** Each octet is enciphered by itself. */
  lemma ApplyAt(t: Transformer, x: seq<byte>, y: seq<byte>, i: nat)
    requires |x| == |y| && i < |x| && x[i] == y[i]
    ensures t.Apply(x)[i] == t.Apply(y)[i]
  {
    hide Xor, Erseefor.Keystream;
  }

  /** The octets outside `at..at + len` are the same. */
  predicate SameOutside(x: seq<byte>, y: seq<byte>, at: nat, len: nat) {
    |x| == |y| && at + len <= |x| && x[..at] == y[..at] && x[at + len..] == y[at + len..]
  }

  lemma ApplyOutside(t: Transformer, x: seq<byte>, y: seq<byte>, at: nat, len: nat)
    requires SameOutside(x, y, at, len)
    ensures SameOutside(t.Apply(x), t.Apply(y), at, len)
  {
    hide Transformer.Apply;
    forall i | 0 <= i < |x| && (i < at || i >= at + len) ensures t.Apply(x)[i] == t.Apply(y)[i] {
      assert i < at ==> x[..at][i] == y[..at][i];
      assert i >= at + len ==> x[at + len..][i - (at + len)] == y[at + len..][i - (at + len)];
      ApplyAt(t, x, y, i);
    }
  }

  /** A change within four consecutive octets, of the hash or of the data. */
  ghost predicate Burst(body: seq<byte>, bad: seq<byte>) {
    && bad != body
    && exists at: nat, len: nat ::
      len <= 4 && (at + len <= Crc32.LENGTH || at >= Crc32.LENGTH) && SameOutside(body, bad, at, len)
  }

  lemma ThreeParts(x: seq<byte>, at: nat, len: nat)
    requires at + len <= |x|
    ensures x[..at] + x[at..at + len] + x[at + len..] == x
  {
  }

  lemma DataBurst(t: Transformer, data: seq<byte>, now: seq<byte>, bad: seq<byte>, d: nat, len: nat)
    requires len <= 4 && SameOutside(data, now, d, len) && now[d..d + len] != data[d..d + len]
    requires t.Apply(bad) == Crc32.Get(data) + now
    ensures Codec(CrcHash, t).Open(bad) == None
  {
    ThreeParts(data, d, len);
    ThreeParts(now, d, len);
    hide Crc32.Get, Transformer.Apply, Codec.Open;
    BurstRefused(t, data[..d], data[d..d + len], now[d..d + len], data[d + len..], bad);
  }

  lemma PlainBurst(t: Transformer, data: seq<byte>, bad: seq<byte>, at: nat, len: nat)
    requires len <= 4 && (at + len <= Crc32.LENGTH || at >= Crc32.LENGTH)
    requires SameOutside(Crc32.Get(data) + data, t.Apply(bad), at, len) && t.Apply(bad) != Crc32.Get(data) + data
    ensures Codec(CrcHash, t).Open(bad) == None
  {
    hide Crc32.Get, Transformer.Apply, Codec.Open;
    ChangedPlain(Crc32.Get(data), data, t.Apply(bad), at, len);
    hide SameOutside;
    if at >= Crc32.LENGTH {
      DataBurst(t, data, t.Apply(bad)[Crc32.LENGTH..], bad, at - Crc32.LENGTH, len);
    } else {
      OtherHashRefused(t, t.Apply(bad)[..Crc32.LENGTH], data, bad);
    }
  }

  /** However it is enciphered, a sealed body changed by a burst does not open. */
  lemma ChangedRefused(c: Codec, data: seq<byte>, bad: seq<byte>)
    requires c.hasher == CrcHash && Burst(c.Seal(data), bad)
    ensures c.Open(bad) == None
  {
    var body, t := c.Seal(data), c.transformer;
    var at: nat, len: nat :|
      len <= 4 && (at + len <= Crc32.LENGTH || at >= Crc32.LENGTH) && SameOutside(body, bad, at, len);
    assert body == t.Apply(Crc32.Get(data) + data);
    hide Crc32.Get, Transformer.Apply, SameOutside, Codec.Open, Codec.Seal;
    t.ApplyUndoes(Crc32.Get(data) + data);
    t.ApplyUndoes(bad);
    ApplyOutside(t, body, bad, at, len);
    PlainBurst(t, data, bad, at, len);
    assert c == Codec(CrcHash, t);
  }

  lemma ChangedPlain(hash: seq<byte>, data: seq<byte>, plain: seq<byte>, at: nat, len: nat)
    requires |hash| == Crc32.LENGTH && SameOutside(hash + data, plain, at, len) && plain != hash + data
    ensures plain == plain[..Crc32.LENGTH] + plain[Crc32.LENGTH..]
    ensures at >= Crc32.LENGTH ==>
      var d, now := at - Crc32.LENGTH, plain[Crc32.LENGTH..];
      && plain[..Crc32.LENGTH] == hash && SameOutside(data, now, d, len) && now[d..d + len] != data[d..d + len]
    ensures at + len <= Crc32.LENGTH ==> plain[..Crc32.LENGTH] != hash && plain[Crc32.LENGTH..] == data
  {
    var x := hash + data;
    SplitConcat(hash, data);
    SplitAt(plain, Crc32.LENGTH);
    if at >= Crc32.LENGTH {
      var d, now := at - Crc32.LENGTH, plain[Crc32.LENGTH..];
      assert x[..at][..Crc32.LENGTH] == hash && plain[..at][..Crc32.LENGTH] == plain[..Crc32.LENGTH];
      assert x[..at][Crc32.LENGTH..] == data[..d] && plain[..at][Crc32.LENGTH..] == now[..d];
      assert x[at + len..] == data[d + len..] && plain[at + len..] == now[d + len..];
      ThreeParts(data, d, len);
      ThreeParts(now, d, len);
    } else if at + len <= Crc32.LENGTH {
      assert x[at + len..][Crc32.LENGTH - (at + len)..] == data;
      assert plain[at + len..][Crc32.LENGTH - (at + len)..] == plain[Crc32.LENGTH..];
    }
  }

  // ---- popping a queue of bodies -----------------------------------------------------------

  /** What the dispatch loop takes from a queue: it stops at the first message that does not pop. */
  datatype Popped = Popped(payloads: seq<seq<byte>>, codec: Codec, rest: seq<seq<byte>>, ok: bool)

  function PopAll(c: Codec, bodies: seq<seq<byte>>): Popped
    decreases |bodies|
  {
    if bodies == [] then Popped([], c, [], true)
    else
      var next := c.After(|bodies[0]|);
      match c.Open(bodies[0])
      case None => Popped([], next, bodies[1..], false)
      case Some(data) =>
        var others := PopAll(next, bodies[1..]);
        others.(payloads := [data] + others.payloads)
  }

  lemma PopAllStep(c: Codec, bodies: seq<seq<byte>>)
    requires bodies != []
    ensures
      var others := PopAll(c.After(|bodies[0]|), bodies[1..]);
      PopAll(c, bodies) ==
        match c.Open(bodies[0])
        case None => Popped([], c.After(|bodies[0]|), bodies[1..], false)
        case Some(data) => others.(payloads := [data] + others.payloads)
  {
    hide Codec.Open, Codec.After;
  }

  /** Everything sealed from a state is popped, in order, by a reader in that state. */
  lemma {:induction false} PopAllBodies(c: Codec, payloads: seq<seq<byte>>)
    ensures PopAll(c, c.Bodies(payloads)) == Popped(payloads, c.Advanced(payloads), [], true)
    decreases |payloads|
  {
    hide Codec.Seal, Codec.Open, Codec.After;
    if payloads != [] {
      c.OpenSeal(payloads[0]);
      var next := c.After(|c.Seal(payloads[0])|);
      PopAllBodies(next, payloads[1..]);
      TailConcat([c.Seal(payloads[0])], next.Bodies(payloads[1..]));
      EmptyLeft(next.Bodies(payloads[1..]));
      HeadTail(payloads);
    }
  }

  // ---- the protocol object -----------------------------------------------------------------

  class Protocol {
    var hashMaker: Hasher
    var hashChecker: Hasher
    var transformer: Transformer
    var revertor: Transformer
    const queue: Parser

    constructor (maximum: uint32)
      ensures hashMaker == hashChecker == NoHash && transformer == revertor == Plain
      ensures fresh(queue) && queue.policy == Varint && queue.maximum == maximum
      ensures queue.data == [] && queue.messages == []
    {
      hashMaker, hashChecker := NoHash, NoHash;
      transformer, revertor := Plain, Plain;
      queue := new Parser(Varint, maximum);
    }

    function Sending(): Codec
      reads this
    {
      Codec(hashMaker, transformer)
    }

    function Receiving(): Codec
      reads this
    {
      Codec(hashChecker, revertor)
    }

    /** `configure`: the bound on a message changes; octets and messages already there stay. */
    method Configure(maxMessageLength: uint32)
      modifies queue`maximum
      ensures queue.maximum == maxMessageLength
    {
      queue.SetMaximumLength(maxMessageLength);
    }

    method PackMessage(data: seq<byte>) returns (result: seq<byte>)
      requires |data| + hashMaker.Size() < WORD
      modifies this`transformer
      ensures result == old(Sending()).Packed(data)
      ensures Sending() == old(Sending()).After(|old(Sending()).Seal(data)|)
    {
      result := PackVarint(|data| + hashMaker.Size());
      var body := hashMaker.Get(data) + data;
      result := result + transformer.Apply(body);
      transformer := transformer.After(|body|);
    }

    /** `notify` tells whether the stage function is called: only when a message was completed. */
    method ProcessData(chunk: seq<byte>) returns (verdict: Verdict, notify: bool)
      modifies queue
      ensures var r := Parse(queue.policy, queue.maximum, old(queue.data) + chunk);
              chunk != [] ==>
                verdict == r.verdict && queue.data == r.rest
                && queue.messages == old(queue.messages) + r.messages
                && (notify <==> r.verdict == Fine && r.messages != [])
      ensures chunk == [] ==> verdict == Fine && !notify && unchanged(queue)
      ensures queue.maximum == old(queue.maximum)
    {
      verdict, notify := Fine, false;
      if |chunk| > 0 {
        var before := |queue.messages|;
        queue.Append(chunk);
        verdict := queue.Process();
        notify := verdict == Fine && before < |queue.messages|;
      }
    }

    predicate CheckMessage(plain: seq<byte>)
      reads this
    {
      |plain| >= hashChecker.Size() && hashChecker.Check(plain[hashChecker.Size()..], plain)
    }

    /** The message leaves the queue and the revertor moves on whether or not the check succeeds. */
    method PopRawMessage() returns (result: Option<seq<byte>>)
      requires queue.messages != []
      modifies this`revertor, queue`messages
      ensures result == old(Receiving()).Open(old(queue.messages)[0])
      ensures Receiving() == old(Receiving()).After(|old(queue.messages)[0]|)
      ensures queue.messages == old(queue.messages)[1..]
    {
      var data := queue.PopFront();
      var plain := revertor.Apply(data);
      revertor := revertor.After(|data|);
      if CheckMessage(plain) {
        result := Some(plain[hashChecker.Size()..]);
      } else {
        result := None;
      }
    }

    /** The loop of the ready stage: pop until the queue is empty or a message is bad. */
    method DispatchAll() returns (payloads: seq<seq<byte>>, ok: bool)
      modifies this`revertor, queue`messages
      ensures Popped(payloads, Receiving(), queue.messages, ok) == PopAll(old(Receiving()), old(queue.messages))
    {
      hide PopAll, Codec.Open, Codec.After;
      payloads, ok := [], true;
      assert [] + PopAll(Receiving(), queue.messages).payloads == PopAll(Receiving(), queue.messages).payloads;
      while queue.messages != []
        invariant ok
        invariant var others := PopAll(Receiving(), queue.messages);
                  PopAll(old(Receiving()), old(queue.messages)) == others.(payloads := payloads + others.payloads)
        decreases |queue.messages|
      {
        PopAllStep(Receiving(), queue.messages);
        var one := PopRawMessage();
        match one {
          case None =>
            EmptyRight(payloads);
            ok := false;
            return;
          case Some(data) =>
            Assoc(payloads, [data], PopAll(Receiving(), queue.messages).payloads);
            payloads := payloads + [data];
        }
      }
      PopAllNone(Receiving());
      EmptyRight(payloads);
    }
  }

  lemma PopAllNone(c: Codec)
    ensures PopAll(c, []) == Popped([], c, [], true)
  {
  }
}
