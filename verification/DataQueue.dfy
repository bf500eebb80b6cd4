/** The message cutter and its counterpart, lib/vtrc/common/data-queue.cpp, over either size codec. */
module DataQueue {
  import opened Bytes
  import opened Sequences
  import opened SizePack

  /** The two `std::length_error`s of the parser. */
  datatype Error = InvalidData | TooLong

  datatype Verdict = Fine | Failed(error: Error)

  // ---- what one look at the buffer finds ---------------------------------------------------

  datatype Cut = NeedMore | Refused(error: Error) | Found(message: seq<byte>, used: nat)

  function CutOne(p: Policy, max: uint32, data: seq<byte>): (c: Cut)
    ensures c.Found? ==> 0 < c.used <= |data|
  {
    var next := p.SizeLength(data);
    if next == 0 then NeedMore
    else if next > p.MaxLength() then Refused(InvalidData)
    else if p.Unpack(data) > max then Refused(TooLong)
    else
      var len := p.Unpack(data);
      if len + next <= |data| then Found(data[next..len + next], len + next) else NeedMore
  }

  /** What the loop makes of a buffer: the messages cut, what is left, and how it ended. */
  datatype Parsed = Parsed(messages: seq<seq<byte>>, rest: seq<byte>, verdict: Verdict)

  function Parse(p: Policy, max: uint32, data: seq<byte>): (r: Parsed)
    ensures |r.rest| <= |data|
    decreases |data|
  {
    match CutOne(p, max, data)
    case NeedMore => Parsed([], data, Fine)
    case Refused(e) => Parsed([], data, Failed(e))
    case Found(message, used) =>
      var r := Parse(p, max, data[used..]);
      Parsed([message] + r.messages, r.rest, r.verdict)
  }

  // ---- chunk independence ------------------------------------------------------------------

  /** More octets never change a verdict already reached. */
  lemma CutOneExtends(p: Policy, max: uint32, a: seq<byte>, b: seq<byte>)
    ensures !CutOne(p, max, a).NeedMore? ==> CutOne(p, max, a + b) == CutOne(p, max, a)
  {
    if p.SizeLength(a) > 0 {
      p.PrefixOnly(a, b);
      var next, len := p.SizeLength(a), p.Unpack(a);
      if len + next <= |a| {
        assert (a + b)[next..len + next] == a[next..len + next];
      }
    }
  }

  /** Processing `a` and then `b` leaves exactly what processing `a + b` leaves, errors included. */
  lemma {:induction false} ChunkIndependent(p: Policy, max: uint32, a: seq<byte>, b: seq<byte>)
    ensures var first := Parse(p, max, a);
            var second := Parse(p, max, first.rest + b);
            Parse(p, max, a + b) == Parsed(first.messages + second.messages, second.rest, second.verdict)
    decreases |a|
  {
    hide CutOne;
    CutOneExtends(p, max, a, b);
    var c := CutOne(p, max, a);
    if c.Found? {
      ChunkIndependent(p, max, a[c.used..], b);
      DropConcat(a, b, c.used);
      var first := Parse(p, max, a[c.used..]);
      var second := Parse(p, max, first.rest + b);
      Assoc([c.message], first.messages, second.messages);
    } else {
      EmptyLeft(Parse(p, max, a + b).messages);
    }
  }

  /** A message cut under one limit is cut under another too, or refused as too long. */
  lemma CutUnder(p: Policy, max: uint32, max': uint32, a: seq<byte>, b: seq<byte>)
    requires CutOne(p, max, a).Found?
    ensures
      var c := CutOne(p, max, a);
      CutOne(p, max', a + b) == if |c.message| <= max' then c else Refused(TooLong)
  {
    p.PrefixOnly(a, b);
    var next, len := p.SizeLength(a), p.Unpack(a);
    assert (a + b)[next..len + next] == a[next..len + next];
  }

  predicate Within(messages: seq<seq<byte>>, max: uint32) {
    forall k | 0 <= k < |messages| :: |messages[k]| <= max
  }

  /**
   * The limit may change between two chunks: the outcome is that of the whole under the new limit exactly if
   * every message cut under the old one fits the new one.
   */
  lemma {:induction false} LimitChange(p: Policy, max: uint32, max': uint32, a: seq<byte>, b: seq<byte>)
    ensures
      var first := Parse(p, max, a);
      var second := Parse(p, max', first.rest + b);
      var joined := Parsed(first.messages + second.messages, second.rest, second.verdict);
      Parse(p, max', a + b) == joined <==> Within(first.messages, max')
    decreases |a|
  {
    hide CutOne;
    var c := CutOne(p, max, a);
    if c.Found? {
      CutUnder(p, max, max', a, b);
      DropConcat(a, b, c.used);
      var first := Parse(p, max, a[c.used..]);
      var second := Parse(p, max', first.rest + b);
      var whole := Parse(p, max, a);
      assert whole.messages == [c.message] + first.messages && whole.messages[0] == c.message;
      assert forall k | 0 <= k < |first.messages| :: whole.messages[k + 1] == first.messages[k];
      if |c.message| <= max' {
        LimitChange(p, max, max', a[c.used..], b);
        Assoc([c.message], first.messages, second.messages);
        SameHead(c.message, Parse(p, max', a[c.used..] + b).messages, first.messages + second.messages);
      }
    } else {
      EmptyLeft(Parse(p, max', a + b).messages);
    }
  }

  lemma SameHead<T>(x: T, s: seq<T>, t: seq<T>)
    ensures [x] + s == [x] + t <==> s == t
  {
    assert ([x] + s)[1..] == s && ([x] + t)[1..] == t;
  }

  /** The messages, the leftover and the verdict after a run of chunks, with the buffer kept between them. */
  function Feed(p: Policy, max: uint32, rest: seq<byte>, chunks: seq<seq<byte>>): Parsed
    decreases |chunks|
  {
    if chunks == [] then Parse(p, max, rest)
    else
      var first := Parse(p, max, rest + chunks[0]);
      var others := Feed(p, max, first.rest, chunks[1..]);
      Parsed(first.messages + others.messages, others.rest, others.verdict)
  }

  lemma {:induction false} ParseSettles(p: Policy, max: uint32, data: seq<byte>)
    ensures var r := Parse(p, max, data);
            Parse(p, max, r.rest) == Parsed([], r.rest, r.verdict)
    decreases |data|
  {
    var c := CutOne(p, max, data);
    if c.Found? {
      ParseSettles(p, max, data[c.used..]);
    }
  }

  /** However a stream is cut into chunks, the outcome is that of the whole stream at once. */
  lemma {:induction false} ChunkingIrrelevant(p: Policy, max: uint32, rest: seq<byte>, chunks: seq<seq<byte>>)
    ensures Feed(p, max, rest, chunks) == Parse(p, max, rest + Flatten(chunks))
    decreases |chunks|
  {
    if chunks == [] {
      EmptyRight(rest);
    } else {
      hide Parse;
      var first := Parse(p, max, rest + chunks[0]);
      ChunkingIrrelevant(p, max, first.rest, chunks[1..]);
      ChunkIndependent(p, max, rest + chunks[0], Flatten(chunks[1..]));
      Assoc(rest, chunks[0], Flatten(chunks[1..]));
    }
  }

  // ---- well-formed streams -----------------------------------------------------------------

  function Frame(p: Policy, body: seq<byte>): seq<byte>
  {
    p.Pack(|body|) + body
  }

  function Frames(p: Policy, bodies: seq<seq<byte>>): (s: seq<byte>)
  {
    if bodies == [] then [] else Frame(p, bodies[0]) + Frames(p, bodies[1..])
  }

  ghost predicate Fits(max: uint32, bodies: seq<seq<byte>>) {
    forall i :: 0 <= i < |bodies| ==> |bodies[i]| <= max
  }

  /** A body has the length of a `std::string`. */
  ghost predicate Sendable(bodies: seq<seq<byte>>) {
    forall i :: 0 <= i < |bodies| ==> |bodies[i]| < WORD
  }

  lemma CutFrame(p: Policy, max: uint32, body: seq<byte>, more: seq<byte>)
    requires |body| < WORD
    ensures Frame(p, body) != []
    ensures CutOne(p, max, Frame(p, body) + more)
            == if |body| <= max then Found(body, |Frame(p, body)|) else Refused(TooLong)
  {
    var head := p.Pack(|body|);
    p.RoundTrip(|body|, body + more);
    assert Frame(p, body) + more == head + (body + more);
    assert (head + (body + more))[|head|..|head| + |body|] == body;
  }

  lemma CutEmpty(p: Policy, max: uint32)
    ensures CutOne(p, max, []) == NeedMore
  {
  }

  /** Part of a frame waits, or is refused as soon as its length is seen to be too long. */
  lemma CutPartialFrame(p: Policy, max: uint32, body: seq<byte>, n: nat)
    requires |body| < WORD && n < |Frame(p, body)|
    ensures CutOne(p, max, Frame(p, body)[..n]) == NeedMore
            || (|body| > max && CutOne(p, max, Frame(p, body)[..n]) == Refused(TooLong))
  {
    var head := p.Pack(|body|);
    if n < |head| {
      p.ProperPrefix(|body|, n);
      assert Frame(p, body)[..n] == head[..n];
    } else {
      p.RoundTrip(|body|, body[..n - |head|]);
      assert Frame(p, body)[..n] == head + body[..n - |head|];
    }
  }

  /** Octets of a varint: all but the last have the continuation bit, the last has not. */
  predicate IsVarint(s: seq<byte>) {
    s != [] && s[|s| - 1] < 128 && forall i | 0 <= i < |s| - 1 :: s[i] >= 128
  }

  /** A length of more octets than a 64-bit number can need is refused as soon as it ends, whatever follows. */
  lemma OverlongRefused(max: uint32, size: seq<byte>, more: seq<byte>)
    requires IsVarint(size) && |size| > 10
    ensures Parse(Varint, max, size + more) == Parsed([], size + more, Failed(InvalidData))
  {
    VarintLengthIs(size + more, |size| - 1);
  }

  /** Until it ends it is waited for, however long it is. */
  lemma EndlessWaits(max: uint32, size: seq<byte>)
    requires forall i | 0 <= i < |size| :: size[i] >= 128
    ensures Parse(Varint, max, size) == Parsed([], size, Fine)
  {
    VarintLengthZero(size);
  }

  lemma CutConcat(f: seq<byte>, tail: seq<byte>, n: nat)
    requires n <= |f + tail|
    ensures n < |f| ==> (f + tail)[..n] == f[..n]
    ensures n >= |f| ==> (f + tail)[..n] == f + tail[..n - |f|] && (f + tail)[n..] == tail[n - |f|..]
  {
  }

  /**
   * Any prefix of a stream of frames is cut into the bodies it holds whole, up to the first that
   * is too long; the only error is the refusal of that one, and without it nothing is lost.
   */
  lemma {:induction false} ParsePrefix(p: Policy, max: uint32, bodies: seq<seq<byte>>, n: nat)
    requires Sendable(bodies) && n <= |Frames(p, bodies)|
    ensures var r := Parse(p, max, Frames(p, bodies)[..n]);
            var m := |r.messages|;
            m <= |bodies| && r.messages == bodies[..m] && Fits(max, r.messages)
            && (r.verdict == Fine ==> r.rest + Frames(p, bodies)[n..] == Frames(p, bodies[m..]))
            && (r.verdict == Fine && n == |Frames(p, bodies)| ==> m == |bodies| && r.rest == [])
            && (r.verdict != Fine ==> r.verdict == Failed(TooLong) && m < |bodies| && |bodies[m]| > max)
  {
    hide CutOne, Frame;
    var s := Frames(p, bodies);
    if bodies == [] {
      CutEmpty(p, max);
    } else {
      var f, tail := Frame(p, bodies[0]), Frames(p, bodies[1..]);
      CutFrame(p, max, bodies[0], []);
      EmptyRight(f);
      CutConcat(f, tail, n);
      if n < |f| {
        CutPartialFrame(p, max, bodies[0], n);
        SplitAt(s, n);
      } else {
        var t := tail[..n - |f|];
        CutFrame(p, max, bodies[0], t);
        SplitConcat(f, t);
        if |bodies[0]| <= max {
          ParsePrefix(p, max, bodies[1..], n - |f|);
          PrependOne(bodies, |Parse(p, max, t).messages|);
        }
      }
    }
  }

  lemma {:induction false} FramesConcat(p: Policy, a: seq<seq<byte>>, b: seq<seq<byte>>)
    ensures Frames(p, a + b) == Frames(p, a) + Frames(p, b)
  {
    hide Frame;
    if a == [] {
      EmptyLeft(b);
      EmptyLeft(Frames(p, b));
    } else {
      FramesConcat(p, a[1..], b);
      TailConcat(a, b);
      Assoc(Frame(p, a[0]), Frames(p, a[1..]), Frames(p, b));
    }
  }

  // ---- the parser object -------------------------------------------------------------------

  class Parser {
    const policy: Policy
    var maximum: uint32
    var data: seq<byte>
    var messages: seq<seq<byte>>

    constructor (policy: Policy, maximum: uint32)
      ensures this.policy == policy && this.maximum == maximum && data == [] && messages == []
    {
      this.policy := policy;
      this.maximum := maximum;
      data, messages := [], [];
    }

    method SetMaximumLength(value: uint32)
      modifies this`maximum
      ensures maximum == value
    {
      maximum := value;
    }

    method Append(chunk: seq<byte>)
      modifies this`data
      ensures data == old(data) + chunk
    {
      data := data + chunk;
    }

    /** True when a message was moved to the queue; `verdict` carries the exception otherwise thrown. */
    method ProcessOne() returns (cut: bool, verdict: Verdict)
      modifies this`data, this`messages
      ensures match CutOne(policy, maximum, old(data))
              case NeedMore => !cut && verdict == Fine && unchanged(this)
              case Refused(e) => !cut && verdict == Failed(e) && unchanged(this)
              case Found(message, used) =>
                cut && verdict == Fine && messages == old(messages) + [message] && data == old(data)[used..]
    {
      cut, verdict := false, Fine;
      var next := SizeLengthOf(policy, data);
      if next > 0 {
        if next > policy.MaxLength() {
          verdict := Failed(InvalidData);
          return;
        }
        var len := UnpackOf(policy, data);
        if len > maximum {
          verdict := Failed(TooLong);
          return;
        }
        if len + next <= |data| {
          messages := messages + [data[next..len + next]];
          data := data[len + next..];
          cut := true;
        }
      }
    }

    method Process() returns (verdict: Verdict)
      modifies this`data, this`messages
      ensures var r := Parse(policy, maximum, old(data));
              messages == old(messages) + r.messages && data == r.rest && verdict == r.verdict
    {
      hide CutOne;
      var cut: bool;
      cut, verdict := ProcessOne();
      while cut
        invariant var r := Parse(policy, maximum, old(data));
                  var s := Parse(policy, maximum, data);
                  (cut ==>
                     messages + s.messages == old(messages) + r.messages && s.rest == r.rest && s.verdict == r.verdict)
                  && (!cut ==> messages == old(messages) + r.messages && data == r.rest && verdict == r.verdict)
        decreases cut, |data|
      {
        cut, verdict := ProcessOne();
      }
    }

    method PopFront() returns (message: seq<byte>)
      requires messages != []
      modifies this`messages
      ensures message == old(messages)[0] && messages == old(messages)[1..]
    {
      message := messages[0];
      messages := messages[1..];
    }
  }

  method SizeLengthOf(p: Policy, data: seq<byte>) returns (next: nat)
    ensures next == p.SizeLength(data)
  {
    match p
    case Varint => next := LengthVarint(data);
    case Fixint => next := FixintLength(data);
  }

  method UnpackOf(p: Policy, data: seq<byte>) returns (len: nat)
    requires 0 < p.SizeLength(data) <= p.MaxLength()
    ensures len == p.Unpack(data)
  {
    match p
    case Varint => len := UnpackVarint(data);
    case Fixint => len := UnpackFixint(data);
  }

  // ---- the serializer object ---------------------------------------------------------------

  class Serializer {
    const policy: Policy
    const maximum: uint32
    var data: seq<byte>
    var messages: seq<seq<byte>>

    constructor (policy: Policy, maximum: uint32)
      ensures this.policy == policy && this.maximum == maximum && data == [] && messages == []
    {
      this.policy := policy;
      this.maximum := maximum;
      data, messages := [], [];
    }

    method Append(chunk: seq<byte>)
      modifies this`data
      ensures data == old(data) + chunk
    {
      data := data + chunk;
    }

    method Process() returns (verdict: Verdict)
      modifies this`data, this`messages
      ensures |old(data)| > maximum ==> verdict == Failed(TooLong) && unchanged(this)
      ensures |old(data)| <= maximum ==>
        verdict == Fine && data == [] && messages == old(messages) + [Frame(policy, old(data))]
    {
      if |data| > maximum {
        return Failed(TooLong);
      }
      messages := messages + [policy.Pack(|data|) + data];
      data := [];
      verdict := Fine;
    }
  }

  /** Concatenated frames come back, all of them and without an error, exactly when they all fit. */
  lemma SerializerRoundTrip(p: Policy, max: uint32, bodies: seq<seq<byte>>)
    requires Sendable(bodies)
    ensures Parse(p, max, Frames(p, bodies)) == Parsed(bodies, [], Fine) <==> Fits(max, bodies)
  {
    hide Parse;
    ParsePrefix(p, max, bodies, |Frames(p, bodies)|);
    assert Frames(p, bodies)[..|Frames(p, bodies)|] == Frames(p, bodies);
  }
}
