/**
 * A message altered on its way, against the receiver of `EndToEnd`: what lib/vtrc/common/lowlevel-protocol-default.cpp
 * does with a body whose hash is wrong, lifted to streams received in any chunks.
 */
module Corruption {
  import opened Bytes
  import opened Sequences
  import opened SizePack
  import opened DataQueue
  import opened Lowlevel
  import opened EndToEnd
  import opened Wrappers

  function ReceiveAll(r: Receiver, max: uint32, chunks: seq<seq<byte>>): Receiver
    decreases |chunks|
  {
    if chunks == [] then r else ReceiveAll(Receive(r, max, chunks[0]), max, chunks[1..])
  }

  /** What the sender wrote, with another body for message `k`. */
  function Altered(c: Codec, payloads: seq<seq<byte>>, k: nat, bad: seq<byte>): (bodies: seq<seq<byte>>)
    requires k < |payloads|
    ensures |bodies| == |payloads|
  {
    c.Bodies(payloads)[k := bad]
  }

  // ---- popping -----------------------------------------------------------------------------

  lemma AlteredTail(c: Codec, payloads: seq<seq<byte>>, k: nat, bad: seq<byte>)
    requires 0 < k < |payloads|
    ensures Altered(c, payloads, k, bad)[0] == c.Seal(payloads[0])
    ensures Altered(c, payloads, k, bad)[1..] == Altered(c.After(|c.Seal(payloads[0])|), payloads[1..], k - 1, bad)
  {
    hide Codec.Seal, Codec.After;
  }

  lemma AlteredFirst(c: Codec, payloads: seq<seq<byte>>, bad: seq<byte>)
    requires payloads != []
    ensures Altered(c, payloads, 0, bad)[0] == bad
  {
    hide Codec.Bodies;
  }

  lemma PopBad(c: Codec, bodies: seq<seq<byte>>)
    requires bodies != [] && c.Open(bodies[0]) == None
    ensures PopAll(c, bodies).payloads == [] && !PopAll(c, bodies).ok
  {
    PopAllStep(c, bodies);
    hide Codec.Open, PopAll;
  }

  lemma PopGood(c: Codec, bodies: seq<seq<byte>>, data: seq<byte>)
    requires bodies != [] && bodies[0] == c.Seal(data)
    ensures
      var q, others := PopAll(c, bodies), PopAll(c.After(|c.Seal(data)|), bodies[1..]);
      q.payloads == [data] + others.payloads && q.ok == others.ok
  {
    PopAllStep(c, bodies);
    c.OpenSeal(data);
    hide Codec.Open, Codec.Seal, Codec.After, PopAll;
  }

  lemma PopsNone(c: Codec, payloads: seq<seq<byte>>, bad: seq<byte>, m: nat)
    requires 0 < m <= |payloads| && c.Open(bad) == None
    ensures
      var q := PopAll(c, Altered(c, payloads, 0, bad)[..m]);
      q.payloads == [] && !q.ok
  {
    hide *;
    AlteredFirst(c, payloads, bad);
    TakeTail(Altered(c, payloads, 0, bad), m);
    PopBad(c, Altered(c, payloads, 0, bad)[..m]);
  }

  lemma PopsMore(c: Codec, payloads: seq<seq<byte>>, k: nat, bad: seq<byte>, m: nat)
    requires 0 < k < m <= |payloads|
    ensures
      var next := c.After(|c.Seal(payloads[0])|);
      var q := PopAll(c, Altered(c, payloads, k, bad)[..m]);
      var others := PopAll(next, Altered(next, payloads[1..], k - 1, bad)[..m - 1]);
      q.payloads == [payloads[0]] + others.payloads && q.ok == others.ok
  {
    hide *;
    AlteredTail(c, payloads, k, bad);
    TakeTail(Altered(c, payloads, k, bad), m);
    PopGood(c, Altered(c, payloads, k, bad)[..m], payloads[0]);
  }

  /** The loop pops what comes before the altered message and stops there. */
  lemma {:induction false} PopsUpTo(c: Codec, payloads: seq<seq<byte>>, k: nat, bad: seq<byte>, m: nat)
    requires k < m <= |payloads| && c.Advanced(payloads[..k]).Open(bad) == None
    ensures
      var q := PopAll(c, Altered(c, payloads, k, bad)[..m]);
      q.payloads == payloads[..k] && !q.ok
    decreases k
  {
    hide *;
    if k == 0 {
      assert payloads[..0] == [];
      NothingAdvanced(c);
      PopsNone(c, payloads, bad, m);
    } else {
      var next := c.After(|c.Seal(payloads[0])|);
      AdvancedFirst(c, payloads, k);
      PopsUpTo(next, payloads[1..], k - 1, bad, m - 1);
      PopsMore(c, payloads, k, bad, m);
      PrependOne(payloads, k - 1);
    }
  }

  lemma NothingAdvanced(c: Codec)
    ensures c.Advanced([]) == c
  {
  }

  lemma AdvancedFirst(c: Codec, payloads: seq<seq<byte>>, k: nat)
    requires 0 < k <= |payloads|
    ensures c.Advanced(payloads[..k]) == c.After(|c.Seal(payloads[0])|).Advanced(payloads[1..][..k - 1])
  {
    hide Codec.Seal, Codec.After;
    assert payloads[..k][0] == payloads[0] && payloads[..k][1..] == payloads[1..][..k - 1];
  }

  // ---- one chunk ---------------------------------------------------------------------------

  /** Before the altered message: what was popped is what was sent, and the octets to come are those that follow. */
  ghost predicate Follows(c: Codec, max: uint32, payloads: seq<seq<byte>>, k: nat, bad: seq<byte>,
                          r: Receiver, rest: seq<byte>)
    requires k < |payloads|
  {
    var j := |r.delivered|;
    && r.open && r.messages == [] && j <= k && r.delivered == payloads[..j] && r.codec == c.Advanced(payloads[..j])
    && r.buffer + rest == Frames(Varint, Altered(c, payloads, k, bad)[j..])
    && Parse(Varint, max, r.buffer) == Parsed([], r.buffer, Fine)
  }

  /** After it: the receiver is closed, having popped what came before. */
  predicate Stopped(payloads: seq<seq<byte>>, k: nat, r: Receiver)
    requires k <= |payloads|
  {
    !r.open && r.delivered == payloads[..k]
  }

  lemma AlteredSuffix(c: Codec, payloads: seq<seq<byte>>, k: nat, bad: seq<byte>, j: nat)
    requires j <= k < |payloads|
    ensures Altered(c, payloads, k, bad)[j..] == Altered(c.Advanced(payloads[..j]), payloads[j..], k - j, bad)
  {
    hide Codec.Bodies, Codec.Advanced;
    SplitAt(payloads, j);
    c.AdvancedConcat(payloads[..j], payloads[j..]);
    assert c.Bodies(payloads)[j..] == c.Advanced(payloads[..j]).Bodies(payloads[j..]);
  }

  /** The first bodies of an altered stream, if the altered one is not among them. */
  lemma AlteredBefore(c: Codec, payloads: seq<seq<byte>>, k: nat, bad: seq<byte>, m: nat)
    requires m <= k < |payloads|
    ensures Altered(c, payloads, k, bad)[..m] == c.Bodies(payloads)[..m]
  {
    hide Codec.Bodies;
  }

  lemma AlteredFit(c: Codec, max: uint32, payloads: seq<seq<byte>>, k: nat, bad: seq<byte>)
    requires AllFit(c, max, payloads) && k < |payloads| && |bad| == |c.Bodies(payloads)[k]|
    ensures Fits(max, Altered(c, payloads, k, bad)) && Sendable(Altered(c, payloads, k, bad))
  {
    hide Codec.Bodies;
    forall i | 0 <= i < |payloads| ensures |Altered(c, payloads, k, bad)[i]| <= max {
      c.BodyAt(payloads, i);
      assert PayloadFits(c, max, payloads[i]);
    }
  }

  lemma SuffixFit(max: uint32, bodies: seq<seq<byte>>, j: nat)
    requires j <= |bodies| && Fits(max, bodies) && Sendable(bodies)
    ensures Fits(max, bodies[j..]) && Sendable(bodies[j..])
  {
  }

  lemma PrefixFit(max: uint32, bodies: seq<seq<byte>>, m: nat)
    requires m <= |bodies| && Fits(max, bodies)
    ensures Fits(max, bodies[..m])
  {
  }

  /** What is cut from a buffer and a chunk that begin a run of fitting frames. */
  lemma CutsWhole(max: uint32, bodies: seq<seq<byte>>, data: seq<byte>, rest: seq<byte>)
    requires Fits(max, bodies) && Sendable(bodies) && data + rest == Frames(Varint, bodies)
    ensures
      var p := Parse(Varint, max, data);
      && p.verdict == Fine && |p.messages| <= |bodies| && p.messages == bodies[..|p.messages|]
      && p.rest + rest == Frames(Varint, bodies[|p.messages|..])
      && Parse(Varint, max, p.rest) == Parsed([], p.rest, Fine)
  {
    SplitConcat(data, rest);
    hide Parse, Frames;
    ParsePrefix(Varint, max, bodies, |data|);
    ParseSettles(Varint, max, data);
  }

  lemma ReceiveIs(r: Receiver, max: uint32, chunk: seq<byte>)
    requires r.open && chunk != [] && r.messages == [] && Parse(Varint, max, r.buffer + chunk).verdict == Fine
    ensures
      var p := Parse(Varint, max, r.buffer + chunk);
      var q := PopAll(r.codec, p.messages);
      Receive(r, max, chunk) == Receiver(q.codec, p.rest, q.rest, r.delivered + q.payloads, q.ok)
  {
    var p := Parse(Varint, max, r.buffer + chunk);
    EmptyLeft(p.messages);
    EmptyRight(r.delivered);
    hide Parse, Codec.Open, Codec.After;
  }

  /** Messages before the altered one are popped as they were sent. */
  lemma Onward(c: Codec, max: uint32, payloads: seq<seq<byte>>, k: nat, bad: seq<byte>, j: nat, m: nat)
    requires j + m <= k < |payloads| && |bad| == |c.Bodies(payloads)[k]| && AllFit(c, max, payloads)
    ensures
      var d := c.Advanced(payloads[..j]);
      && PopAll(d, Altered(d, payloads[j..], k - j, bad)[..m])
         == Popped(payloads[j..][..m], c.Advanced(payloads[..j + m]), [], true)
      && payloads[..j] + payloads[j..][..m] == payloads[..j + m]
  {
    var d, pending := c.Advanced(payloads[..j]), payloads[j..];
    hide Codec.Bodies, Codec.Advanced, PopAll, Altered;
    AlteredSuffix(c, payloads, k, bad, j);
    AlteredFit(c, max, payloads, k, bad);
    SuffixFit(max, Altered(c, payloads, k, bad), j);
    PrefixFit(max, Altered(d, pending, k - j, bad), m);
    AlteredBefore(d, pending, k - j, bad, m);
    hide Fits, Sendable, AllFit;
    PopPrefix(d, max, pending, m);
    TakeMore(payloads, j, m);
    c.AdvancedConcat(payloads[..j], pending[..m]);
  }

  /** A chunk of the altered stream. */
  lemma ChunkFollows(c: Codec, max: uint32, payloads: seq<seq<byte>>, k: nat, bad: seq<byte>, r: Receiver,
                     chunk: seq<byte>, rest: seq<byte>)
    requires AllFit(c, max, payloads) && k < |payloads| && |bad| == |c.Bodies(payloads)[k]|
    requires c.Advanced(payloads[..k]).Open(bad) == None
    requires Follows(c, max, payloads, k, bad, r, chunk + rest)
    ensures
      var n := Receive(r, max, chunk);
      Follows(c, max, payloads, k, bad, n, rest) || Stopped(payloads, k, n)
  {
    hide Codec.Bodies, Codec.Advanced, Codec.Open, Parse, Frames, PopAll, Altered;
    if chunk == [] {
      EmptyChunk(r, max);
      EmptyLeft(rest);
    } else {
      var j := |r.delivered|;
      var d, pending := c.Advanced(payloads[..j]), payloads[j..];
      var bodies := Altered(d, pending, k - j, bad);
      AlteredSuffix(c, payloads, k, bad, j);
      AlteredFit(c, max, payloads, k, bad);
      SuffixFit(max, Altered(c, payloads, k, bad), j);
      Assoc(r.buffer, chunk, rest);
      CutsWhole(max, bodies, r.buffer + chunk, rest);
      ReceiveIs(r, max, chunk);
      var m := |Parse(Varint, max, r.buffer + chunk).messages|;
      hide Fits, Sendable, AllFit, Receive;
      if m <= k - j {
        Onward(c, max, payloads, k, bad, j, m);
        DropDrop(Altered(c, payloads, k, bad), j, m);
      } else {
        TakeMore(payloads, j, k - j);
        c.AdvancedConcat(payloads[..j], pending[..k - j]);
        PopsUpTo(d, pending, k - j, bad, m);
      }
    }
  }

  lemma StaysStopped(payloads: seq<seq<byte>>, k: nat, r: Receiver, max: uint32, chunk: seq<byte>)
    requires k <= |payloads| && Stopped(payloads, k, r)
    ensures Stopped(payloads, k, Receive(r, max, chunk))
  {
    ClosedReceiver(r, max, chunk);
    hide Receive;
  }

  lemma {:induction false} ChunksFollow(c: Codec, max: uint32, payloads: seq<seq<byte>>, k: nat, bad: seq<byte>,
                                        r: Receiver, chunks: seq<seq<byte>>, rest: seq<byte>)
    requires AllFit(c, max, payloads) && k < |payloads| && |bad| == |c.Bodies(payloads)[k]|
    requires c.Advanced(payloads[..k]).Open(bad) == None
    requires Follows(c, max, payloads, k, bad, r, Flatten(chunks) + rest) || Stopped(payloads, k, r)
    ensures
      var n := ReceiveAll(r, max, chunks);
      Follows(c, max, payloads, k, bad, n, rest) || Stopped(payloads, k, n)
    decreases |chunks|
  {
    hide AllFit, Codec.Bodies, Codec.Advanced, Codec.Open, Receive, Follows, Stopped;
    if chunks == [] {
      EmptyLeft(rest);
    } else {
      var n := Receive(r, max, chunks[0]);
      if Stopped(payloads, k, r) {
        StaysStopped(payloads, k, r, max, chunks[0]);
      } else {
        Assoc(chunks[0], Flatten(chunks[1..]), rest);
        ChunkFollows(c, max, payloads, k, bad, r, chunks[0], Flatten(chunks[1..]) + rest);
      }
      ChunksFollow(c, max, payloads, k, bad, n, chunks[1..], rest);
    }
  }

  // ---- the altered message is refused ------------------------------------------------------

  function Opened(c: Codec): Receiver {
    Receiver(c, [], [], [], true)
  }

  lemma BeginsFollowing(c: Codec, max: uint32, payloads: seq<seq<byte>>, k: nat, bad: seq<byte>, octets: seq<byte>)
    requires k < |payloads| && octets == Frames(Varint, Altered(c, payloads, k, bad))
    ensures Follows(c, max, payloads, k, bad, Opened(c), octets)
  {
    assert payloads[..0] == [] && Altered(c, payloads, k, bad)[0..] == Altered(c, payloads, k, bad);
    EmptyLeft(octets);
    NothingAdvanced(c);
    CutEmpty(Varint, max);
    assert Parse(Varint, max, []) == Parsed([], [], Fine);
    hide Altered, Frames, Codec.Advanced, Parse;
  }

  lemma {:induction false} LaterShorter(bodies: seq<seq<byte>>, m: nat)
    requires m < |bodies|
    ensures |Frames(Varint, bodies[m + 1..])| <= |Frames(Varint, bodies[1..])|
    decreases m
  {
    hide Frame;
    if m > 0 {
      LaterShorter(bodies, m - 1);
      DropDrop(bodies, m, 1);
      assert Frames(Varint, bodies[m..]) == Frame(Varint, bodies[m]) + Frames(Varint, bodies[m..][1..]);
    }
  }

  lemma FirstWhole(max: uint32, bodies: seq<seq<byte>>, buffer: seq<byte>, rest: seq<byte>)
    requires bodies != [] && |bodies[0]| <= max && buffer + rest == Frames(Varint, bodies)
    requires |rest| <= |Frames(Varint, bodies[1..])|
    ensures Parse(Varint, max, buffer).messages != []
  {
    var f, tail := Frame(Varint, bodies[0]), Frames(Varint, bodies[1..]);
    assert Frames(Varint, bodies) == f + tail;
    SplitConcat(f, tail);
    assert buffer[..|f|] == (buffer + rest)[..|f|] == f;
    SplitAt(buffer, |f|);
    hide Frames, Frame;
    CutFrame(Varint, max, bodies[0], buffer[|f|..]);
  }

  /** Once the whole altered frame is there the receiver cannot be waiting for it. */
  lemma NotBefore(c: Codec, max: uint32, payloads: seq<seq<byte>>, k: nat, bad: seq<byte>, r: Receiver,
                  rest: seq<byte>)
    requires AllFit(c, max, payloads) && k < |payloads| && |bad| == |c.Bodies(payloads)[k]|
    requires Follows(c, max, payloads, k, bad, r, rest)
    ensures |rest| > |Frames(Varint, c.Bodies(payloads)[k + 1..])|
  {
    hide Codec.Bodies, Codec.Advanced, Parse, Frames;
    var j := |r.delivered|;
    var bodies := Altered(c, payloads, k, bad);
    AlteredFit(c, max, payloads, k, bad);
    SuffixFit(max, bodies, j);
    assert bodies[k + 1..] == c.Bodies(payloads)[k + 1..];
    DropDrop(bodies, j, k + 1 - j);
    LaterShorter(bodies[j..], k - j);
    var later := bodies[j..];
    assert |later[0]| <= max;
    hide Fits, Sendable, AllFit, Altered;
    if |rest| <= |Frames(Varint, bodies[j..][1..])| {
      FirstWhole(max, bodies[j..], r.buffer, rest);
    }
  }

  lemma BurstLength(body: seq<byte>, bad: seq<byte>)
    requires Burst(body, bad)
    ensures |bad| == |body|
  {
  }

  lemma BodyIs(c: Codec, payloads: seq<seq<byte>>, k: nat)
    requires k < |payloads|
    ensures c.Bodies(payloads)[k] == c.Advanced(payloads[..k]).Seal(payloads[k])
  {
    hide Codec.Seal, Codec.Advanced;
    SplitAt(payloads, k);
    c.AdvancedConcat(payloads[..k], payloads[k..]);
    BodyFirst(c.Advanced(payloads[..k]), payloads[k..]);
  }

  /**
   * Among messages that all fit, one altered within four consecutive octets, of its hash or of its data: however
   * the stream is cut into chunks, what is delivered is a prefix of what was sent before it, and once it has
   * arrived, all of that, with the receiver closed.
   */
  lemma AlteredStops(c: Codec, max: uint32, payloads: seq<seq<byte>>, k: nat, bad: seq<byte>, chunks: seq<seq<byte>>,
                     rest: seq<byte>)
    requires c.hasher == CrcHash && AllFit(c, max, payloads)
    requires k < |payloads| && Burst(c.Bodies(payloads)[k], bad)
    requires Flatten(chunks) + rest == Frames(Varint, c.Bodies(payloads)[k := bad])
    ensures
      var r := ReceiveAll(Opened(c), max, chunks);
      && r.delivered <= payloads[..k]
      && (|rest| <= |Frames(Varint, c.Bodies(payloads)[k + 1..])| ==> r.delivered == payloads[..k] && !r.open)
  {
    BodyIs(c, payloads, k);
    SameHasher(c, payloads[..k]);
    ChangedRefused(c.Advanced(payloads[..k]), payloads[k], bad);
    BurstLength(c.Bodies(payloads)[k], bad);
    var r := ReceiveAll(Opened(c), max, chunks);
    hide Codec.Bodies, Codec.Advanced, Codec.Open, Codec.Seal, Frames, Parse, AllFit, Burst, ReceiveAll;
    BeginsFollowing(c, max, payloads, k, bad, Flatten(chunks) + rest);
    ChunksFollow(c, max, payloads, k, bad, Opened(c), chunks, rest);
    if Follows(c, max, payloads, k, bad, r, rest) {
      NotBefore(c, max, payloads, k, bad, r, rest);
    }
  }
}
