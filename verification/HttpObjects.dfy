/** The loops and objects of http-header.hpp and of the feeding loop in server/main.cpp. */
module HttpObjects {
  import opened Bytes
  import opened HttpText
  import opened HttpHeader
  import HttpUnits
  import S = Sequences
  import opened Wrappers

  // ---- text --------------------------------------------------------------------------------

  /** `bin2hex`. */
  method BinToHex(bytes: seq<byte>) returns (tmp: string)
    ensures tmp == Hex(bytes)
  {
    tmp := "";
    for i := 0 to |bytes|
      invariant tmp + Hex(bytes[i..]) == Hex(bytes)
    {
      assert bytes[i..][1..] == bytes[i + 1..];
      assert tmp + (HexByte(bytes[i]) + Hex(bytes[i + 1..])) == (tmp + HexByte(bytes[i])) + Hex(bytes[i + 1..]);
      tmp := tmp + HexByte(bytes[i]);
    }
    assert bytes[|bytes|..] == [] && tmp + "" == tmp;
  }

  lemma HexPair(str: string, i: nat)
    requires i + 2 <= |str| && |str| % 2 == 0 && i % 2 == 0
    ensures AllHex(str[i..]) <==> HexValue(str[i]).Some? && HexValue(str[i + 1]).Some? && AllHex(str[i + 2..])
    ensures AllHex(str[i..]) ==>
              Pairs(str[i..]) == [PairByte(str[i], str[i + 1])] + Pairs(str[i + 2..])
  {
    assert str[i..] == [str[i], str[i + 1]] + str[i + 2..];
    assert str[i..][2..] == str[i + 2..];
  }

  /** Another pair of digits is read. */
  lemma HexMore(str: string, i: nat, tmp: seq<byte>)
    requires i + 2 <= |str| && |str| % 2 == 0 && i % 2 == 0
    requires HexValue(str[i]).Some? && HexValue(str[i + 1]).Some?
    requires (AllHex(str) <==> AllHex(str[i..])) && (AllHex(str[i..]) ==> tmp + Pairs(str[i..]) == Pairs(str))
    ensures AllHex(str) <==> AllHex(str[i + 2..])
    ensures AllHex(str[i + 2..]) ==> (tmp + [PairByte(str[i], str[i + 1])]) + Pairs(str[i + 2..]) == Pairs(str)
  {
    hide AllHex, Pairs, HexValue, PairByte;
    HexPair(str, i);
    if AllHex(str[i + 2..]) {
      S.Assoc(tmp, [PairByte(str[i], str[i + 1])], Pairs(str[i + 2..]));
    }
  }

  /** `hex2bin`: the first character that is not a digit makes the result empty. */
  method HexToBin(str: string) returns (tmp: seq<byte>)
    ensures tmp == Unhex(str)
  {
    if |str| % 2 != 0 {
      return [];
    }
    hide AllHex, Pairs, HexValue, PairByte;
    tmp := [];
    var i := 0;
    assert str[0..] == str;
    while i < |str|
      invariant 0 <= i <= |str| && i % 2 == 0
      invariant AllHex(str) <==> AllHex(str[i..])
      invariant AllHex(str[i..]) ==> tmp + Pairs(str[i..]) == Pairs(str)
      decreases |str| - i
    {
      HexPair(str, i);
      var high, low := HexValue(str[i]), HexValue(str[i + 1]);
      if high == None || low == None {
        return [];
      }
      HexMore(str, i, tmp);
      tmp := tmp + [PairByte(str[i], str[i + 1])];
      i := i + 2;
    }
    assert str[i..] == "";
    NoPairs();
    S.EmptyRight(tmp);
  }

  lemma NoPairs()
    ensures AllHex("") && Pairs("") == []
  {
  }

  /** `replace_path`. */
  method ReplacePathLoop(path: string, f: char, t: char) returns (r: string)
    requires path != ""
    ensures r == ReplacePath(path, f, t)
  {
    var cut := if path[|path| - 1] == f then path[..|path| - 1] else path;
    r := "";
    for i := 0 to |cut|
      invariant |r| == i && forall k | 0 <= k < i :: r[k] == if cut[k] == f then t else cut[k]
    {
      r := r + [if cut[i] == f then t else cut[i]];
    }
  }

  /** `path_to_service`. */
  method PathToServiceLoop(path: string) returns (r: Option<(string, string)>)
    ensures r == PathToService(path)
  {
    var iter: Option<nat> := None;
    for i := 0 to |path|
      invariant iter == LastOf(path[..i], '.')
    {
      assert path[..i + 1][..i] == path[..i];
      if path[i] == '.' {
        iter := Some(i);
      }
    }
    assert path[..|path|] == path;
    LastOfNone(path, '.');
    if iter == None || iter.value == 0 {
      return None;
    }
    LastOfAt(path, '.');
    r := Some((path[1..iter.value], path[iter.value + 1..]));
  }

  // ---- the parser --------------------------------------------------------------------------

  class HeaderParser {
    var fields: map<string, string>
    var method_: seq<string>
    var current: string
    var headerReady: bool
    var ready: bool
    var failed: bool

    function State(): Parser
      reads this
    {
      Parser(fields, method_, current, headerReady, ready, failed)
    }

    constructor ()
      ensures State() == Fresh()
    {
      fields, method_, current := map[], [], "";
      headerReady, ready, failed := false, false, false;
    }

    /** `split_header`. */
    static method SplitLine(v: string) returns (name: string, value: string)
      ensures (name, value) == SplitHeader(v)
    {
      FirstOfBound(v, ':');
      var p := FirstOf(v, ':');
      if p == |v| {
        return v, "";
      }
      name := v[..p];
      p := p + 1;
      ghost var rest := v[p..];
      while p < |v| && IsSpace(v[p])
        invariant p <= |v| && SkipSpaces(rest) == SkipSpaces(v[p..])
        decreases |v| - p
      {
        assert v[p..][1..] == v[p + 1..];
        p := p + 1;
      }
      value := v[p..];
    }

    /** `set_method`. */
    method SetMethod(v: string)
      requires method_ == []
      modifies this`method_
      ensures method_ == Words(v)
    {
      var last := 0;
      for b := 0 to |v|
        invariant last <= b
        invariant v != "" ==> method_ + WordsFrom(v[last..b], v[b..]) == Words(v)
        invariant v == "" ==> method_ == []
      {
        assert v[b..][1..] == v[b + 1..];
        if IsSpace(v[b]) {
          ghost var rest := WordsFrom("", v[b + 1..]);
          assert method_ + ([v[last..b]] + rest) == (method_ + [v[last..b]]) + rest;
          method_ := method_ + [v[last..b]];
          last := b + 1;
          assert v[last..b + 1] == "";
        } else {
          assert v[last..b + 1] == v[last..b] + [v[b]];
        }
      }
      assert v[|v|..] == "" && v[last..|v|] == v[last..];
      if last != |v| {
        method_ := method_ + [v[last..]];
      } else {
        assert method_ + [] == method_;
      }
    }

    /** `push_header`: characters up to the empty line. */
    method PushHeader(text: string) returns (taken: nat)
      requires !headerReady && !ready && !failed
      modifies this
      ensures taken <= |text| && !ready && !failed
      ensures !headerReady ==> taken == |text| && Push(old(State()), text) == (State(), taken)
      ensures headerReady ==> current == "" && taken > 0
      ensures headerReady ==>
                Push(old(State()), text)
                    == (Push(Settled(State()), text[taken..]).0, taken + Push(Settled(State()), text[taken..]).1)
    {
      taken := 0;
      assert text[0..] == text;
      while taken < |text| && !headerReady
        invariant taken <= |text| && !ready && !failed && (headerReady ==> current == "" && taken > 0)
        invariant
          var p := if headerReady then Settled(State()) else State();
          Push(old(State()), text) == (Push(p, text[taken..]).0, taken + Push(p, text[taken..]).1)
        decreases |text| - taken
      {
        PushStep(State(), text[taken..]);
        assert text[taken..][1..] == text[taken + 1..];
        LineStaysOpen(State(), current);
        TakeChar(text[taken]);
        taken := taken + 1;
      }
    }

    /** The switch on one header character. */
    method TakeChar(c: char)
      requires !headerReady
      modifies this
      ensures State() == FeedHeader(old(State()), c)
    {
      if c == '\r' {
      } else if c == '\n' {
        if current == "" {
          headerReady := true;
        } else if method_ == [] {
          SetMethod(current);
        } else {
          var name, value := SplitLine(current);
          if name !in fields {
            fields := fields[name := value];
          }
        }
        current := "";
      } else {
        current := current + [c];
      }
    }

    /** `push_body`. */
    method PushBody(text: string) returns (taken: nat)
      requires headerReady && !ready && !failed
      requires current == "" || BodyShort(State())
      modifies this
      ensures taken <= |text|
      ensures old(current) == "" ==> (State(), taken) == Push(Settled(old(State())), text)
      ensures old(BodyShort(State())) ==> (State(), taken) == Push(old(State()), text)
    {
      ghost var p := State();
      var length := ContentLength(fields);
      if length == None {
        failed := true;
        return 0;
      }
      if length.value == 0 {
        ready := true;
        return 0;
      }
      taken := if length.value - |current| < |text| then length.value - |current| else |text|;
      BodyPush(p, text, length.value);
      current := current + text[..taken];
      ready := |current| == length.value;
    }

    /** Between pushes, and when it throws, the parser is as the specification leaves it. */
    method PushText(text: string) returns (taken: nat)
      requires BodyShort(State())
      modifies this
      ensures (State(), taken) == Push(old(State()), text)
      ensures BodyShort(State())
    {
      PushKeeps(State(), text);
      taken := 0;
      if ready || failed {
        return;
      }
      if !headerReady {
        taken := PushHeader(text);
        if headerReady {
          var more := PushBody(text[taken..]);
          taken := taken + more;
        }
      } else {
        taken := PushBody(text);
      }
    }
  }

  lemma {:induction false} PushKeeps(p: Parser, text: string)
    requires BodyShort(p)
    ensures BodyShort(Push(p, text).0)
    decreases |text|
  {
    if text != "" && Open(p) {
      FeedKeeps(p, text[0]);
      hide Feed, BodyShort;
      PushKeeps(Feed(p, text[0]), text[1..]);
    }
  }

  /** A push into the body takes what is missing, or all there is. */
  lemma {:induction false} BodyPush(p: Parser, text: string, length: nat)
    requires p.headerReady && Open(p) && ContentLength(p.fields) == Some(length) && |p.current| < length
    ensures
      var taken := if length - |p.current| < |text| then length - |p.current| else |text|;
      Push(p, text) == (p.(current := p.current + text[..taken], ready := |p.current| + taken == length), taken)
    decreases |text|
  {
    hide ContentLength;
    if text == "" {
      assert p.current + text[..0] == p.current;
    } else {
      var q := Feed(p, text[0]);
      PushStep(p, text);
      var taken := if length - |p.current| < |text| then length - |p.current| else |text|;
      assert p.current + text[..taken] == (p.current + [text[0]]) + text[1..][..taken - 1];
      if !q.ready {
        BodyPush(q, text[1..], length);
      } else {
        assert taken == 1;
        assert text[1..][..0] == "" && (p.current + [text[0]]) + "" == p.current + [text[0]];
      }
    }
  }

  // ---- the server's end --------------------------------------------------------------------

  class LowlevelServer {
    var container: seq<Parser>
    var currentHeader: HeaderParser

    ghost function State(): Stream
      reads this, currentHeader
    {
      Stream(container, currentHeader.State())
    }

    ghost predicate Valid()
      reads this, currentHeader
    {
      BodyShort(currentHeader.State()) && !currentHeader.ready
    }

    constructor ()
      ensures Valid() && State() == StreamStart() && fresh(currentHeader)
    {
      container := [];
      currentHeader := new HeaderParser();
    }

    /** Pushes until nothing of the chunk is left; each message completed is put aside. */
    method ProcessData(data: string) returns (messageReady: bool)
      requires Valid()
      modifies this, currentHeader
      ensures Valid() && State() == TakeAll(old(State()), data)
      ensures currentHeader == old(currentHeader) || fresh(currentHeader)
      ensures messageReady <==> |container| > |old(container)|
    {
      var rest := data;
      messageReady := false;
      while rest != "" && !currentHeader.failed
        invariant Valid() && TakeAll(State(), rest) == TakeAll(old(State()), data)
        invariant currentHeader == old(currentHeader) || fresh(currentHeader)
        invariant |container| >= |old(container)| && (messageReady <==> |container| > |old(container)|)
        decreases |rest|
      {
        PushIsTake(State(), rest);
        PushTakes(currentHeader.State(), rest);
        PushNotBoth(currentHeader.State(), rest);
        ghost var before := currentHeader.State();
        var r := currentHeader.PushText(rest);
        if currentHeader.ready {
          container := container + [currentHeader.State()];
          messageReady := true;
          currentHeader := new HeaderParser();
        } else if !currentHeader.failed {
          TakeNothing(State());
        } else {
          FailedStays(State(), rest[r..]);
        }
        rest := rest[r..];
      }
      if currentHeader.failed {
        FailedStays(State(), rest);
      } else {
        TakeNothing(State());
      }
    }

    /** `pop_proto_message`. */
    method PopProtoMessage() returns (result: Option<HttpUnits.Unit>)
      requires container != []
      modifies this`container
      ensures result == HttpUnits.Read(old(container)[0]) && container == old(container)[1..]
    {
      result := HttpUnits.Read(container[0]);
      container := container[1..];
    }

    /** `on_rcp_call_ready`: pop until nothing is left or a message is bad; `ok` is false when the connection closes. */
    method DispatchAll() returns (units: seq<HttpUnits.Unit>, ok: bool)
      modifies this`container
      ensures HttpUnits.Popped(units, container, ok) == HttpUnits.PopAll(old(container))
    {
      units, ok := [], true;
      S.EmptyLeft(HttpUnits.PopAll(container).units);
      while container != []
        invariant ok
        invariant
          var others := HttpUnits.PopAll(container);
          HttpUnits.PopAll(old(container)) == others.(units := units + others.units)
        decreases |container|
      {
        S.HeadTail(container);
        HttpUnits.PopFirst(container[0], container[1..]);
        ghost var others := HttpUnits.PopAll(container[1..]).units;
        hide *;
        var one := PopProtoMessage();
        match one {
          case None =>
            S.EmptyRight(units);
            ok := false;
            return;
          case Some(u) =>
            S.Assoc(units, [u], others);
            units := units + [u];
        }
      }
      S.EmptyRight(units);
    }
  }

  lemma {:induction false} PushNotBoth(p: Parser, text: string)
    requires Open(p)
    ensures !(Push(p, text).0.ready && Push(p, text).0.failed)
    decreases |text|
  {
    if text != "" {
      FeedNotBoth(p, text[0]);
      hide Feed;
      if Open(Feed(p, text[0])) {
        PushNotBoth(Feed(p, text[0]), text[1..]);
      }
    }
  }
}
