/**
 * The incremental parser of examples/hello-events-http/protocol/http-header.hpp and the loop that feeds it in
 * examples/hello-events-http/server/main.cpp.
 */
module HttpHeader {
  import opened HttpText
  import opened Wrappers

  const CONTENT_LENGTH: string := "Content-Length"
  const SIZE_LIMIT: nat := 0x1_0000_0000_0000_0000

  /**
   * `header_parser`. `failed` stands for the exception a malformed content length throws, after which nothing
   * more is parsed.
   */
  datatype Parser = Parser(fields: map<string, string>, method_: seq<string>, current: string,
                           headerReady: bool, ready: bool, failed: bool)

  function Fresh(): Parser {
    Parser(map[], [], "", false, false, false)
  }

  predicate IsSpace(c: char) {
    c == ' ' || c == '\t'
  }

  /** The position of the first `c`, or the length. */
  function FirstOf(s: string, c: char): nat {
    if s == "" || s[0] == c then 0 else 1 + FirstOf(s[1..], c)
  }

  function SkipSpaces(s: string): string {
    if s != "" && IsSpace(s[0]) then SkipSpaces(s[1..]) else s
  }

  lemma {:induction false} FirstOfBound(s: string, c: char)
    ensures FirstOf(s, c) <= |s| && (FirstOf(s, c) < |s| ==> s[FirstOf(s, c)] == c) && c !in s[..FirstOf(s, c)]
  {
    if s != "" && s[0] != c {
      FirstOfBound(s[1..], c);
      assert s[..FirstOf(s, c)] == [s[0]] + s[1..][..FirstOf(s[1..], c)];
    }
  }

  /** A header line's name and value. */
  function SplitHeader(v: string): (string, string) {
    FirstOfBound(v, ':');
    var p := FirstOf(v, ':');
    if p < |v| then (v[..p], SkipSpaces(v[p + 1..])) else (v, "")
  }

  /** The words of a request or status line; a space always ends one, even an empty one. */
  function Words(v: string): seq<string> {
    if v == "" then [] else WordsFrom("", v)
  }

  function WordsFrom(word: string, v: string): seq<string>
    decreases |v|
  {
    if v == "" then (if word == "" then [] else [word])
    else if IsSpace(v[0]) then [word] + WordsFrom("", v[1..])
    else WordsFrom(word + [v[0]], v[1..])
  }

  /** A C string ends at its first zero character. */
  function CString(s: string): string {
    FirstOfBound(s, '\0');
    s[..FirstOf(s, '\0')]
  }

  function ContentLength(fields: map<string, string>): Option<nat> {
    if CONTENT_LENGTH in fields then LexicalCast(CString(fields[CONTENT_LENGTH]), SIZE_LIMIT) else Some(0)
  }

  // ---- one character at a time -------------------------------------------------------------

  /** What a finished header line does: the first is the request line, and of fields the first of a name stays. */
  function LineDone(p: Parser, line: string): Parser {
    if p.method_ == [] then p.(method_ := Words(line), current := "")
    else
      var (name, value) := SplitHeader(line);
      p.(fields := if name in p.fields then p.fields else p.fields[name := value], current := "")
  }

  function FeedHeader(p: Parser, c: char): Parser {
    if c == '\r' then p
    else if c != '\n' then p.(current := p.current + [c])
    else if p.current == "" then p.(headerReady := true)
    else LineDone(p, p.current)
  }

  /** The header is complete: without a body, so is the message. */
  function Settled(p: Parser): Parser {
    match ContentLength(p.fields)
    case None => p.(failed := true)
    case Some(n) => p.(ready := n == 0)
  }

  function FeedBody(p: Parser, c: char): Parser {
    match ContentLength(p.fields)
    case None => p.(failed := true)
    case Some(n) => if n == 0 then p.(ready := true) else p.(current := p.current + [c], ready := |p.current| + 1 == n)
  }

  predicate Open(p: Parser) {
    !p.ready && !p.failed
  }

  function Feed(p: Parser, c: char): Parser {
    if !p.headerReady then
      var q := FeedHeader(p, c);
      if q.headerReady then Settled(q) else q
    else FeedBody(p, c)
  }

  /** Feeding until the message is complete, or the text ends: the parser then, and how much it took. */
  function Push(p: Parser, text: string): (Parser, nat)
    decreases |text|
  {
    if text == "" || !Open(p) then (p, 0)
    else
      var (q, n) := Push(Feed(p, text[0]), text[1..]);
      (q, n + 1)
  }

  /** Between pushes a body is always shorter than announced, and a header line being collected has no line ends. */
  predicate BodyShort(p: Parser) {
    p.headerReady && Open(p) ==> ContentLength(p.fields).Some? && |p.current| < ContentLength(p.fields).value
  }

  lemma FeedKeeps(p: Parser, c: char)
    requires BodyShort(p) && Open(p)
    ensures BodyShort(Feed(p, c))
  {
    hide ContentLength, LineDone;
    if !p.headerReady {
      LineStaysOpen(p, p.current);
      assert FeedHeader(p, c).headerReady ==> FeedHeader(p, c).current == "";
    }
  }

  // ---- a stream of messages ----------------------------------------------------------------

  datatype Stream = Stream(done: seq<Parser>, current: Parser)

  function StreamStart(): Stream {
    Stream([], Fresh())
  }

  /** One more character: a complete message is put aside and a new parser begun. */
  function Take(s: Stream, c: char): Stream {
    if s.current.failed then s
    else
      var q := Feed(s.current, c);
      if q.ready then Stream(s.done + [q], Fresh()) else s.(current := q)
  }

  function TakeAll(s: Stream, text: string): Stream
    decreases |text|
  {
    if text == "" then s else TakeAll(Take(s, text[0]), text[1..])
  }

  /** However the text is cut into chunks, the same messages come out and the same rest stays. */
  lemma {:induction false} ChunkIndependent(s: Stream, a: string, b: string)
    ensures TakeAll(s, a + b) == TakeAll(TakeAll(s, a), b)
    decreases |a|
  {
    if a == "" {
      assert a + b == b;
    } else {
      assert (a + b)[0] == a[0] && (a + b)[1..] == a[1..] + b;
      hide Take;
      ChunkIndependent(Take(s, a[0]), a[1..], b);
    }
  }

  /** A push on a parser that is not done takes at least one character of any text, and no more than there is. */
  lemma {:induction false} PushTakes(p: Parser, text: string)
    ensures Push(p, text).1 <= |text|
    ensures text != "" && Open(p) ==> Push(p, text).1 > 0
    ensures Open(Push(p, text).0) ==> Push(p, text).1 == |text|
    decreases |text|
  {
    if text != "" && Open(p) {
      hide Feed;
      PushTakes(Feed(p, text[0]), text[1..]);
    }
  }

  /** A push is the part of the stream up to the end of a message. */
  lemma {:induction false} PushIsTake(s: Stream, text: string)
    requires Open(s.current)
    ensures Push(s.current, text).1 <= |text|
    ensures
      var (q, n) := Push(s.current, text);
      TakeAll(s, text) == if q.failed then s.(current := q)
                          else if q.ready then TakeAll(Stream(s.done + [q], Fresh()), text[n..])
                          else s.(current := q)
    decreases |text|
  {
    PushTakes(s.current, text);
    if text != "" {
      var q := Feed(s.current, text[0]);
      if q.failed {
        FeedNotBoth(s.current, text[0]);
        FailedStays(s.(current := q), text[1..]);
      } else if !q.ready {
        hide Feed, Push;
        PushStep(s.current, text);
        PushIsTake(s.(current := q), text[1..]);
        PushTakes(q, text[1..]);
        assert text[1..][Push(q, text[1..]).1..] == text[Push(q, text[1..]).1 + 1..];
      }
    }
  }

  lemma PushStep(p: Parser, text: string)
    requires text != "" && Open(p)
    ensures Push(p, text) == (Push(Feed(p, text[0]), text[1..]).0, Push(Feed(p, text[0]), text[1..]).1 + 1)
  {
  }

  lemma FeedNotBoth(p: Parser, c: char)
    requires Open(p)
    ensures !(Feed(p, c).failed && Feed(p, c).ready)
  {
  }

  lemma {:induction false} FailedStays(s: Stream, text: string)
    requires s.current.failed
    ensures TakeAll(s, text) == s
    decreases |text|
  {
    if text != "" {
      FailedStays(s, text[1..]);
    }
  }

  // ---- lines -------------------------------------------------------------------------------

  /** No character of the line ends it. */
  predicate Plain(line: string) {
    forall i | 0 <= i < |line| :: line[i] != '\r' && line[i] != '\n'
  }

  predicate InHeader(p: Parser) {
    !p.headerReady && Open(p)
  }

  lemma {:induction false} TakePlain(done: seq<Parser>, p: Parser, line: string)
    requires InHeader(p) && Plain(line)
    ensures TakeAll(Stream(done, p), line) == Stream(done, p.(current := p.current + line))
    decreases |line|
  {
    if line == "" {
      assert p.current + line == p.current;
    } else {
      var q := p.(current := p.current + [line[0]]);
      assert Take(Stream(done, p), line[0]) == Stream(done, q);
      TakePlain(done, q, line[1..]);
      assert (p.current + [line[0]]) + line[1..] == p.current + line;
    }
  }

  const CRLF: string := "\r\n"

  lemma TakeLine(done: seq<Parser>, p: Parser, line: string)
    requires InHeader(p) && p.current == "" && Plain(line) && line != ""
    ensures TakeAll(Stream(done, p), line + CRLF) == Stream(done, LineDone(p, line))
  {
    ChunkIndependent(Stream(done, p), line, CRLF);
    TakePlain(done, p, line);
    assert "" + line == line;
    hide LineDone;
    var s := Stream(done, p.(current := line));
    assert CRLF == ['\r'] + ['\n'];
    TakeTwo(s, '\r', '\n');
    assert Take(s, '\r') == s;
    assert LineDone(p.(current := line), line) == LineDone(p, line) by { LineIgnoresCurrent(p, line); }
    LineStaysOpen(p, line);
  }

  lemma TakeTwo(s: Stream, a: char, b: char)
    ensures TakeAll(s, [a] + [b]) == Take(Take(s, a), b)
  {
    ChunkIndependent(s, [a], [b]);
    TakeOne(s, a);
    TakeOne(Take(s, a), b);
  }

  lemma TakeOne(s: Stream, c: char)
    ensures TakeAll(s, [c]) == Take(s, c)
  {
    assert TakeAll(s, [c]) == TakeAll(Take(s, c), [c][1..]);
  }

  lemma LineIgnoresCurrent(p: Parser, line: string)
    ensures LineDone(p.(current := line), line) == LineDone(p, line)
  {
  }

  lemma LineStaysOpen(p: Parser, line: string)
    ensures
      var q := LineDone(p, line);
      q.current == "" && q.headerReady == p.headerReady && q.ready == p.ready && q.failed == p.failed
  {
  }

  /** A header, one line after another. */
  function LinesDone(p: Parser, lines: seq<string>): Parser
    decreases |lines|
  {
    if lines == [] then p else LinesDone(LineDone(p, lines[0]), lines[1..])
  }

  function LinesText(lines: seq<string>): string {
    if lines == [] then "" else (lines[0] + CRLF) + LinesText(lines[1..])
  }

  predicate Line(line: string) {
    line != "" && Plain(line)
  }

  predicate PlainLines(lines: seq<string>) {
    forall i | 0 <= i < |lines| :: Line(lines[i])
  }

  lemma {:induction false} TakeLines(done: seq<Parser>, p: Parser, lines: seq<string>)
    requires InHeader(p) && p.current == "" && PlainLines(lines)
    ensures TakeAll(Stream(done, p), LinesText(lines)) == Stream(done, LinesDone(p, lines))
    ensures InHeader(LinesDone(p, lines)) && LinesDone(p, lines).current == ""
    decreases |lines|
  {
    if lines != [] {
      hide LineDone, TakeAll, CRLF, Plain;
      assert Line(lines[0]);
      TakeLine(done, p, lines[0]);
      LineStaysOpen(p, lines[0]);
      TakeLines(done, LineDone(p, lines[0]), lines[1..]);
      ChunkIndependent(Stream(done, p), lines[0] + CRLF, LinesText(lines[1..]));
    } else {
      assert LinesText(lines) == "";
    }
  }

  /** The empty line ends the header. */
  lemma TakeBlank(done: seq<Parser>, p: Parser)
    requires InHeader(p) && p.current == "" && ContentLength(p.fields).Some?
    ensures
      TakeAll(Stream(done, p), CRLF) ==
        if ContentLength(p.fields) == Some(0) then Stream(done + [p.(headerReady := true, ready := true)], Fresh())
        else Stream(done, p.(headerReady := true))
  {
    assert CRLF == ['\r'] + ['\n'];
    hide ContentLength;
    TakeTwo(Stream(done, p), '\r', '\n');
    assert Take(Stream(done, p), '\r') == Stream(done, p);
  }

  lemma {:induction false} TakeBody(done: seq<Parser>, p: Parser, body: string)
    requires p.headerReady && Open(p) && body != "" && ContentLength(p.fields) == Some(|p.current| + |body|)
    ensures TakeAll(Stream(done, p), body) == Stream(done + [p.(current := p.current + body, ready := true)], Fresh())
    decreases |body|
  {
    hide ContentLength;
    var q := p.(current := p.current + [body[0]]);
    if |body| == 1 {
      assert body == [body[0]] && body[1..] == "";
      assert Take(Stream(done, p), body[0]) == Stream(done + [q.(ready := true)], Fresh());
    } else {
      assert Take(Stream(done, p), body[0]) == Stream(done, q);
      TakeBody(done, q, body[1..]);
      assert (p.current + [body[0]]) + body[1..] == p.current + body;
    }
  }

  /** A whole message: its header lines, the empty line, and a body of the announced length. */
  lemma TakeMessage(done: seq<Parser>, lines: seq<string>, body: string)
    requires PlainLines(lines) && ContentLength(LinesDone(Fresh(), lines).fields) == Some(|body|)
    ensures
      TakeAll(Stream(done, Fresh()), (LinesText(lines) + CRLF) + body) ==
        Stream(done + [LinesDone(Fresh(), lines).(headerReady := true, current := body, ready := true)], Fresh())
  {
    hide ContentLength, LinesText, CRLF, TakeAll, LinesDone, PlainLines;
    var s, p := Stream(done, Fresh()), LinesDone(Fresh(), lines);
    TakeLines(done, Fresh(), lines);
    ChunkIndependent(s, LinesText(lines) + CRLF, body);
    ChunkIndependent(s, LinesText(lines), CRLF);
    TakeBlank(done, p);
    if body == "" {
      TakeNothing(Stream(done + [p.(headerReady := true, ready := true)], Fresh()));
      assert p.(headerReady := true, ready := true) == p.(headerReady := true, current := body, ready := true);
    } else {
      TakeBody(done, p.(headerReady := true), body);
      assert "" + body == body;
    }
  }

  /** A header whose announced length is no number: the message fails, and nothing after it is taken. */
  lemma BadLengthStops(done: seq<Parser>, lines: seq<string>, rest: string)
    requires PlainLines(lines) && ContentLength(LinesDone(Fresh(), lines).fields) == None
    ensures
      TakeAll(Stream(done, Fresh()), (LinesText(lines) + CRLF) + rest) ==
        Stream(done, LinesDone(Fresh(), lines).(headerReady := true, failed := true))
  {
    hide ContentLength, LinesText, LinesDone, PlainLines, TakeAll;
    var s, p := Stream(done, Fresh()), LinesDone(Fresh(), lines);
    TakeLines(done, Fresh(), lines);
    ChunkIndependent(s, LinesText(lines) + CRLF, rest);
    ChunkIndependent(s, LinesText(lines), CRLF);
    assert CRLF == ['\r'] + ['\n'];
    TakeTwo(Stream(done, p), '\r', '\n');
    assert Take(Stream(done, p), '\r') == Stream(done, p);
    var stopped := Stream(done, p.(headerReady := true, failed := true));
    assert Take(Stream(done, p), '\n') == stopped;
    FailedStays(stopped, rest);
  }

  lemma {:induction false} FieldStays(p: Parser, lines: seq<string>, name: string)
    requires p.method_ != [] && name in p.fields
    ensures name in LinesDone(p, lines).fields && LinesDone(p, lines).fields[name] == p.fields[name]
    decreases |lines|
  {
    hide SplitHeader;
    if lines != [] {
      FieldStays(LineDone(p, lines[0]), lines[1..], name);
    }
  }

  /** Of several fields with one name the first counts. */
  lemma {:induction false} FirstFieldCounts(p: Parser, lines: seq<string>, k: nat, name: string, value: string)
    requires p.method_ != [] && name !in p.fields && k < |lines| && SplitHeader(lines[k]) == (name, value)
    requires forall i | 0 <= i < k :: SplitHeader(lines[i]).0 != name
    ensures name in LinesDone(p, lines).fields && LinesDone(p, lines).fields[name] == value
    decreases k
  {
    hide SplitHeader;
    if k == 0 {
      FieldStays(LineDone(p, lines[0]), lines[1..], name);
    } else {
      assert SplitHeader(lines[0]).0 != name;
      FirstFieldCounts(LineDone(p, lines[0]), lines[1..], k - 1, name, value);
    }
  }

  lemma TakeNothing(s: Stream)
    ensures TakeAll(s, "") == s
  {
  }
}
