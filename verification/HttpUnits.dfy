/**
 * Messages as HTTP text: lowlevel2http and http2lowlevel of
 * examples/hello-events-http/protocol/http-header.hpp.
 */
module HttpUnits {
  import opened Bytes
  import opened HttpText
  import opened HttpHeader
  import S = Sequences
  import opened Wrappers

  const WORD32: nat := 0x1_0000_0000

  datatype Failure = Failure(code: nat, category: nat, additional: string)

  /** A `lowlevel_unit`. */
  datatype Unit = Unit(mtype: nat, wait: bool, acceptResponse: bool, acceptCallbacks: bool, id: nat, target: nat,
                       call: Option<(string, string)>, error: Option<Failure>,
                       request: seq<byte>, response: seq<byte>)

  function Flags(u: Unit): nat {
    (if u.wait then 1 else 0) + (if u.acceptResponse then 2 else 0) + (if u.acceptCallbacks then 4 else 0)
  }

  // ---- field names -------------------------------------------------------------------------

  function ConnectionName(): string { "Connection" }

  function TypeName(): string { "X-VTRC-Type" }

  function OptionsName(): string { "X-VTRC-Options" }

  function IdName(): string { "X-VTRC-Id" }

  function TargetName(): string { "X-VTRC-Tid" }

  function LengthName(): string { CONTENT_LENGTH }

  function ErrorName(): string { "X-VTRC-Error" }

  function CategoryName(): string { "X-VTRC-Category" }

  function MessageName(): string { "X-VTRC-Message" }

  predicate FieldName(name: string) {
    ':' !in name && Plain(name)
  }

  lemma NamesPlain()
    ensures FieldName(ConnectionName()) && FieldName(TypeName()) && FieldName(OptionsName())
  {
  }

  lemma MoreNamesPlain()
    ensures FieldName(IdName()) && FieldName(TargetName()) && FieldName(LengthName())
  {
  }

  lemma NamesDiffer()
    ensures ConnectionName() !in {TypeName(), OptionsName(), IdName(), TargetName(), LengthName(), ErrorName()}
    ensures TypeName() !in {OptionsName(), IdName(), TargetName(), LengthName(), ErrorName()}
    ensures OptionsName() !in {IdName(), TargetName(), LengthName(), ErrorName()}
    ensures IdName() !in {TargetName(), LengthName(), ErrorName()}
    ensures TargetName() !in {LengthName(), ErrorName()}
    ensures LengthName() != ErrorName()
  {
    assert ConnectionName()[0] == 'C' && LengthName()[0] == 'C';
    assert TypeName()[0] == OptionsName()[0] == IdName()[0] == TargetName()[0] == ErrorName()[0] == 'X';
    assert TypeName()[7] == 'T' && OptionsName()[7] == 'O' && IdName()[7] == 'I' && ErrorName()[7] == 'E';
    assert TargetName()[7] == 'T' && TargetName()[8] == 'i' && TypeName()[8] == 'y';
  }

  // ---- printing ----------------------------------------------------------------------------

  function FieldLine(name: string, value: string): string {
    (name + [':']) + ([' '] + value)
  }

  function FirstLine(u: Unit): string {
    if u.call.Some? && u.error.None? then
      ("GET" + " ") + ((PathOf(u.call.value.0, u.call.value.1) + " ") + "HTTP/1.1")
    else "HTTP/1.1 200 OK"
  }

  function Content(u: Unit): string {
    match u.error
    case Some(e) => "<H1>Error: " + Decimal(e.code) + "<br>" + e.additional + "\n</H1>"
    case None => Hex(if u.call.Some? then u.request else u.response)
  }

  function Lines(u: Unit): seq<string> {
    [FirstLine(u), FieldLine(ConnectionName(), "keep-alive"), FieldLine(TypeName(), Decimal(u.mtype)),
     FieldLine(OptionsName(), Decimal(Flags(u)))]
    + (match u.error
       case Some(e) =>
         [FieldLine(ErrorName(), Decimal(e.code)), FieldLine(CategoryName(), Decimal(e.category)),
          FieldLine(MessageName(), e.additional)]
       case None => [FieldLine(IdName(), Decimal(u.id)), FieldLine(TargetName(), Decimal(u.target))])
    + [FieldLine(LengthName(), Decimal(|Content(u)|))]
  }

  /** `lowlevel2http`. */
  function Printed(u: Unit): string {
    (LinesText(Lines(u)) + CRLF) + Content(u)
  }

  // ---- a worked example --------------------------------------------------------------------

  const EXAMPLE: Unit := Unit(1, true, true, false, 1203, 45, Some(("a.b", "c")), None, [0x2F], [])

  lemma ExampleNumbers()
    ensures Decimal(1) == "1" && Decimal(2) == "2" && Decimal(3) == "3" && Decimal(45) == "45"
    ensures Decimal(1203) == "1203"
  {
    assert Decimal(12) == "12" && Decimal(120) == "120";
  }

  lemma ExamplePath()
    ensures PathOf("a.b", "c") == "/a/b/c"
  {
    var p := "/" + "a.b";
    assert p == ['/', 'a', '.', 'b'] && p[|p| - 1] == 'b';
    assert ReplacePath(p, '.', '/') == ['/', 'a', '/', 'b'];
  }

  lemma ExampleContent()
    ensures Content(EXAMPLE) == "2F"
  {
    assert Hex([0x2F]) == HexByte(0x2F) + Hex([]);
    assert HexByte(0x2F) == ['2', 'F'];
  }

  /** The text of one call, line by line. */
  lemma ExampleLines()
    ensures
      Lines(EXAMPLE) == [
        "GET /a/b/c HTTP/1.1",
        "Connection: keep-alive",
        "X-VTRC-Type: 1",
        "X-VTRC-Options: 3",
        "X-VTRC-Id: 1203",
        "X-VTRC-Tid: 45",
        "Content-Length: 2"]
    ensures Printed(EXAMPLE) == (LinesText(Lines(EXAMPLE)) + "\r\n") + "2F"
  {
    ExampleNumbers();
    ExamplePath();
    ExampleContent();
    hide Decimal, PathOf, Content, Hex;
    assert ("GET" + " ") + (("/a/b/c" + " ") + "HTTP/1.1") == "GET /a/b/c HTTP/1.1";
    assert FieldLine(ConnectionName(), "keep-alive") == "Connection: keep-alive";
    assert FieldLine(TypeName(), "1") == "X-VTRC-Type: 1";
    assert FieldLine(OptionsName(), "3") == "X-VTRC-Options: 3";
    assert FieldLine(IdName(), "1203") == "X-VTRC-Id: 1203";
    assert FieldLine(TargetName(), "45") == "X-VTRC-Tid: 45";
    assert FieldLine(LengthName(), "2") == "Content-Length: 2";
  }

  // ---- reading -----------------------------------------------------------------------------

  function GetUnsigned(fields: map<string, string>, name: string, default: nat): Option<nat> {
    if name in fields then LexicalCast(fields[name], WORD32) else Some(default)
  }

  /** `http2lowlevel`; None where a number does not convert, or the code reads what is not there. */
  function Read(p: Parser): Option<Unit> {
    if p.method_ == [] then None
    else
      match (GetUnsigned(p.fields, TypeName(), 1), GetUnsigned(p.fields, IdName(), 0),
             GetUnsigned(p.fields, TargetName(), 0), GetUnsigned(p.fields, OptionsName(), 3))
      case (Some(mtype), Some(id), Some(target), Some(flags)) =>
        ReadRest(p, Unit(mtype, flags % 2 == 1, flags / 2 % 2 == 1, flags / 4 % 2 == 1, id, target, None, None, [], []))
      case _ => None
  }

  /** The error, or the call and the body. */
  function ReadRest(p: Parser, u: Unit): Option<Unit>
    requires p.method_ != []
  {
    if ErrorName() in p.fields then
      match (GetUnsigned(p.fields, ErrorName(), 0), GetUnsigned(p.fields, CategoryName(), 0))
      case (Some(code), Some(category)) =>
        Some(u.(error := Some(Failure(code, category,
                                      if MessageName() in p.fields then p.fields[MessageName()] else ""))))
      case _ => None
    else if p.method_[0] != "GET" then Some(u.(response := Unhex(p.current)))
    else if |p.method_| == 1 then Some(u.(request := Unhex(p.current)))
    else
      match ServiceOf(p.method_[1])
      case None => None
      case Some(call) => Some(u.(call := Some(call), request := Unhex(p.current)))
  }

  // ---- one line ----------------------------------------------------------------------------

  predicate Unspaced(s: string) {
    forall i | 0 <= i < |s| :: !IsSpace(s[i])
  }

  lemma {:induction false} FirstOfBehind(a: string, c: char, b: string)
    requires c !in a
    ensures FirstOf((a + [c]) + b, c) == |a|
    decreases |a|
  {
    var s := (a + [c]) + b;
    if a != "" {
      assert s[1..] == (a[1..] + [c]) + b;
      FirstOfBehind(a[1..], c, b);
    }
  }

  /** A field line is split where it was joined. */
  lemma FieldSplit(name: string, value: string)
    requires ':' !in name && (value == "" || !IsSpace(value[0]))
    ensures SplitHeader(FieldLine(name, value)) == (name, value)
  {
    var v := FieldLine(name, value);
    FirstOfBehind(name, ':', [' '] + value);
    assert v[..|name|] == name;
    assert v[|name| + 1..] == [' '] + value;
    assert ([' '] + value)[1..] == value;
    assert SkipSpaces([' '] + value) == SkipSpaces(value) == value;
  }

  lemma FieldDone(p: Parser, name: string, value: string)
    requires p.method_ != [] && name !in p.fields && FieldName(name) && (value == "" || !IsSpace(value[0]))
    ensures LineDone(p, FieldLine(name, value)) == p.(fields := p.fields[name := value], current := "")
  {
    FieldSplit(name, value);
  }

  lemma {:induction false} WordBreak(word: string, a: string, rest: string)
    requires Unspaced(a)
    ensures WordsFrom(word, (a + " ") + rest) == [word + a] + WordsFrom("", rest)
    decreases |a|
  {
    var s := (a + " ") + rest;
    if a == "" {
      assert s[0] == ' ' && s[1..] == rest && word + a == word;
    } else {
      assert s[0] == a[0] && s[1..] == (a[1..] + " ") + rest;
      WordBreak(word + [a[0]], a[1..], rest);
      assert (word + [a[0]]) + a[1..] == word + a;
    }
  }

  lemma {:induction false} LastWord(word: string, a: string)
    requires Unspaced(a) && word + a != ""
    ensures WordsFrom(word, a) == [word + a]
    decreases |a|
  {
    if a == "" {
      assert word + a == word;
    } else {
      LastWord(word + [a[0]], a[1..]);
      assert (word + [a[0]]) + a[1..] == word + a;
    }
  }

  lemma ThreeWords(a: string, b: string, c: string)
    requires Unspaced(a) && Unspaced(b) && Unspaced(c) && c != ""
    ensures Words((a + " ") + ((b + " ") + c)) == [a, b, c]
  {
    WordBreak("", a, (b + " ") + c);
    WordBreak("", b, c);
    LastWord("", c);
    assert "" + a == a && "" + b == b && "" + c == c;
  }

  // ---- a whole message ---------------------------------------------------------------------

  /** No name has white space or line ends in it. */
  predicate Clean(u: Unit) {
    u.call.Some? ==> CleanName(u.call.value.0) && CleanName(u.call.value.1)
  }

  predicate CleanName(s: string) {
    Unspaced(s) && Plain(s)
  }

  /** What can be said as HTTP: 32-bit numbers, names a path can carry, and only the body that is printed. */
  predicate Representable(u: Unit) {
    && u.mtype < WORD32 && u.id < WORD32 && u.target < WORD32
    && (match u.call
        case Some(call) => PathName(call.0, call.1) && u.response == []
        case None => u.request == [])
  }

  function FirstWords(u: Unit): seq<string> {
    if u.call.Some? then ["GET", PathOf(u.call.value.0, u.call.value.1), "HTTP/1.1"] else ["HTTP/1.1", "200", "OK"]
  }

  function Fields(u: Unit): map<string, string> {
    map[ConnectionName() := "keep-alive", TypeName() := Decimal(u.mtype), OptionsName() := Decimal(Flags(u)),
        IdName() := Decimal(u.id), TargetName() := Decimal(u.target), LengthName() := Decimal(|Content(u)|)]
  }

  /** The parser a printed unit leaves. */
  function Message(u: Unit): Parser {
    Parser(Fields(u), FirstWords(u), Content(u), true, true, false)
  }

  lemma PathClean(service: string, meth: string)
    requires CleanName(service) && CleanName(meth)
    ensures CleanName(PathOf(service, meth))
  {
    var ser := "/" + service;
    assert CleanName(ser);
    var cut := if ser[|ser| - 1] == '.' then ser[..|ser| - 1] else ser;
    assert CleanName(cut);
    assert CleanName(Swapped(cut, '.', '/'));
  }

  lemma RequestLineRight(path: string)
    requires CleanName(path)
    ensures
      var line := ("GET" + " ") + ((path + " ") + "HTTP/1.1");
      Words(line) == ["GET", path, "HTTP/1.1"] && Line(line)
  {
    ThreeWords("GET", path, "HTTP/1.1");
    hide Words;
    assert Plain("GET" + " ") && Plain(" HTTP/1.1");
    var rest := (path + " ") + "HTTP/1.1";
    assert rest == path + " HTTP/1.1";
    PlainConcat(path, " HTTP/1.1");
    PlainConcat("GET" + " ", rest);
  }

  lemma PlainConcat(a: string, b: string)
    requires Plain(a) && Plain(b)
    ensures Plain(a + b)
  {
  }

  lemma StatusWords()
    ensures Unspaced("HTTP/1.1") && Unspaced("200") && Unspaced("OK")
    ensures "HTTP/1.1 200 OK" == ("HTTP/1.1" + " ") + (("200" + " ") + "OK")
  {
  }

  lemma StatusPlain()
    ensures Line("HTTP/1.1 200 OK")
  {
  }

  lemma StatusLineRight()
    ensures Words("HTTP/1.1 200 OK") == ["HTTP/1.1", "200", "OK"] && Line("HTTP/1.1 200 OK")
  {
    StatusWords();
    StatusPlain();
    hide Words, Line, Unspaced;
    ThreeWords("HTTP/1.1", "200", "OK");
  }

  lemma FirstLineRight(u: Unit)
    requires u.error.None? && Clean(u)
    ensures Words(FirstLine(u)) == FirstWords(u) && Line(FirstLine(u))
  {
    hide Words, Line, CleanName, PathOf;
    if u.call.Some? {
      PathClean(u.call.value.0, u.call.value.1);
      RequestLineRight(PathOf(u.call.value.0, u.call.value.1));
    } else {
      StatusLineRight();
    }
  }

  lemma DecimalPlain(n: nat)
    ensures Plain(Decimal(n)) && Decimal(n) != "" && !IsSpace(Decimal(n)[0])
    ensures '\0' !in Decimal(n)
  {
    DecimalDigits(n, 0);
  }

  lemma FieldPlain(name: string, value: string)
    requires Plain(name) && Plain(value)
    ensures Line(FieldLine(name, value))
  {
    var s := FieldLine(name, value);
    assert |s| == |name| + 2 + |value|;
    forall i | 0 <= i < |s| ensures s[i] != '\r' && s[i] != '\n' {
      assert s[i] == if i < |name| then name[i] else if i == |name| then ':' else if i == |name| + 1 then ' '
                     else value[i - |name| - 2];
    }
  }

  lemma LinesCons(p: Parser, line: string, rest: seq<string>)
    ensures LinesDone(p, [line] + rest) == LinesDone(LineDone(p, line), rest)
  {
    assert ([line] + rest)[1..] == rest;
  }

  lemma FieldsCons(p: Parser, name: string, value: string, rest: seq<string>)
    requires p.method_ != [] && name !in p.fields && FieldName(name) && (value == "" || !IsSpace(value[0]))
    ensures LinesDone(p, [FieldLine(name, value)] + rest) ==
              LinesDone(p.(fields := p.fields[name := value], current := ""), rest)
  {
    LinesCons(p, FieldLine(name, value), rest);
    FieldDone(p, name, value);
  }

  /** The last three lines, and the four before them. */
  function Tail(u: Unit): seq<string> {
    [FieldLine(IdName(), Decimal(u.id))] + ([FieldLine(TargetName(), Decimal(u.target))]
     + ([FieldLine(LengthName(), Decimal(|Content(u)|))] + []))
  }

  function Head(u: Unit, rest: seq<string>): seq<string> {
    [FirstLine(u)] + ([FieldLine(ConnectionName(), "keep-alive")] + ([FieldLine(TypeName(), Decimal(u.mtype))]
     + ([FieldLine(OptionsName(), Decimal(Flags(u)))] + rest)))
  }

  lemma LinesAre(u: Unit)
    requires u.error.None?
    ensures Lines(u) == Head(u, Tail(u))
  {
  }

  function HeadFields(u: Unit): map<string, string> {
    map[ConnectionName() := "keep-alive", TypeName() := Decimal(u.mtype), OptionsName() := Decimal(Flags(u))]
  }

  lemma FirstDone(u: Unit, rest: seq<string>)
    requires u.error.None? && Clean(u)
    ensures LinesDone(Fresh(), [FirstLine(u)] + rest) == LinesDone(Fresh().(method_ := FirstWords(u)), rest)
  {
    FirstLineRight(u);
    LinesCons(Fresh(), FirstLine(u), rest);
    hide FirstLine, FirstWords, LinesDone, Words;
  }

  lemma HeadDone(u: Unit, rest: seq<string>)
    requires u.error.None? && Clean(u)
    ensures LinesDone(Fresh(), Head(u, rest))
            == LinesDone(Parser(HeadFields(u), FirstWords(u), "", false, false, false), rest)
  {
    DecimalPlain(u.mtype);
    DecimalPlain(Flags(u));
    SomeWords(u);
    NamesPlain();
    NamesDiffer();
    hide FirstLine, FirstWords, Decimal, Flags, LinesDone, FieldLine, Words, FieldName, ConnectionName, TypeName,
         OptionsName, Clean;
    var options := [FieldLine(OptionsName(), Decimal(Flags(u)))] + rest;
    var mtype := [FieldLine(TypeName(), Decimal(u.mtype))] + options;
    var connection := [FieldLine(ConnectionName(), "keep-alive")] + mtype;
    FirstDone(u, connection);
    var p := Fresh().(method_ := FirstWords(u));
    FieldsCons(p, ConnectionName(), "keep-alive", mtype);
    var q := p.(fields := map[ConnectionName() := "keep-alive"]);
    FieldsCons(q, TypeName(), Decimal(u.mtype), options);
    var r := q.(fields := q.fields[TypeName() := Decimal(u.mtype)]);
    FieldsCons(r, OptionsName(), Decimal(Flags(u)), rest);
    assert r.fields[OptionsName() := Decimal(Flags(u))] == HeadFields(u);
  }

  lemma SomeWords(u: Unit)
    ensures FirstWords(u) != []
  {
  }

  lemma TailDone(u: Unit)
    ensures LinesDone(Parser(HeadFields(u), FirstWords(u), "", false, false, false), Tail(u)) ==
              Parser(Fields(u), FirstWords(u), "", false, false, false)
  {
    DecimalPlain(u.id);
    DecimalPlain(u.target);
    DecimalPlain(|Content(u)|);
    SomeWords(u);
    MoreNamesPlain();
    NamesDiffer();
    hide FirstWords, Decimal, Flags, FieldLine, Content, FieldName, LinesDone;
    hide ConnectionName, TypeName, OptionsName, IdName, TargetName, LengthName;
    var p := Parser(HeadFields(u), FirstWords(u), "", false, false, false);
    var size := [FieldLine(LengthName(), Decimal(|Content(u)|))] + [];
    var target := [FieldLine(TargetName(), Decimal(u.target))] + size;
    FieldsCons(p, IdName(), Decimal(u.id), target);
    var q := p.(fields := p.fields[IdName() := Decimal(u.id)]);
    FieldsCons(q, TargetName(), Decimal(u.target), size);
    var r := q.(fields := q.fields[TargetName() := Decimal(u.target)]);
    FieldsCons(r, LengthName(), Decimal(|Content(u)|), []);
    assert r.fields[LengthName() := Decimal(|Content(u)|)] == Fields(u);
  }

  lemma HeaderRight(u: Unit)
    requires u.error.None? && Clean(u)
    ensures LinesDone(Fresh(), Lines(u)) == Parser(Fields(u), FirstWords(u), "", false, false, false)
  {
    LinesAre(u);
    hide *;
    HeadDone(u, Tail(u));
    TailDone(u);
  }

  lemma DecimalLine(name: string, n: nat)
    requires FieldName(name)
    ensures Line(FieldLine(name, Decimal(n)))
  {
    DecimalPlain(n);
    FieldPlain(name, Decimal(n));
  }

  lemma LinesPlain(u: Unit)
    requires u.error.None? && Clean(u)
    ensures PlainLines(Lines(u))
  {
    FirstLineRight(u);
    NamesPlain();
    MoreNamesPlain();
    FieldPlain(ConnectionName(), "keep-alive");
    hide FirstLine, Decimal, Flags, FieldLine, Content, Line, FieldName;
    hide ConnectionName, TypeName, OptionsName, IdName, TargetName, LengthName;
    DecimalLine(TypeName(), u.mtype);
    DecimalLine(OptionsName(), Flags(u));
    DecimalLine(IdName(), u.id);
    DecimalLine(TargetName(), u.target);
    DecimalLine(LengthName(), |Content(u)|);
  }

  lemma {:induction false} NoZero(s: string)
    requires '\0' !in s
    ensures FirstOf(s, '\0') == |s| && CString(s) == s
    decreases |s|
  {
    if s != "" {
      NoZero(s[1..]);
    }
  }

  lemma LengthRight(u: Unit)
    requires |Content(u)| < SIZE_LIMIT
    ensures ContentLength(Fields(u)) == Some(|Content(u)|)
  {
    DecimalPlain(|Content(u)|);
    NoZero(Decimal(|Content(u)|));
    NumberRoundTrip(|Content(u)|, SIZE_LIMIT);
    NamesDiffer();
    assert LengthName() == CONTENT_LENGTH;
    hide Decimal, LexicalCast, CString, Content, ConnectionName, TypeName, OptionsName, IdName, TargetName, LengthName;
  }

  /** A printed unit, whatever messages came before, leaves its parser and nothing else. */
  lemma PrintedTaken(done: seq<Parser>, u: Unit)
    requires u.error.None? && Clean(u) && |Content(u)| < SIZE_LIMIT
    ensures TakeAll(Stream(done, Fresh()), Printed(u)) == Stream(done + [Message(u)], Fresh())
  {
    HeaderRight(u);
    LinesPlain(u);
    LengthRight(u);
    hide Fields, FirstWords, Lines, Content, LinesDone, LinesText, TakeAll, ContentLength, PlainLines, Clean;
    TakeMessage(done, Lines(u), Content(u));
  }

  // ---- round trips -------------------------------------------------------------------------

  lemma FlagsBack(u: Unit)
    ensures
      var f := Flags(u);
      f < WORD32 && (f % 2 == 1) == u.wait && (f / 2 % 2 == 1) == u.acceptResponse
          && (f / 4 % 2 == 1) == u.acceptCallbacks
  {
  }

  lemma NumbersBack(u: Unit)
    ensures GetUnsigned(Fields(u), TypeName(), 1) == if u.mtype < WORD32 then Some(u.mtype) else None
    ensures GetUnsigned(Fields(u), IdName(), 0) == if u.id < WORD32 then Some(u.id) else None
    ensures GetUnsigned(Fields(u), TargetName(), 0) == if u.target < WORD32 then Some(u.target) else None
    ensures GetUnsigned(Fields(u), OptionsName(), 3) == Some(Flags(u))
    ensures ErrorName() !in Fields(u)
  {
    NumberRoundTrip(u.mtype, WORD32);
    NumberRoundTrip(u.id, WORD32);
    NumberRoundTrip(u.target, WORD32);
    NumberRoundTrip(Flags(u), WORD32);
    FlagsBack(u);
    NamesDiffer();
    hide Decimal, LexicalCast, Flags, Content;
    hide ConnectionName, TypeName, OptionsName, IdName, TargetName, LengthName, ErrorName;
  }

  /** The message of an error-free unit is read back as the unit exactly when it can be represented. */
  lemma ReadsBackIff(u: Unit)
    requires u.error.None?
    ensures Read(Message(u)) == Some(u) <==> Representable(u)
  {
    NumbersBack(u);
    FlagsBack(u);
    hide Fields, Flags, GetUnsigned, ServiceOf, PathOf, PathName, Unhex, Hex;
    if u.call.Some? {
      PathRoundTripIff(u.call.value.0, u.call.value.1);
      HexRoundTrip(u.request);
    } else {
      HexRoundTrip(u.response);
    }
  }

  function PrintedAll(units: seq<Unit>): string {
    if units == [] then "" else Printed(units[0]) + PrintedAll(units[1..])
  }

  function Messages(units: seq<Unit>): seq<Parser> {
    if units == [] then [] else [Message(units[0])] + Messages(units[1..])
  }

  /** `process_data` once for each chunk that arrives. */
  function FeedChunks(s: Stream, chunks: seq<string>): Stream
    decreases |chunks|
  {
    if chunks == [] then s else FeedChunks(TakeAll(s, chunks[0]), chunks[1..])
  }

  lemma {:induction false} ChunksFlat(s: Stream, chunks: seq<string>)
    ensures FeedChunks(s, chunks) == TakeAll(s, S.Flatten(chunks))
    decreases |chunks|
  {
    if chunks == [] {
      TakeNothing(s);
    } else {
      hide TakeAll;
      ChunksFlat(TakeAll(s, chunks[0]), chunks[1..]);
      ChunkIndependent(s, chunks[0], S.Flatten(chunks[1..]));
    }
  }

  /** Units whose text is well formed: no error, no white space in names, and a body size_t can count. */
  predicate Sendable(u: Unit) {
    u.error.None? && Clean(u) && |Content(u)| < SIZE_LIMIT
  }

  lemma {:induction false} PrintedAllTaken(done: seq<Parser>, units: seq<Unit>)
    requires forall i | 0 <= i < |units| :: Sendable(units[i])
    ensures TakeAll(Stream(done, Fresh()), PrintedAll(units)) == Stream(done + Messages(units), Fresh())
    decreases |units|
  {
    if units == [] {
      TakeNothing(Stream(done, Fresh()));
      S.EmptyRight(done);
    } else {
      assert Sendable(units[0]);
      PrintedTaken(done, units[0]);
      forall i | 0 <= i < |units[1..]| ensures Sendable(units[1..][i]) {
        assert units[1..][i] == units[i + 1];
      }
      hide TakeAll, Printed, Sendable, Message;
      PrintedAllTaken(done + [Message(units[0])], units[1..]);
      ChunkIndependent(Stream(done, Fresh()), Printed(units[0]), PrintedAll(units[1..]));
      S.Assoc(done, [Message(units[0])], Messages(units[1..]));
    }
  }

  lemma {:induction false} MessageAt(units: seq<Unit>, i: nat)
    requires i < |units|
    ensures |Messages(units)| == |units| && Messages(units)[i] == Message(units[i])
    decreases |units|
  {
    hide Message;
    if i > 0 {
      MessageAt(units[1..], i - 1);
    } else if |units| > 1 {
      MessageAt(units[1..], 0);
    }
  }

  /**
   * Units printed one after another and received in any chunks come out as their messages, cut at the right
   * places with nothing left over; and each is read back as the unit sent exactly when it can be represented.
   */
  lemma StreamRoundTrip(units: seq<Unit>, chunks: seq<string>, i: nat)
    requires forall k | 0 <= k < |units| :: Sendable(units[k])
    requires S.Flatten(chunks) == PrintedAll(units) && i < |units|
    ensures
      var s := FeedChunks(StreamStart(), chunks);
      && s.current == Fresh() && |s.done| == |units|
      && (Read(s.done[i]) == Some(units[i]) <==> Representable(units[i]))
  {
    ChunksFlat(StreamStart(), chunks);
    PrintedAllTaken([], units);
    S.EmptyLeft(Messages(units));
    MessageAt(units, i);
    assert Sendable(units[i]);
    ReadsBackIff(units[i]);
    hide Read, Message, TakeAll, FeedChunks, Representable, PrintedAll;
  }

  // ---- the dispatch loop -------------------------------------------------------------------

  datatype Popped = Popped(units: seq<Unit>, rest: seq<Parser>, ok: bool)

  /** Messages are popped and read until none is left or one cannot be read; that one is popped too. */
  function PopAll(messages: seq<Parser>): Popped
    decreases |messages|
  {
    if messages == [] then Popped([], [], true)
    else
      match Read(messages[0])
      case None => Popped([], messages[1..], false)
      case Some(u) =>
        var others := PopAll(messages[1..]);
        others.(units := [u] + others.units)
  }

  predicate AllRepresentable(units: seq<Unit>) {
    forall i | 0 <= i < |units| :: Representable(units[i])
  }

  lemma AllRepresentableFirst(units: seq<Unit>)
    requires units != []
    ensures AllRepresentable(units) <==> Representable(units[0]) && AllRepresentable(units[1..])
  {
    hide Representable;
    var rest := units[1..];
    if Representable(units[0]) && AllRepresentable(rest) {
      forall i | 0 <= i < |units| ensures Representable(units[i]) {
        assert i > 0 ==> units[i] == rest[i - 1];
      }
    }
  }

  lemma PopFirst(m: Parser, rest: seq<Parser>)
    ensures
      PopAll([m] + rest) ==
        match Read(m)
        case None => Popped([], rest, false)
        case Some(u) => PopAll(rest).(units := [u] + PopAll(rest).units)
  {
    hide Read;
    assert ([m] + rest)[1..] == rest;
  }

  lemma {:induction false} MessagesReadIff(units: seq<Unit>)
    requires forall i | 0 <= i < |units| :: units[i].error.None?
    ensures PopAll(Messages(units)) == Popped(units, [], true) <==> AllRepresentable(units)
    decreases |units|
  {
    if units != [] {
      ReadsBackIff(units[0]);
      AllRepresentableFirst(units);
      PopFirst(Message(units[0]), Messages(units[1..]));
      hide Read, Message, AllRepresentable, Representable, PopAll;
      MessagesReadIff(units[1..]);
      S.HeadTail(units);
    }
  }

  /** Units printed, received in any chunks and dispatched: all of them, in order, exactly if all are representable. */
  lemma DispatchedIff(units: seq<Unit>, chunks: seq<string>)
    requires forall k | 0 <= k < |units| :: Sendable(units[k])
    requires S.Flatten(chunks) == PrintedAll(units)
    ensures PopAll(FeedChunks(StreamStart(), chunks).done) == Popped(units, [], true) <==> AllRepresentable(units)
  {
    ChunksFlat(StreamStart(), chunks);
    PrintedAllTaken([], units);
    S.EmptyLeft(Messages(units));
    assert forall k | 0 <= k < |units| :: Sendable(units[k]) ==> units[k].error.None?;
    hide Read, Message, TakeAll, FeedChunks, AllRepresentable, PrintedAll, PopAll, Sendable;
    MessagesReadIff(units);
  }
}
