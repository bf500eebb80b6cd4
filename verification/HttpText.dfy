/**
 * The text conversions of examples/hello-events-http/protocol/http-header.hpp: numbers as stream output and
 * lexical_cast write and read them, bytes in hexadecimal, and paths.
 */
module HttpText {
  import opened Bytes
  import opened Wrappers

  // ---- decimal numbers ---------------------------------------------------------------------

  predicate IsDigit(c: char) {
    '0' <= c <= '9'
  }

  function DigitValue(c: char): nat
    requires IsDigit(c)
  {
    c as int - '0' as int
  }

  function DigitChar(d: nat): char
    requires d < 10
  {
    ('0' as int + d) as char
  }

  /** A number as an output stream writes it. */
  function Decimal(n: nat): string {
    if n < 10 then [DigitChar(n)] else Decimal(n / 10) + [DigitChar(n % 10)]
  }

  /** Decimal digits read from the left; None if there are none, or another character, or the value reaches `limit`. */
  function Digits(s: string, limit: nat): Option<nat> {
    if s == "" then None
    else
      var last := s[|s| - 1];
      if !IsDigit(last) then None
      else if |s| == 1 then (if DigitValue(last) < limit then Some(DigitValue(last)) else None)
      else
        match Digits(s[..|s| - 1], limit)
        case None => None
        case Some(v) => if 10 * v + DigitValue(last) < limit then Some(10 * v + DigitValue(last)) else None
  }

  /** lexical_cast to an unsigned integer below `limit`: a sign is allowed, and minus wraps around. */
  function LexicalCast(s: string, limit: nat): Option<nat>
    requires limit > 0
  {
    if s == "" then None
    else if s[0] == '+' then Digits(s[1..], limit)
    else if s[0] == '-' then
      match Digits(s[1..], limit)
      case None => None
      case Some(v) => Some((limit - v) % limit)
    else Digits(s, limit)
  }

  lemma {:induction false} DecimalDigits(n: nat, limit: nat)
    ensures |Decimal(n)| > 0 && IsDigit(Decimal(n)[0])
    ensures Digits(Decimal(n), limit) == if n < limit then Some(n) else None
    ensures forall i | 0 <= i < |Decimal(n)| :: IsDigit(Decimal(n)[i])
  {
    if n >= 10 {
      DecimalDigits(n / 10, limit);
      var s := Decimal(n);
      assert s[..|s| - 1] == Decimal(n / 10);
      assert s[|s| - 1] == DigitChar(n % 10);
    }
  }

  /** What was printed is read back, exactly when it is below the limit of the type read into. */
  lemma NumberRoundTrip(n: nat, limit: nat)
    requires limit > 0
    ensures LexicalCast(Decimal(n), limit) == if n < limit then Some(n) else None
  {
    DecimalDigits(n, limit);
  }

  lemma CountsDown(n: nat, limit: nat)
    requires n < limit
    ensures (limit - n) % limit == if n == 0 then 0 else limit - n
  {
  }

  /** A plus sign changes nothing; a minus sign counts down from the limit, as unsigned arithmetic does. */
  lemma SignedNumber(n: nat, limit: nat)
    requires limit > 0
    ensures LexicalCast(['+'] + Decimal(n), limit) == if n < limit then Some(n) else None
    ensures
      LexicalCast(['-'] + Decimal(n), limit) ==
        if n == 0 then Some(0) else if n < limit then Some(limit - n) else None
  {
    DecimalDigits(n, limit);
    assert (['+'] + Decimal(n))[1..] == (['-'] + Decimal(n))[1..] == Decimal(n);
    hide Decimal, Digits, IsDigit;
    if n < limit {
      CountsDown(n, limit);
    }
  }

  // ---- hexadecimal -------------------------------------------------------------------------

  function HexChar(d: nat): char
    requires d < 16
  {
    if d < 10 then ('0' as int + d) as char else ('A' as int + d - 10) as char
  }

  function HexValue(c: char): Option<nat> {
    if '0' <= c <= '9' then Some(c as int - '0' as int)
    else if 'a' <= c <= 'f' then Some(c as int - 'a' as int + 10)
    else if 'A' <= c <= 'F' then Some(c as int - 'A' as int + 10)
    else None
  }

  function HexByte(b: byte): string {
    [HexChar(b / 16), HexChar(b % 16)]
  }

  function Hex(bytes: seq<byte>): string {
    if bytes == [] then "" else HexByte(bytes[0]) + Hex(bytes[1..])
  }

  predicate AllHex(s: string) {
    forall i | 0 <= i < |s| :: HexValue(s[i]).Some?
  }

  function PairByte(high: char, low: char): byte
    requires HexValue(high).Some? && HexValue(low).Some?
  {
    HexValue(high).value * 16 + HexValue(low).value
  }

  function Pairs(s: string): seq<byte>
    requires AllHex(s) && |s| % 2 == 0
  {
    if s == "" then []
    else [PairByte(s[0], s[1])] + Pairs(s[2..])
  }

  /** Text that is not pairs of hexadecimal digits throughout reads as nothing. */
  function Unhex(s: string): seq<byte> {
    if |s| % 2 != 0 || !AllHex(s) then [] else Pairs(s)
  }

  lemma {:induction false} HexIsHex(bytes: seq<byte>)
    ensures |Hex(bytes)| == 2 * |bytes| && AllHex(Hex(bytes))
  {
    if bytes != [] {
      HexIsHex(bytes[1..]);
      var rest := Hex(bytes[1..]);
      forall i | 0 <= i < |Hex(bytes)| ensures HexValue(Hex(bytes)[i]).Some? {
        assert i >= 2 ==> Hex(bytes)[i] == rest[i - 2];
      }
    }
  }

  lemma {:induction false} HexRoundTrip(bytes: seq<byte>)
    ensures Unhex(Hex(bytes)) == bytes
  {
    HexIsHex(bytes);
    if bytes != [] {
      HexIsHex(bytes[1..]);
      HexRoundTrip(bytes[1..]);
      assert Hex(bytes)[2..] == Hex(bytes[1..]);
      assert HexValue(HexChar(bytes[0] / 16)) == Some(bytes[0] / 16)
          && HexValue(HexChar(bytes[0] % 16)) == Some(bytes[0] % 16);
    }
  }

  function Upper(c: char): char {
    if 'a' <= c <= 'f' then (c as int - 'a' as int + 'A' as int) as char else c
  }

  function UpperAll(s: string): string {
    seq(|s|, i requires 0 <= i < |s| => Upper(s[i]))
  }

  lemma UpperHex(c: char)
    requires HexValue(c).Some?
    ensures HexValue(c).value < 16 && HexChar(HexValue(c).value) == Upper(c)
  {
  }

  lemma NibblesBack(h: nat, l: nat)
    requires h < 16 && l < 16
    ensures (h * 16 + l) / 16 == h && (h * 16 + l) % 16 == l
  {
  }

  lemma AllHexTail(s: string)
    requires AllHex(s) && |s| >= 2
    ensures AllHex(s[2..])
  {
  }

  lemma AllHexHead(s: string)
    requires AllHex(s) && |s| >= 2
    ensures HexValue(s[0]).Some? && HexValue(s[1]).Some?
  {
    hide HexValue;
  }

  lemma HexCons(b: byte, rest: seq<byte>)
    ensures Hex([b] + rest) == HexByte(b) + Hex(rest)
  {
    assert ([b] + rest)[1..] == rest;
  }

  lemma PairByteBack(high: char, low: char)
    requires HexValue(high).Some? && HexValue(low).Some?
    ensures HexByte(PairByte(high, low)) == [Upper(high), Upper(low)]
  {
    UpperHex(high);
    UpperHex(low);
    NibblesBack(HexValue(high).value, HexValue(low).value);
    hide HexValue, HexChar, Upper;
  }

  lemma PairsCons(s: string)
    requires |s| % 2 == 0 && AllHex(s) && s != ""
    ensures HexValue(s[0]).Some? && HexValue(s[1]).Some? && AllHex(s[2..])
    ensures Pairs(s) == [PairByte(s[0], s[1])] + Pairs(s[2..])
  {
    AllHexTail(s);
    AllHexHead(s);
    hide HexValue, PairByte, AllHex;
  }

  lemma EvenLeft(s: string)
    requires |s| % 2 == 0 && s != ""
    ensures |s| >= 2 && |s[2..]| % 2 == 0
  {
  }

  /** The first pair of digits, printed again. */
  lemma FirstPair(s: string)
    requires |s| % 2 == 0 && AllHex(s) && s != ""
    ensures AllHex(s[2..]) && Hex(Pairs(s)) == [Upper(s[0]), Upper(s[1])] + Hex(Pairs(s[2..]))
  {
    hide *;
    EvenLeft(s);
    AllHexHead(s);
    PairsCons(s);
    PairByteBack(s[0], s[1]);
    HexCons(PairByte(s[0], s[1]), Pairs(s[2..]));
  }

  lemma UpperCons(s: string)
    requires |s| >= 2
    ensures UpperAll(s) == [Upper(s[0]), Upper(s[1])] + UpperAll(s[2..])
  {
    hide Upper;
  }

  lemma {:induction false} PairsRoundTrip(s: string)
    requires |s| % 2 == 0 && AllHex(s)
    ensures Hex(Pairs(s)) == UpperAll(s)
    decreases |s|
  {
    if s == "" {
      assert Pairs(s) == [] && Hex([]) == "" && UpperAll(s) == "";
    } else {
      hide *;
      EvenLeft(s);
      FirstPair(s);
      PairsRoundTrip(s[2..]);
      UpperCons(s);
    }
  }

  /** Reading hexadecimal text loses nothing but the case of its digits. */
  lemma UnhexRoundTrip(s: string)
    requires |s| % 2 == 0 && AllHex(s)
    ensures Hex(Unhex(s)) == UpperAll(s)
  {
    PairsRoundTrip(s);
    hide Hex, Pairs, UpperAll, AllHex;
  }

  // ---- paths -------------------------------------------------------------------------------

  function Swapped(s: string, f: char, t: char): string {
    seq(|s|, i requires 0 <= i < |s| => if s[i] == f then t else s[i])
  }

  /** `replace_path`: one trailing `f` goes, every other becomes `t`. */
  function ReplacePath(path: string, f: char, t: char): string
    requires path != ""
  {
    Swapped(if path[|path| - 1] == f then path[..|path| - 1] else path, f, t)
  }

  /** The position of the last `c`. */
  function LastOf(s: string, c: char): Option<nat> {
    if s == "" then None
    else if s[|s| - 1] == c then Some(|s| - 1)
    else LastOf(s[..|s| - 1], c)
  }

  /**
   * `path_to_service`: what stands before and after the last dot, without the first character. None where the
   * code goes wrong, for lack of a dot after the first character.
   */
  function PathToService(path: string): Option<(string, string)> {
    match LastOf(path, '.')
    case None => None
    case Some(p) => if 0 < p < |path| then Some((path[1..p], path[p + 1..])) else None
  }

  /** The path of a service and method, as printed. */
  function PathOf(service: string, meth: string): string {
    ReplacePath("/" + service, '.', '/') + "/" + meth
  }

  /** The path read back; None where the code goes wrong. */
  function ServiceOf(path: string): Option<(string, string)> {
    if path == "" then None else PathToService(ReplacePath(path, '/', '.'))
  }

  /** Names that a path can carry. */
  predicate PathName(service: string, meth: string) {
    && '/' !in service && (service == "" || service[|service| - 1] != '.')
    && meth != "" && '.' !in meth && '/' !in meth
  }

  lemma {:induction false} LastOfBehind(a: string, c: char, b: string)
    requires c !in b
    ensures LastOf(a + [c] + b, c) == Some(|a|)
  {
    var s := a + [c] + b;
    if b != "" {
      assert s[..|s| - 1] == a + [c] + b[..|b| - 1];
      LastOfBehind(a, c, b[..|b| - 1]);
    }
  }

  lemma {:induction false} LastOfNone(s: string, c: char)
    ensures LastOf(s, c) == None <==> c !in s
    decreases |s|
  {
    if s != "" {
      LastOfNone(s[..|s| - 1], c);
      assert s == s[..|s| - 1] + [s[|s| - 1]];
    }
  }

  lemma {:induction false} LastOfAt(s: string, c: char)
    requires LastOf(s, c).Some?
    ensures LastOf(s, c).value < |s| && s[LastOf(s, c).value] == c && c !in s[LastOf(s, c).value + 1..]
    decreases |s|
  {
    var init := s[..|s| - 1];
    if s[|s| - 1] != c {
      LastOfAt(init, c);
      var p := LastOf(init, c).value;
      assert s[p + 1..] == init[p + 1..] + [s[|s| - 1]];
    }
  }

  /** Swapping dots for slashes and back restores what had no slashes. */
  lemma SwappedBack(s: string)
    requires '/' !in s
    ensures Swapped(Swapped(s, '.', '/'), '/', '.') == s
  {
  }

  /** Every name a path can carry comes back. */
  lemma PathRoundTrip(service: string, meth: string)
    requires PathName(service, meth)
    ensures ServiceOf(PathOf(service, meth)) == Some((service, meth))
  {
    var ser := "/" + service;
    assert ser[|ser| - 1] != '.';
    var path := PathOf(service, meth);
    var inside := Swapped(service, '.', '/');
    assert path == ("/" + inside) + "/" + meth;
    assert path[|path| - 1] != '/' by { assert path[|path| - 1] == meth[|meth| - 1]; }
    var back := ReplacePath(path, '/', '.');
    SwappedBack(service);
    assert back == ("." + service) + ['.'] + meth;
    LastOfBehind("." + service, '.', meth);
    assert back[1..|service| + 1] == service;
  }

  /** What comes back has no slashes, no dot in the method, and is two characters shorter than the path. */
  lemma ServiceShape(path: string)
    requires ServiceOf(path).Some?
    ensures
      var (service, meth) := ServiceOf(path).value;
      && '/' !in service && '/' !in meth && '.' !in meth
      && |service| + |meth| + 2 == |path| - if path[|path| - 1] == '/' then 1 else 0
  {
    var back := ReplacePath(path, '/', '.');
    assert '/' !in back;
    LastOfAt(back, '.');
    hide ReplacePath;
    var p := LastOf(back, '.').value;
    assert '/' !in back[1..p] && '/' !in back[p + 1..];
  }

  lemma PathEnd(service: string, meth: string)
    ensures
      var path := PathOf(service, meth);
      meth == "" ==> path[|path| - 1] == '/'
  {
  }

  /** A service and method come back from their path exactly when the path can carry them. */
  lemma PathRoundTripIff(service: string, meth: string)
    ensures ServiceOf(PathOf(service, meth)) == Some((service, meth)) <==> PathName(service, meth)
  {
    if PathName(service, meth) {
      PathRoundTrip(service, meth);
    }
    if ServiceOf(PathOf(service, meth)) == Some((service, meth)) {
      var path := PathOf(service, meth);
      ServiceShape(path);
      var ser := "/" + service;
      assert |path| == |ser| - (if ser[|ser| - 1] == '.' then 1 else 0) + 1 + |meth|;
      PathEnd(service, meth);
      assert service != "" ==> ser[|ser| - 1] == service[|service| - 1];
    }
  }
}
