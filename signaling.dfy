/**
 * What the connector derives from its configured server URL, and the one
 * frame it sends over its real-time channel.
 *
 * - the reachability probe goes to `{server_url}/http-pre-bind`, and the
 *   connector counts as connected exactly when that probe answers 200;
 * - a room's meeting URL is `{server_url}/{room}`;
 * - the real-time channel goes to `wss://{host}/xmpp-websocket`, where the
 *   host is the server URL without its `https://` or `http://` scheme;
 * - the first frame is the JSON text `{"action": "join", "room": "<room>"}`
 *   as Python's json.dumps writes it (ASCII only, with `\uXXXX` escapes).
 *
 * The decoder `ParseMessage` reads frames of exactly that shape; it stands
 * in for the JSON parser on the receiving side and is proved to invert the
 * encoder.
 */
module Signaling {
  import opened Wrappers

  const ProbePath: string := "/http-pre-bind"
  const WebsocketPath: string := "/xmpp-websocket"

  /** The probe's timeout, in seconds (the probe itself is not modelled). */
  const ProbeTimeoutSeconds: nat := 5

  predicate StartsWith(s: string, prefix: string) {
    |prefix| <= |s| && s[..|prefix|] == prefix
  }

  /** The URL of the reachability probe. */
  function ProbeUrl(serverUrl: string): (u: string)
    ensures StartsWith(u, serverUrl) && u[|serverUrl|..] == ProbePath
  {
    serverUrl + ProbePath
  }

  /** initialize: the probe's answer, or None when it failed at the network
      level, decides the connected flag; only status 200 connects. */
  predicate ProbeSucceeds(status: Option<int>) {
    status == Some(200)
  }

  /** get_jitsi_url: the meeting URL of a room, whether or not it exists. */
  function RoomUrl(serverUrl: string, roomName: string): (u: string)
    ensures |u| == |serverUrl| + 1 + |roomName|
    ensures StartsWith(u, serverUrl + "/") && u[|serverUrl| + 1..] == roomName
  {
    serverUrl + "/" + roomName
  }

  /** The server URL with a leading `https://` or `http://` removed. */
  function Host(serverUrl: string): (h: string)
    ensures |h| <= |serverUrl| && serverUrl[|serverUrl| - |h|..] == h
  {
    if StartsWith(serverUrl, "https://") then serverUrl[8..]
    else if StartsWith(serverUrl, "http://") then serverUrl[7..]
    else serverUrl
  }

  /** The address of the real-time channel. */
  function WebsocketUrl(serverUrl: string): (u: string)
    ensures |u| == 6 + |Host(serverUrl)| + |WebsocketPath|
    ensures StartsWith(u, "wss://")
    ensures u[6..|u| - |WebsocketPath|] == Host(serverUrl)
    ensures u[|u| - |WebsocketPath|..] == WebsocketPath
  {
    "wss://" + Host(serverUrl) + WebsocketPath
  }

  // ---------------------------------------------------------------------
  // JSON string escaping, as json.dumps does it with ensure_ascii

  /** One lower-case hex digit. */
  function HexDigit(d: nat): (c: char)
    requires d < 16
  {
    if d < 10 then ('0' as int + d) as char else ('a' as int + d - 10) as char
  }

  /** Two hex digits of a byte. */
  function Hex2(b: nat): (s: string)
    requires b < 0x100
    ensures |s| == 2
  {
    [HexDigit(b / 0x10), HexDigit(b % 0x10)]
  }

  /** Four lower-case hex digits, as Python's '{0:04x}'. */
  function Hex4(n: nat): (s: string)
    requires n < 0x10000
    ensures |s| == 4
  {
    Hex2(n / 0x100) + Hex2(n % 0x100)
  }

  /** The value of a hex digit of either case. */
  function HexValue(c: char): (r: Option<nat>)
    ensures r.Some? ==> r.value < 16
  {
    if '0' <= c <= '9' then Some(c as int - '0' as int)
    else if 'a' <= c <= 'f' then Some(c as int - 'a' as int + 10)
    else if 'A' <= c <= 'F' then Some(c as int - 'A' as int + 10)
    else None
  }

  function ParseHex2(s: string): (r: Option<nat>)
    requires |s| == 2
    ensures r.Some? ==> r.value < 0x100
  {
    match (HexValue(s[0]), HexValue(s[1]))
    case (Some(a), Some(b)) => Some(a * 0x10 + b)
    case _ => None
  }

  /** Reads four hex digits of either case. */
  function ParseHex4(s: string): (r: Option<nat>)
    requires |s| == 4
    ensures r.Some? ==> r.value < 0x10000
  {
    match (ParseHex2(s[..2]), ParseHex2(s[2..]))
    case (Some(a), Some(b)) => Some(a * 0x100 + b)
    case _ => None
  }

  lemma HexDigitRoundTrip(d: nat)
    requires d < 16
    ensures HexValue(HexDigit(d)) == Some(d)
  {
  }

  lemma Hex2RoundTrip(b: nat)
    requires b < 0x100
    ensures ParseHex2(Hex2(b)) == Some(b)
  {
    HexDigitRoundTrip(b / 0x10);
    HexDigitRoundTrip(b % 0x10);
  }

  lemma Hex4RoundTrip(n: nat)
    requires n < 0x10000
    ensures ParseHex4(Hex4(n)) == Some(n)
  {
    var s := Hex4(n);
    Hex2RoundTrip(n / 0x100);
    Hex2RoundTrip(n % 0x100);
    assert s[..2] == Hex2(n / 0x100);
    assert s[2..] == Hex2(n % 0x100);
  }

  /** The letter of the two-character escape json.dumps uses for `c`, if any:
      quote, backslash, newline, carriage return, tab, backspace, form feed. */
  function ShortEscape(c: char): Option<char> {
    if c == '"' then Some('"')
    else if c == '\\' then Some('\\')
    else if c == '\n' then Some('n')
    else if c == '\r' then Some('r')
    else if c == '\t' then Some('t')
    else if c == 8 as char then Some('b')
    else if c == 12 as char then Some('f')
    else None
  }

  /** The character a two-character escape `\e` stands for when reading. */
  function Unescaped(e: char): Option<char> {
    if e == '"' then Some('"')
    else if e == '\\' then Some('\\')
    else if e == '/' then Some('/')
    else if e == 'n' then Some('\n')
    else if e == 'r' then Some('\r')
    else if e == 't' then Some('\t')
    else if e == 'b' then Some(8 as char)
    else if e == 'f' then Some(12 as char)
    else None
  }

  predicate Printable(c: char) {
    ' ' <= c <= '~'
  }

  /** The escape json.dumps writes for one character: its two-character
      escape if it has one, the character itself when it is printable ASCII,
      `\uXXXX` below U+10000, and a surrogate pair of such escapes above. */
  function EscapeChar(c: char): (e: string)
    ensures |e| > 0 && (e[0] == '\\' || (e == [c] && c != '"' && c != '\\' && Printable(c)))
  {
    if ShortEscape(c).Some? then ['\\', ShortEscape(c).value]
    else if Printable(c) then [c]
    else if c as int < 0x10000 then "\\u" + Hex4(c as int)
    else
      var v := c as int - 0x10000;
      "\\u" + Hex4(0xD800 + v / 0x400) + "\\u" + Hex4(0xDC00 + v % 0x400)
  }

  function Escape(s: string): (e: string)
    ensures |e| >= |s|
  {
    if s == [] then [] else EscapeChar(s[0]) + Escape(s[1..])
  }

  /** Reads one (possibly escaped) character at the front of `s`, with the
      number of characters it took; a bare quote or control character and a
      malformed escape are refused. */
  function DecodeOne(s: string): (r: Option<(char, nat)>)
    ensures r.Some? ==> 0 < r.value.1 <= |s|
  {
    if s == [] then None
    else if s[0] == '\\' then DecodeEscape(s)
    else if s[0] == '"' || s[0] < ' ' then None
    else Some((s[0], 1))
  }

  /** Reads an escape sequence at the front of `s`. */
  function DecodeEscape(s: string): (r: Option<(char, nat)>)
    ensures r.Some? ==> 0 < r.value.1 <= |s|
  {
    if |s| < 2 then None
    else if s[1] == 'u' then DecodeUnicode(s)
    else match Unescaped(s[1])
      case None => None
      case Some(c) => Some((c, 2))
  }

  /** Reads a `\uXXXX` escape, combining a high and a low surrogate into one
      character; a lone surrogate is refused. */
  function DecodeUnicode(s: string): (r: Option<(char, nat)>)
    ensures r.Some? ==> 0 < r.value.1 <= |s|
  {
    if |s| < 6 then None
    else match ParseHex4(s[2..6])
      case None => None
      case Some(hi) =>
        if hi < 0xD800 || 0xE000 <= hi then Some((hi as char, 6))
        else if 0xDC00 <= hi || |s| < 12 || s[6..8] != "\\u" then None
        else match ParseHex4(s[8..12])
          case None => None
          case Some(lo) =>
            if lo < 0xDC00 || 0xE000 <= lo then None
            else Some(((0x10000 + (hi - 0xD800) * 0x400 + (lo - 0xDC00)) as char, 12))
  }

  lemma DecodeShort(c: char, rest: string)
    requires ShortEscape(c).Some?
    ensures DecodeOne(EscapeChar(c) + rest) == Some((c, 2))
  {
    var s := EscapeChar(c) + rest;
    assert s[0] == '\\' && s[1] == ShortEscape(c).value;
    assert DecodeEscape(s) == Some((c, 2));
  }

  lemma DecodeBmp(c: char, rest: string)
    requires ShortEscape(c).None? && !Printable(c) && c as int < 0x10000
    ensures DecodeOne(EscapeChar(c) + rest) == Some((c, 6))
  {
    var s := EscapeChar(c) + rest;
    assert s[0] == '\\' && s[1] == 'u';
    assert s[2..6] == Hex4(c as int);
    Hex4RoundTrip(c as int);
  }

  /** Where the parts of a surrogate-pair escape sit. */
  lemma PairLayout(a: string, b: string, rest: string)
    requires |a| == 4 && |b| == 4
    ensures var s := "\\u" + a + "\\u" + b + rest;
            && |s| >= 12 && s[0] == '\\' && s[1] == 'u'
            && s[2..6] == a && s[6..8] == "\\u" && s[8..12] == b
  {
    var s := "\\u" + a + "\\u" + b + rest;
    assert s[..12] == "\\u" + a + "\\u" + b;
  }

  /** Splitting a code point above U+FFFF into its two surrogates and
      combining them again gives it back. */
  lemma SurrogateArith(v: int)
    requires 0 <= v < 0x100000
    ensures 0 <= v / 0x400 < 0x400 && 0 <= v % 0x400 < 0x400
    ensures 0x10000 + (v / 0x400) * 0x400 + v % 0x400 == 0x10000 + v
  {
  }

  lemma DecodeAstral(c: char, rest: string)
    requires c as int >= 0x10000
    ensures DecodeOne(EscapeChar(c) + rest) == Some((c, 12))
  {
    var v := c as int - 0x10000;
    SurrogateArith(v);
    var hi, lo := 0xD800 + v / 0x400, 0xDC00 + v % 0x400;
    var a, b := Hex4(hi), Hex4(lo);
    assert EscapeChar(c) == "\\u" + a + "\\u" + b;
    var s := EscapeChar(c) + rest;
    PairLayout(a, b, rest);
    Hex4RoundTrip(hi);
    Hex4RoundTrip(lo);
    assert DecodeUnicode(s) == Some((c, 12));
  }

  /** Reading the escape of a character gives the character back. */
  lemma DecodeEscapeChar(c: char, rest: string)
    ensures DecodeOne(EscapeChar(c) + rest) == Some((c, |EscapeChar(c)|))
  {
    if ShortEscape(c).Some? {
      DecodeShort(c, rest);
    } else if Printable(c) {
    } else if c as int < 0x10000 {
      DecodeBmp(c, rest);
    } else {
      DecodeAstral(c, rest);
    }
  }

  /** Reads the rest of a JSON string up to and including its closing quote:
      the characters it denotes, and how many characters it took. */
  function ScanString(s: string): (r: Option<(string, nat)>)
    ensures r.Some? ==> 0 < r.value.1 <= |s|
    decreases |s|, 1
  {
    if s == [] then None
    else if s[0] == '"' then Some(([], 1))
    else ScanAfter(s, DecodeOne(s))
  }

  /** Continues ScanString once the character at the front of `s` has been
      read as `d`. */
  function ScanAfter(s: string, d: Option<(char, nat)>): (r: Option<(string, nat)>)
    requires d.Some? ==> 0 < d.value.1 <= |s|
    ensures r.Some? ==> 0 < r.value.1 <= |s|
    decreases |s|, 0
  {
    if d.None? then None
    else
      var r := ScanString(s[d.value.1..]);
      if r.None? then None else Some(([d.value.0] + r.value.0, d.value.1 + r.value.1))
  }

  lemma ScanStep(s: string, c: char, k: nat, t: string, j: nat)
    requires s != [] && s[0] != '"'
    requires DecodeOne(s) == Some((c, k))
    requires ScanString(s[k..]) == Some((t, j))
    ensures ScanString(s) == Some(([c] + t, k + j))
  {
    assert ScanString(s) == ScanAfter(s, Some((c, k)));
  }

  /** Dropping a prefix leaves what follows it. */
  lemma DropFront(p: string, x: string)
    ensures (p + x)[|p|..] == x
  {
  }

  /** One step of ScanString over a front part `e` that reads as `c`. */
  lemma ScanCons(e: string, c: char, tail: string, t: string, j: nat)
    requires e != [] && e[0] != '"'
    requires DecodeOne(e + tail) == Some((c, |e|))
    requires ScanString(tail) == Some((t, j))
    ensures ScanString(e + tail) == Some(([c] + t, |e| + j))
  {
    DropFront(e, tail);
    ScanStep(e + tail, c, |e|, t, j);
  }

  lemma Assoc(a: string, b: string, c: string)
    ensures (a + b) + c == a + (b + c)
  {
  }

  /** ScanString reads the escape of `c` as `c` and goes on after it. */
  lemma ScanEscapeStep(c: char, tail: string, t: string, j: nat)
    requires ScanString(tail) == Some((t, j))
    ensures ScanString(EscapeChar(c) + tail) == Some(([c] + t, |EscapeChar(c)| + j))
  {
    DecodeEscapeChar(c, tail);
    ScanCons(EscapeChar(c), c, tail, t, j);
  }

  /** Reading an escaped string followed by its closing quote gives the
      string back and stops right after the quote. */
  lemma {:induction false} ScanEscaped(x: string, rest: string)
    ensures ScanString(Escape(x) + ("\"" + rest)) == Some((x, |Escape(x)| + 1))
    decreases |x|
  {
    if x == [] {
      assert Escape(x) + ("\"" + rest) == "\"" + rest;
    } else {
      var e, more := EscapeChar(x[0]), Escape(x[1..]);
      var tail := more + ("\"" + rest);
      assert Escape(x) == e + more;
      Assoc(e, more, "\"" + rest);
      ScanEscaped(x[1..], rest);
      ScanEscapeStep(x[0], tail, x[1..], |more| + 1);
      assert [x[0]] + x[1..] == x;
      assert ScanString(Escape(x) + ("\"" + rest)) == ScanString(e + tail);
    }
  }

  /** A string of printable characters other than quote and backslash is
      written as it is. */
  lemma {:induction false} EscapePlain(s: string)
    requires forall i :: 0 <= i < |s| ==> Printable(s[i]) && s[i] != '"' && s[i] != '\\'
    ensures Escape(s) == s
    decreases |s|
  {
    if s != [] {
      EscapePlain(s[1..]);
    }
  }

  // ---------------------------------------------------------------------
  // The signaling frame

  /** A frame of the channel: an action and the room it is about. */
  datatype Message = Message(action: string, room: string)

  const FrameOpen: string := "{\"action\": \""
  const FrameMiddle: string := ", \"room\": \""
  const FrameClose: string := "}"

  /** A string field's escaped text, its closing quote and what follows. */
  function Field(text: string, rest: string): string {
    Escape(text) + ("\"" + rest)
  }

  /** json.dumps({"action": action, "room": room}). */
  function Serialize(m: Message): string {
    FrameOpen + Field(m.action, FrameMiddle + Field(m.room, FrameClose))
  }

  /** The frame connect_websocket sends once the channel is open. */
  function JoinFrame(roomName: string): string {
    Serialize(Message("join", roomName))
  }

  /** Reads a frame of the shape Serialize writes. */
  function ParseMessage(s: string): Option<Message> {
    if !StartsWith(s, FrameOpen) then None
    else match ScanString(s[|FrameOpen|..])
      case None => None
      case Some((action, k)) =>
        match ParseRoomField(s[|FrameOpen|..][k..])
        case None => None
        case Some(room) => Some(Message(action, room))
  }

  /** Reads the part of a frame after the action's closing quote. */
  function ParseRoomField(t: string): Option<string> {
    if !StartsWith(t, FrameMiddle) then None
    else match ScanString(t[|FrameMiddle|..])
      case None => None
      case Some((room, j)) =>
        if t[|FrameMiddle|..][j..] == FrameClose then Some(room) else None
  }

  lemma SkipPrefix(p: string, x: string)
    ensures StartsWith(p + x, p) && (p + x)[|p|..] == x
  {
  }

  /** Scanning a field stops right before what follows it. */
  lemma FieldRead(text: string, rest: string)
    ensures ScanString(Field(text, rest)).Some?
    ensures ScanString(Field(text, rest)).value.0 == text
    ensures Field(text, rest)[ScanString(Field(text, rest)).value.1..] == rest
  {
    ScanEscaped(text, rest);
    DropQuote(Escape(text), rest);
  }

  /** Past a front part and one quote comes what follows the quote. */
  lemma DropQuote(e: string, rest: string)
    ensures (e + ("\"" + rest))[|e| + 1..] == rest
  {
    var q := "\"" + rest;
    assert (e + q)[|e| + 1..] == q[1..];
  }

  lemma RoomFieldRoundTrip(room: string)
    ensures ParseRoomField(FrameMiddle + Field(room, FrameClose)) == Some(room)
  {
    SkipPrefix(FrameMiddle, Field(room, FrameClose));
    FieldRead(room, FrameClose);
  }

  /** After the opening and the action field, the rest of a frame is read
      as the room field. */
  lemma ActionFieldRead(action: string, rest: string)
    ensures ParseMessage(FrameOpen + Field(action, rest))
            == match ParseRoomField(rest)
               case None => None
               case Some(room) => Some(Message(action, room))
  {
    SkipPrefix(FrameOpen, Field(action, rest));
    FieldRead(action, rest);
  }

  /** Reading a serialized frame gives back the message. */
  lemma SerializeRoundTrip(m: Message)
    ensures ParseMessage(Serialize(m)) == Some(m)
  {
    ActionFieldRead(m.action, FrameMiddle + Field(m.room, FrameClose));
    RoomFieldRoundTrip(m.room);
  }

  /** The frame sent on joining reads back as action "join" and the room. */
  lemma JoinFrameReadsBack(roomName: string)
    ensures ParseMessage(JoinFrame(roomName)) == Some(Message("join", roomName))
  {
    SerializeRoundTrip(Message("join", roomName));
  }

  /** The channel address for an https or http server URL. */
  lemma WebsocketUrlOfScheme(host: string)
    ensures WebsocketUrl("https://" + host) == "wss://" + host + WebsocketPath
    ensures WebsocketUrl("http://" + host) == "wss://" + host + WebsocketPath
  {
    assert ("https://" + host)[..8] == "https://";
    assert ("https://" + host)[8..] == host;
    var h := "http://" + host;
    assert h[..7] == "http://";
    assert h[4] == ':';
    assert !StartsWith(h, "https://");
    assert h[7..] == host;
  }

  /** Two rooms share a meeting URL only if they are the same room. */
  lemma RoomUrlInjective(serverUrl: string, a: string, b: string)
    ensures RoomUrl(serverUrl, a) == RoomUrl(serverUrl, b) <==> a == b
  {
    if RoomUrl(serverUrl, a) == RoomUrl(serverUrl, b) {
      assert a == RoomUrl(serverUrl, a)[|serverUrl| + 1..];
    }
  }
}
