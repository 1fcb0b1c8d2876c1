/** The chatbot side panel: the request payload for the selected mode, the
    HTML log writer, the classification of a reply, the cache file name of a
    downloaded image, the send/STT button toggle and the queue of UI jobs
    drained on each frame.

    The network, the file system and the worker threads are parameters: a
    chat reply is given as the `Json` the adapter returned, an image download
    as its `Fetch` outcome, a file write by whether it succeeds. */
module Chatbot {
  import opened PyText
  import opened PyJson

  // ---------------------------------------------------------------- modes

  /** `CHAT_MODES` */
  const ChatModes: seq<string> := ["(None)", "SQL Query", "Function Call", "RAG Response"]

  /** `_payload_for_mode(message)`; `None` is the `IndexError` a mode index
      past the list raises. */
  function PayloadForMode(modeIndex: int, message: string): Option<Json> {
    if modeIndex <= 0 then Some(JObj([("message", JStr(message))]))
    else if modeIndex < |ChatModes| then Some(JObj([("message", JStr(message)), ("mode", JStr(ChatModes[modeIndex]))]))
    else None
  }

  /** The payload always carries the message; it carries a mode exactly when
      a mode other than "(None)" is selected, and then the selected one. */
  lemma PayloadSpec(modeIndex: int, message: string)
    ensures PayloadForMode(modeIndex, message).Some? <==> modeIndex < |ChatModes|
    ensures PayloadForMode(modeIndex, message).Some? ==>
              var p := PayloadForMode(modeIndex, message).value;
              Get(p, "message") == JStr(message) &&
              (HasKey(p, "mode") <==> modeIndex > 0) &&
              (modeIndex > 0 ==> Get(p, "mode") == JStr(ChatModes[modeIndex]))
  {
    if modeIndex <= 0 {
      GetSingle("message", JStr(message), "message");
      GetSingle("message", JStr(message), "mode");
      assert !KeyIn([("message", JStr(message))][..0], "mode");
    } else if modeIndex < |ChatModes| {
      var v := JStr(ChatModes[modeIndex]);
      GetPair("message", JStr(message), "mode", v);
      var f := [("message", JStr(message)), ("mode", v)];
      assert f[|f| - 1].0 == "mode";
    }
  }

  // ---------------------------------------------------------------- messages

  type Byte = x: int | 0 <= x < 256

  /** `Msg`: `role` is "user" or "bot", `kind` is "text" or "image". */
  datatype Msg = Msg(role: string, kind: string, text: string, imageName: string,
                     imagePath: string, imageBytes: seq<Byte>)

  /** `Msg(role=..., kind="text", text=...)` */
  function TextMsg(role: string, text: string): Msg {
    Msg(role, "text", text, "", "", [])
  }

  // ---------------------------------------------------------------- HTML escaping

  /** The text escaping of `save_to_html`: `&`, then `<`, then `>`, then the
      newline, each replaced in one pass over the whole text. */
  function EscapeHtml(s: string): string {
    ReplaceChar(ReplaceChar(ReplaceChar(ReplaceChar(s, '&', "&amp;"), '<', "&lt;"), '>', "&gt;"), '\n', "<br>")
  }

  /** What the four passes make of one character. */
  function EscapeChar(c: char): string {
    if c == '&' then "&amp;"
    else if c == '<' then "&lt;"
    else if c == '>' then "&gt;"
    else if c == '\n' then "<br>"
    else [c]
  }

  /** Character-by-character escaping. */
  function EscapeChars(s: string): string {
    if s == [] then [] else EscapeChar(s[0]) + EscapeChars(s[1..])
  }

  /** The passes after the one that wrote `e`, on text free of their
      characters, change nothing. */
  lemma PassesAbsent(e: string)
    requires '<' !in e && '>' !in e && '\n' !in e
    ensures ReplaceChar(ReplaceChar(ReplaceChar(e, '<', "&lt;"), '>', "&gt;"), '\n', "<br>") == e
  {
    ReplaceCharAbsent(e, '<', "&lt;");
    ReplaceCharAbsent(e, '>', "&gt;");
    ReplaceCharAbsent(e, '\n', "<br>");
  }

  /** The passes for `>` and the newline on `&lt;`. */
  lemma LtPassesAbsent()
    ensures ReplaceChar(ReplaceChar("&lt;", '>', "&gt;"), '\n', "<br>") == "&lt;"
  {
    var e := "&lt;";
    assert '>' !in e && '\n' !in e;
    ReplaceCharAbsent(e, '>', "&gt;");
    ReplaceCharAbsent(e, '\n', "<br>");
  }

  /** The newline pass on `&gt;`. */
  lemma GtPassAbsent()
    ensures ReplaceChar("&gt;", '\n', "<br>") == "&gt;"
  {
    var e := "&gt;";
    assert '\n' !in e;
    ReplaceCharAbsent(e, '\n', "<br>");
  }

  /** The four passes on one character. */
  lemma EscapeHtmlChar(x: char)
    ensures EscapeHtml([x]) == EscapeChar(x)
  {
    ReplaceCharSingle(x, '&', "&amp;");
    if x == '&' {
      var e := "&amp;";
      assert '<' !in e && '>' !in e && '\n' !in e;
      PassesAbsent(e);
    } else {
      ReplaceCharSingle(x, '<', "&lt;");
      if x == '<' {
        LtPassesAbsent();
      } else {
        ReplaceCharSingle(x, '>', "&gt;");
        if x == '>' {
          GtPassAbsent();
        } else {
          ReplaceCharSingle(x, '\n', "<br>");
        }
      }
    }
  }

  /** The chain of passes does what one per-character pass does: no pass
      rewrites what an earlier one wrote, except the final newline pass,
      whose `<` and `>` are written after their own passes. */
  lemma {:induction false} EscapeHtmlIsPerChar(s: string)
    ensures EscapeHtml(s) == EscapeChars(s)
  {
    if s != [] {
      var x, t := s[0], s[1..];
      assert s == [x] + t;
      ReplaceCharConcat([x], t, '&', "&amp;");
      var a1, a2 := ReplaceChar([x], '&', "&amp;"), ReplaceChar(t, '&', "&amp;");
      ReplaceCharConcat(a1, a2, '<', "&lt;");
      var b1, b2 := ReplaceChar(a1, '<', "&lt;"), ReplaceChar(a2, '<', "&lt;");
      ReplaceCharConcat(b1, b2, '>', "&gt;");
      var c1, c2 := ReplaceChar(b1, '>', "&gt;"), ReplaceChar(b2, '>', "&gt;");
      ReplaceCharConcat(c1, c2, '\n', "<br>");
      assert EscapeHtml(s) == EscapeHtml([x]) + EscapeHtml(t);
      EscapeHtmlChar(x);
      EscapeHtmlIsPerChar(t);
    }
  }

  /** Reading escaped text back: each entity and each `<br>` stands for the
      character it replaced. */
  function UnescapeHtml(t: string): string
    decreases |t|
  {
    if t == [] then []
    else if StartsWith(t, "&amp;") then "&" + UnescapeHtml(t[5..])
    else if StartsWith(t, "&lt;") then "<" + UnescapeHtml(t[4..])
    else if StartsWith(t, "&gt;") then ">" + UnescapeHtml(t[4..])
    else if StartsWith(t, "<br>") then "\n" + UnescapeHtml(t[4..])
    else [t[0]] + UnescapeHtml(t[1..])
  }

  lemma UnescapeChar(c: char, rest: string)
    ensures UnescapeHtml(EscapeChar(c) + rest) == [c] + UnescapeHtml(rest)
  {
    var e := EscapeChar(c);
    var t := e + rest;
    assert t[..|e|] == e;
    assert t[|e|..] == rest;
    if c != '&' && c != '<' && c != '>' && c != '\n' {
      assert t[0] == c;
      assert !StartsWith(t, "&amp;") by { assert t[0] != "&amp;"[0]; }
      assert !StartsWith(t, "&lt;") by { assert t[0] != "&lt;"[0]; }
      assert !StartsWith(t, "&gt;") by { assert t[0] != "&gt;"[0]; }
      assert !StartsWith(t, "<br>") by { assert t[0] != "<br>"[0]; }
    } else if c == '&' {
      assert t[..5] == "&amp;";
    } else if c == '<' {
      assert t[..4] == "&lt;";
      assert !StartsWith(t, "&amp;") by { assert t[1] != "&amp;"[1]; }
    } else if c == '>' {
      assert t[..4] == "&gt;";
      assert !StartsWith(t, "&amp;") by { assert t[1] != "&amp;"[1]; }
      assert !StartsWith(t, "&lt;") by { assert t[1] != "&lt;"[1]; }
    } else {
      assert t[..4] == "<br>";
      assert !StartsWith(t, "&amp;") by { assert t[0] != "&amp;"[0]; }
      assert !StartsWith(t, "&lt;") by { assert t[0] != "&lt;"[0]; }
      assert !StartsWith(t, "&gt;") by { assert t[0] != "&gt;"[0]; }
    }
  }

  /** Escaping loses nothing: the log's text reads back as the message. */
  lemma {:induction false} UnescapeEscape(s: string)
    ensures UnescapeHtml(EscapeHtml(s)) == s
  {
    EscapeHtmlIsPerChar(s);
    EscapeCharsRoundTrip(s);
  }

  lemma {:induction false} EscapeCharsRoundTrip(s: string)
    ensures UnescapeHtml(EscapeChars(s)) == s
  {
    if s != [] {
      UnescapeChar(s[0], EscapeChars(s[1..]));
      EscapeCharsRoundTrip(s[1..]);
    }
  }

  /** Every character of the escaped text comes from the input or from the
      entity or `<br>` it was replaced by. */
  lemma {:induction false} EscapeCharsFrom(s: string, i: nat)
    requires i < |EscapeChars(s)|
    ensures var x := EscapeChars(s)[i];
            x in s || x in "&amp;&lt;&gt;<br>"
    ensures EscapeChars(s)[i] == '<' ==> '\n' in s
    ensures EscapeChars(s)[i] == '>' ==> '\n' in s
  {
    var e := EscapeChar(s[0]);
    if i >= |e| {
      EscapeCharsFrom(s[1..], i - |e|);
    }
  }

  /** A text without newlines is escaped to one without `<` or `>`: a
      message cannot open or close a tag in the log. */
  lemma EscapeHtmlNoTags(s: string)
    requires '\n' !in s
    ensures '<' !in EscapeHtml(s) && '>' !in EscapeHtml(s)
  {
    EscapeHtmlIsPerChar(s);
    forall i | 0 <= i < |EscapeChars(s)|
      ensures EscapeChars(s)[i] != '<' && EscapeChars(s)[i] != '>'
    {
      EscapeCharsFrom(s, i);
    }
  }

  // ---------------------------------------------------------------- base64

  /** The character for a 6-bit value in the standard base64 alphabet
      (section 4 of RFC 4648). */
  function Sextet(i: nat): (c: char)
    requires i < 64
    ensures c != '='
  {
    if i < 26 then (65 + i) as char
    else if i < 52 then (97 + i - 26) as char
    else if i < 62 then (48 + i - 52) as char
    else if i == 62 then '+'
    else '/'
  }

  /** The 6-bit value of an alphabet character. */
  function SextetValue(c: char): Option<nat> {
    if 'A' <= c <= 'Z' then Some(c as int - 65)
    else if 'a' <= c <= 'z' then Some(c as int - 97 + 26)
    else if '0' <= c <= '9' then Some(c as int - 48 + 52)
    else if c == '+' then Some(62)
    else if c == '/' then Some(63)
    else None
  }

  lemma SextetRoundTrip(i: nat)
    requires i < 64
    ensures SextetValue(Sextet(i)) == Some(i)
  {
  }

  /** Three bytes as four characters. */
  function EncodeGroup(a: Byte, b: Byte, c: Byte): string {
    [Sextet(a / 4), Sextet((a % 4) * 16 + b / 16), Sextet((b % 16) * 4 + c / 64), Sextet(c % 64)]
  }

  /** A last group of one byte, padded. */
  function EncodeOne(a: Byte): string {
    [Sextet(a / 4), Sextet((a % 4) * 16), '=', '=']
  }

  /** A last group of two bytes, padded. */
  function EncodeTwo(a: Byte, b: Byte): string {
    [Sextet(a / 4), Sextet((a % 4) * 16 + b / 16), Sextet((b % 16) * 4), '=']
  }

  /** `base64.b64encode(data).decode("ascii")`: groups of three bytes, a
      short last group padded with `=`. */
  function Base64(data: seq<Byte>): (r: string)
    ensures |r| == 4 * ((|data| + 2) / 3)
    decreases |data|
  {
    if |data| == 0 then ""
    else if |data| == 1 then EncodeOne(data[0])
    else if |data| == 2 then EncodeTwo(data[0], data[1])
    else
      assert (|data| + 2) / 3 == (|data[3..]| + 2) / 3 + 1;
      EncodeGroup(data[0], data[1], data[2]) + Base64(data[3..])
  }

  /** Four characters as up to three bytes; `None` for a character outside
      the alphabet. */
  function DecodeGroup(g: string): Option<seq<Byte>> {
    if |g| != 4 then None else
    var d0, d1 := SextetValue(g[0]), SextetValue(g[1]);
    if d0.None? || d1.None? then None
    else if g[2] == '=' && g[3] == '=' then Some([d0.value * 4 + d1.value / 16])
    else
      var d2 := SextetValue(g[2]);
      if d2.None? then None
      else if g[3] == '=' then Some([d0.value * 4 + d1.value / 16, (d1.value % 16) * 16 + d2.value / 4])
      else
        var d3 := SextetValue(g[3]);
        if d3.None? then None
        else Some([d0.value * 4 + d1.value / 16, (d1.value % 16) * 16 + d2.value / 4, (d2.value % 4) * 64 + d3.value])
  }

  /** Base64 decoding; padding is only accepted in the last group. */
  function Unbase64(s: string): Option<seq<Byte>> {
    UnbaseGroups(s, DecodeGroup)
  }

  /** Decoding group by group with `group`. */
  function UnbaseGroups(s: string, group: string -> Option<seq<Byte>>): Option<seq<Byte>>
    decreases |s|
  {
    if s == [] then Some([])
    else if |s| < 4 then None
    else match group(s[..4])
      case None => None
      case Some(bs) =>
        if |bs| < 3 then (if |s| == 4 then Some(bs) else None)
        else match UnbaseGroups(s[4..], group)
          case None => None
          case Some(rest) => Some(bs + rest)
  }

  /** An unpadded group decodes from the values of its characters. */
  lemma DecodeValues(g: string, d0: nat, d1: nat, d2: nat, d3: nat)
    requires |g| == 4 && d0 < 64 && d1 < 64 && d2 < 64 && d3 < 64
    requires SextetValue(g[0]) == Some(d0) && SextetValue(g[1]) == Some(d1)
    requires SextetValue(g[2]) == Some(d2) && SextetValue(g[3]) == Some(d3)
    requires g[2] != '=' && g[3] != '='
    ensures DecodeGroup(g) == Some([d0 * 4 + d1 / 16, (d1 % 16) * 16 + d2 / 4, (d2 % 4) * 64 + d3])
  {
  }

  /** The bit arithmetic of a full group: the four 6-bit values put back
      together give the three bytes. */
  lemma GroupArith(a: Byte, b: Byte, c: Byte)
    ensures var d1, d2 := (a % 4) * 16 + b / 16, (b % 16) * 4 + c / 64;
            (a / 4) * 4 + d1 / 16 == a && (d1 % 16) * 16 + d2 / 4 == b && (d2 % 4) * 64 + c % 64 == c
  {
    var d1, d2 := (a % 4) * 16 + b / 16, (b % 16) * 4 + c / 64;
    assert d1 / 16 == a % 4 && d1 % 16 == b / 16;
    assert d2 / 4 == b % 16 && d2 % 4 == c / 64;
  }

  lemma DecodeEncodeGroup(a: Byte, b: Byte, c: Byte)
    ensures DecodeGroup(EncodeGroup(a, b, c)) == Some([a, b, c])
  {
    var d0, d1, d2, d3 := a / 4, (a % 4) * 16 + b / 16, (b % 16) * 4 + c / 64, c % 64;
    SextetRoundTrip(d0);
    SextetRoundTrip(d1);
    SextetRoundTrip(d2);
    SextetRoundTrip(d3);
    DecodeValues(EncodeGroup(a, b, c), d0, d1, d2, d3);
    GroupArith(a, b, c);
  }

  lemma DecodeEncodeOne(a: Byte)
    ensures DecodeGroup(EncodeOne(a)) == Some([a])
  {
    SextetRoundTrip(a / 4);
    SextetRoundTrip((a % 4) * 16);
    assert (a / 4) * 4 + ((a % 4) * 16) / 16 == a;
  }

  lemma DecodeEncodeTwo(a: Byte, b: Byte)
    ensures DecodeGroup(EncodeTwo(a, b)) == Some([a, b])
  {
    var d1 := (a % 4) * 16 + b / 16;
    SextetRoundTrip(a / 4);
    SextetRoundTrip(d1);
    SextetRoundTrip((b % 16) * 4);
    assert (a / 4) * 4 + d1 / 16 == a;
    assert (d1 % 16) * 16 + ((b % 16) * 4) / 4 == b;
  }

  /** A full group in front decodes to its bytes in front. */
  lemma UnbaseFullGroup(g: string, bs: seq<Byte>, rest: string, group: string -> Option<seq<Byte>>)
    requires |g| == 4 && group(g) == Some(bs) && |bs| == 3
    ensures UnbaseGroups(g + rest, group) ==
              match UnbaseGroups(rest, group) case None => None case Some(t) => Some(bs + t)
  {
    var s := g + rest;
    assert s[..4] == g && s[4..] == rest;
  }

  /** An encoded group in front decodes to its three bytes in front. */
  lemma UnbaseEncoded(a: Byte, b: Byte, c: Byte, rest: string)
    ensures Unbase64(EncodeGroup(a, b, c) + rest) ==
              match Unbase64(rest) case None => None case Some(t) => Some([a, b, c] + t)
  {
    DecodeEncodeGroup(a, b, c);
    UnbaseFullGroup(EncodeGroup(a, b, c), [a, b, c], rest, DecodeGroup);
  }

  /** A one-byte last group decodes back. */
  lemma Base64TailOne(a: Byte)
    ensures Unbase64(Base64([a])) == Some([a])
  {
    var r := EncodeOne(a);
    assert Base64([a]) == r;
    assert r[..4] == r;
    DecodeEncodeOne(a);
  }

  /** A two-byte last group decodes back. */
  lemma Base64TailTwo(a: Byte, b: Byte)
    ensures Unbase64(Base64([a, b])) == Some([a, b])
  {
    var r := EncodeTwo(a, b);
    assert Base64([a, b]) == r;
    assert r[..4] == r;
    DecodeEncodeTwo(a, b);
  }

  /** Decoding a text of three bytes or more decodes its first group, then
      the rest. */
  lemma Base64Front(data: seq<Byte>)
    requires |data| >= 3
    ensures Unbase64(Base64(data)) ==
              match Unbase64(Base64(data[3..])) case None => None case Some(t) => Some([data[0], data[1], data[2]] + t)
  {
    var rest := Base64(data[3..]);
    assert Base64(data) == EncodeGroup(data[0], data[1], data[2]) + rest;
    UnbaseEncoded(data[0], data[1], data[2], rest);
  }

  lemma SplitThree(data: seq<Byte>)
    requires |data| >= 3
    ensures [data[0], data[1], data[2]] + data[3..] == data
  {
  }

  /** Decoding undoes encoding. */
  lemma {:induction false} Base64RoundTrip(data: seq<Byte>)
    ensures Unbase64(Base64(data)) == Some(data)
    decreases |data|
  {
    if |data| == 1 {
      Base64TailOne(data[0]);
      assert [data[0]] == data;
    } else if |data| == 2 {
      Base64TailTwo(data[0], data[1]);
      assert [data[0], data[1]] == data;
    } else if |data| >= 3 {
      Base64Front(data);
      Base64RoundTrip(data[3..]);
      SplitThree(data);
    }
  }

  /** The image is embedded exactly when it has bytes. */
  lemma Base64Empty(data: seq<Byte>)
    ensures Base64(data) == "" <==> data == []
  {
  }

  // ---------------------------------------------------------------- the HTML log

  const HtmlHead: string :=
    "<!DOCTYPE html><html><head><meta charset='utf-8'>" +
    "<style>.user{color:blue;font-weight:bold;margin-bottom:10px}" +
    ".bot{color:black;margin-bottom:30px}img{max-width:800px;max-height:400px;margin-bottom:30px}</style></head><body>"
  const HtmlTail: string := "</body></html>"
  const QuestionPrefix: string := "질문: "
  const AnswerPrefix: string := "답변:<br>"

  /** The line `save_to_html` writes for one message; a kind other than
      text or image writes nothing. */
  function MsgHtml(m: Msg): string {
    if m.kind == "text" then
      var cls := if m.role == "user" then "user" else "bot";
      var prefix := if m.role == "user" then QuestionPrefix else AnswerPrefix;
      "<div class='" + cls + "'>" + prefix + EscapeHtml(m.text) + "</div>\n"
    else if m.kind == "image" then
      var b64 := Base64(m.imageBytes);
      if b64 != "" then "<img src='data:image/png;base64," + b64 + "' />\n"
      else "<div class='bot'>(이미지 없음) " + m.imageName + "</div>\n"
    else ""
  }

  /** The lines of the messages of `h`, in order, `line` giving each. */
  function Lines(h: seq<Msg>, line: Msg -> string): string {
    if h == [] then "" else Lines(h[..|h| - 1], line) + line(h[|h| - 1])
  }

  /** The lines of a history, in order. */
  function HistoryHtml(h: seq<Msg>): string {
    Lines(h, MsgHtml)
  }

  /** The whole document `save_to_html` writes. */
  function HtmlOf(h: seq<Msg>): string {
    HtmlHead + HistoryHtml(h) + HtmlTail
  }

  /** A text message is a `div` of class `user` with the question prefix
      for the user, of class `bot` with the answer prefix otherwise, and its
      text reads back from the escaped form. */
  lemma TextMsgHtml(m: Msg)
    requires m.kind == "text"
    ensures m.role == "user" ==> MsgHtml(m) == "<div class='user'>" + QuestionPrefix + EscapeHtml(m.text) + "</div>\n"
    ensures m.role != "user" ==> MsgHtml(m) == "<div class='bot'>" + AnswerPrefix + EscapeHtml(m.text) + "</div>\n"
    ensures UnescapeHtml(EscapeHtml(m.text)) == m.text
  {
    UnescapeEscape(m.text);
  }

  /** An image message with bytes is an `img` whose data URI decodes to
      them; one without is the placeholder `div` naming the file. */
  lemma ImageMsgHtml(m: Msg)
    requires m.kind == "image"
    ensures m.imageBytes != [] ==>
              MsgHtml(m) == "<img src='data:image/png;base64," + Base64(m.imageBytes) + "' />\n" &&
              Unbase64(Base64(m.imageBytes)) == Some(m.imageBytes)
    ensures m.imageBytes == [] ==> MsgHtml(m) == "<div class='bot'>(이미지 없음) " + m.imageName + "</div>\n"
  {
    Base64Empty(m.imageBytes);
    Base64RoundTrip(m.imageBytes);
  }

  /** The log of a longer history: the new message's line goes between the
      earlier lines and the closing tags. */
  lemma HtmlAppend(h: seq<Msg>, m: Msg)
    ensures HtmlOf(h + [m]) == HtmlHead + (HistoryHtml(h) + MsgHtml(m)) + HtmlTail
  {
    LinesSnoc(h, m, MsgHtml);
  }

  lemma LinesSnoc(h: seq<Msg>, m: Msg, line: Msg -> string)
    ensures Lines(h + [m], line) == Lines(h, line) + line(m)
  {
    assert (h + [m])[..|h + [m]| - 1] == h;
  }

  /** The log of a concatenated history is the two logs' lines in order. */
  lemma HistoryHtmlConcat(a: seq<Msg>, b: seq<Msg>)
    ensures HistoryHtml(a + b) == HistoryHtml(a) + HistoryHtml(b)
  {
    LinesConcat(a, b, MsgHtml);
  }

  lemma {:induction false} LinesConcat(a: seq<Msg>, b: seq<Msg>, line: Msg -> string)
    ensures Lines(a + b, line) == Lines(a, line) + Lines(b, line)
    decreases |b|
  {
    if b == [] {
      assert a + b == a;
    } else {
      var b0 := b[..|b| - 1];
      assert (a + b)[..|a + b| - 1] == a + b0;
      assert (a + b)[|a + b| - 1] == b[|b| - 1];
      LinesConcat(a, b0, line);
    }
  }

  // ---------------------------------------------------------------- replies

  /** `str(res.get("message") or "")`; `None` is the `AttributeError` of a
      reply that is not a dictionary, which ends the worker. */
  function ReplyOf(res: Json): Option<string> {
    if res.JObj? then Some(Str(Or(Get(res, "message"), JStr("")))) else None
  }

  /** A message that is a non-empty string is the reply as it is; a falsy
      or missing one is the empty reply. */
  lemma ReplyOfSpec(res: Json)
    requires res.JObj?
    ensures Get(res, "message").JStr? ==> ReplyOf(res) == Some(Get(res, "message").s)
    ensures !Truthy(Get(res, "message")) ==> ReplyOf(res) == Some("")
  {
  }

  datatype Reply = ImageReply(filename: string) | TextReply(text: string)

  /** `_send_worker`'s branch: a reply starting with `[image]` names an
      image, with every `[image]` taken out and the rest stripped; any
      other is shown as text. */
  function Classify(reply: string): Reply {
    if StartsWith(reply, "[image]") then ImageReply(Strip(ReplaceAll(reply, "[image]", "")))
    else TextReply(reply)
  }

  lemma {:induction false} ReplaceAllFree(s: string, pat: string, rep: string)
    requires |pat| > 0 && pat[0] !in s
    ensures ReplaceAll(s, pat, rep) == s
    decreases |s|
  {
    if |s| >= |pat| {
      assert s[..|pat|][0] == s[0];
      ReplaceAllFree(s[1..], pat, rep);
      assert [s[0]] + s[1..] == s;
    }
  }

  /** An image reply whose name holds no `[` names exactly that file,
      stripped; any reply not starting with the marker is shown as it is. */
  lemma ClassifySpec(reply: string, name: string)
    ensures Classify(reply).ImageReply? <==> StartsWith(reply, "[image]")
    ensures !StartsWith(reply, "[image]") ==> Classify(reply) == TextReply(reply)
    ensures '[' !in name ==> Classify("[image]" + name) == ImageReply(Strip(name))
  {
    if '[' !in name {
      var r := "[image]" + name;
      assert r[..7] == "[image]" && r[7..] == name;
      var pat := "[image]";
      assert |pat| == 7 && pat[0] == '[';
      assert r[..|pat|] == pat && r[|pat|..] == name;
      assert ReplaceAll(r, pat, "") == "" + ReplaceAll(name, pat, "");
      ReplaceAllFree(name, pat, "");
      assert ReplaceAll(r, pat, "") == name;
    }
  }

  // ---------------------------------------------------------------- image download

  /** `filename.replace("/", "_").replace("\\", "_")` */
  function SafeName(filename: string): string {
    ReplaceChar(ReplaceChar(filename, '/', "_"), '\\', "_")
  }

  /** The cache name has no path separator of either kind, and keeps every
      other character. */
  lemma SafeNameSpec(filename: string)
    ensures '/' !in SafeName(filename) && '\\' !in SafeName(filename)
    ensures forall x :: x in filename && x != '/' && x != '\\' ==> x in SafeName(filename)
  {
    var r1 := ReplaceChar(filename, '/', "_");
    ReplaceCharFacts(filename, '/', "_");
    ReplaceCharFacts(r1, '\\', "_");
  }

  /** `os.path.join(root, name)` for POSIX paths. */
  function PathJoin(root: string, name: string): string {
    if StartsWith(name, "/") then name
    else if root == [] || root[|root| - 1] == '/' then root + name
    else root + "/" + name
  }

  /** The file a downloaded image is stored in lies directly in the cache
      directory, under its safe name. */
  lemma CachePathSpec(root: string, filename: string)
    ensures var p := PathJoin(root, SafeName(filename));
            StartsWith(p, root) && |p| >= |SafeName(filename)| &&
            p[|p| - |SafeName(filename)|..] == SafeName(filename) &&
            (root != [] ==> p[..|p| - |SafeName(filename)|] == (if root[|root| - 1] == '/' then root else root + "/"))
  {
    SafeNameSpec(filename);
    var n := SafeName(filename);
    if |n| > 0 {
      assert n[..1][0] == n[0];
    }
    assert !StartsWith(n, "/");
    var p := PathJoin(root, n);
    assert p[..|root|] == root;
  }

  /** The outcome of fetching and caching an image. */
  datatype Fetch = FetchFailed(err: string) | WriteFailed(err: string) | Stored(data: seq<Byte>)

  /** `_download_image(filename)`: a failed fetch or write becomes a bot
      text saying so; a stored image becomes an image message. */
  function DownloadOf(cacheRoot: string, filename: string, fetch: Fetch): (m: Msg)
    ensures m.role == "bot"
  {
    match fetch
    case FetchFailed(e) => TextMsg("bot", "(이미지 다운로드 실패) " + e)
    case WriteFailed(e) => TextMsg("bot", "(이미지 저장 실패) " + e)
    case Stored(data) => Msg("bot", "image", "", filename, PathJoin(cacheRoot, SafeName(filename)), data)
  }

  /** A stored image keeps the server's file name and bytes, and sits in the
      cache under its safe name; a failure is a text message. */
  lemma DownloadSpec(cacheRoot: string, filename: string, fetch: Fetch)
    ensures DownloadOf(cacheRoot, filename, fetch).kind == "image" <==> fetch.Stored?
    ensures fetch.Stored? ==>
              var m := DownloadOf(cacheRoot, filename, fetch);
              m.imageName == filename && m.imageBytes == fetch.data &&
              StartsWith(m.imagePath, cacheRoot) && '/' !in SafeName(filename)
  {
    CachePathSpec(cacheRoot, filename);
    SafeNameSpec(filename);
  }

  // ---------------------------------------------------------------- server URLs

  datatype Server = Server(ip: string, port: int, https: bool, verifySsl: bool)

  /** `_base_url()` */
  function BaseUrl(s: Server): string {
    (if s.https then "https" else "http") + "://" + s.ip + ":" + IntToStr(s.port)
  }

  /** `_chat_url()`, `_static_url(filename)` and `_clear_url()`: the paths
      "/chat", "/static/" and "/clear" appended to the base URL. */
  function ChatUrl(s: Server): string { BaseUrl(s) + "/chat" }
  function StaticUrl(s: Server, filename: string): string { BaseUrl(s) + "/static/" + filename }
  function ClearUrl(s: Server): string { BaseUrl(s) + "/clear" }

  /** The base URL starts with `https://` exactly when https is set and never
      ends with '/'; the three endpoint URLs all start with it, the rest of
      each is its own path (so no "//" appears at the join), the three never
      coincide, and the static URL gives back its file name. */
  lemma UrlsSpec(s: Server, filename: string, other: string)
    ensures StartsWith(BaseUrl(s), "https://") <==> s.https
    ensures var b := BaseUrl(s);
            |b| > 0 && b[|b| - 1] != '/'
    ensures var b := BaseUrl(s);
            ChatUrl(s)[..|b|] == b && ChatUrl(s)[|b|..] == "/chat" &&
            ClearUrl(s)[..|b|] == b && ClearUrl(s)[|b|..] == "/clear" &&
            StaticUrl(s, filename)[..|b| + 8] == b + "/static/" &&
            StaticUrl(s, filename)[|b| + 8..] == filename
    ensures ChatUrl(s) != ClearUrl(s) && ChatUrl(s) != StaticUrl(s, filename) &&
            ClearUrl(s) != StaticUrl(s, filename)
    ensures StaticUrl(s, filename) == StaticUrl(s, other) <==> filename == other
  {
    var b := BaseUrl(s);
    if !s.https {
      assert b[..8][4] == ':';
    }
    var c, k, t := ChatUrl(s), ClearUrl(s), StaticUrl(s, filename);
    assert c[|b| + 1] == 'c' && c[|b| + 2] == 'h';
    assert k[|b| + 1] == 'c' && k[|b| + 2] == 'l';
    assert t[|b| + 1] == 's';
    assert t[..|b| + 8] == b + "/static/";
    assert t[|b| + 8..] == filename;
    var t2 := StaticUrl(s, other);
    assert t2[|b| + 8..] == other;
  }

  // ---------------------------------------------------------------- UI jobs

  /** A job posted to the UI thread: a history rebuild, or the append of a
      message. */
  datatype Job = Rebuild | AppendMsg(m: Msg)

  /** The messages a run of jobs appends, in order. */
  function Appended(jobs: seq<Job>): seq<Msg> {
    if jobs == [] then []
    else Appended(jobs[..|jobs| - 1]) + (if jobs[|jobs| - 1].AppendMsg? then [jobs[|jobs| - 1].m] else [])
  }

  /** The number of rebuilds a run of jobs performs. */
  function Rebuilds(jobs: seq<Job>): nat {
    if jobs == [] then 0
    else Rebuilds(jobs[..|jobs| - 1]) + (if jobs[|jobs| - 1].Rebuild? then 1 else 0)
  }

  /** Every job is an append or a rebuild. */
  lemma {:induction false} JobsCount(jobs: seq<Job>)
    ensures |Appended(jobs)| + Rebuilds(jobs) == |jobs|
  {
    if jobs != [] {
      JobsCount(jobs[..|jobs| - 1]);
    }
  }

  /** Running two queues one after the other is running their
      concatenation. */
  lemma {:induction false} AppendedConcat(a: seq<Job>, b: seq<Job>)
    ensures Appended(a + b) == Appended(a) + Appended(b)
    ensures Rebuilds(a + b) == Rebuilds(a) + Rebuilds(b)
    decreases |b|
  {
    if b == [] {
      assert a + b == a;
    } else {
      var b0 := b[..|b| - 1];
      assert (a + b)[..|a + b| - 1] == a + b0;
      assert (a + b)[|a + b| - 1] == b[|b| - 1];
      AppendedConcat(a, b0);
    }
  }

  /** A failed `/clear` posts its message and then a rebuild. */
  lemma ClearFailureJobs(m: Msg)
    ensures Appended([AppendMsg(m), Rebuild]) == [m] && Rebuilds([AppendMsg(m), Rebuild]) == 1
  {
    var q := [AppendMsg(m), Rebuild];
    assert q[..|q| - 1] == [AppendMsg(m)] && q[|q| - 1] == Rebuild;
    assert [AppendMsg(m)][..0] == [];
    assert Appended([AppendMsg(m)]) == [m];
    assert Rebuilds([AppendMsg(m)]) == 0;
  }

  // ---------------------------------------------------------------- the worker's result

  /** The message `_send_worker` adds for a classified reply. */
  function ReplyMsg(cacheRoot: string, reply: Reply, fetch: Fetch): (m: Msg)
    ensures m.role == "bot"
  {
    match reply
    case TextReply(t) => TextMsg("bot", t)
    case ImageReply(f) => DownloadOf(cacheRoot, f, fetch)
  }

  /** A text reply is shown as a bot text with the reply's own words; an
      image reply shows what its download gave. */
  lemma ReplyMsgSpec(cacheRoot: string, reply: string, fetch: Fetch)
    ensures !StartsWith(reply, "[image]") ==> ReplyMsg(cacheRoot, Classify(reply), fetch) == TextMsg("bot", reply)
    ensures StartsWith(reply, "[image]") ==>
              ReplyMsg(cacheRoot, Classify(reply), fetch) == DownloadOf(cacheRoot, Classify(reply).filename, fetch)
  {
  }

  // ---------------------------------------------------------------- the panel

  /** The panel's widget models: the input and save-path fields, the two
      buttons, the window and the mode drop-down. */
  datatype View = View(input: string, savePath: string, sendVisible: bool, sttVisible: bool,
                       visible: bool, modeIndex: int)

  /** What the panel has sent out: the message of every send worker started,
      the number of `/clear` requests started, the (URL, payload) pairs
      posted to `/chat`, the image URLs fetched and the (path, document)
      pairs written. */
  datatype Outbound = Outbound(workers: seq<string>, clears: nat, chats: seq<(string, Json)>,
                               fetches: seq<string>, saves: seq<(string, string)>)

  /** The buttons follow the input: Send shows exactly when the stripped
      input is non-empty, STT exactly when it is empty. */
  predicate Toggled(v: View) {
    (v.sendVisible <==> Strip(v.input) != "") && v.sttVisible == !v.sendVisible
  }

  /** The `os.path` the host runs: POSIX `posixpath` or Windows `ntpath`. */
  datatype PathFlavour = Posix | Windows

  /** `os.path.dirname(p)` is non-empty: on POSIX exactly when `p` holds a
      '/'; on Windows also when it holds a '\\' or starts with a drive
      (`X:`). Otherwise `os.makedirs("")` raises before anything is written. */
  predicate HasDirPart(f: PathFlavour, p: string) {
    '/' in p || (f == Windows && ('\\' in p || (|p| >= 2 && p[1] == ':')))
  }

  /** Every path with a POSIX directory part has a Windows one; a bare
      Windows path such as `C:\\chat.html` has one only on Windows, and a
      bare file name has none on either. */
  lemma DirPartFlavours(p: string)
    ensures HasDirPart(Posix, p) ==> HasDirPart(Windows, p)
    ensures HasDirPart(Windows, "C:\\chat.html") && !HasDirPart(Posix, "C:\\chat.html")
    ensures !HasDirPart(Windows, "chat.html") && !HasDirPart(Posix, "chat.html")
  {
    assert "C:\\chat.html"[1] == ':';
    assert forall i :: 0 <= i < |"chat.html"| ==> "chat.html"[i] != '/' && "chat.html"[i] != '\\';
  }

  /** A path joined onto a non-empty directory always has a directory part,
      so the default save path never fails for want of one. */
  lemma DirPartOfJoin(f: PathFlavour, root: string, name: string)
    requires root != []
    ensures HasDirPart(f, PathJoin(root, name))
  {
    var p := PathJoin(root, name);
    if StartsWith(name, "/") {
      assert name[0] == '/' && p == name;
    } else if root[|root| - 1] == '/' {
      assert p[|root| - 1] == '/';
    } else {
      assert p[|root|] == '/';
    }
  }

  /** `ChatbotPanel`; `rebuilds` counts history frame rebuilds. */
  class ChatbotPanel {
    var server: Server
    var history: seq<Msg>
    var jobs: seq<Job>
    var view: View
    var rebuilds: nat
    var sent: Outbound
    const defaultPath: string
    const cacheRoot: string
    const flavour: PathFlavour

    /** `__init__`: the default server, an empty history and queue, mode
        "(None)", an empty input (so STT shows and Send does not) and a
        visible window. */
    constructor (defaultPath: string, cacheRoot: string, flavour: PathFlavour)
      ensures Toggled(view)
      ensures server == Server("127.0.0.1", 8000, true, false)
      ensures history == [] && jobs == [] && rebuilds == 0
      ensures view == View("", defaultPath, false, true, true, 0)
      ensures sent == Outbound([], 0, [], [], [])
      ensures this.defaultPath == defaultPath && this.cacheRoot == cacheRoot && this.flavour == flavour
    {
      server := Server("127.0.0.1", 8000, true, false);
      history := [];
      jobs := [];
      view := View("", defaultPath, false, true, true, 0);
      rebuilds := 0;
      sent := Outbound([], 0, [], [], []);
      this.defaultPath := defaultPath;
      this.cacheRoot := cacheRoot;
      this.flavour := flavour;
    }

    /** `set_server(ip, port, https, verify_ssl)` */
    method SetServer(ip: string, port: int, https: bool, verifySsl: bool)
      modifies this
      ensures server == Server(ip, port, https, verifySsl)
      ensures history == old(history) && jobs == old(jobs) && view == old(view)
      ensures rebuilds == old(rebuilds) && sent == old(sent)
    {
      server := Server(ip, port, https, verifySsl);
    }

    /** `_update_text_stt_visibility()` */
    method UpdateVisibility()
      modifies this
      ensures Toggled(view)
      ensures view == old(view).(sendVisible := Strip(old(view).input) != "", sttVisible := Strip(old(view).input) == "")
      ensures server == old(server) && history == old(history) && jobs == old(jobs)
      ensures rebuilds == old(rebuilds) && sent == old(sent)
    {
      var hasText := |Strip(view.input)| > 0;
      view := view.(sendVisible := hasText, sttVisible := !hasText);
    }

    /** `_on_input_changed`: the field's new text, then the toggle. */
    method OnInputChanged(text: string)
      modifies this
      ensures Toggled(view) && view.input == text
      ensures view == old(view).(input := text, sendVisible := Strip(text) != "", sttVisible := Strip(text) == "")
      ensures server == old(server) && history == old(history) && jobs == old(jobs)
      ensures rebuilds == old(rebuilds) && sent == old(sent)
    {
      view := view.(input := text);
      UpdateVisibility();
    }

    /** `_on_mode_changed(idx)` */
    method OnModeChanged(idx: int)
      modifies this
      ensures view == old(view).(modeIndex := idx)
      ensures server == old(server) && history == old(history) && jobs == old(jobs)
      ensures rebuilds == old(rebuilds) && sent == old(sent)
    {
      view := view.(modeIndex := idx);
    }

    /** Editing the save-path field. */
    method SetSavePath(path: string)
      modifies this
      ensures view == old(view).(savePath := path)
      ensures server == old(server) && history == old(history) && jobs == old(jobs)
      ensures rebuilds == old(rebuilds) && sent == old(sent)
    {
      view := view.(savePath := path);
    }

    /** `_on_send_clicked`: blank input does nothing; otherwise the input is
        cleared, the stripped text is shown as the user's message and a send
        worker is started with it. */
    method OnSendClicked()
      modifies this
      ensures Strip(old(view).input) == "" ==>
                view == old(view) && history == old(history) && rebuilds == old(rebuilds) && sent == old(sent)
      ensures Strip(old(view).input) != "" ==>
                view == old(view).(input := "", sendVisible := false, sttVisible := true) &&
                history == old(history) + [TextMsg("user", Strip(old(view).input))] &&
                rebuilds == old(rebuilds) + 1 &&
                sent == old(sent).(workers := old(sent).workers + [Strip(old(view).input)])
      ensures server == old(server) && jobs == old(jobs)
    {
      var text := Strip(view.input);
      if text == "" {
        return;
      }
      view := view.(input := "");
      UpdateVisibility();
      history := history + [TextMsg("user", text)];
      rebuilds := rebuilds + 1;
      sent := sent.(workers := sent.workers + [text]);
    }

    /** `_send_worker(message)`: post the payload for the current mode,
        then show the reply (`res` is what the adapter returned, `fetch` the
        outcome of the image download when the reply names one) and post a
        rebuild. A mode index past the list, or a reply that is not a
        dictionary, ends the worker there. */
    method SendWorker(message: string, res: Json, fetch: Fetch)
      modifies this
      ensures PayloadForMode(view.modeIndex, message).None? ==>
                history == old(history) && jobs == old(jobs) && sent == old(sent)
      ensures PayloadForMode(view.modeIndex, message).Some? && ReplyOf(res).None? ==>
                history == old(history) && jobs == old(jobs) &&
                sent == old(sent).(chats := old(sent).chats + [(ChatUrl(server), PayloadForMode(view.modeIndex, message).value)])
      ensures PayloadForMode(view.modeIndex, message).Some? && ReplyOf(res).Some? ==>
                var reply := Classify(ReplyOf(res).value);
                history == old(history) + [ReplyMsg(cacheRoot, reply, fetch)] &&
                jobs == old(jobs) + [Rebuild] &&
                sent == old(sent).(chats := old(sent).chats + [(ChatUrl(server), PayloadForMode(view.modeIndex, message).value)],
                                   fetches := old(sent).fetches + (if reply.ImageReply? then [StaticUrl(server, reply.filename)] else []))
      ensures server == old(server) && view == old(view) && rebuilds == old(rebuilds)
    {
      var payload := PayloadForMode(view.modeIndex, message);
      if payload.None? {
        return;
      }
      var out := sent.(chats := sent.chats + [(ChatUrl(server), payload.value)]);
      var r := ReplyOf(res);
      if r.None? {
        sent := out;
        return;
      }
      var reply := Classify(r.value);
      if reply.ImageReply? {
        out := out.(fetches := out.fetches + [StaticUrl(server, reply.filename)]);
      }
      sent := out;
      history := history + [ReplyMsg(cacheRoot, reply, fetch)];
      jobs := jobs + [Rebuild];
    }

    /** `clear_history(send_server)`: the history is emptied and rebuilt; a
        `/clear` request is started when asked for. */
    method ClearHistory(sendServer: bool)
      modifies this
      ensures history == [] && rebuilds == old(rebuilds) + 1
      ensures sent == old(sent).(clears := if sendServer then old(sent).clears + 1 else old(sent).clears)
      ensures server == old(server) && jobs == old(jobs) && view == old(view)
    {
      history := [];
      rebuilds := rebuilds + 1;
      if sendServer {
        sent := sent.(clears := sent.clears + 1);
      }
    }

    /** `_send_clear_request()`: a failed request (`ok` false, `err` its
        text) posts a bot message and a rebuild. */
    method SendClearRequest(ok: bool, err: string)
      modifies this
      ensures jobs == if ok then old(jobs) else old(jobs) + [AppendMsg(TextMsg("bot", "(clear 실패) " + err)), Rebuild]
      ensures server == old(server) && history == old(history) && view == old(view)
      ensures rebuilds == old(rebuilds) && sent == old(sent)
    {
      if !ok {
        jobs := jobs + [AppendMsg(TextMsg("bot", "(clear 실패) " + err))];
        jobs := jobs + [Rebuild];
      }
    }

    /** `_drain_jobs`: runs every queued job, oldest first, until the queue
        is empty. */
    method DrainJobs()
      modifies this
      ensures jobs == []
      ensures history == old(history) + Appended(old(jobs))
      ensures rebuilds == old(rebuilds) + Rebuilds(old(jobs))
      ensures server == old(server) && view == old(view) && sent == old(sent)
    {
      ghost var queued := jobs;
      ghost var k := 0;
      while jobs != []
        invariant 0 <= k <= |queued| && jobs == queued[k..]
        invariant history == old(history) + Appended(queued[..k])
        invariant rebuilds == old(rebuilds) + Rebuilds(queued[..k])
        invariant server == old(server) && view == old(view) && sent == old(sent)
        decreases |jobs|
      {
        var job := jobs[0];
        assert queued[..k + 1][..k] == queued[..k];
        assert queued[..k + 1][k] == job;
        jobs := jobs[1..];
        if job.Rebuild? {
          rebuilds := rebuilds + 1;
        } else {
          history := history + [job.m];
        }
        k := k + 1;
      }
      assert queued[..k] == queued;
    }

    /** `show(amr_id)`: toggles the window; a non-empty AMR id adds a bot
        message naming it. */
    method Show(amrId: string)
      modifies this
      ensures view == old(view).(visible := !old(view).visible)
      ensures amrId == "" ==> history == old(history) && rebuilds == old(rebuilds)
      ensures amrId != "" ==> history == old(history) + [TextMsg("bot", "선택된 AMR: " + amrId)] && rebuilds == old(rebuilds) + 1
      ensures server == old(server) && jobs == old(jobs) && sent == old(sent)
    {
      view := view.(visible := !view.visible);
      if amrId != "" {
        history := history + [TextMsg("bot", "선택된 AMR: " + amrId)];
        rebuilds := rebuilds + 1;
      }
    }

    /** `_on_stt_clicked`: a placeholder bot message. */
    method OnSttClicked()
      modifies this
      ensures history == old(history) + [TextMsg("bot", "(STT) 음성 인식 준비…")] && rebuilds == old(rebuilds) + 1
      ensures server == old(server) && jobs == old(jobs) && view == old(view) && sent == old(sent)
    {
      history := history + [TextMsg("bot", "(STT) 음성 인식 준비…")];
      rebuilds := rebuilds + 1;
    }

    /** `save_to_html(path)`: the document of the current history, written to
        `path` or the default one; `writable` is whether the write succeeds
        (otherwise it raises, `ok` false). */
    method SaveToHtml(path: string, writable: bool) returns (ok: bool)
      modifies this
      ensures var target := if path != "" then path else defaultPath;
              ok == (writable && HasDirPart(flavour, target))
              && sent == if ok then old(sent).(saves := old(sent).saves + [(target, HtmlOf(history))])
                         else old(sent)
      ensures server == old(server) && history == old(history) && jobs == old(jobs)
      ensures view == old(view) && rebuilds == old(rebuilds)
    {
      var target := if path != "" then path else defaultPath;
      ok := writable && HasDirPart(flavour, target);
      if ok {
        sent := sent.(saves := sent.saves + [(target, HtmlOf(history))]);
      }
    }

    /** `_on_save_clicked`: save to the path field (or the default), then
        report success with the field's own text, or the failure with
        `err`. */
    method OnSaveClicked(writable: bool, err: string)
      modifies this
      ensures var target := if view.savePath != "" then view.savePath else defaultPath;
              var saved := writable && HasDirPart(flavour, target);
              (sent == if saved then old(sent).(saves := old(sent).saves + [(target, HtmlOf(old(history)))]) else old(sent))
              && history == old(history) + [TextMsg("bot", if saved then "저장 완료: " + view.savePath else "(저장 실패) " + err)]
      ensures rebuilds == old(rebuilds) + 1
      ensures server == old(server) && jobs == old(jobs) && view == old(view)
    {
      var ok := SaveToHtml(if view.savePath != "" then view.savePath else defaultPath, writable);
      if ok {
        history := history + [TextMsg("bot", "저장 완료: " + view.savePath)];
      } else {
        history := history + [TextMsg("bot", "(저장 실패) " + err)];
      }
      rebuilds := rebuilds + 1;
    }
  }
}
