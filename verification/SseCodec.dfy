/** A codec as SseClient asks for it: texts are escaped as in JSON strings. */
module SseCodec {
  import opened Basics
  import opened PyText
  import opened ChatStream
  import opened SseClient

  function Escaped(c: char): string {
    if c == '\n' then ['\\', 'n'] else if c == '\r' then ['\\', 'r']
    else if c == '\\' then ['\\', '\\'] else if c == '"' then ['\\', '"'] else [c]
  }

  /** A text with its line ends, backslashes and quotes escaped, and a closing quote. */
  function Quoted(s: string): string {
    if s == "" then "\"" else Escaped(s[0]) + Quoted(s[1..])
  }

  /** A number as that many strokes after its sign, and a comma. */
  function Strokes(n: int): string
    decreases if n < 0 then 1 - n else n
  {
    if n < 0 then "-" + Strokes(-n) else if n == 0 then "," else "1" + Strokes(n - 1)
  }

  function Body(p: Payload): string {
    match p
    case Progress(stage, message) => "p" + (Quoted(stage) + Quoted(message))
    case Heartbeat => "h"
    case Error(message) => "e" + Quoted(message)
    case Chunk(runId, index, text) => "c" + (Quoted(runId) + (Strokes(index) + Quoted(text)))
    case Artifact(runId, index, artifact) => "a" + (Quoted(runId) + (Strokes(index) + Quoted(artifact)))
    case Final(runId, response) => "f" + (Quoted(runId) + Quoted(response))
    case Empty => "z"
  }

  function Encode(p: Payload): string {
    "{" + Body(p) + "}"
  }

  ghost function Decode(s: string): Option<Payload> {
    if p :| Encode(p) == s then Some(p) else None
  }

  lemma {:induction false} QuotedParses(s: string, t: string, x: string, y: string)
    requires Quoted(s) + x == Quoted(t) + y
    ensures s == t && x == y
    decreases |s|
  {
    hide Quoted;
    QuotedHead(s, x);
    QuotedHead(t, y);
    if s != "" && t != "" {
      hide Escaped;
      EscapedParses(s[0], t[0], Quoted(s[1..]) + x, Quoted(t[1..]) + y);
      QuotedParses(s[1..], t[1..], x, y);
    }
  }

  lemma QuotedHead(s: string, x: string)
    ensures if s == "" then Quoted(s) + x == "\"" + x && (Quoted(s) + x)[1..] == x
            else Quoted(s) + x == Escaped(s[0]) + (Quoted(s[1..]) + x) && (Quoted(s) + x)[0] != '"'
  {
  }

  lemma EscapedParses(c: char, d: char, x: string, y: string)
    requires Escaped(c) + x == Escaped(d) + y
    ensures c == d && x == y
  {
    var l, r := Escaped(c) + x, Escaped(d) + y;
    assert l[0] == r[0] && (|Escaped(c)| == 2 && |Escaped(d)| == 2 ==> l[1] == r[1]);
    assert x == l[|Escaped(c)|..] && y == r[|Escaped(d)|..];
  }

  /** The first character tells the sign of a number, the rest what is left of it. */
  lemma StrokesHead(n: int, x: string)
    ensures var s := Strokes(n) + x;
            if n < 0 then s[0] == '-' && s[1..] == Strokes(-n) + x
            else if n == 0 then s[0] == ',' && s[1..] == x
            else s[0] == '1' && s[1..] == Strokes(n - 1) + x
  {
  }

  lemma {:induction false} StrokesParse(m: int, n: int, x: string, y: string)
    requires Strokes(m) + x == Strokes(n) + y
    ensures m == n && x == y
    decreases if m < 0 then 1 - m else m
  {
    hide Strokes;
    StrokesHead(m, x);
    StrokesHead(n, y);
    if m < 0 {
      StrokesParse(-m, -n, x, y);
    } else if m > 0 {
      StrokesParse(m - 1, n - 1, x, y);
    }
  }

  lemma BodyParses(p: Payload, q: Payload)
    requires Body(p) == Body(q)
    ensures p == q
  {
    hide Quoted, Strokes;
    assert Body(p)[0] == Body(q)[0] && Body(p)[1..] == Body(q)[1..];
    match p
    case Progress(stage, message) =>
      QuotedParses(stage, q.stage, Quoted(message), Quoted(q.message));
      QuotedParses(message, q.message, "", "");
    case Error(message) =>
      QuotedParses(message, q.message, "", "");
    case Chunk(runId, index, text) =>
      QuotedParses(runId, q.runId, Strokes(index) + Quoted(text), Strokes(q.index) + Quoted(q.text));
      StrokesParse(index, q.index, Quoted(text), Quoted(q.text));
      QuotedParses(text, q.text, "", "");
    case Artifact(runId, index, artifact) =>
      QuotedParses(runId, q.runId, Strokes(index) + Quoted(artifact), Strokes(q.index) + Quoted(q.artifact));
      StrokesParse(index, q.index, Quoted(artifact), Quoted(q.artifact));
      QuotedParses(artifact, q.artifact, "", "");
    case Final(runId, response) =>
      QuotedParses(runId, q.runId, Quoted(response), Quoted(q.response));
      QuotedParses(response, q.response, "", "");
    case _ =>
  }

  lemma {:induction false} QuotedOneLine(s: string)
    ensures OneLine(IsNewline, Quoted(s))
  {
    if s != "" {
      QuotedOneLine(s[1..]);
    }
  }

  lemma {:induction false} StrokesOneLine(n: int)
    ensures OneLine(IsNewline, Strokes(n))
    decreases if n < 0 then 1 - n else n
  {
    if n < 0 {
      StrokesOneLine(-n);
    } else if n > 0 {
      StrokesOneLine(n - 1);
    }
  }

  lemma BodyOneLine(p: Payload)
    ensures OneLine(IsNewline, Body(p))
  {
    hide Quoted, Strokes;
    match p
    case Progress(stage, message) => QuotedOneLine(stage); QuotedOneLine(message);
    case Error(message) => QuotedOneLine(message);
    case Chunk(runId, index, text) => QuotedOneLine(runId); StrokesOneLine(index); QuotedOneLine(text);
    case Artifact(runId, index, artifact) => QuotedOneLine(runId); StrokesOneLine(index); QuotedOneLine(artifact);
    case Final(runId, response) => QuotedOneLine(runId); QuotedOneLine(response);
    case _ =>
  }

  /** What is asked of a codec can be had. */
  lemma CodecExists() returns (c: Codec)
    ensures GoodCodec(c)
  {
    c := Codec(Encode, Decode);
    forall p: Payload ensures OneLine(IsNewline, c.enc(p)) && c.enc(p) != "" && Tight(IsSpace, c.enc(p))
        && c.dec(c.enc(p)) == Some(p)
    {
      BodyOneLine(p);
      EncodeParses(p);
    }
  }

  lemma EncodeParses(p: Payload)
    ensures Decode(Encode(p)) == Some(p)
  {
    hide Body;
    forall q | Encode(q) == Encode(p) ensures q == p {
      assert Encode(q)[1..|Encode(q)| - 1] == Body(q) && Encode(p)[1..|Encode(p)| - 1] == Body(p);
      BodyParses(q, p);
    }
  }
}
