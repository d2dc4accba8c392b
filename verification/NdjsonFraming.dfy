/** encodeMessage and parseFrames in packages/messaging-whatsapp-worker/src/protocol.ts.  The JSON
    printer and parser are parameters; None is JSON.parse throwing. */
module NdjsonFraming {
  import opened Wrappers
  import opened JsText
  import opened Sequences

  datatype Parsed<T> = Parsed(messages: seq<T>, rest: Text)

  function Encode<T>(json: T -> Text, m: T): Text { json(m) + [NEWLINE] }

  /** The message on one line, if there is one: blank and malformed lines are skipped. */
  function Line<T>(parse: Text -> Option<T>, line: Text): seq<T> {
    if Trim(line) == [] then []
    else
      match parse(Trim(line))
      case None => []
      case Some(m) => [m]
  }

  function Frames<T>(parse: Text -> Option<T>, buffer: Text): Parsed<T>
    decreases |buffer|
  {
    var nl := IndexOf(buffer, [NEWLINE], 0);
    if nl == -1 then Parsed([], buffer)
    else
      var after := Frames(parse, buffer[nl + 1..]);
      Parsed(Line(parse, buffer[..nl]) + after.messages, after.rest)
  }

  method ParseFrames<T>(parse: Text -> Option<T>, buffer: Text) returns (messages: seq<T>, rest: Text)
    ensures Parsed(messages, rest) == Frames(parse, buffer)
  {
    messages := [];
    rest := buffer;
    while true
      invariant messages + Frames(parse, rest).messages == Frames(parse, buffer).messages
      invariant Frames(parse, rest).rest == Frames(parse, buffer).rest
      decreases |rest|
    {
      var nl := IndexOf(rest, [NEWLINE], 0);
      if nl == -1 { break; }
      Assoc(messages, Line(parse, rest[..nl]), Frames(parse, rest[nl + 1..]).messages);
      var found := ParseLine(parse, rest[..nl]);
      rest := rest[nl + 1..];
      messages := messages + found;
    }
  }

  /** The body of the loop: trim, skip a blank line, skip a line that does not parse. */
  method ParseLine<T>(parse: Text -> Option<T>, raw: Text) returns (found: seq<T>)
    ensures found == Line(parse, raw)
  {
    var line := Trim(raw);
    if line == [] { return []; }
    var parsed := parse(line);
    if parsed.Some? { return [parsed.value]; }
    return [];
  }

  /** A reader of the stream: it prepends what the last chunk left over. */
  function Feed<T>(parse: Text -> Option<T>, rest: Text, chunks: seq<Text>): Parsed<T>
    decreases |chunks|
  {
    if chunks == [] then Parsed([], rest)
    else
      var first := Frames(parse, rest + chunks[0]);
      var after := Feed(parse, first.rest, chunks[1..]);
      Parsed(first.messages + after.messages, after.rest)
  }

  function Join(chunks: seq<Text>): Text {
    if chunks == [] then [] else chunks[0] + Join(chunks[1..])
  }

  /** k is the first newline of s. */
  predicate EndsFirstLine(s: Text, k: int) {
    0 <= k < |s| && s[k] == NEWLINE && forall j | 0 <= j < k :: s[j] != NEWLINE
  }

  lemma {:induction false} OccursAt(s: Text, k: int)
    ensures Occurs([NEWLINE], s, k) <==> 0 <= k < |s| && s[k] == NEWLINE
  {
    if 0 <= k < |s| { assert s[k..k + 1] == [s[k]]; }
  }

  lemma {:induction false} FirstNewline(s: Text, k: int)
    ensures EndsFirstLine(s, k) <==> k >= 0 && IndexOf(s, [NEWLINE], 0) == k
  {
    forall j ensures Occurs([NEWLINE], s, j) <==> 0 <= j < |s| && s[j] == NEWLINE { OccursAt(s, j); }
  }

  lemma {:induction false} FramesStep<T>(parse: Text -> Option<T>, s: Text, k: int)
    requires EndsFirstLine(s, k)
    ensures Frames(parse, s).messages == Line(parse, s[..k]) + Frames(parse, s[k + 1..]).messages
    ensures Frames(parse, s).rest == Frames(parse, s[k + 1..]).rest
  {
    FirstNewline(s, k);
  }

  lemma {:induction false} NoNewline(s: Text)
    ensures IndexOf(s, [NEWLINE], 0) == -1 <==> NEWLINE !in s
  {
    OccursAt(s, IndexOf(s, [NEWLINE], 0));
    forall k | 0 <= k < |s| ensures Occurs([NEWLINE], s, k) <==> s[k] == NEWLINE { OccursAt(s, k); }
  }

  lemma {:induction false} RestHasNoNewline<T>(parse: Text -> Option<T>, buffer: Text)
    ensures NEWLINE !in Frames(parse, buffer).rest
    decreases |buffer|
  {
    var nl := IndexOf(buffer, [NEWLINE], 0);
    if nl == -1 { NoNewline(buffer); } else { RestHasNoNewline(parse, buffer[nl + 1..]); }
  }

  /** Cutting a stream in two and carrying the rest over changes nothing. */
  lemma {:induction false} CutAnywhere<T>(parse: Text -> Option<T>, a: Text, b: Text)
    ensures var first := Frames(parse, a); var second := Frames(parse, first.rest + b);
            Frames(parse, a + b) == Parsed(first.messages + second.messages, second.rest)
    decreases |a|
  {
    var nl := IndexOf(a, [NEWLINE], 0);
    if nl == -1 {
      assert [] + Frames(parse, a + b).messages == Frames(parse, a + b).messages;
    } else {
      FirstNewline(a, nl);
      var after := a[nl + 1..];
      assert (a + b)[..nl] == a[..nl] && (a + b)[nl + 1..] == after + b;
      FramesStep(parse, a, nl);
      FramesStep(parse, a + b, nl);
      CutAnywhere(parse, after, b);
      Assoc(Line(parse, a[..nl]), Frames(parse, after).messages, Frames(parse, Frames(parse, a).rest + b).messages);
    }
  }

  /** However the stream is cut into chunks, the messages and the final rest are those of the whole. */
  lemma {:induction false} ChunkingDoesNotMatter<T>(parse: Text -> Option<T>, rest: Text, chunks: seq<Text>)
    requires NEWLINE !in rest
    ensures Feed(parse, rest, chunks) == Frames(parse, rest + Join(chunks))
    decreases |chunks|
  {
    if chunks == [] {
      NoNewline(rest);
      assert rest + Join(chunks) == rest;
    } else {
      var a := rest + chunks[0];
      RestHasNoNewline(parse, a);
      ChunkingDoesNotMatter(parse, Frames(parse, a).rest, chunks[1..]);
      CutAnywhere(parse, a, Join(chunks[1..]));
      assert rest + Join(chunks) == a + Join(chunks[1..]);
    }
  }

  function EncodeAll<T>(json: T -> Text, messages: seq<T>): Text {
    if messages == [] then [] else Encode(json, messages[0]) + EncodeAll(json, messages[1..])
  }

  /** What a JSON printer guarantees: its text has no raw newline (RFC 8259, section 7), neither
      starts nor ends with white space, and parses back. */
  ghost predicate Faithful<T(!new)>(json: T -> Text, parse: Text -> Option<T>) {
    forall m :: NEWLINE !in json(m) && json(m) != [] && Trim(json(m)) == json(m) && parse(json(m)) == Some(m)
  }

  lemma {:induction false} FramesOfEncoded<T(!new)>(json: T -> Text, parse: Text -> Option<T>, messages: seq<T>)
    requires Faithful(json, parse)
    ensures Frames(parse, EncodeAll(json, messages)) == Parsed(messages, [])
    decreases |messages|
  {
    if messages != [] {
      var m := messages[0];
      var buffer := EncodeAll(json, messages);
      var nl := |json(m)|;
      assert buffer[..nl] == json(m);
      FramesStep(parse, buffer, nl);
      assert buffer[nl + 1..] == EncodeAll(json, messages[1..]);
      FramesOfEncoded(json, parse, messages[1..]);
      assert Line(parse, json(m)) == [m];
    }
  }

  /** Whatever messages are sent and however the stream is cut, exactly those messages arrive. */
  lemma {:induction false} SentIsReceived<T(!new)>(json: T -> Text, parse: Text -> Option<T>, messages: seq<T>, chunks: seq<Text>)
    requires Faithful(json, parse) && Join(chunks) == EncodeAll(json, messages)
    ensures Feed(parse, [], chunks) == Parsed(messages, [])
  {
    ChunkingDoesNotMatter(parse, [], chunks);
    assert [] + Join(chunks) == Join(chunks);
    FramesOfEncoded(json, parse, messages);
  }
}
