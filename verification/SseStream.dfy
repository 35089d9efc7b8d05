/**
 * The browser's event-stream consumer: text arrives in arbitrary chunks, blocks end at
 * a blank line, and each block becomes at most one typed chunk.
 * JSON text is a parameter: `parse` reads it, `show` is the conversion of a value to text.
 */
module SseStream {
  import opened Wrappers
  import opened Texts

  const BLANK := "\n\n"
  const EVENT := "event:"
  const DATA := "data:"
  /** What the decoder flushes when the stream ends inside a character. */
  const REPLACEMENT := "\U{FFFD}"

  datatype SseEvent = SseEvent(event: string, data: string)

  datatype Json =
    | JsonNull
    | JsonBool(flag: bool)
    | JsonNumber(number: real)
    | JsonText(text: string)
    | JsonArray(items: seq<Json>)
    | JsonObject(fields: map<string, Json>)

  datatype Chunk =
    | Meta(mode: string, conversationId: string, requestId: string)
    | Token(text: string)
    | Done(citations: seq<Json>, usage: Json, retrieveMs: real, llmMs: real, followups: seq<string>)
    | StreamError(error: string)

  /******* Blocks *******/

  /** The trimmed remainder of the last line with this prefix; empty when there is none. */
  function LastField(lines: seq<string>, prefix: string): string {
    if lines == [] then ""
    else if StartsWith(lines[|lines| - 1], prefix) then Trim(lines[|lines| - 1][|prefix|..])
    else LastField(lines[..|lines| - 1], prefix)
  }

  /** A block names an event only when both its fields are non-empty. */
  function EventOf(block: string): Option<SseEvent> {
    var lines := SplitOn(block, LINE);
    var event, data := LastField(lines, EVENT), LastField(lines, DATA);
    if event == "" || data == "" then None else Some(SseEvent(event, data))
  }

  method ParseSseEvent(block: string) returns (r: Option<SseEvent>)
    ensures r == EventOf(block)
  {
    hide Trim;
    var eventName, dataLine := "", "";
    var lines := SplitOn(block, LINE);
    for i := 0 to |lines|
      invariant eventName == LastField(lines[..i], EVENT)
      invariant dataLine == LastField(lines[..i], DATA)
    {
      assert lines[..i + 1][..i] == lines[..i] && lines[..i + 1][i] == lines[i];
      OnePrefix(lines[i]);
      if StartsWith(lines[i], EVENT) {
        eventName := Trim(lines[i][|EVENT|..]);
      } else if StartsWith(lines[i], DATA) {
        dataLine := Trim(lines[i][|DATA|..]);
      }
    }
    assert lines[..|lines|] == lines;
    if eventName == "" || dataLine == "" {
      return None;
    }
    return Some(SseEvent(eventName, dataLine));
  }

  lemma OnePrefix(line: string)
    ensures !(StartsWith(line, EVENT) && StartsWith(line, DATA))
  {
    if StartsWith(line, EVENT) {
      assert line[0] == line[..|EVENT|][0] == 'e';
    }
    if StartsWith(line, DATA) {
      assert line[0] == line[..|DATA|][0] == 'd';
    }
  }

  /******* Typed chunks *******/

  /** The named field as text, with a default when it is missing or null. */
  function TextField(show: Json -> string, p: map<string, Json>, key: string, default: string): string {
    if key in p && p[key] != JsonNull then show(p[key]) else default
  }

  function NumberField(p: map<string, Json>, key: string): real {
    if key in p && p[key].JsonNumber? then p[key].number else 0.0
  }

  function TextItems(items: seq<Json>): seq<string> {
    if items == [] then []
    else (if items[0].JsonText? then [items[0].text] else []) + TextItems(items[1..])
  }

  function DoneChunk(p: map<string, Json>): Chunk {
    Done(
      if "citations" in p && p["citations"].JsonArray? then p["citations"].items else [],
      if "usage" in p && (p["usage"].JsonObject? || p["usage"].JsonArray?) then p["usage"] else JsonObject(map[]),
      NumberField(p, "retrieve_ms"), NumberField(p, "llm_ms"),
      if "followups" in p && p["followups"].JsonArray? then TextItems(p["followups"].items) else [])
  }

  /** Arrays are objects too, without any of the named fields. */
  function ToChunk(parse: string -> Option<Json>, show: Json -> string, e: SseEvent): Option<Chunk> {
    var payload := parse(e.data);
    if payload.None? || !(payload.value.JsonObject? || payload.value.JsonArray?) then None
    else
      var p := if payload.value.JsonObject? then payload.value.fields else map[];
      if e.event == "meta" then
        Some(Meta(TextField(show, p, "mode", ""), TextField(show, p, "conversation_id", ""),
                  TextField(show, p, "request_id", "")))
      else if e.event == "token" then Some(Token(TextField(show, p, "text", "")))
      else if e.event == "done" then Some(DoneChunk(p))
      else if e.event == "error" then Some(StreamError(TextField(show, p, "error", "unknown")))
      else None
  }

  /** Blank blocks are skipped. */
  function BlockEvent(block: string): Option<SseEvent> {
    var trimmed := Trim(block);
    if trimmed == "" then None else EventOf(trimmed)
  }

  /** What one block yields: nothing or one chunk. */
  function Emit(parse: string -> Option<Json>, show: Json -> string, block: string): seq<Chunk> {
    match BlockEvent(block)
    case None => []
    case Some(e) =>
      match ToChunk(parse, show, e)
      case None => []
      case Some(c) => [c]
  }

  function EmitAll(parse: string -> Option<Json>, show: Json -> string, blocks: seq<string>): seq<Chunk> {
    if blocks == [] then []
    else EmitAll(parse, show, blocks[..|blocks| - 1]) + Emit(parse, show, blocks[|blocks| - 1])
  }

  /** The reference: split the whole text at once. */
  function Yielded(parse: string -> Option<Json>, show: Json -> string, text: string): seq<Chunk> {
    EmitAll(parse, show, SplitOn(text, BLANK))
  }

  lemma {:induction false} EmitAllAppend(
      parse: string -> Option<Json>, show: Json -> string, a: seq<string>, b: seq<string>)
    ensures EmitAll(parse, show, a + b) == EmitAll(parse, show, a) + EmitAll(parse, show, b)
  {
    hide Emit;
    if b == [] {
      assert a + b == a;
    } else {
      EmitAllAppend(parse, show, a, b[..|b| - 1]);
      assert (a + b)[..|a + b| - 1] == a + b[..|b| - 1];
    }
  }

  function Concat(chunks: seq<string>): string {
    if chunks == [] then "" else Concat(chunks[..|chunks| - 1]) + chunks[|chunks| - 1]
  }

  method EmitBlock(parse: string -> Option<Json>, show: Json -> string, block: string) returns (out: seq<Chunk>)
    ensures out == Emit(parse, show, block)
  {
    out := [];
    var trimmed := Trim(block);
    if trimmed != "" {
      var e := ParseSseEvent(trimmed);
      if e.Some? {
        var c := ToChunk(parse, show, e.value);
        if c.Some? {
          out := [c.value];
        }
      }
    }
  }

  method EmitBlocks(parse: string -> Option<Json>, show: Json -> string, blocks: seq<string>)
    returns (out: seq<Chunk>)
    ensures out == EmitAll(parse, show, blocks)
  {
    hide Emit;
    out := [];
    for j := 0 to |blocks|
      invariant out == EmitAll(parse, show, blocks[..j])
    {
      var more := EmitBlock(parse, show, blocks[j]);
      assert blocks[..j + 1][..j] == blocks[..j];
      out := out + more;
    }
    assert blocks[..|blocks|] == blocks;
  }

  /** Between two reads: the text so far is the finished blocks and the buffered piece. */
  ghost predicate Buffered(text: string, complete: seq<string>, buffer: string) {
    SplitOn(text, BLANK) == complete + [buffer] && SplitOn(buffer, BLANK) == [buffer]
  }

  /** However the text is cut into chunks, the same chunks come out as for the whole text. */
  method ConsumeSseStream(parse: string -> Option<Json>, show: Json -> string, chunks: seq<string>, truncated: bool)
    returns (out: seq<Chunk>)
    ensures out == Yielded(parse, show, Concat(chunks) + if truncated then REPLACEMENT else "")
  {
    hide Emit, SplitOn, Buffered;
    var buffer := "";
    out := [];
    ghost var complete: seq<string> := [];
    BufferEmpty();
    for i := 0 to |chunks|
      invariant Buffered(Concat(chunks[..i]), complete, buffer)
      invariant out == EmitAll(parse, show, complete)
    {
      assert chunks[..i + 1][..i] == chunks[..i];
      BufferChunk(Concat(chunks[..i]), complete, buffer, chunks[i]);
      buffer := buffer + chunks[i];
      var blocks := SplitOn(buffer, BLANK);
      buffer := blocks[|blocks| - 1];
      blocks := blocks[..|blocks| - 1];
      var more := EmitBlocks(parse, show, blocks);
      EmitAllAppend(parse, show, complete, blocks);
      out := out + more;
      complete := complete + blocks;
    }
    assert chunks[..|chunks|] == chunks;
    BufferFlush(Concat(chunks), complete, buffer, truncated);
    buffer := buffer + if truncated then REPLACEMENT else "";
    var last := EmitBlocks(parse, show, [buffer]);
    EmitAllAppend(parse, show, complete, [buffer]);
    out := out + last;
  }

  lemma BufferEmpty()
    ensures Buffered("", [], "")
  {}

  lemma BufferChunk(text: string, complete: seq<string>, buffer: string, chunk: string)
    requires Buffered(text, complete, buffer)
    ensures var blocks := SplitOn(buffer + chunk, BLANK);
            Buffered(text + chunk, complete + blocks[..|blocks| - 1], blocks[|blocks| - 1])
  {
    hide SplitOn;
    SplitAppend(text, chunk, BLANK);
    assert (complete + [buffer])[..|complete|] == complete;
    LastIsOpen(buffer + chunk);
  }

  /** The piece kept in the buffer holds no separator. */
  lemma {:induction false} LastIsOpen(s: string)
    ensures var parts := SplitOn(s, BLANK); SplitOn(parts[|parts| - 1], BLANK) == [parts[|parts| - 1]]
    decreases |s|
  {
    hide SplitOn, IndexOf;
    SplitStep(s, BLANK);
    match IndexOf(s, BLANK, 0)
    case None =>
    case Some(i) => LastIsOpen(s[i + 2..]);
  }

  /** A flushed replacement character never completes a separator. */
  lemma BufferFlush(text: string, complete: seq<string>, buffer: string, truncated: bool)
    requires Buffered(text, complete, buffer)
    ensures var flush := if truncated then REPLACEMENT else "";
            SplitOn(text + flush, BLANK) == complete + [buffer + flush]
  {
    var flush := if truncated then REPLACEMENT else "";
    SplitAppend(text, flush, BLANK);
    assert (complete + [buffer])[..|complete|] == complete;
    var t := buffer + flush;
    forall i: nat ensures !At(t, BLANK, i) {
      assert i + 2 <= |t| ==> t[i..i + 2][1] == t[i + 1];
      if i + 2 <= |buffer| {
        AtAppend(buffer, flush, BLANK, i);
      }
    }
  }

  /******* The wire form *******/

  /** Events the wire form can carry: single-line, trimmed, non-empty fields. */
  predicate Clean(s: string) {
    s != "" && IsTrimmed(s) && '\n' !in s
  }

  predicate CleanEvent(e: SseEvent) {
    Clean(e.event) && Clean(e.data)
  }

  predicate AllClean(events: seq<SseEvent>) {
    forall i :: 0 <= i < |events| ==> CleanEvent(events[i])
  }

  function EventLine(e: SseEvent): string {
    EVENT + " " + e.event
  }

  function DataLine(e: SseEvent): string {
    DATA + " " + e.data
  }

  function PrintBlock(e: SseEvent): string {
    EventLine(e) + LINE + DataLine(e)
  }

  function Print(events: seq<SseEvent>): string {
    if events == [] then "" else PrintBlock(events[0]) + BLANK + Print(events[1..])
  }

  /** The events of a text, block by block. */
  function EventsOf(blocks: seq<string>): seq<SseEvent> {
    if blocks == [] then []
    else
      var first := BlockEvent(blocks[0]);
      (if first.Some? then [first.value] else []) + EventsOf(blocks[1..])
  }

  /** No blank line starts inside two lines without line feeds, nor across their end. */
  lemma NoBlankInside(first: string, second: string)
    requires '\n' !in first && '\n' !in second && second != ""
    ensures var b := first + LINE + second; forall i: nat :: i < |b| ==> !At(b + BLANK, BLANK, i)
  {
    var b := first + LINE + second;
    forall i: nat | i < |b| ensures !At(b + BLANK, BLANK, i) {
      var window := (b + BLANK)[i..i + 2];
      assert window[0] == b[i];
      if i == |first| {
        assert window[1] == b[i + 1] == second[0];
      } else {
        assert b[i] == if i < |first| then first[i] else second[i - |first| - 1];
      }
    }
  }

  /** A printed block is two lines, starts with a letter and ends with a non-space. */
  lemma BlockShape(e: SseEvent)
    requires CleanEvent(e)
    ensures PrintBlock(e) != "" && IsTrimmed(PrintBlock(e))
    ensures '\n' !in EventLine(e) && '\n' !in DataLine(e)
    ensures forall i: nat :: i < |PrintBlock(e)| ==> !At(PrintBlock(e) + BLANK, BLANK, i)
  {
    var b := PrintBlock(e);
    assert b[0] == 'e' && b[|b| - 1] == e.data[|e.data| - 1];
    assert forall i :: 0 <= i < |EVENT| ==> EVENT[i] != '\n';
    assert forall i :: 0 <= i < |DATA| ==> DATA[i] != '\n';
    NoBlankInside(EventLine(e), DataLine(e));
  }

  /** One block reads back as its event. */
  lemma BlockRoundTrip(e: SseEvent)
    requires CleanEvent(e)
    ensures EventOf(PrintBlock(e)) == Some(e)
  {
    hide Trim, SplitOn, IsTrimmed;
    BlockShape(e);
    NoBreak(EventLine(e), DataLine(e));
    NoBreak(DataLine(e), "");
    var lines := SplitOn(PrintBlock(e), LINE);
    assert lines == [EventLine(e), DataLine(e)];
    FieldRoundTrip(EVENT, e.event);
    FieldRoundTrip(DATA, e.data);
    OnePrefix(EventLine(e));
    OnePrefix(DataLine(e));
    assert lines[..1] == [EventLine(e)];
    assert LastField(lines, DATA) == e.data;
    assert LastField(lines[..1], EVENT) == e.event;
  }

  lemma FieldRoundTrip(prefix: string, value: string)
    requires IsTrimmed(value)
    ensures var line := prefix + " " + value;
            StartsWith(line, prefix) && Trim(line[|prefix|..]) == value
  {
    TrimOfTrimmed(value);
    assert (prefix + " " + value)[|prefix|..] == [' '] + value;
  }

  /** Reading the printed form of any list of clean events returns that list. */
  lemma {:induction false} WireRoundTrip(events: seq<SseEvent>)
    requires AllClean(events)
    ensures EventsOf(SplitOn(Print(events), BLANK)) == events
  {
    hide Trim, EventOf, PrintBlock, CleanEvent;
    if events == [] {
      assert SplitOn("", BLANK) == [""];
      TrimOfTrimmed("");
    } else {
      var e := events[0];
      WireRoundTrip(events[1..]);
      BlockShape(e);
      SplitFirst(PrintBlock(e), BLANK, Print(events[1..]));
      TrimOfTrimmed(PrintBlock(e));
      BlockRoundTrip(e);
      assert SplitOn(Print(events), BLANK)[1..] == SplitOn(Print(events[1..]), BLANK);
    }
  }

  /** The chunks of a list of events, unknown or unreadable events left out. */
  function Chunks(parse: string -> Option<Json>, show: Json -> string, events: seq<SseEvent>): seq<Chunk> {
    if events == [] then []
    else
      var c := ToChunk(parse, show, events[0]);
      (if c.Some? then [c.value] else []) + Chunks(parse, show, events[1..])
  }

  lemma EmitOne(parse: string -> Option<Json>, show: Json -> string, block: string)
    ensures EmitAll(parse, show, [block]) == Emit(parse, show, block)
  {
    hide Emit;
    assert [block][..0] == [];
  }

  lemma {:induction false} EmitAllIsChunks(
      parse: string -> Option<Json>, show: Json -> string, blocks: seq<string>)
    ensures EmitAll(parse, show, blocks) == Chunks(parse, show, EventsOf(blocks))
  {
    hide BlockEvent, ToChunk;
    if blocks != [] {
      EmitAllIsChunks(parse, show, blocks[1..]);
      assert blocks == [blocks[0]] + blocks[1..];
      EmitAllAppend(parse, show, [blocks[0]], blocks[1..]);
      EmitOne(parse, show, blocks[0]);
      var first := BlockEvent(blocks[0]);
      if first.Some? {
        assert EventsOf(blocks)[0] == first.value && EventsOf(blocks)[1..] == EventsOf(blocks[1..]);
      } else {
        assert EventsOf(blocks) == EventsOf(blocks[1..]);
      }
    }
  }

  /** What a client sees of a printed stream. */
  lemma PrintedStreamYields(parse: string -> Option<Json>, show: Json -> string, events: seq<SseEvent>)
    requires AllClean(events)
    ensures Yielded(parse, show, Print(events)) == Chunks(parse, show, events)
  {
    hide SplitOn;
    WireRoundTrip(events);
    EmitAllIsChunks(parse, show, SplitOn(Print(events), BLANK));
  }

  /******* Chunks as a server sends them *******/

  function NameOf(c: Chunk): string {
    match c
    case Meta(_, _, _) => "meta"
    case Token(_) => "token"
    case Done(_, _, _, _, _) => "done"
    case StreamError(_) => "error"
  }

  function TextsAsJson(texts: seq<string>): seq<Json> {
    if texts == [] then [] else [JsonText(texts[0])] + TextsAsJson(texts[1..])
  }

  /** The payload fields of a chunk, by their names on the wire. */
  function FieldsOf(c: Chunk): map<string, Json> {
    match c
    case Meta(mode, conversation, request) =>
      map["mode" := JsonText(mode), "conversation_id" := JsonText(conversation), "request_id" := JsonText(request)]
    case Token(text) => map["text" := JsonText(text)]
    case Done(citations, usage, retrieveMs, llmMs, followups) =>
      map["citations" := JsonArray(citations), "usage" := usage, "retrieve_ms" := JsonNumber(retrieveMs),
        "llm_ms" := JsonNumber(llmMs), "followups" := JsonArray(TextsAsJson(followups))]
    case StreamError(error) => map["error" := JsonText(error)]
  }

  predicate IsSendable(c: Chunk) {
    c.Done? ==> c.usage.JsonObject? || c.usage.JsonArray?
  }

  predicate AllSendable(chunks: seq<Chunk>) {
    forall i :: 0 <= i < |chunks| ==> IsSendable(chunks[i])
  }

  function PayloadOf(c: Chunk): Json {
    JsonObject(FieldsOf(c))
  }

  /** The payload of this chunk is written on one line and read back. */
  predicate Carries(encode: Json -> string, parse: string -> Option<Json>, c: Chunk) {
    Clean(encode(PayloadOf(c))) && parse(encode(PayloadOf(c))) == Some(PayloadOf(c))
  }

  predicate CarriesAll(encode: Json -> string, parse: string -> Option<Json>, chunks: seq<Chunk>) {
    forall i :: 0 <= i < |chunks| ==> Carries(encode, parse, chunks[i])
  }

  /** Text converts to itself. */
  ghost predicate ShowsText(show: Json -> string) {
    forall t :: show(JsonText(t)) == t
  }

  function EventFor(encode: Json -> string, c: Chunk): SseEvent {
    SseEvent(NameOf(c), encode(PayloadOf(c)))
  }

  function EventsFor(encode: Json -> string, chunks: seq<Chunk>): seq<SseEvent> {
    if chunks == [] then [] else [EventFor(encode, chunks[0])] + EventsFor(encode, chunks[1..])
  }

  lemma {:induction false} TextItemsOfTexts(texts: seq<string>)
    ensures TextItems(TextsAsJson(texts)) == texts
  {
    if texts != [] {
      TextItemsOfTexts(texts[1..]);
      assert TextsAsJson(texts)[1..] == TextsAsJson(texts[1..]);
    }
  }

  /** The payload is an array, or an object whose fields are all null or missing. */
  predicate HoldsNothing(j: Json) {
    j.JsonArray? || (j.JsonObject? && forall k :: k in j.fields ==> j.fields[k] == JsonNull)
  }

  /** Missing and null fields read as empty, zero or "unknown"; an unknown event is dropped. */
  lemma MissingFieldsRead(parse: string -> Option<Json>, show: Json -> string, e: SseEvent)
    requires parse(e.data).Some? && HoldsNothing(parse(e.data).value)
    ensures ToChunk(parse, show, e)
            == if e.event == "meta" then Some(Meta("", "", ""))
               else if e.event == "token" then Some(Token(""))
               else if e.event == "done" then Some(Done([], JsonObject(map[]), 0.0, 0.0, []))
               else if e.event == "error" then Some(StreamError("unknown"))
               else None
  {}

  /** Text that is not JSON, and a payload that is neither object nor array, give no chunk. */
  lemma OtherPayloadsAreDropped(parse: string -> Option<Json>, show: Json -> string, e: SseEvent)
    requires parse(e.data).None? || !(parse(e.data).value.JsonObject? || parse(e.data).value.JsonArray?)
    ensures ToChunk(parse, show, e) == None
  {}

  /** Items that are not text are left out of the follow-up questions. */
  lemma {:induction false} OtherItemsAreDropped(a: seq<Json>, j: Json, b: seq<Json>)
    requires !j.JsonText?
    ensures TextItems(a + [j] + b) == TextItems(a + b)
  {
    if a == [] {
      assert a + [j] + b == [j] + b && a + b == b && ([j] + b)[1..] == b;
    } else {
      OtherItemsAreDropped(a[1..], j, b);
      assert (a + [j] + b)[1..] == a[1..] + [j] + b && (a + b)[1..] == a[1..] + b;
    }
  }

  lemma DoneFieldsRead(c: Chunk)
    requires c.Done? && IsSendable(c)
    ensures DoneChunk(FieldsOf(c)) == c
  {
    TextItemsOfTexts(c.followups);
  }

  /** Every field of every kind of chunk comes back in its place. */
  lemma ChunkRoundTrip(encode: Json -> string, parse: string -> Option<Json>, show: Json -> string, c: Chunk)
    requires Carries(encode, parse, c) && ShowsText(show) && IsSendable(c)
    ensures ToChunk(parse, show, EventFor(encode, c)) == Some(c)
  {
    hide Clean, DoneChunk;
    if c.Done? {
      DoneFieldsRead(c);
    }
  }

  lemma NameIsClean(c: Chunk)
    ensures Clean(NameOf(c))
  {
    LettersAreClean("meta");
    LettersAreClean("token");
    LettersAreClean("done");
    LettersAreClean("error");
  }

  lemma LettersAreClean(s: string)
    requires s != "" && forall i :: 0 <= i < |s| ==> 'a' <= s[i] <= 'z'
    ensures Clean(s)
  {}

  lemma {:induction false} EventsForClean(encode: Json -> string, parse: string -> Option<Json>, chunks: seq<Chunk>)
    requires CarriesAll(encode, parse, chunks)
    ensures AllClean(EventsFor(encode, chunks))
  {
    hide Clean, NameOf, PayloadOf;
    if chunks != [] {
      NameIsClean(chunks[0]);
      EventsForClean(encode, parse, chunks[1..]);
      assert CleanEvent(EventFor(encode, chunks[0]));
    }
  }

  lemma {:induction false} ChunksOfEvents(
      encode: Json -> string, parse: string -> Option<Json>, show: Json -> string, chunks: seq<Chunk>)
    requires CarriesAll(encode, parse, chunks) && ShowsText(show) && AllSendable(chunks)
    ensures Chunks(parse, show, EventsFor(encode, chunks)) == chunks
  {
    hide ShowsText, Carries, ToChunk, EventFor, IsSendable;
    if chunks != [] {
      ChunkRoundTrip(encode, parse, show, chunks[0]);
      ChunksOfEvents(encode, parse, show, chunks[1..]);
      assert EventsFor(encode, chunks)[1..] == EventsFor(encode, chunks[1..]);
    }
  }

  /** Whatever a server sends as chunks arrives whole and in order, however the text is cut. */
  lemma ChunksArrive(encode: Json -> string, parse: string -> Option<Json>, show: Json -> string, chunks: seq<Chunk>)
    requires CarriesAll(encode, parse, chunks) && ShowsText(show) && AllSendable(chunks)
    ensures Yielded(parse, show, Print(EventsFor(encode, chunks))) == chunks
  {
    hide Yielded, CarriesAll, ShowsText, Print, AllClean, AllSendable, EventsFor, Chunks;
    EventsForClean(encode, parse, chunks);
    PrintedStreamYields(parse, show, EventsFor(encode, chunks));
    ChunksOfEvents(encode, parse, show, chunks);
  }

  function FirstWith(chunks: seq<Chunk>, j: Json): (k: nat)
    ensures k <= |chunks|
    ensures k < |chunks| ==> PayloadOf(chunks[k]) == j
    ensures k == |chunks| ==> forall i :: 0 <= i < |chunks| ==> PayloadOf(chunks[i]) != j
  {
    if chunks == [] || PayloadOf(chunks[0]) == j then 0 else 1 + FirstWith(chunks[1..], j)
  }

  /** Every list of chunks has a codec that carries it. */
  lemma CodecExists(chunks: seq<Chunk>)
    returns (encode: Json -> string, parse: string -> Option<Json>, show: Json -> string)
    ensures CarriesAll(encode, parse, chunks) && ShowsText(show)
  {
    hide PayloadOf, Clean;
    encode := j => seq(FirstWith(chunks, j) + 1, _ => 'a');
    parse := s => if 0 < |s| <= |chunks| then Some(PayloadOf(chunks[|s| - 1])) else None;
    show := (j: Json) => if j.JsonText? then j.text else "";
    forall i | 0 <= i < |chunks|
      ensures Carries(encode, parse, chunks[i])
    {
      LettersAreClean(encode(PayloadOf(chunks[i])));
    }
  }
}
