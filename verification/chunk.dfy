/** The OpenAI-style streaming chunk both translators emit
    (`create_openai_chunk` in the Anthropic adapter and
    `create_gemini_openai_chunk` in the Gemini adapter, which lay the chunk
    out identically). The JSON text is assembled by hand: the id, the model
    and the finish reason are spliced in without escaping, the content is
    escaped by `EscapeJson`, and `created` is the clock reading taken when the
    chunk is built. */
module ChunkFormat {
  import opened Wrappers
  import opened Ints
  import opened Text
  import opened JsonEscape
  import opened SseFrames

  /** The `delta` object: the escaped content, or `{}` when there is none. */
  function DeltaJson(content: Option<string>): string {
    match content
    case Some(t) => "{\"content\":\"" + EscapeJson(t) + "\"}"
    case None => "{}"
  }

  /** The `finish_reason` value: a quoted string, or `null`. */
  function FinishJson(finish: Option<string>): string {
    match finish
    case Some(f) => "\"" + f + "\""
    case None => "null"
  }

  // The fixed pieces of the chunk's JSON text, in order.
  const IdKey := "{\"id\":\""
  const ObjectKey := "\",\"object\":"
  const ObjectValue := "\"chat.completion.chunk\""
  const CreatedKey := ",\"created\":"
  const ModelKey := ",\"model\":\""
  const ChoicesKey := "\",\"choices\":[{"
  const DeltaKey := "\"index\":0,\"delta\":"
  const FinishKey := ",\"finish_reason\":"
  const Closing := "}]}"

  /** The JSON text of one chunk. */
  function ChunkJson(id: string, created: u64, model: string, content: Option<string>, finish: Option<string>): string {
    IdKey + id + ObjectKey + ObjectValue + CreatedKey + NatToString(created)
      + ModelKey + model + ChoicesKey + DeltaKey + DeltaJson(content)
      + FinishKey + FinishJson(finish) + Closing
  }

  /** The chunk as an event-stream frame. */
  function ChunkFrame(id: string, created: u64, model: string, content: Option<string>, finish: Option<string>): (r: string)
    ensures StartsWith(r, DataPrefix) && EndsWith(r, "\n\n")
  {
    DataFrame(ChunkJson(id, created, model, content, finish))
  }

  /** The fields spliced in verbatim hold no line feed. */
  predicate LineFree(id: string, model: string, finish: Option<string>) {
    '\n' !in id && '\n' !in model && (finish.Some? ==> '\n' !in finish.value)
  }

  /** Whatever the content (line feeds included, since they are escaped), the
      chunk's JSON is a single line. */
  lemma ChunkJsonSingleLine(id: string, created: u64, model: string, content: Option<string>, finish: Option<string>)
    requires LineFree(id, model, finish)
    ensures '\n' !in ChunkJson(id, created, model, content, finish)
  {
    var delta := DeltaJson(content);
    assert '\n' !in delta by {
      if content.Some? {
        EscapeJsonSafe(content.value);
        NoLineFeedJoin("{\"content\":\"", EscapeJson(content.value));
        NoLineFeedJoin("{\"content\":\"" + EscapeJson(content.value), "\"}");
      }
    }
    var fin := FinishJson(finish);
    assert '\n' !in fin by {
      if finish.Some? {
        NoLineFeedJoin("\"", finish.value);
        NoLineFeedJoin("\"" + finish.value, "\"");
      }
    }
    NatToStringPlain(created);
    var n := NatToString(created);
    FixedPiecesLineFree();
    var p := IdKey;
    NoLineFeedJoin(p, id); p := p + id;
    NoLineFeedJoin(p, ObjectKey); p := p + ObjectKey;
    NoLineFeedJoin(p, ObjectValue); p := p + ObjectValue;
    NoLineFeedJoin(p, CreatedKey); p := p + CreatedKey;
    NoLineFeedJoin(p, n); p := p + n;
    NoLineFeedJoin(p, ModelKey); p := p + ModelKey;
    NoLineFeedJoin(p, model); p := p + model;
    NoLineFeedJoin(p, ChoicesKey); p := p + ChoicesKey;
    NoLineFeedJoin(p, DeltaKey); p := p + DeltaKey;
    NoLineFeedJoin(p, delta); p := p + delta;
    NoLineFeedJoin(p, FinishKey); p := p + FinishKey;
    NoLineFeedJoin(p, fin); p := p + fin;
    NoLineFeedJoin(p, Closing); p := p + Closing;
    assert ChunkJson(id, created, model, content, finish) == p;
  }

  lemma FixedPiecesLineFree()
    ensures '\n' !in IdKey && '\n' !in ObjectKey && '\n' !in ObjectValue && '\n' !in CreatedKey
    ensures '\n' !in ModelKey && '\n' !in ChoicesKey && '\n' !in DeltaKey && '\n' !in FinishKey
    ensures '\n' !in Closing
  {
  }

  /** A client reading the stream sees each chunk as exactly one event whose
      data is the chunk's JSON, whatever follows it. */
  lemma ChunkFrameReadsBack(id: string, created: u64, model: string, content: Option<string>, finish: Option<string>, rest: string)
    requires LineFree(id, model, finish)
    ensures var json := ChunkJson(id, created, model, content, finish);
            CutFrame(ChunkFrame(id, created, model, content, finish) + rest) == Some(Cut(DataPrefix + json, rest))
            && StripPrefix(DataPrefix + json, DataPrefix) == Some(json)
  {
    ChunkJsonSingleLine(id, created, model, content, finish);
    ReadDataFrame(ChunkJson(id, created, model, content, finish), rest);
  }

  /** The content travels escaped, and unescaping the `delta` string gives the
      text back. */
  lemma DeltaContentReadsBack(t: string)
    ensures DeltaJson(Some(t)) == "{\"content\":\"" + EscapeJson(t) + "\"}"
    ensures Unescape(EscapeJson(t)) == Some(t)
  {
    UnescapeEscapeJson(t);
  }
}
