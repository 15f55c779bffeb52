/** The server's event-stream helpers: one canonical chunk as a frame, and
    the end-of-stream marker. Serialising a chunk to JSON is the parameter
    `serialize`; `None` stands for a serialisation failure, which the server
    turns into an empty payload. */
module Streaming {
  import opened Wrappers
  import opened Text
  import opened Types
  import opened SseFrames

  /** `format_sse_chunk` */
  function FormatSseChunk(chunk: ChatStreamChunk, serialize: ChatStreamChunk -> Option<string>): (r: string)
    ensures StartsWith(r, DataPrefix) && EndsWith(r, "\n\n")
    ensures serialize(chunk).None? ==> r == DataPrefix + "\n\n"
    ensures serialize(chunk).Some? ==>
              |r| == |serialize(chunk).value| + 8 && r[|DataPrefix|..|r| - 2] == serialize(chunk).value
  {
    var json := serialize(chunk).GetOr("");
    var r := DataFrame(json);
    assert r == DataPrefix + json + "\n\n";
    assert r[|DataPrefix|..|r| - 2] == json;
    r
  }

  /** `format_sse_done` */
  function FormatSseDone(): (r: string)
    ensures r == DataFrame("[DONE]")
    ensures EndsWith(r, "[DONE]\n\n")
  {
    DoneFrameIsDataFrame();
    assert DoneFrame[|DoneFrame| - |"[DONE]\n\n"|..] == "[DONE]\n\n";
    DoneFrame
  }

  /** The payload each chunk is written with. */
  function Payloads(chunks: seq<ChatStreamChunk>, serialize: ChatStreamChunk -> Option<string>): (r: seq<string>)
    ensures |r| == |chunks|
    ensures forall i :: 0 <= i < |r| ==> r[i] == serialize(chunks[i]).GetOr("")
  {
    if chunks == [] then [] else [serialize(chunks[0]).GetOr("")] + Payloads(chunks[1..], serialize)
  }

  /** Chunks written one after the other, then the end marker. */
  function StreamText(chunks: seq<ChatStreamChunk>, serialize: ChatStreamChunk -> Option<string>): string {
    if chunks == [] then FormatSseDone()
    else FormatSseChunk(chunks[0], serialize) + StreamText(chunks[1..], serialize)
  }

  lemma {:induction false} StreamTextIsDataFrames(chunks: seq<ChatStreamChunk>, serialize: ChatStreamChunk -> Option<string>)
    ensures StreamText(chunks, serialize) == DataFrames(Payloads(chunks, serialize) + ["[DONE]"])
  {
    var ps := Payloads(chunks, serialize) + ["[DONE]"];
    if chunks == [] {
      assert ps == ["[DONE]"];
      assert DataFrames(ps[1..]) == [] by {
        assert ps[1..] == [];
      }
    } else {
      StreamTextIsDataFrames(chunks[1..], serialize);
      assert ps[0] == serialize(chunks[0]).GetOr("");
      assert ps[1..] == Payloads(chunks[1..], serialize) + ["[DONE]"];
    }
  }

  /** A whole stream, chunks then the end marker, ends with "[DONE]" and a
      blank line and reads back as one frame per chunk, in order, followed by
      the marker frame, with nothing left over, provided every serialised
      chunk is a single line. */
  lemma StreamReadsBack(chunks: seq<ChatStreamChunk>, serialize: ChatStreamChunk -> Option<string>)
    requires forall i :: 0 <= i < |chunks| ==> '\n' !in serialize(chunks[i]).GetOr("")
    ensures EndsWith(StreamText(chunks, serialize), "[DONE]\n\n")
    ensures SplitFrames(StreamText(chunks, serialize)) == Framing(DataLines(Payloads(chunks, serialize) + ["[DONE]"]), "")
  {
    StreamTextIsDataFrames(chunks, serialize);
    var ps := Payloads(chunks, serialize) + ["[DONE]"];
    PayloadsSingleLine(chunks, serialize);
    SplitDataFrames(ps);
    StreamEndsWithDone(chunks, serialize);
  }

  lemma PayloadsSingleLine(chunks: seq<ChatStreamChunk>, serialize: ChatStreamChunk -> Option<string>)
    requires forall i :: 0 <= i < |chunks| ==> '\n' !in serialize(chunks[i]).GetOr("")
    ensures var ps := Payloads(chunks, serialize) + ["[DONE]"];
            forall i :: 0 <= i < |ps| ==> '\n' !in ps[i]
  {
    var ps := Payloads(chunks, serialize) + ["[DONE]"];
    forall i | 0 <= i < |ps| ensures '\n' !in ps[i] {
      if i < |chunks| {
        assert ps[i] == Payloads(chunks, serialize)[i];
      } else {
        assert ps[i] == "[DONE]";
      }
    }
  }

  lemma {:induction false} StreamEndsWithDone(chunks: seq<ChatStreamChunk>, serialize: ChatStreamChunk -> Option<string>)
    ensures EndsWith(StreamText(chunks, serialize), "[DONE]\n\n")
  {
    if chunks != [] {
      StreamEndsWithDone(chunks[1..], serialize);
      var head := FormatSseChunk(chunks[0], serialize);
      var tail := StreamText(chunks[1..], serialize);
      var s := head + tail;
      assert s[|s| - 8..] == tail[|tail| - 8..];
    }
  }
}
