/** The event-stream framing both stream translators read: a frame is the
    text before the first "\n\n" of the buffer, and the "\n\n" itself is
    consumed with it. This is a simplified form of the event-stream format of
    section 9.2.5 of the WHATWG HTML Living Standard: no other line ending
    closes an event, and only a "data: " prefix (with its space) is read. */
module SseFrames {
  import opened Wrappers
  import opened Text

  const DataPrefix := "data: "

  /** A frame cut off the front of a buffer, and what is left behind it. */
  datatype Cut = Cut(frame: string, rest: string)

  /** A frame that reads back as itself: it holds no "\n\n" and does not end
      in '\n' (which would make its own terminator start one character early). */
  predicate CleanFrame(frame: string) {
    NoTerminator(frame + "\n")
  }

  /** One step of `while let Some(pos) = buffer.find("\n\n")`: the text before
      the first terminator, and the text after it. */
  function CutFrame(buffer: string): (r: Option<Cut>)
    ensures r.None? <==> NoTerminator(buffer)
    ensures r.Some? ==> buffer == r.value.frame + "\n\n" + r.value.rest
    ensures r.Some? ==> CleanFrame(r.value.frame)
    ensures r.Some? ==> |r.value.rest| < |buffer|
  {
    match FindTerminator(buffer)
    case None => None
    case Some(pos) =>
      var frame, rest := buffer[..pos], buffer[pos + 2..];
      assert buffer == frame + "\n\n" + rest;
      assert CleanFrame(frame) by {
        forall j | 0 <= j < |frame + "\n"| ensures !TerminatorAt(frame + "\n", j) {
          if j + 1 < |frame + "\n"| {
            assert !TerminatorAt(buffer, j);
            assert (frame + "\n")[j] == buffer[j];
            assert (frame + "\n")[j + 1] == buffer[j + 1];
          }
        }
      }
      Some(Cut(frame, rest))
  }

  /** The first terminator of a buffer is found where it is. */
  lemma FindTerminatorAt(s: string, k: nat)
    requires TerminatorAt(s, k) && forall j :: 0 <= j < k ==> !TerminatorAt(s, j)
    ensures FindTerminator(s) == Some(k)
  {
    var r := FindTerminator(s);
    assert !NoTerminator(s);
    assert !(r.value < k) && !(k < r.value);
  }

  /** Cutting undoes framing: a clean frame followed by "\n\n" is cut off
      exactly, whatever follows it. */
  lemma {:induction false} CutFrameOf(frame: string, rest: string)
    requires CleanFrame(frame)
    ensures CutFrame(frame + "\n\n" + rest) == Some(Cut(frame, rest))
  {
    var s := frame + "\n\n" + rest;
    forall j | 0 <= j < |frame| ensures !TerminatorAt(s, j) {
      assert !TerminatorAt(frame + "\n", j);
      assert s[j] == (frame + "\n")[j] && s[j + 1] == (frame + "\n")[j + 1];
    }
    assert TerminatorAt(s, |frame|);
    FindTerminatorAt(s, |frame|);
    assert s[..|frame|] == frame && s[|frame| + 2..] == rest;
  }

  /** A text without line feeds is a clean frame. */
  lemma SingleLineIsClean(frame: string)
    requires '\n' !in frame
    ensures CleanFrame(frame)
  {
    var s := frame + "\n";
    forall j | 0 <= j < |s| ensures !TerminatorAt(s, j) {
      if j + 1 < |s| {
        assert s[j] == frame[j];
      }
    }
  }

  // ---------------------------------------------------------------------------
  // All frames of a buffer at once

  /** The complete frames of a buffer in order, and the unterminated tail. */
  datatype Framing = Framing(frames: seq<string>, rest: string)

  function SplitFrames(buffer: string): (r: Framing)
    ensures NoTerminator(r.rest)
    ensures forall i :: 0 <= i < |r.frames| ==> CleanFrame(r.frames[i])
    decreases |buffer|
  {
    match CutFrame(buffer)
    case None => Framing([], buffer)
    case Some(cut) =>
      var tail := SplitFrames(cut.rest);
      Framing([cut.frame] + tail.frames, tail.rest)
  }

  /** One step of splitting: the first frame, then the frames of the rest. */
  lemma SplitFramesStep(buffer: string, cut: Cut)
    requires CutFrame(buffer) == Some(cut)
    ensures SplitFrames(buffer) == Framing([cut.frame] + SplitFrames(cut.rest).frames, SplitFrames(cut.rest).rest)
  {
  }

  /** Each frame followed by its terminator. */
  function JoinFrames(frames: seq<string>): string {
    if frames == [] then [] else frames[0] + "\n\n" + JoinFrames(frames[1..])
  }

  /** Splitting loses nothing: the frames with their terminators, then the
      tail, give the buffer back. */
  lemma {:induction false} JoinSplitFrames(buffer: string)
    ensures JoinFrames(SplitFrames(buffer).frames) + SplitFrames(buffer).rest == buffer
    decreases |buffer|
  {
    match CutFrame(buffer)
    case None =>
      assert SplitFrames(buffer) == Framing([], buffer);
    case Some(cut) =>
      JoinSplitFrames(cut.rest);
      var tail := SplitFrames(cut.rest);
      var fs := [cut.frame] + tail.frames;
      assert SplitFrames(buffer) == Framing(fs, tail.rest);
      assert fs[0] == cut.frame && fs[1..] == tail.frames;
      var joined := JoinFrames(tail.frames);
      assert JoinFrames(fs) == cut.frame + "\n\n" + joined;
      AppendAssoc(cut.frame + "\n\n", joined, tail.rest);
  }

  lemma AppendAssoc(a: string, b: string, c: string)
    ensures (a + b) + c == a + (b + c)
  {
  }

  /** And the other way round: clean frames followed by an unterminated tail
      split back into exactly those frames and that tail. */
  lemma {:induction false} SplitJoinFrames(frames: seq<string>, rest: string)
    requires forall i :: 0 <= i < |frames| ==> CleanFrame(frames[i])
    requires NoTerminator(rest)
    ensures SplitFrames(JoinFrames(frames) + rest) == Framing(frames, rest)
  {
    if frames == [] {
      assert JoinFrames(frames) + rest == rest;
    } else {
      var joined := JoinFrames(frames[1..]);
      var tailText := joined + rest;
      var whole := JoinFrames(frames) + rest;
      assert JoinFrames(frames) == frames[0] + "\n\n" + joined;
      AppendAssoc(frames[0] + "\n\n", joined, rest);
      assert whole == frames[0] + "\n\n" + tailText;
      CutFrameOf(frames[0], tailText);
      SplitJoinFrames(frames[1..], rest);
      assert SplitFrames(tailText) == Framing(frames[1..], rest);
      assert SplitFrames(whole) == Framing([frames[0]] + frames[1..], rest);
      assert [frames[0]] + frames[1..] == frames;
    }
  }

  // ---------------------------------------------------------------------------
  // Writing frames

  /** "data: " + payload + "\n\n": one event with one data line. */
  function DataFrame(payload: string): (r: string)
    ensures StartsWith(r, DataPrefix) && EndsWith(r, "\n\n")
    ensures |r| == |payload| + 8
  {
    DataPrefix + payload + "\n\n"
  }

  /** The end-of-stream marker every OpenAI-style stream closes with. */
  const DoneFrame := "data: [DONE]\n\n"

  lemma DoneFrameIsDataFrame()
    ensures DoneFrame == DataFrame("[DONE]")
  {
  }

  /** A reader gets a single-line payload back: the frame is cut exactly at
      its own terminator, and stripping "data: " from it leaves the payload. */
  lemma {:induction false} ReadDataFrame(payload: string, rest: string)
    requires '\n' !in payload
    ensures CutFrame(DataFrame(payload) + rest) == Some(Cut(DataPrefix + payload, rest))
    ensures StripPrefix(DataPrefix + payload, DataPrefix) == Some(payload)
  {
    var frame := DataPrefix + payload;
    assert '\n' !in frame by {
      assert '\n' !in DataPrefix;
    }
    SingleLineIsClean(frame);
    assert DataFrame(payload) + rest == frame + "\n\n" + rest;
    CutFrameOf(frame, rest);
    assert (DataPrefix + payload)[..|DataPrefix|] == DataPrefix;
  }

  /** Two single-line payloads written as data frames split back into their
      two frames, with nothing left over. */
  lemma SplitTwoDataFrames(a: string, b: string)
    requires '\n' !in a && '\n' !in b
    ensures SplitFrames(DataFrame(a) + DataFrame(b)) == Framing([DataPrefix + a, DataPrefix + b], "")
  {
    ReadDataFrame(a, DataFrame(b));
    ReadDataFrame(b, "");
    SplitFramesStep(DataFrame(a) + DataFrame(b), Cut(DataPrefix + a, DataFrame(b)));
    assert DataFrame(b) + "" == DataFrame(b);
    SplitFramesStep(DataFrame(b), Cut(DataPrefix + b, ""));
    assert CutFrame("") == None;
  }

  /** Data frames written one after the other. */
  function DataFrames(payloads: seq<string>): string {
    if payloads == [] then [] else DataFrame(payloads[0]) + DataFrames(payloads[1..])
  }

  /** The "data: " lines of a sequence of payloads. */
  function DataLines(payloads: seq<string>): (r: seq<string>)
    ensures |r| == |payloads|
    ensures forall i :: 0 <= i < |r| ==> r[i] == DataPrefix + payloads[i]
  {
    if payloads == [] then [] else [DataPrefix + payloads[0]] + DataLines(payloads[1..])
  }

  /** Single-line payloads written as data frames split back into one frame
      per payload, in order, with nothing left over. */
  lemma {:induction false} SplitDataFrames(payloads: seq<string>)
    requires forall i :: 0 <= i < |payloads| ==> '\n' !in payloads[i]
    ensures SplitFrames(DataFrames(payloads)) == Framing(DataLines(payloads), "")
  {
    if payloads == [] {
      assert NoTerminator("");
    } else {
      var tail := DataFrames(payloads[1..]);
      ReadDataFrame(payloads[0], tail);
      assert DataFrames(payloads) == DataFrame(payloads[0]) + tail;
      SplitDataFrames(payloads[1..]);
    }
  }
}
