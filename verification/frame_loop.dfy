/** The buffer loop shared by both stream translators
    (`process_sse_buffer` and `process_gemini_buffer`): cut the first complete
    frame off the buffer, hand it to the frame handler (which may update the
    translator's state and may produce an output frame), and stop at the first
    frame that produces output. The handler is a parameter; `Drain` is the
    functional specification the two loop methods are proved against. */
module FrameLoop {
  import opened Wrappers
  import opened Text
  import opened SseFrames

  /** What handling one frame gives: maybe an output, and the new state. */
  datatype Emit<S> = Emit(output: Option<string>, state: S)

  /** What one call of the buffer loop leaves: its output (at most one), the
      rest of the buffer and the new state. */
  datatype Drained<S> = Drained(output: Option<string>, buffer: string, state: S)

  function Drain<S>(buffer: string, state: S, handle: (string, S) -> Emit<S>): (d: Drained<S>)
    ensures EndsWith(buffer, d.buffer)
    ensures d.output.None? ==> NoTerminator(d.buffer)
    ensures NoTerminator(buffer) ==> d == Drained(None, buffer, state)
    decreases |buffer|
  {
    match CutFrame(buffer)
    case None => Drained(None, buffer, state)
    case Some(cut) =>
      var e := handle(cut.frame, state);
      if e.output.Some? then
        assert EndsWith(buffer, cut.rest) by {
          assert buffer == (cut.frame + "\n\n") + cut.rest;
        }
        Drained(e.output, cut.rest, e.state)
      else
        var d := Drain(cut.rest, e.state, handle);
        assert EndsWith(buffer, d.buffer) by {
          assert buffer == (cut.frame + "\n\n") + cut.rest;
          assert cut.rest[|cut.rest| - |d.buffer|..] == d.buffer;
          assert buffer[|buffer| - |d.buffer|..] == cut.rest[|cut.rest| - |d.buffer|..];
        }
        d
  }

  /** The loop only ever removes whole frames: the frames still buffered are
      the last ones of the frames that were buffered, and the unterminated
      tail is the same. When nothing is output, every complete frame has been
      consumed. */
  lemma {:induction false} DrainRemovesWholeFrames<S>(buffer: string, state: S, handle: (string, S) -> Emit<S>)
    ensures Dropped(SplitFrames(buffer), SplitFrames(Drain(buffer, state, handle).buffer))
    ensures Drain(buffer, state, handle).output.None? ==> Drain(buffer, state, handle).buffer == SplitFrames(buffer).rest
    ensures Drain(buffer, state, handle).output.Some? ==>
              |SplitFrames(Drain(buffer, state, handle).buffer).frames| < |SplitFrames(buffer).frames|
    decreases |buffer|
  {
    match CutFrame(buffer)
    case None =>
      assert Drain(buffer, state, handle) == Drained(None, buffer, state);
    case Some(cut) =>
      var e := handle(cut.frame, state);
      var before, tail := SplitFrames(buffer), SplitFrames(cut.rest);
      SplitFramesStep(buffer, cut);
      if e.output.Some? {
        assert Drain(buffer, state, handle) == Drained(e.output, cut.rest, e.state);
        DroppedOne(before, tail, cut.frame);
      } else {
        var d := Drain(cut.rest, e.state, handle);
        assert Drain(buffer, state, handle) == d;
        DrainRemovesWholeFrames(cut.rest, e.state, handle);
        DroppedMore(before, tail, SplitFrames(d.buffer), cut.frame);
      }
  }

  /** The state after handling `frames` in order, starting from `state`. */
  function StateAfter<S>(frames: seq<string>, state: S, handle: (string, S) -> Emit<S>): S
    decreases |frames|
  {
    if frames == [] then state else StateAfter(frames[1..], handle(frames[0], state).state, handle)
  }

  /** No frame of `frames`, handled in order from `state`, produces output. */
  predicate Silent<S>(frames: seq<string>, state: S, handle: (string, S) -> Emit<S>)
    decreases |frames|
  {
    frames == [] || (handle(frames[0], state).output.None? && Silent(frames[1..], handle(frames[0], state).state, handle))
  }

  /** The loop handles the buffered frames in order. Without output, every
      frame was handled silently and the state is the one reached over all of
      them. With output, the `k` frames removed were handled in order, the
      first `k - 1` silently, and the output and the new state are what the
      last removed frame gave. */
  lemma DrainHandlesFramesInOrder<S>(buffer: string, state: S, handle: (string, S) -> Emit<S>)
    ensures var d, fs := Drain(buffer, state, handle), SplitFrames(buffer).frames;
            var k := |fs| - |SplitFrames(d.buffer).frames|;
            && (d.output.None? ==> Silent(fs, state, handle) && d.state == StateAfter(fs, state, handle))
            && (d.output.Some? ==>
                  1 <= k <= |fs| && Silent(fs[..k - 1], state, handle)
                  && handle(fs[k - 1], StateAfter(fs[..k - 1], state, handle)) == Emit(d.output, d.state))
  {
    if Drain(buffer, state, handle).output.None? {
      DrainSilentHandlesAll(buffer, state, handle);
    } else {
      DrainOutputFromLastRemoved(buffer, state, handle);
    }
  }

  lemma {:induction false} DrainSilentHandlesAll<S>(buffer: string, state: S, handle: (string, S) -> Emit<S>)
    requires Drain(buffer, state, handle).output.None?
    ensures var fs := SplitFrames(buffer).frames;
            Silent(fs, state, handle) && Drain(buffer, state, handle).state == StateAfter(fs, state, handle)
    decreases |buffer|
  {
    match CutFrame(buffer)
    case None =>
      assert SplitFrames(buffer).frames == [];
    case Some(cut) =>
      var e := handle(cut.frame, state);
      DrainStep(buffer, state, handle, cut);
      SplitFramesStep(buffer, cut);
      DrainSilentHandlesAll(cut.rest, e.state, handle);
      SilentCons(cut.frame, SplitFrames(cut.rest).frames, state, handle);
  }

  /** Of the frames `fs`, all but the last `left` were handled in order from
      `state`: all silently but the last of them, which gave `output` and
      `next`. */
  ghost predicate EmittedBy<S>(fs: seq<string>, left: int, state: S, handle: (string, S) -> Emit<S>, output: Option<string>, next: S) {
    var k := |fs| - left;
    1 <= k <= |fs| && Silent(fs[..k - 1], state, handle)
    && handle(fs[k - 1], StateAfter(fs[..k - 1], state, handle)) == Emit(output, next)
  }

  lemma {:induction false} DrainOutputFromLastRemoved<S>(buffer: string, state: S, handle: (string, S) -> Emit<S>)
    requires Drain(buffer, state, handle).output.Some?
    ensures var d := Drain(buffer, state, handle);
            EmittedBy(SplitFrames(buffer).frames, |SplitFrames(d.buffer).frames|, state, handle, d.output, d.state)
    decreases |buffer|
  {
    match CutFrame(buffer)
    case None =>
    case Some(cut) =>
      var e := handle(cut.frame, state);
      var tail := SplitFrames(cut.rest).frames;
      DrainStep(buffer, state, handle, cut);
      SplitFramesStep(buffer, cut);
      if e.output.Some? {
        FirstFrameEmits(cut.frame, tail, state, handle);
      } else {
        var d := Drain(cut.rest, e.state, handle);
        DrainOutputFromLastRemoved(cut.rest, e.state, handle);
        OutputAfterSilentFrame(cut.frame, tail, state, handle, |SplitFrames(d.buffer).frames|, d.output, d.state);
      }
  }

  lemma FirstFrameEmits<S>(f: string, tail: seq<string>, state: S, handle: (string, S) -> Emit<S>)
    ensures EmittedBy([f] + tail, |tail|, state, handle, handle(f, state).output, handle(f, state).state)
  {
    assert ([f] + tail)[..0] == [];
  }

  /** A silent frame in front of the frames that led to an output adds
      itself to the silent ones. */
  lemma OutputAfterSilentFrame<S>(f: string, tail: seq<string>, state: S, handle: (string, S) -> Emit<S>,
                                  left: int, output: Option<string>, next: S)
    requires handle(f, state).output.None?
    requires EmittedBy(tail, left, handle(f, state).state, handle, output, next)
    ensures EmittedBy([f] + tail, left, state, handle, output, next)
  {
    var k := |tail| - left;
    ConsPrefix(f, tail, k - 1);
    SilentCons(f, tail[..k - 1], state, handle);
  }

  /** One turn of the loop, on the first complete frame. */
  lemma DrainStep<S>(buffer: string, state: S, handle: (string, S) -> Emit<S>, cut: Cut)
    requires CutFrame(buffer) == Some(cut)
    ensures handle(cut.frame, state).output.Some? ==>
              Drain(buffer, state, handle) == Drained(handle(cut.frame, state).output, cut.rest, handle(cut.frame, state).state)
    ensures handle(cut.frame, state).output.None? ==>
              Drain(buffer, state, handle) == Drain(cut.rest, handle(cut.frame, state).state, handle)
  {
  }

  lemma SilentCons<S>(f: string, fs: seq<string>, state: S, handle: (string, S) -> Emit<S>)
    requires handle(f, state).output.None?
    ensures Silent([f] + fs, state, handle) == Silent(fs, handle(f, state).state, handle)
    ensures StateAfter([f] + fs, state, handle) == StateAfter(fs, handle(f, state).state, handle)
  {
    assert ([f] + fs)[1..] == fs;
  }

  lemma ConsPrefix(f: string, fs: seq<string>, j: int)
    requires 0 <= j < |fs|
    ensures ([f] + fs)[..j + 1] == [f] + fs[..j] && ([f] + fs)[j + 1] == fs[j]
  {
  }

  /** `after` is what is left of `before` once some frames are taken off the front. */
  predicate Dropped(before: Framing, after: Framing) {
    |after.frames| <= |before.frames|
    && after.frames == before.frames[|before.frames| - |after.frames|..]
    && after.rest == before.rest
  }

  lemma DroppedOne(before: Framing, tail: Framing, f: string)
    requires before == Framing([f] + tail.frames, tail.rest)
    ensures Dropped(before, tail) && |tail.frames| < |before.frames|
  {
    assert before.frames[1..] == tail.frames;
  }

  lemma DroppedMore(before: Framing, tail: Framing, after: Framing, f: string)
    requires before == Framing([f] + tail.frames, tail.rest)
    requires Dropped(tail, after)
    ensures Dropped(before, after) && |after.frames| <= |tail.frames| < |before.frames|
  {
    assert before.frames[|before.frames| - |after.frames|..] == tail.frames[|tail.frames| - |after.frames|..];
  }

  /** Delivery boundaries do not matter while nothing is output: if the
      buffer so far yields nothing, draining it and then the next delivery
      gives what draining everything at once gives. */
  lemma {:induction false} DrainAppend<S>(x: string, y: string, state: S, handle: (string, S) -> Emit<S>)
    requires Drain(x, state, handle).output.None?
    ensures var d := Drain(x, state, handle);
            Drain(x + y, state, handle) == Drain(d.buffer + y, d.state, handle)
    decreases |x|
  {
    match CutFrame(x)
    case None =>
    case Some(cut) =>
      assert x + y == cut.frame + "\n\n" + (cut.rest + y);
      CutFrameOf(cut.frame, cut.rest + y);
      var e := handle(cut.frame, state);
      DrainAppend(cut.rest, y, e.state, handle);
  }

  /** When a frame does produce output, the frames after it stay in the
      buffer until the next call, even when they are complete. */
  lemma {:induction false} OutputLeavesLaterFrames<S>(frame: string, rest: string, state: S, handle: (string, S) -> Emit<S>)
    requires CleanFrame(frame)
    requires handle(frame, state).output.Some?
    ensures Drain(frame + "\n\n" + rest, state, handle) ==
            Drained(handle(frame, state).output, rest, handle(frame, state).state)
  {
    CutFrameOf(frame, rest);
  }

  /** Frames that produce nothing are consumed and only change the state. */
  lemma {:induction false} SilentFrameIsSkipped<S>(frame: string, rest: string, state: S, handle: (string, S) -> Emit<S>)
    requires CleanFrame(frame)
    requires handle(frame, state).output.None?
    ensures Drain(frame + "\n\n" + rest, state, handle) == Drain(rest, handle(frame, state).state, handle)
  {
    CutFrameOf(frame, rest);
  }

  /** Whatever the loop outputs is what the handler made of one frame. */
  lemma {:induction false} DrainOutputIsHandled<S>(buffer: string, state: S, handle: (string, S) -> Emit<S>)
    ensures Drain(buffer, state, handle).output.Some? ==>
              exists frame: string, s: S :: handle(frame, s).output == Drain(buffer, state, handle).output
    decreases |buffer|
  {
    match CutFrame(buffer)
    case None =>
    case Some(cut) =>
      var e := handle(cut.frame, state);
      if e.output.None? {
        DrainOutputIsHandled(cut.rest, e.state, handle);
      }
  }
}
