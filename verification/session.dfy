/** The streaming loop, as a state machine folded over the packets the demuxer
    yields. Each packet carries the time read at the top of the loop body and
    the outcomes of the calls made for it. The loop stops on the first packet
    read more than ten seconds after the start, on the tenth consecutive
    failed packet submission, or when reading ends. A successfully submitted
    video packet drains the decoder's frames through conversion and, when
    recording, the encoder. */
module Session {
  import opened CommandLine
  import opened Conversion

  /** Ten seconds, in microseconds. */
  const MaxDuration: int := 10 * 1000000
  /** The FPS window, one second in microseconds. */
  const FpsInterval: int := 1000000
  /** Consecutive submission failures that stop the loop. */
  const MaxErrors: int := 10

  /** One successful `avcodec_receive_frame`: whether the frame has data and
      a line size, where it may carry an MPP buffer, the conversion calls'
      outcomes and whether `avcodec_send_frame` accepts it. */
  datatype DecodedFrame = DecodedFrame(
    hasData: bool,
    sources: FrameSources,
    calls: ConversionCalls,
    encoderAccepts: bool)

  /** One successful `av_read_frame`. `frames` lists what successive
      `avcodec_receive_frame` calls return before the first one that yields
      no frame; calls the loop does not make leave later entries unread. */
  datatype Packet = Packet(
    time: int,
    isVideo: bool,
    decoderAccepts: bool,
    frames: seq<DecodedFrame>)

  /** The loop's integer state. `encodedPts` lists the timestamps of the
      frames the encoder accepted, in order. */
  datatype Counters = Counters(
    errorCount: int,
    frameCount: int,
    fpsFrameCount: int,
    lastFpsTime: int,
    conversionCount: int,
    encodedPts: seq<int>)

  /** `AsWritten` is the source's drain loop; `Corrected` keeps draining after
      a recorded frame, as the loop's condition evidently intends. */
  datatype DrainMode = AsWritten | Corrected

  datatype FrameStep = Continue(state: Counters) | Leave(state: Counters)

  datatype StopReason = InputEnded | DurationReached | TooManyErrors

  datatype StepResult = Next(state: Counters) | Halt(state: Counters, reason: StopReason)

  /** The final state, why the loop stopped, and how many packets got past
      the duration check. */
  datatype Outcome = Outcome(state: Counters, reason: StopReason, processed: nat)

  function Initial(start: int): Counters {
    Counters(0, 0, 0, start, 0, [])
  }

  predicate CountsFromZero(pts: seq<int>) {
    forall i :: 0 <= i < |pts| ==> pts[i] == i
  }

  /** The counters' invariant: the FPS window counts some of the frames, every
      counted frame was converted, and when recording the encoder accepted
      exactly the timestamps 0, 1, ..., frameCount - 1. */
  predicate Consistent(cfg: Config, s: Counters) {
    && 0 <= s.fpsFrameCount <= s.frameCount <= s.conversionCount
    && (if cfg.noRecord then s.encodedPts == []
        else |s.encodedPts| == s.frameCount && CountsFromZero(s.encodedPts))
  }

  predicate WithinBudget(s: Counters) {
    0 <= s.errorCount < MaxErrors
  }

  /** The frame is converted and, when recording, accepted by the encoder. */
  predicate FrameCompletes(cfg: Config, f: DecodedFrame) {
    && f.hasData
    && !Convert(cfg, f.sources, f.calls).CopyFailed?
    && (cfg.noRecord || f.encoderAccepts)
  }

  /** The frame reaches the conversion counter. */
  predicate FrameConverted(cfg: Config, f: DecodedFrame) {
    f.hasData && !Convert(cfg, f.sources, f.calls).CopyFailed?
  }

  /** One pass of the drain loop's body for a received frame. As written, a
      recorded frame always ends the drain loop: the encoder's packet loop
      only exits with a negative status, which the drain loop's condition
      then reads. The encoder is given the decoded frame, stamped with the
      frame count before its increment. */
  function ProcessFrame(cfg: Config, mode: DrainMode, s: Counters, f: DecodedFrame): (r: FrameStep)
    ensures Consistent(cfg, s) ==> Consistent(cfg, r.state)
    ensures r.state.errorCount == s.errorCount && r.state.lastFpsTime == s.lastFpsTime
    ensures r.state.frameCount == s.frameCount + (if FrameCompletes(cfg, f) then 1 else 0)
    ensures r.state.fpsFrameCount - s.fpsFrameCount == r.state.frameCount - s.frameCount
    ensures r.state.conversionCount == s.conversionCount + (if FrameConverted(cfg, f) then 1 else 0)
    ensures !cfg.noRecord && FrameCompletes(cfg, f) ==> r.state.encodedPts == s.encodedPts + [s.frameCount]
    ensures !(!cfg.noRecord && FrameCompletes(cfg, f)) ==> r.state.encodedPts == s.encodedPts
    ensures r.Continue? <==> FrameCompletes(cfg, f) && (cfg.noRecord || mode == Corrected)
  {
    if !f.hasData then Leave(s)
    else if Convert(cfg, f.sources, f.calls).CopyFailed? then Leave(s)
    else
      var converted := s.(conversionCount := s.conversionCount + 1);
      if cfg.noRecord then
        Continue(converted.(frameCount := s.frameCount + 1, fpsFrameCount := s.fpsFrameCount + 1))
      else if !f.encoderAccepts then
        Leave(converted)
      else
        var counted := converted.(
          encodedPts := s.encodedPts + [s.frameCount],
          frameCount := s.frameCount + 1,
          fpsFrameCount := s.fpsFrameCount + 1);
        match mode
        case AsWritten => Leave(counted)
        case Corrected => Continue(counted)
  }

  /** `n` frames complete and then the loop leaves: either the frames run out
      or the next one fails. */
  predicate IsCompletedPrefix(cfg: Config, frames: seq<DecodedFrame>, n: int) {
    && 0 <= n <= |frames|
    && (forall i :: 0 <= i < n ==> FrameCompletes(cfg, frames[i]))
    && (n == |frames| || !FrameCompletes(cfg, frames[n]))
  }

  /** The frame-drain loop for one accepted packet. */
  function Drain(cfg: Config, mode: DrainMode, s: Counters, frames: seq<DecodedFrame>): (r: Counters)
    decreases |frames|
    ensures Consistent(cfg, s) ==> Consistent(cfg, r)
    ensures r.errorCount == s.errorCount && r.lastFpsTime == s.lastFpsTime
    ensures r.fpsFrameCount - s.fpsFrameCount == r.frameCount - s.frameCount
    ensures s.frameCount <= r.frameCount && s.conversionCount <= r.conversionCount
    ensures cfg.noRecord || mode == Corrected ==> IsCompletedPrefix(cfg, frames, r.frameCount - s.frameCount)
    ensures !cfg.noRecord && mode == AsWritten ==>
      r.frameCount - s.frameCount == (if |frames| > 0 && FrameCompletes(cfg, frames[0]) then 1 else 0)
  {
    if |frames| == 0 then s
    else
      match ProcessFrame(cfg, mode, s, frames[0])
      case Leave(t) => t
      case Continue(t) =>
        var r := Drain(cfg, mode, t, frames[1..]);
        assert forall i :: 1 <= i < |frames| ==> frames[i] == frames[1..][i - 1];
        r
  }

  /** One pass of the packet loop's body. */
  function Step(cfg: Config, mode: DrainMode, start: int, s: Counters, p: Packet): (r: StepResult)
    ensures (r.Halt? && r.reason == DurationReached) <==> p.time - start > MaxDuration
    ensures p.time - start > MaxDuration ==> r.state == s
    ensures r.Halt? ==> r.reason != InputEnded
    ensures (r.Halt? && r.reason == TooManyErrors) <==>
      p.time - start <= MaxDuration && p.isVideo && !p.decoderAccepts && s.errorCount + 1 >= MaxErrors
    ensures p.time - start <= MaxDuration ==>
      r.state.errorCount == (if !p.isVideo then s.errorCount else if p.decoderAccepts then 0 else s.errorCount + 1)
    ensures p.time - start <= MaxDuration ==>
      r.state.lastFpsTime == (if p.time - s.lastFpsTime >= FpsInterval then p.time else s.lastFpsTime)
    ensures p.time - start <= MaxDuration ==>
      r.state.fpsFrameCount ==
        (if p.time - s.lastFpsTime >= FpsInterval then 0 else s.fpsFrameCount) + (r.state.frameCount - s.frameCount)
    ensures !(p.isVideo && p.decoderAccepts) ==>
      r.state.frameCount == s.frameCount && r.state.conversionCount == s.conversionCount
      && r.state.encodedPts == s.encodedPts
    ensures p.time - start <= MaxDuration && p.isVideo && p.decoderAccepts && (cfg.noRecord || mode == Corrected) ==>
      IsCompletedPrefix(cfg, p.frames, r.state.frameCount - s.frameCount)
    ensures p.time - start <= MaxDuration && p.isVideo && p.decoderAccepts && !cfg.noRecord && mode == AsWritten ==>
      r.state.frameCount - s.frameCount == (if |p.frames| > 0 && FrameCompletes(cfg, p.frames[0]) then 1 else 0)
    ensures s.frameCount <= r.state.frameCount
    ensures Consistent(cfg, s) ==> Consistent(cfg, r.state)
  {
    if p.time - start > MaxDuration then
      Halt(s, DurationReached)
    else
      var windowed :=
        if p.time - s.lastFpsTime >= FpsInterval then s.(fpsFrameCount := 0, lastFpsTime := p.time)
        else s;
      if !p.isVideo then
        Next(windowed)
      else if !p.decoderAccepts then
        var failed := windowed.(errorCount := s.errorCount + 1);
        if failed.errorCount >= MaxErrors then Halt(failed, TooManyErrors) else Next(failed)
      else
        Next(Drain(cfg, mode, windowed.(errorCount := 0), p.frames))
  }

  /** The packet loop from state `s` over the packets still to be read; the
      input ending is the loop condition failing. */
  function Run(cfg: Config, mode: DrainMode, start: int, s: Counters, packets: seq<Packet>): (o: Outcome)
    decreases |packets|
    ensures o.processed <= |packets|
    ensures forall i :: 0 <= i < o.processed ==> packets[i].time - start <= MaxDuration
    ensures o.reason == InputEnded ==> o.processed == |packets|
    ensures o.reason == DurationReached ==>
      o.processed < |packets| && packets[o.processed].time - start > MaxDuration
    ensures o.reason == TooManyErrors ==> o.processed > 0 && o.state.errorCount >= MaxErrors
    ensures WithinBudget(s) && o.reason == TooManyErrors ==> o.state.errorCount == MaxErrors
    ensures WithinBudget(s) && o.reason != TooManyErrors ==> WithinBudget(o.state)
    ensures s.frameCount <= o.state.frameCount
    ensures Consistent(cfg, s) ==> Consistent(cfg, o.state)
  {
    if |packets| == 0 then
      Outcome(s, InputEnded, 0)
    else
      match Step(cfg, mode, start, s, packets[0])
      case Halt(t, reason) =>
        if reason == DurationReached then Outcome(t, reason, 0) else Outcome(t, reason, 1)
      case Next(t) =>
        var o := Run(cfg, mode, start, t, packets[1..]);
        assert forall i :: 1 <= i < |packets| ==> packets[i] == packets[1..][i - 1];
        o.(processed := o.processed + 1)
  }

  /** The whole loop, from the counters' initial values at `start`. */
  function Stream(cfg: Config, mode: DrainMode, start: int, packets: seq<Packet>): (o: Outcome)
    ensures Consistent(cfg, o.state)
    ensures !cfg.noRecord ==> o.state.encodedPts == seq(o.state.frameCount, i => i)
    ensures o.reason == TooManyErrors <==> o.state.errorCount == MaxErrors
    ensures o.reason != TooManyErrors ==> 0 <= o.state.errorCount < MaxErrors
    ensures o.processed <= |packets|
    ensures forall i :: 0 <= i < o.processed ==> packets[i].time - start <= MaxDuration
    ensures o.reason == DurationReached ==>
      o.processed < |packets| && packets[o.processed].time - start > MaxDuration
    ensures (forall i :: 0 <= i < |packets| ==> packets[i].time - start <= MaxDuration) ==>
      o.reason != DurationReached
  {
    Run(cfg, mode, start, Initial(start), packets)
  }

  /** A failed video packet, read within the duration. */
  predicate FailedSubmission(start: int, p: Packet) {
    p.isVideo && !p.decoderAccepts && p.time - start <= MaxDuration
  }

  /** Consecutive failed submissions from an error count `e` below the budget
      stop the loop exactly at the failure that brings the count to ten. */
  lemma {:induction false} ConsecutiveFailures(cfg: Config, mode: DrainMode, start: int, s: Counters, packets: seq<Packet>)
    requires WithinBudget(s)
    requires forall i :: 0 <= i < |packets| ==> FailedSubmission(start, packets[i])
    ensures var o := Run(cfg, mode, start, s, packets);
      if s.errorCount + |packets| < MaxErrors then
        o.reason == InputEnded && o.state.errorCount == s.errorCount + |packets|
      else
        o.reason == TooManyErrors && o.processed == MaxErrors - s.errorCount
    decreases |packets|
  {
    if |packets| > 0 {
      var p := packets[0];
      assert FailedSubmission(start, p);
      if s.errorCount + 1 < MaxErrors {
        var t := Step(cfg, mode, start, s, p).state;
        assert Step(cfg, mode, start, s, p) == Next(t);
        assert forall i :: 0 <= i < |packets[1..]| ==> packets[1..][i] == packets[i + 1];
        ConsecutiveFailures(cfg, mode, start, t, packets[1..]);
      }
    }
  }

  /** Nine failed submissions in a row from the start never stop the loop. */
  lemma NineFailuresTolerated(cfg: Config, mode: DrainMode, start: int, packets: seq<Packet>)
    requires |packets| == MaxErrors - 1
    requires forall i :: 0 <= i < |packets| ==> FailedSubmission(start, packets[i])
    ensures Stream(cfg, mode, start, packets).reason == InputEnded
    ensures Stream(cfg, mode, start, packets).state.errorCount == MaxErrors - 1
  {
    ConsecutiveFailures(cfg, mode, start, Initial(start), packets);
  }

  /** The tenth failed submission in a row stops the loop, after exactly ten packets. */
  lemma TenthFailureStops(cfg: Config, mode: DrainMode, start: int, packets: seq<Packet>)
    requires |packets| >= MaxErrors
    requires forall i :: 0 <= i < |packets| ==> FailedSubmission(start, packets[i])
    ensures Stream(cfg, mode, start, packets).reason == TooManyErrors
    ensures Stream(cfg, mode, start, packets).processed == MaxErrors
  {
    ConsecutiveFailures(cfg, mode, start, Initial(start), packets);
  }

  /** Without recording the two drain loops agree. */
  lemma {:induction false} DrainModesAgreeWithoutRecording(cfg: Config, s: Counters, frames: seq<DecodedFrame>)
    requires cfg.noRecord
    ensures Drain(cfg, AsWritten, s, frames) == Drain(cfg, Corrected, s, frames)
    decreases |frames|
  {
    if |frames| > 0 {
      var f := frames[0];
      assert ProcessFrame(cfg, AsWritten, s, f) == ProcessFrame(cfg, Corrected, s, f);
      DrainModesAgreeWithoutRecording(cfg, ProcessFrame(cfg, AsWritten, s, f).state, frames[1..]);
    }
  }

  /** When recording, a packet that yields two good frames counts one of them
      as written, and both once corrected. */
  lemma RecordingDrainsOneFramePerPacket(cfg: Config, s: Counters, f: DecodedFrame)
    requires !cfg.noRecord && FrameCompletes(cfg, f)
    ensures Drain(cfg, AsWritten, s, [f, f]).frameCount == s.frameCount + 1
    ensures Drain(cfg, Corrected, s, [f, f]).frameCount == s.frameCount + 2
  {
  }
}
