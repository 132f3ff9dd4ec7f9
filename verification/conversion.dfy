/** Conversion planning and per-frame dispatch. At setup the target pixel
    format and the output size are fixed and a scaler is built when one is
    needed; for each decoded frame one of four paths is taken: the scaler,
    the Rockchip MPP buffer, OpenCV's colour conversion or a plain frame copy.
    Library calls are input outcomes; pixel contents are not modelled. */
module Conversion {
  import opened Wrappers
  import opened CommandLine

  datatype PixelFormat = Yuv420p | Nv12 | Bgr24 | DrmPrime | OtherFormat(id: int)

  datatype Dimensions = Dimensions(width: int, height: int)

  /** The fixed size frames are scaled to when resizing is on. */
  const ResizeTarget: Dimensions := Dimensions(800, 600)

  /** BGR24 when `bgr` was asked for, else NV12 when `nv12` was, else the
      decoder's own format. */
  function TargetFormat(cfg: Config, decoderFormat: PixelFormat): (r: PixelFormat)
    ensures cfg.useBgr ==> r == Bgr24
    ensures cfg.useNv12 && !cfg.useBgr ==> r == Nv12
    ensures r != decoderFormat ==> cfg.useBgr || cfg.useNv12
  {
    if cfg.useBgr then Bgr24
    else if cfg.useNv12 then Nv12
    else decoderFormat
  }

  /** The target format follows the last `--color-format=` argument: `bgr`
      gives BGR24, `nv12` gives NV12, and `yuv` or no such argument keeps the
      decoder's format. */
  lemma TargetFormatFollowsColorOption(argv: seq<string>, decoderFormat: PixelFormat)
    requires Parse(argv).Success?
    ensures var t := TargetFormat(Parse(argv).value, decoderFormat);
      match LastColor(argv[2..])
      case Some("bgr") => t == Bgr24
      case Some("nv12") => t == Nv12
      case _ => t == decoderFormat
  {
    ParseMatchesReference(argv);
  }

  /** Outcomes of the setup calls: `sws_getContext`, `av_frame_get_buffer` and
      `av_frame_make_writable`. */
  datatype SetupCalls = SetupCalls(scalerCreated: bool, frameBufferAllocated: bool, frameWritable: bool)

  datatype Plan = Plan(target: PixelFormat, size: Dimensions, resize: bool, hasScaler: bool)

  /** Each ends the process with exit code -1. */
  datatype PlanError = ScalerUnavailable | FrameBufferUnavailable | FrameNotWritable

  /** A scaler is built when resizing, or without resizing when the target
      format differs from the decoder's. */
  predicate ScalerNeeded(cfg: Config, decoderFormat: PixelFormat) {
    !cfg.noResize || TargetFormat(cfg, decoderFormat) != decoderFormat
  }

  /** The setup of the conversion stage, in the source's call order. */
  function PlanConversion(cfg: Config, decoderFormat: PixelFormat, decoderSize: Dimensions, calls: SetupCalls)
    : (r: Result<Plan, PlanError>)
    ensures r.Failure? <==>
      (ScalerNeeded(cfg, decoderFormat) && !calls.scalerCreated)
      || (cfg.noResize && !(calls.frameBufferAllocated && calls.frameWritable))
    ensures r.Success? ==> r.value.target == TargetFormat(cfg, decoderFormat)
    ensures r.Success? ==> r.value.resize == !cfg.noResize
    ensures r.Success? ==> r.value.size == (if cfg.noResize then decoderSize else ResizeTarget)
    ensures r.Success? ==> (r.value.hasScaler <==> ScalerNeeded(cfg, decoderFormat))
  {
    var target := TargetFormat(cfg, decoderFormat);
    if !cfg.noResize then
      if !calls.scalerCreated then Failure(ScalerUnavailable)
      else Success(Plan(target, ResizeTarget, true, true))
    else if !calls.frameBufferAllocated then Failure(FrameBufferUnavailable)
    else if !calls.frameWritable then Failure(FrameNotWritable)
    else if target != decoderFormat then
      if !calls.scalerCreated then Failure(ScalerUnavailable)
      else Success(Plan(target, decoderSize, false, true))
    else
      Success(Plan(target, decoderSize, false, false))
  }

  /** A non-null pointer an MPP buffer may be found at. */
  type Handle = nat

  /** `AVHWFramesContext`, reduced to its `hwctx` pointer. */
  datatype FramesContext = FramesContext(hwctx: Option<Handle>)

  /** `frame->hw_frames_ctx`, an `AVBufferRef` whose `data` is the context. */
  datatype FramesRef = FramesRef(data: Option<FramesContext>)

  /** The three places of a decoded frame that may carry an MPP buffer. */
  datatype FrameSources = FrameSources(
    hwFrames: Option<FramesRef>,
    data3: Option<Handle>,
    userOpaque: Option<Handle>)

  /** The `hwctx` reached through `hw_frames_ctx`, when every pointer on the way is set. */
  function HwctxOf(frame: FrameSources): Option<Handle> {
    match frame.hwFrames
    case None => None
    case Some(ref) =>
      match ref.data
      case None => None
      case Some(ctx) => ctx.hwctx
  }

  /** The first candidate that is present. */
  function FirstPresent(candidates: seq<Option<Handle>>): (r: Option<Handle>)
    ensures r.None? <==> forall i :: 0 <= i < |candidates| ==> candidates[i].None?
    ensures r.Some? ==>
      exists i :: 0 <= i < |candidates| && candidates[i] == r && (forall j :: 0 <= j < i ==> candidates[j].None?)
    decreases |candidates|
  {
    if |candidates| == 0 then None
    else if candidates[0].Some? then candidates[0]
    else
      var rest := FirstPresent(candidates[1..]);
      assert forall i :: 1 <= i < |candidates| ==> candidates[i] == candidates[1..][i - 1];
      rest
  }

  /** The MPP buffer lookup as the source writes it: `hwctx`, then `data[3]`,
      then `opaque` (here `userOpaque`), each tried only while nothing has been found. */
  function FindMppBuffer(frame: FrameSources): (r: Option<Handle>)
    ensures r == FirstPresent([HwctxOf(frame), frame.data3, frame.userOpaque])
    ensures r.None? <==> HwctxOf(frame).None? && frame.data3.None? && frame.userOpaque.None?
    ensures HwctxOf(frame).Some? ==> r == HwctxOf(frame)
  {
    var fromFrames := HwctxOf(frame);
    var afterData3 := if fromFrames.None? && frame.data3.Some? then frame.data3 else fromFrames;
    var found := if afterData3.None? && frame.userOpaque.Some? then frame.userOpaque else afterData3;
    var candidates := [fromFrames, frame.data3, frame.userOpaque];
    assert candidates[1..] == [frame.data3, frame.userOpaque];
    assert candidates[1..][1..] == [frame.userOpaque];
    assert candidates[1..][1..][1..] == [];
    assert FirstPresent(candidates[1..][1..]) == frame.userOpaque;
    assert FirstPresent(candidates[1..]) == (if frame.data3.Some? then frame.data3 else frame.userOpaque);
    found
  }

  datatype FramePath = Scale | MppConvert(buffer: Handle) | OpenCvConvert | PlainCopy

  /** The path a decoded frame takes. */
  function ChoosePath(cfg: Config, frame: FrameSources): (r: FramePath)
    ensures r == Scale <==> !cfg.noResize
    ensures r == PlainCopy <==> cfg.noResize && !cfg.useBgr
    ensures r.MppConvert? <==> cfg.noResize && cfg.useBgr && cfg.useMpp && FindMppBuffer(frame).Some?
    ensures r.MppConvert? ==> FindMppBuffer(frame) == Some(r.buffer)
    ensures r == OpenCvConvert <==> cfg.noResize && cfg.useBgr && (!cfg.useMpp || FindMppBuffer(frame).None?)
  {
    if !cfg.noResize then Scale
    else if cfg.useBgr then
      if cfg.useMpp then
        match FindMppBuffer(frame)
        case Some(b) => MppConvert(b)
        case None => OpenCvConvert
      else OpenCvConvert
    else PlainCopy
  }

  /** Without resizing the scaler is never used, even when setup built one
      because the target format differs from the decoder's (NV12 from a YUV
      decoder, say): a frame that is not converted to BGR is copied as is. */
  lemma ScalerUnusedWithoutResize(cfg: Config, decoderFormat: PixelFormat, decoderSize: Dimensions,
                                  calls: SetupCalls, frame: FrameSources)
    requires cfg.noResize
    requires PlanConversion(cfg, decoderFormat, decoderSize, calls).Success?
    ensures ChoosePath(cfg, frame) != Scale
    ensures !cfg.useBgr ==> ChoosePath(cfg, frame) == PlainCopy
    ensures !cfg.useBgr && cfg.useNv12 && decoderFormat != Nv12 ==>
      PlanConversion(cfg, decoderFormat, decoderSize, calls).value.hasScaler && ChoosePath(cfg, frame) == PlainCopy
  {
  }

  /** Outcomes of the per-frame calls: `mpp_buffer_get`, the second
      `mpp_frame_init`, and `av_frame_copy`. */
  datatype ConversionCalls = ConversionCalls(mppBufferObtained: bool, mppFrameInitOk: bool, copyOk: bool)

  /** `Written`: the output frame was filled; `Unwritten`: the MPP path could
      not get a buffer or initialise its frame and silently left the output
      frame as it was; `CopyFailed`: the copy failed and the drain loop ends. */
  datatype FrameConversion = Written(path: FramePath) | Unwritten(path: FramePath) | CopyFailed

  function Convert(cfg: Config, frame: FrameSources, calls: ConversionCalls): (r: FrameConversion)
    ensures r.CopyFailed? <==> cfg.noResize && !cfg.useBgr && !calls.copyOk
    ensures !r.CopyFailed? ==> r.path == ChoosePath(cfg, frame)
    ensures r.Unwritten? <==>
      ChoosePath(cfg, frame).MppConvert? && !(calls.mppBufferObtained && calls.mppFrameInitOk)
  {
    match ChoosePath(cfg, frame)
    case PlainCopy => if calls.copyOk then Written(PlainCopy) else CopyFailed
    case MppConvert(b) =>
      if calls.mppBufferObtained && calls.mppFrameInitOk then Written(MppConvert(b))
      else Unwritten(MppConvert(b))
    case path => Written(path)
  }
}
