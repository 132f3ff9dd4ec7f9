/** Decoder selection: try the Rockchip hardware decoder for H.264 and HEVC,
    then fall back to the software decoder when the hardware attempt left no
    decoder behind. Every library call is an input outcome, true for success. */
module DecoderSelection {
  import opened Wrappers

  datatype CodecId = H264 | Hevc | OtherCodec(id: int)

  /** Outcomes of the hardware path's calls, in the order they are made. */
  datatype HardwareProbe = HardwareProbe(
    found: bool,             // avcodec_find_decoder_by_name
    contextAllocated: bool,  // avcodec_alloc_context3
    parametersCopied: bool,  // avcodec_parameters_to_context
    decoderOpened: bool,     // avcodec_open2
    deviceCreated: bool,     // av_hwdevice_ctx_create on the DRM render node
    framesAllocated: bool,   // av_hwframe_ctx_alloc
    framesInitialized: bool) // av_hwframe_ctx_init

  /** Outcomes of the software path's calls; its parameter copy is unchecked. */
  datatype SoftwareProbe = SoftwareProbe(
    found: bool,             // avcodec_find_decoder
    contextAllocated: bool,  // avcodec_alloc_context3
    decoderOpened: bool)     // avcodec_open2

  /** The `decoder` pointer after the hardware block, when it is not null:
      whether `dec_ctx` exists and whether a frame pool was attached to it. */
  datatype HardwareDecoder = HardwareDecoder(name: string, hasContext: bool, framePool: bool)

  datatype DecoderKind = Hardware(name: string) | Software

  datatype SetupFailure = NoSoftwareDecoder | NoDecoderContext | DecoderOpenFailed

  datatype Selection =
    | Active(kind: DecoderKind, hasContext: bool, framePool: bool)
    | Fatal(reason: SetupFailure)

  const RockchipSuffix: string := "_rkmpp"

  predicate HasRockchipSuffix(name: string) {
    |name| >= |RockchipSuffix| && name[|name| - |RockchipSuffix|..] == RockchipSuffix
  }

  /** The hardware decoder to try for a codec. */
  function HardwareCandidate(codec: CodecId): (r: Option<string>)
    ensures r.Some? <==> codec == H264 || codec == Hevc
    ensures r.Some? ==> HasRockchipSuffix(r.value)
    ensures codec == H264 ==> r == Some("h264_rkmpp")
    ensures codec == Hevc ==> r == Some("hevc_rkmpp")
  {
    if codec == H264 then Some("h264_rkmpp")
    else if codec == Hevc then Some("hevc_rkmpp")
    else None
  }

  /** Reference statement of when `decoder` is still set after the hardware
      block: a candidate exists and was found, and either no context could be
      allocated or the parameter copy and the open both worked. The device and
      frame-pool calls play no part. */
  predicate HardwareRetained(codec: CodecId, hw: HardwareProbe) {
    && HardwareCandidate(codec).Some?
    && hw.found
    && (!hw.contextAllocated || (hw.parametersCopied && hw.decoderOpened))
  }

  /** The software path opens a decoder only when every one of its calls works. */
  predicate SoftwareUsable(sw: SoftwareProbe) {
    sw.found && sw.contextAllocated && sw.decoderOpened
  }

  /** The hardware block as the source nests it. */
  function TryHardware(codec: CodecId, hw: HardwareProbe): (r: Option<HardwareDecoder>)
    ensures r.Some? <==> HardwareRetained(codec, hw)
    ensures r.Some? ==> HardwareCandidate(codec) == Some(r.value.name)
    ensures r.Some? ==> (r.value.hasContext <==> hw.contextAllocated)
    ensures r.Some? ==> (r.value.framePool <==>
      hw.contextAllocated && hw.deviceCreated && hw.framesAllocated && hw.framesInitialized)
  {
    match HardwareCandidate(codec)
    case None => None
    case Some(name) =>
      if !hw.found then None
      else if !hw.contextAllocated then Some(HardwareDecoder(name, false, false))
      else if !hw.parametersCopied then None
      else if !hw.decoderOpened then None
      else
        var pool := hw.deviceCreated && hw.framesAllocated && hw.framesInitialized;
        Some(HardwareDecoder(name, true, pool))
  }

  /** The software block, entered when `decoder` is null. */
  function OpenSoftware(sw: SoftwareProbe): (r: Selection)
    ensures r.Active? <==> SoftwareUsable(sw)
    ensures r.Active? ==> r == Active(Software, true, false)
    ensures r.Fatal? && r.reason == NoSoftwareDecoder <==> !sw.found
  {
    if !sw.found then Fatal(NoSoftwareDecoder)
    else if !sw.contextAllocated then Fatal(NoDecoderContext)
    else if !sw.decoderOpened then Fatal(DecoderOpenFailed)
    else Active(Software, true, false)
  }

  /** Hardware first, software only when the hardware block left no decoder. */
  function Select(codec: CodecId, hw: HardwareProbe, sw: SoftwareProbe): (r: Selection)
    ensures (r.Active? && r.kind.Hardware?) <==> HardwareRetained(codec, hw)
    ensures (r.Active? && r.kind == Software) <==> !HardwareRetained(codec, hw) && SoftwareUsable(sw)
    ensures r.Fatal? <==> !HardwareRetained(codec, hw) && !SoftwareUsable(sw)
    ensures r.Active? && r.kind.Hardware? ==> HardwareCandidate(codec) == Some(r.kind.name)
    ensures (r.Active? && !r.hasContext) <==> HardwareRetained(codec, hw) && !hw.contextAllocated
    ensures r.Active? && r.framePool ==> r.kind.Hardware?
    ensures HardwareCandidate(codec).None? ==> r == OpenSoftware(sw)
  {
    match TryHardware(codec, hw)
    case Some(d) => Active(Hardware(d.name), d.hasContext, d.framePool)
    case None => OpenSoftware(sw)
  }

  /** A failed device or frame-pool setup does not cause a fallback: once the
      hardware decoder opens, it is the one selected, with or without a pool. */
  lemma PoolFailureKeepsHardware(codec: CodecId, hw: HardwareProbe, sw: SoftwareProbe)
    requires HardwareCandidate(codec).Some?
    requires hw.found && hw.contextAllocated && hw.parametersCopied && hw.decoderOpened
    ensures Select(codec, hw, sw).Active? && Select(codec, hw, sw).kind.Hardware?
    ensures Select(codec, hw, sw).hasContext
    ensures Select(codec, hw, sw).framePool <==> hw.deviceCreated && hw.framesAllocated && hw.framesInitialized
  {
  }

  /** A failed context allocation on the hardware path leaves the hardware
      decoder selected without a context, so the software path is skipped even
      when it would work; the next step reads the missing context's size. */
  lemma AllocFailureSkipsFallback(codec: CodecId, hw: HardwareProbe)
    requires codec == H264
    requires hw.found && !hw.contextAllocated
    ensures Select(codec, hw, SoftwareProbe(true, true, true)) == Active(Hardware("h264_rkmpp"), false, false)
  {
  }

  /** Selection as evidently intended: a failed hardware context allocation is
      treated like every other hardware failure and falls back to software. */
  function SelectCorrected(codec: CodecId, hw: HardwareProbe, sw: SoftwareProbe): (r: Selection)
    ensures r.Active? ==> r.hasContext
    ensures hw.contextAllocated ==> r == Select(codec, hw, sw)
    ensures !hw.contextAllocated ==> r == OpenSoftware(sw)
    ensures r.Fatal? <==> !SoftwareUsable(sw) && !(HardwareRetained(codec, hw) && hw.contextAllocated)
  {
    match TryHardware(codec, hw)
    case Some(d) =>
      if d.hasContext then Active(Hardware(d.name), true, d.framePool)
      else OpenSoftware(sw)
    case None => OpenSoftware(sw)
  }
}
