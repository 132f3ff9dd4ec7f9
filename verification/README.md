# rtsp_player decision logic in Dafny

`rtsp_player` reads an RTSP stream and stops at the first packet read more
than ten seconds after the start. It decodes the stream (with the Rockchip
MPP hardware decoder when it can, in software otherwise), optionally
converts each frame's pixel format and size, and optionally re-encodes the
decoded frames into a container file (`output.mp4` by default; the file
name picks the container). Almost all of `main` is calls
into FFmpeg, OpenCV and MPP. This project models the decision logic between
those calls. Each library call becomes an input that says whether it
succeeded. The model is pure functions over records.

- `wrappers.dfy`, module `Wrappers`: `Option` stands for a nullable pointer.
  `Result` stands for a step that can end the process with exit code -1.
- `command_line.dfy`, module `CommandLine`: the argument loop, folded over
  `argv[2..]` into a `Config`. It comes with reference definitions of each
  setting: "the flag occurs", "the last `--color-format=`", "the last
  non-option argument".
- `decoder_selection.dfy`, module `DecoderSelection`: the hardware candidate
  for a codec, the nested hardware attempt, and the software fallback.
- `conversion.dfy`, module `Conversion`: the target pixel format, the
  conversion setup (scaler, output size), the MPP buffer lookup order and the
  per-frame choice between scaler, MPP, OpenCV and plain copy.
- `session.dfy`, module `Session`: the packet loop as a state machine over a
  sequence of packets. The state holds the error, frame, FPS-window and
  conversion counters, plus the timestamps the encoder accepted. The loop
  stops on the duration ceiling, on the error budget, or when reading ends.

Behaviours of `rtsp_player.cpp` worth knowing:
- The encoder is sent the decoded frame, not the converted one
  (`rtsp_player.cpp:655`). The conversion output is never used downstream.
- A failed frame copy (`rtsp_player.cpp:638`) and a refused encoder
  submission (`rtsp_player.cpp:658`) end only the frame-drain loop. The
  packet loop goes on.
- The hardware decoder is not abandoned "on any failure". A failed device
  or frame-pool setup keeps it, and so does a failed context allocation
  (see Findings).
- Without resizing, NV12 output uses the plain copy even though setup built
  a scaler for the format change.

## Model

| member | source | states |
|---|---|---|
| `CommandLine.ApplyArgument` | rtsp_player.cpp:73-103 | One argument fails only when it is a `--color-format=` whose value is not `yuv`, `nv12` or `bgr`, and the error carries that value. An unrecognised dash-option leaves the settings unchanged. BGR and NV12 are never both set afterwards if they were not before. |
| `CommandLine.ParseArguments` | rtsp_player.cpp:72-104 | Folding the arguments in order keeps the URL. The only error it can produce is an invalid colour format. It never ends with both BGR and NV12 selected. |
| `CommandLine.Parse` | rtsp_player.cpp:58-104 | Fewer than two argv entries is exactly the usage error. On success the URL is `argv[1]` and BGR and NV12 are never both selected. |
| `CommandLine.ParseArgumentsSucceedsIff` | rtsp_player.cpp:82-100 | The loop succeeds exactly when every `--color-format=` argument names a valid format. |
| `CommandLine.ParseArgumentsFlags` | rtsp_player.cpp:75-81 | `no_record`, `no_resize` and `use_mpp` are set exactly when their flag occurs at least once. No later argument clears them. |
| `CommandLine.ParseArgumentsColor` | rtsp_player.cpp:85-96 | The colour flags are the ones the last `--color-format=` names, so a later occurrence overrides an earlier one. Without any occurrence they keep their defaults. |
| `CommandLine.ParseArgumentsOutput` | rtsp_player.cpp:101-103 | The output file is the last argument whose first character is not `-`, including the empty argument. Without one it keeps the default. |
| `CommandLine.ParseMatchesReference` | rtsp_player.cpp:58-104 | Whole-command summary. Parsing succeeds iff there are at least two argv entries and all colour values are valid. Each flag is set iff present. BGR iff the last colour is `bgr`, NV12 iff it is `nv12`. The output file is the last non-option argument, or `output.mp4`. |
| `CommandLine.ColorFormatAcceptedIff` | rtsp_player.cpp:82-100 | `--color-format=v` is accepted iff `v` is `yuv`, `nv12` or `bgr`. Otherwise parsing fails with that value. |
| `CommandLine.IgnoredOptionChangesNothing` | rtsp_player.cpp:75-103 | Inserting an unrecognised dash-option anywhere in the argument list leaves the parse result unchanged. |
| `DecoderSelection.HardwareCandidate` | rtsp_player.cpp:165-171 | Only H.264 (`h264_rkmpp`) and HEVC (`hevc_rkmpp`) get a hardware candidate. Every candidate name ends in `_rkmpp`, so the rkmpp-only options at line 198 always apply on this path. |
| `DecoderSelection.TryHardware` | rtsp_player.cpp:173-258 | The hardware decoder survives exactly when it was found and either its context allocation failed or both parameter copy and open worked. It has a context iff the allocation worked. It has a frame pool iff the device, frames-allocation and frames-init calls all worked. |
| `DecoderSelection.OpenSoftware` | rtsp_player.cpp:260-296 | The software decoder is active exactly when find, context allocation and open all work. A missing software decoder is its own fatal reason. |
| `DecoderSelection.Select` | rtsp_player.cpp:165-296 | The result is hardware iff the hardware attempt kept the decoder. It is software iff it did not and the software path works. Otherwise it is fatal, never both and never neither. A missing context happens only on the hardware path after a failed allocation. Codecs without a candidate go straight to the software path. |
| `DecoderSelection.PoolFailureKeepsHardware` | rtsp_player.cpp:209-244 | Once the hardware decoder opens, a device or frame-pool failure only removes the pool. The hardware decoder stays selected. |
| `DecoderSelection.AllocFailureSkipsFallback` | rtsp_player.cpp:180-261 | A failed hardware context allocation selects the hardware decoder with no context, even when software would work. |
| `DecoderSelection.SelectCorrected` | rtsp_player.cpp:173-261 | Corrected selection: every active decoder has a context. It agrees with `Select` whenever the hardware context was allocated. |
| `Conversion.TargetFormat` | rtsp_player.cpp:421-428 | BGR wins over NV12, and a format other than the decoder's is chosen only when one of them was asked for. |
| `Conversion.TargetFormatFollowsColorOption` | rtsp_player.cpp:421-428 | For a parsed command line the target is BGR24 when the last colour option is `bgr` and NV12 when it is `nv12`. Otherwise it is the decoder's own format. |
| `Conversion.PlanConversion` | rtsp_player.cpp:430-484 | Setup fails iff a needed scaler cannot be built, or (without resize) the frame buffer cannot be allocated or made writable. On success the size is 800x600 when resizing and the decoder's size otherwise. A scaler exists iff resizing or the target format differs. |
| `Conversion.FindMppBuffer` | rtsp_player.cpp:566-585 | The MPP buffer is the first present of `hw_frames_ctx->hwctx`, `data[3]` and `opaque`. None is found only when all three are absent, and a present `hwctx` always wins. |
| `Conversion.ChoosePath` | rtsp_player.cpp:557-641 | Resizing always uses the scaler. Without resize: BGR with MPP and a buffer uses MPP; other BGR uses OpenCV; everything else uses the plain copy. |
| `Conversion.ScalerUnusedWithoutResize` | rtsp_player.cpp:472-640 | Without resizing the scaler is never chosen. NV12 from a non-NV12 decoder builds a scaler and still takes the plain copy. |
| `Conversion.Convert` | rtsp_player.cpp:557-641 | The only per-frame failure the loop handles is the plain copy, and it fails exactly when the copy call does. When the MPP buffer or frame setup fails, the output is silently left unwritten. Every non-failing conversion follows `ChoosePath`. |
| `Session.ProcessFrame` | rtsp_player.cpp:548-697 | A frame is counted iff it has data, its conversion does not fail, and (when recording) the encoder accepts it. The conversion counter also counts frames the encoder refuses. The accepted frame's timestamp is the frame count before the increment. The counter invariant is kept. As written, a recorded frame always ends the drain loop. |
| `Session.Drain` | rtsp_player.cpp:539-697 | Without recording (or corrected), the frames counted are exactly the longest prefix of frames that complete. As written with recording, at most one frame is counted per packet. The FPS window grows by the frames counted. |
| `Session.Step` | rtsp_player.cpp:510-537 | A packet read more than 10,000,000 µs after the start stops the loop before anything changes. For an accepted video packet, the frames counted are the completed prefix of its frames (without recording, or corrected), or at most its first frame (as written, with recording). The error count changes only on video packets: +1 on a submission failure, 0 on success. The loop stops iff the count reaches 10. The FPS window resets when a full second has passed. |
| `Session.Run` | rtsp_player.cpp:510-715 | Every packet that got past the duration check was read within the ceiling. A duration stop names the first late packet. Reading to the end consumes every packet. The error budget stays below 10 unless it stopped the loop, and then it is exactly 10. |
| `Session.Stream` | rtsp_player.cpp:497-715 | From the initial counters the final state is consistent: when recording, the encoder accepted exactly the timestamps 0..frameCount-1 in order. An error-budget stop is exactly an error count of 10. No duration stop happens when all packets are read in time. |
| `Session.ConsecutiveFailures` | rtsp_player.cpp:526-537 | From an error count e below 10, consecutive failed submissions keep the loop running while fewer than 10-e. The (10-e)-th stops it. |
| `Session.NineFailuresTolerated` | rtsp_player.cpp:526-537 | Nine consecutive failed submissions from the start do not stop the loop. |
| `Session.TenthFailureStops` | rtsp_player.cpp:526-537 | The tenth consecutive failed submission stops the loop after exactly ten packets. |
| `Session.DrainModesAgreeWithoutRecording` | rtsp_player.cpp:539-697 | Without recording, the as-written and corrected drain loops are identical. |
| `Session.RecordingDrainsOneFramePerPacket` | rtsp_player.cpp:650-697 | With recording, a packet yielding two good frames counts one as written and two when corrected. |

## Left out

- Opening the RTSP input with its option dictionary, stream discovery and the
  network initialisation (rtsp_player.cpp:119-163): network I/O whose
  behaviour is not visible. The codec id is an input.
- Encoder and muxer setup (rtsp_player.cpp:302-401), frame and packet
  allocation (404-409, 491-495), header and trailer writes, and the encoder
  flush (717-751). These are library calls that end the process or drain
  library state. The model keeps only whether `avcodec_send_frame` accepted
  each frame.
- Encoder packet draining and timestamp rescaling with `av_rescale_q_rnd`
  (661-693): this is FFmpeg arithmetic and muxing. Write failures there change
  no loop state.
- CPU sampling (24-55, 699-711), FPS and conversion-time floating-point
  values, and the final summary (753-767): floating-point telemetry and
  `/proc/stat` reads. The FPS window is modelled only through its integer
  counters `fps_frame_count` and `last_fps_time`.
- Pixel data: no pixel values are modelled. Scaling, MPP conversion and
  `av_frame_copy` appear only as the path taken and the outcome of their
  checked calls; `cvtColor` appears only as the path taken (see
  `Conversion.Convert` below). Whether the second `mpp_frame_init` at line
  608 actually converts anything is not visible.
- Resource cleanup (769-785) and the leaks on early `return -1` paths:
  these are lifetime plumbing.
- Console logging, thread counts and option dictionaries: configuration
  strings passed straight to the libraries.
- Integer widths: `frame_count` and the other counters are C `int`, and
  times are `int64_t` microseconds. The model uses unbounded integers and
  does not model overflow of `current_time - start_time_total` or of the
  counters.
- Read errors and end of stream both end the packet loop
  (`av_read_frame < 0`), so both are modelled as the end of the packet
  sequence. Likewise, `EAGAIN`, end of file and receive errors all end the
  drain loop, so they are modelled as the end of a packet's frame list.
- `Conversion.Convert`: assumes `cv::cvtColor` (lines 626 and 632) does not
  throw. It reports errors by throwing `cv::Exception`, which `main` does not
  catch, so the process would terminate. One such case is an I420 view whose
  `height * 3 / 2` rows are not a multiple of 3. The model treats the OpenCV
  path as always writing the output frame.
- `Conversion.PlanConversion`: assumes `av_image_get_buffer_size` (lines 441
  and 449) returns a non-negative size. Its result is unchecked, and a
  negative size makes `buffer.resize` at lines 443 and 451 throw
  `std::length_error`, which `main` does not catch. The model treats that
  case as a successful setup.
- `Session.Step`: timestamps are free inputs. The model does not require
  them to increase.

## Findings

| source | as written | input that shows it | evidently intended | confidence | as-written member | corrected member |
|---|---|---|---|---|---|---|
| rtsp_player.cpp:180-299 | A failed `avcodec_alloc_context3` on the hardware path leaves `decoder` set and `dec_ctx` null. The software fallback is skipped and line 299 reads `dec_ctx->width`. | H.264 stream, `h264_rkmpp` found, context allocation returns null. | Fall back to the software decoder, as for every other hardware failure. | high, not executed | `DecoderSelection.AllocFailureSkipsFallback` (on `Select`) | `DecoderSelection.SelectCorrected` |
| rtsp_player.cpp:539-697 | When recording, the encoder's packet loop always exits with `ret < 0`, and the frame-drain loop's condition reads that same `ret`. So at most one frame is drained per submitted packet. | Recording on, a packet after which the decoder yields two complete frames. | Drain every frame the decoder yields, as the loop does when not recording. | medium, not executed | `Session.RecordingDrainsOneFramePerPacket` (on `Session.Drain` with `AsWritten`) | `Session.Drain` with `DrainMode.Corrected`, proved by `Session.Drain`'s prefix property and `Session.DrainModesAgreeWithoutRecording` |

The session functions take the drain mode as a parameter.
`Session.Stream(cfg, AsWritten, ...)` is the program as written, and
`Session.Stream(cfg, Corrected, ...)` is the corrected loop. Every session
property above holds for both modes.
