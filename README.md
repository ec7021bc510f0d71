# Spatial audio scene and static delay line, modelled in Dafny

This project models two parts of AlloSystem's audio core.

- The fixed-size circular delay line `StaticDelayLine<N,T>` and the output taps of the plate reverberator
  `Reverb<T>` that reads it (`include/allocore/sound/al_Reverb.hpp`).
- The control logic of the spatial-audio scene in `allocore/allocore/sound/al_AudioScene.hpp`:
  - `SoundSource`, with its attenuation policy, clip accessors, delay-index helpers and `readSample`'s taps;
  - `Spatializer` and `Listener`;
  - `AudioScene`: its source and listener lists, block-size propagation and `render`.

The files:

- `reverb.dfy` (module `Reverb`): `StaticDelayLine` is a class over an `array<real>` and a cursor.
  - Its view `Contents()` lists the values in the line, oldest first.
  - Each operation is proved against that view. A write is a shift-register step (`ShiftIn`).
  - `ReadAfterWrites` states the delay semantics: `read(k)` returns the value written `k` writes ago.
  - `PlateReverb` holds the thirteen lines at their declared sizes. `Output` shows that each of the fourteen fixed taps is a delay its line can serve.
- `scene_basics.dfy` (module `SceneBasics`): value types that the scene uses.
  - The C++ double-to-int conversion (`Trunc`, toward zero) and `ceil`.
  - The four-slot position history `ShiftBuffer<4, Vec3d>` (`Push`; the newest value enters slot 0).
  - `std::list::remove` (`Removed`) and `std::vector::resize` (`Resized`).
- `sound_source.dfy` (module `SoundSources`): the class `SoundSource` and its attenuation policy, which is a value (`Attenuator`).
- `scene_render.dfy` (module `SceneRender`): what `render` does, as a pure function, `RenderCalls`.
  - The result is the sequence of spatializer calls: `Prepare`, then `Perform` with its relative position, read index, distance and gain, then `Finalize`.
  - The lemmas about it cover the read indices, the call order, and the count of prepares and finalizes.
- `audio_scene.dfy` (module `Scene`): the classes `Spatializer`, `Listener` and `AudioScene`.
  - `render` is the imperative method `AudioScene.Render`. Its loops are the source's:
    - sources, pushing their positions;
    - then listeners; per listener, sources; per source, frames.
  - `Render` is proved to return exactly `RenderCalls` over the histories as they stand afterwards.
  - It is also proved to leave every source's and listener's history in the state the source's updates describe.

Real arithmetic stands in for `double`. Three operations are parameters of `render`:
- the square root inside `Vec3d::mag` (`mag`);
- the hyperbolic tangent of the attenuation curve (`tanh`);
- `Quatd::slerpBuffer` (`slerp`).

Where the properties about the attenuation curve need something of `tanh`, they assume only `TanhLike`: values in [0, 1] and non-decreasing on the non-negative reals.

Some behaviour of the code is stated as written, even where the code's own comments suggest otherwise:

- `attenuation` tests `distance > nearClip + clipRange` strictly.
  - At exactly the far clip the sigmoid branch is taken. The gain there is `ampFar + (1 - tanh(pi))(1 - ampFar)`, which lies above `ampFar` when tanh(pi) < 1 and `ampFar` < 1; with `ampFar` = 1 it equals `ampFar` (`AttenuationAtFarClip`).
  - A zero clip range at exactly the near clip divides 0 by 0. The model returns `None` there, standing for NaN.
- `readSample`'s comment asks for an index of at most `bufferSize() - 2`. The model's `ReadSample` asks instead that the index is not negative and truncates to at most `maxIndex()` (`Readable`). That keeps both reads, at `index0` and `index0 + 1`, within 0 to `delaySize() - 1`, which is what they need if `RingBuffer::read(k)` serves exactly those delays. That reading of `RingBuffer` is an assumption; see "Left out".
  - `render` can pass more than the comment's bound at frame 0, yet stays within `Readable` (`FirstFrameAboveDocumentedBound`, `RenderReadsReadable`).
- `render`'s range check bounds the index only from above. The scale `(maxIndex - numFrames) / farClip` of a Doppler source is negative when exactly one of two things holds: its buffer is shorter than the block (`maxIndex` below `numFrames`), or its far clip is negative. Both together give a positive scale. With a negative scale the dispatched index is negative (`ShortBufferReadsNegative`). `RenderReadsReadable` therefore requires a non-negative scale.

## Model

| member | source | states |
|---|---|---|
| Reverb.Window | include/allocore/sound/al_Reverb.hpp:103-104 | the line's N values, oldest first, are the array rotated to start at the cursor |
| Reverb.WindowAt | include/allocore/sound/al_Reverb.hpp:103-104 | position k of that view is array slot (pos + k) mod N |
| Reverb.Advance | include/allocore/sound/al_Reverb.hpp:81 | the cursor after a write stays below N and equals (pos + 1) mod N |
| Reverb.ShiftIn | include/allocore/sound/al_Reverb.hpp:79-82 | a write drops the oldest value, moves every other one a place older, and makes `v` the newest |
| Reverb.ShiftAll | include/allocore/sound/al_Reverb.hpp:79-82 | the view after a sequence of writes, one shift-register step per value, still N values long |
| Reverb.ShiftAllSnoc | include/allocore/sound/al_Reverb.hpp:79-82 | one more write after the writes `ws` is one more shift step, so k successive `Write`s give `ShiftAll` of their values and `ReadAfterWrites` applies to them |
| Reverb.WindowAfterWrite | include/allocore/sound/al_Reverb.hpp:79-82 | storing at the cursor then advancing with wrap-around is exactly one shift-register step on the view |
| Reverb.ShiftAllIsSuffix | include/allocore/sound/al_Reverb.hpp:79-82 | after a sequence of writes, the view is the last N values of the old view followed by the writes |
| Reverb.ReadAfterWrites | include/allocore/sound/al_Reverb.hpp:71-82 | after writes `ws`, view position N - k holds the value written k writes ago, or the older content when fewer writes happened |
| Reverb.StaticDelayLine.Contents | include/allocore/sound/al_Reverb.hpp:103-104 | the line holds exactly N values |
| Reverb.StaticDelayLine.constructor | include/allocore/sound/al_Reverb.hpp:51 | cursor 0 and every element 0, so the view is N zeros |
| Reverb.StaticDelayLine.Size | include/allocore/sound/al_Reverb.hpp:55 | `size()` is the capacity N, which is positive |
| Reverb.StaticDelayLine.Pos | include/allocore/sound/al_Reverb.hpp:67 | the write tap is the cursor, always in [0, N) |
| Reverb.StaticDelayLine.IndexBack | include/allocore/sound/al_Reverb.hpp:61-64 | `indexBack()` lies in [0, N) and equals (pos + 1) mod N |
| Reverb.StaticDelayLine.Back | include/allocore/sound/al_Reverb.hpp:58 | `back()` is the slot after the cursor, which is the second-oldest value (the oldest when N is 1) |
| Reverb.StaticDelayLine.Read | include/allocore/sound/al_Reverb.hpp:71-76 | for every delay 0 <= i <= N the single upward wrap lands in the array; `read(i)` for i >= 1 is view position N - i (the value written i writes ago), and `read(0)` is the oldest value, the next one overwritten |
| Reverb.StaticDelayLine.Write | include/allocore/sound/al_Reverb.hpp:79-82 | `v` goes to the old cursor slot, no other slot changes, the cursor advances with wrap-around, and the view takes one shift-register step |
| Reverb.StaticDelayLine.Apply | include/allocore/sound/al_Reverb.hpp:85-89 | `operator()` returns the oldest value (the slot at the cursor) and then behaves exactly like `write(v)` |
| Reverb.StaticDelayLine.Comb | include/allocore/sound/al_Reverb.hpp:92-97 | with `d` the oldest value, writes `v + d*fbk` as a shift step, changes only the cursor slot and the cursor, and returns `d + (v + d*fbk)*ffd` |
| Reverb.StaticDelayLine.Zero | include/allocore/sound/al_Reverb.hpp:100 | every element becomes 0 and the cursor is kept |
| Reverb.PlateReverb.constructor | include/allocore/sound/al_Reverb.hpp:235-249 | the thirteen delay lines exist with their declared sizes |
| Reverb.PlateReverb.Output | include/allocore/sound/al_Reverb.hpp:190-204 | every one of the fourteen taps is a delay within [0, N] of the line it reads, and each output is the signed sum of the values written that many writes ago, times `gain` |
| SceneBasics.Trunc | allocore/allocore/sound/al_AudioScene.hpp:432 | `int idx0 = idx` (and `int index0 = index` in `readSample`) truncates toward zero; its bounds are `TruncBounds` |
| SceneBasics.Readable | allocore/allocore/sound/al_AudioScene.hpp:287-292 | an index `readSample` can serve: not negative, and truncating to at most `maxIndex()` so that the second tap stays in the buffer |
| SceneBasics.TruncBounds | allocore/allocore/sound/al_AudioScene.hpp:432 | `int idx0 = idx` truncates toward zero by less than one, on either side of zero |
| SceneBasics.Ceil | allocore/allocore/sound/al_AudioScene.hpp:206 | `ceil(x)` is the least integer not below x |
| SceneBasics.TruncShift | allocore/allocore/sound/al_AudioScene.hpp:432-438 | adding k whole samples raises the truncated index by at most k |
| SceneBasics.Push | allocore/allocore/sound/al_AudioScene.hpp:379 | a history push puts the new position in slot 0 and moves slots 0 to 2 up one, dropping slot 3 |
| SceneBasics.PushNAt | allocore/allocore/sound/al_AudioScene.hpp:196-200 | after n pushes of one value, slot k holds it if k < n and otherwise what slot k - n held |
| SceneBasics.PushNFills | allocore/allocore/sound/al_AudioScene.hpp:196-200 | four pushes of one value fill the whole history with it, whatever it held |
| SceneBasics.OccurrencesMultiplicity | allocore/allocore/sound/al_AudioScene.hpp:377-380 | the per-entry count of pushes a source receives is its multiplicity in the source list |
| SceneBasics.RemovedCounts | allocore/allocore/sound/al_AudioScene.hpp:363-365 | `remove` leaves no occurrence of the element, keeps every other element with its multiplicity, and shrinks the list by the removed count |
| SceneBasics.RemovedAppend | allocore/allocore/sound/al_AudioScene.hpp:363-365 | removal works piecewise over a concatenation, so the remaining elements keep their order |
| SceneBasics.RemovedAbsent | allocore/allocore/sound/al_AudioScene.hpp:363-365 | removing an element that is not in the list changes nothing |
| SceneBasics.AppendThenRemove | allocore/allocore/sound/al_AudioScene.hpp:359-365 | adding a source that was not listed and then removing it restores the list |
| SceneBasics.Resized | allocore/allocore/sound/al_AudioScene.hpp:162 | `resize(v)` has length v, keeps the first entries and pads with identity orientations |
| SoundSources.BufferSize | allocore/allocore/sound/al_AudioScene.hpp:205-207 | the buffer size is the travel time in samples rounded up: the least integer not below it |
| SoundSources.Attenuator.FarClip | allocore/allocore/sound/al_AudioScene.hpp:218 | the far clip lies one clip range beyond the near clip |
| SoundSources.Attenuator.Gain | allocore/allocore/sound/al_AudioScene.hpp:228-249 | `attenuation` by its cases: 1 when off or nearer than the near clip, `ampFar` strictly beyond the far clip, otherwise the skewed sigmoid of the normalised distance, and NaN (`None`) for the 0/0; its cases, range and monotonicity are stated by `GainCases`, `AttenuationInRange` and `AttenuationNonIncreasing` |
| SoundSources.GainCases | allocore/allocore/sound/al_AudioScene.hpp:228-249 | the gain is 1 with attenuation off or nearer than the near clip, and `ampFar` beyond the far clip; it is NaN exactly when the sigmoid branch divides 0 by a zero clip range |
| SoundSources.AttenuationSigmoid | allocore/allocore/sound/al_AudioScene.hpp:236-248 | between the clips the gain is the skewed sigmoid of the normalised distance dN, and dN lies in [0, 1] |
| SoundSources.CurveInRange | allocore/allocore/sound/al_AudioScene.hpp:246-248 | the sigmoid at dN >= 0 is a gain between `ampFar` and 1 |
| SoundSources.AttenuationInRange | allocore/allocore/sound/al_AudioScene.hpp:228-249 | with `ampFar <= 1`, every defined gain lies between `ampFar` and 1 |
| SoundSources.CurveNonIncreasing | allocore/allocore/sound/al_AudioScene.hpp:246-248 | the sigmoid does not grow with the normalised distance |
| SoundSources.SigmoidNonIncreasing | allocore/allocore/sound/al_AudioScene.hpp:236-248 | between the clips, a farther distance never has a larger gain |
| SoundSources.AttenuationNonIncreasing | allocore/allocore/sound/al_AudioScene.hpp:228-249 | with a positive clip range and `ampFar <= 1`, the gain is defined everywhere and a farther source is never louder |
| SoundSources.AttenuationAtFarClip | allocore/allocore/sound/al_AudioScene.hpp:234 | at exactly the far clip the strict test takes the sigmoid branch, and the gain is `ampFar + (1 - tanh(pi))(1 - ampFar)`, above `ampFar` when tanh(pi) < 1 and `ampFar` < 1 |
| SoundSources.SoundSource.constructor | allocore/allocore/sound/al_AudioScene.hpp:193-201 | the source takes its arguments and defaults, with attenuation and Doppler on, and its history is four copies of (1000, 1000, 1000) |
| SoundSources.SoundSource.Policy | allocore/allocore/sound/al_AudioScene.hpp:318-320 | the attenuation policy is the source's flag, near clip, clip range and far amplitude |
| SoundSources.SoundSource.FarClip | allocore/allocore/sound/al_AudioScene.hpp:218 | a source's far clip is that of its attenuation policy, near clip plus clip range |
| SoundSources.SoundSource.Attenuation | allocore/allocore/sound/al_AudioScene.hpp:228-249 | a source's attenuation is its policy's `Gain` at that distance |
| SoundSources.SoundSource.EnableAttenuation | allocore/allocore/sound/al_AudioScene.hpp:264 | sets the attenuation flag |
| SoundSources.SoundSource.EnableDoppler | allocore/allocore/sound/al_AudioScene.hpp:266 | sets the Doppler flag |
| SoundSources.SoundSource.DelaySize | allocore/allocore/sound/al_AudioScene.hpp:269 | the delay size is the buffer's length |
| SoundSources.SoundSource.DelayToIndex | allocore/allocore/sound/al_AudioScene.hpp:272-275 | the index is 0 with Doppler off, and otherwise the delay in samples, so dividing by the rate gives the delay back |
| SoundSources.SoundSource.MaxDelay | allocore/allocore/sound/al_AudioScene.hpp:278-280 | the maximum delay, in seconds, times the rate is the buffer's length |
| SoundSources.SoundSource.MaxIndex | allocore/allocore/sound/al_AudioScene.hpp:283 | `maxIndex()` is two below the delay size, so its second tap is the buffer's last slot |
| SoundSources.SoundSource.ReadSample | allocore/allocore/sound/al_AudioScene.hpp:287-295 | for an index that truncates to at most `maxIndex()`, both taps lie in the buffer, one apart, and the weight is the fractional part, in [0, 1) |
| SoundSources.SoundSource.SetFarClip | allocore/allocore/sound/al_AudioScene.hpp:298 | setting the far clip makes `farClip()` return it, by changing the clip range |
| SoundSources.SoundSource.SetNearClip | allocore/allocore/sound/al_AudioScene.hpp:302 | the clip range is kept, so the far clip moves by as much as the near clip |
| SoundSources.SoundSource.SetAmpFar | allocore/allocore/sound/al_AudioScene.hpp:299 | sets the far amplitude |
| SoundSources.SoundSource.SetRollOff | allocore/allocore/sound/al_AudioScene.hpp:305 | sets the roll-off |
| SoundSources.SoundSource.SetPose | allocore/allocore/sound/al_AudioScene.hpp:210 | sets the pose |
| SoundSources.SoundSource.Params | allocore/allocore/sound/al_AudioScene.hpp:405-440 | what `render` reads of a source: the Doppler flag, `maxIndex()`, the attenuation policy and the position history |
| SceneRender.RelPos | allocore/allocore/sound/al_AudioScene.hpp:415-425 | the moving average: with alpha = i / numFrames, slot 3 weighted 1 - alpha, slots 2 and 1 fully, slot 0 alpha, divided by 3; `RelPosStationary` and `RelPosFirstFrame` state what it means |
| SceneRender.Scale | allocore/allocore/sound/al_AudioScene.hpp:405-408 | the distance-to-index factor: `(maxIndex - numFrames) / farClip` with Doppler on, 0 with it off |
| SceneRender.DelayIndex | allocore/allocore/sound/al_AudioScene.hpp:429 | a distance times the scale is the delay index before the range check |
| SceneRender.FrameCall | allocore/allocore/sound/al_AudioScene.hpp:413-446 | frame i of a source for a listener: a `Perform` with the frame's position, distance, gain and the index offset by `numFrames - i` if the truncated index passes `idx0 <= maxIndex - numFrames`, nothing otherwise; `FrameCallIndex` and `FrameCallOk` state its guarantees |
| SceneRender.FrameCalls | allocore/allocore/sound/al_AudioScene.hpp:411-475 | the frame loop: frames 0 to n - 1 in order; `FrameCallsShape` and `DopplerOffFrames` state what it makes |
| SceneRender.SourceCalls | allocore/allocore/sound/al_AudioScene.hpp:398-477 | the source loop: each source's frame loop, in list order; `SourceCallsShape` states what it makes |
| SceneRender.ListenerCalls | allocore/allocore/sound/al_AudioScene.hpp:386-479 | a listener's part: `prepare`, the source loop, `finalize`; `ListenerCallsShape` states its shape |
| SceneRender.RenderCalls | allocore/allocore/sound/al_AudioScene.hpp:385-481 | the listener loop: each listener's part in registration order; `RenderCallsOrdered`, `OnePrepareOneFinalize` and `RenderReadsReadable` state its order, counts and read indices |
| SceneRender.RenderCallsAppend | allocore/allocore/sound/al_AudioScene.hpp:385-481 | one more listener appends its prepare, per-source calls and finalize after those of the listeners before it |
| SceneRender.RelPosStationary | allocore/allocore/sound/al_AudioScene.hpp:420-425 | for a source and a listener that have stood still for four blocks, the moving average is their plain difference, since the weights sum to 3 |
| SceneRender.RelPosFirstFrame | allocore/allocore/sound/al_AudioScene.hpp:415-425 | at frame 0 the newest positions carry no weight |
| SceneRender.FrameCallIndex | allocore/allocore/sound/al_AudioScene.hpp:432-438 | a dispatched frame i is read at an index that truncates to at most `maxIndex - i`, and that is at least 1 for a non-negative scale and distance |
| SceneRender.FrameCallOk | allocore/allocore/sound/al_AudioScene.hpp:411-446 | frame i dispatches at most one call: a `Perform` for frame i with the frame's relative position, distance and gain and a read index within `maxIndex` |
| SceneRender.FrameCallsOk | allocore/allocore/sound/al_AudioScene.hpp:411-446 | every call of a source's frame loop has that property |
| SceneRender.FrameCallsSorted | allocore/allocore/sound/al_AudioScene.hpp:411-446 | a source's frame loop makes only `Perform` calls for that source, at frames below the count, with frames ascending |
| SceneRender.FrameCallsShape | allocore/allocore/sound/al_AudioScene.hpp:411-446 | the two facts above together |
| SceneRender.SourceCallsShape | allocore/allocore/sound/al_AudioScene.hpp:398-477 | between prepare and finalize, a listener receives only `Perform` calls, sources in list order and frames ascending within a source, each with its source's position, distance, gain and an index within that source's `maxIndex` |
| SceneRender.RenderReadsReadable | allocore/allocore/sound/al_AudioScene.hpp:429-442 | the range check plus the `numFrames - i` offset give an index `readSample` can serve, for every call of the block whose source scale is not negative |
| SceneRender.ShortBufferReadsNegative | allocore/allocore/sound/al_AudioScene.hpp:405-438 | a Doppler source whose buffer is shorter than the block passes the range check with a negative read index: maxIndex 2, 8 frames and distance 10 give index -52 |
| SceneRender.FirstFrameAboveDocumentedBound | allocore/allocore/sound/al_AudioScene.hpp:287-292 | at frame 0 render can read above the comment's bound `bufferSize() - 2` (index 10.4 with maxIndex 10), while both taps stay in the buffer |
| SceneRender.DopplerOffFrames | allocore/allocore/sound/al_AudioScene.hpp:405-438 | with Doppler off, every frame is dispatched if and only if `maxIndex >= numFrames`, and frame i is read at exactly `numFrames - i` |
| SceneRender.ListenerCallsShape | allocore/allocore/sound/al_AudioScene.hpp:389-479 | a listener's calls begin with its prepare, end with its finalize, and everything between is a `Perform` for that listener |
| SceneRender.ListenerCallsOnly | allocore/allocore/sound/al_AudioScene.hpp:385-481 | all of a listener's calls name that listener |
| SceneRender.RenderCallsOrdered | allocore/allocore/sound/al_AudioScene.hpp:385-481 | every call of a block names one of its listeners, and the listeners come in registration order |
| SceneRender.SourceCallsOnlyPerform | allocore/allocore/sound/al_AudioScene.hpp:398-477 | the source loop makes no call other than `Perform` |
| SceneRender.OnePrepareOneFinalize | allocore/allocore/sound/al_AudioScene.hpp:385-481 | each listener gets exactly one prepare and exactly one finalize per block, and no other listener number appears in one |
| Scene.Spatializer.constructor | allocore/allocore/sound/al_AudioScene.hpp:102 | a new spatializer has no speakers |
| Scene.Spatializer.SetSpeakerLayout | allocore/allocore/sound/al_AudioScene.hpp:117-125 | the speaker list becomes a copy of the layout's, in order, so `numSpeakers()` is the layout's size |
| Scene.Spatializer.NumSpeakers | allocore/allocore/sound/al_AudioScene.hpp:125 | the number of speakers held; `SetSpeakerLayout` proves it is the layout's size afterwards |
| Scene.Listener.constructor | allocore/allocore/sound/al_AudioScene.hpp:154-159 | a new listener is not compiled, has a block-long orientation buffer, and its spatializer holds the layout's speakers |
| Scene.Listener.NumFrames | allocore/allocore/sound/al_AudioScene.hpp:161-164 | the orientation buffer is resized to v, which changes nothing when it already has that length |
| Scene.Listener.Compile | allocore/allocore/sound/al_AudioScene.hpp:144-147 | the listener becomes compiled |
| Scene.Listener.SetPose | allocore/allocore/sound/al_AudioScene.hpp:138 | sets the pose |
| Scene.AudioScene.constructor | allocore/allocore/sound/al_AudioScene.hpp:330-332 | a scene starts with no listeners and no sources, the given block length and a speed of sound of 343 |
| Scene.AudioScene.NumFrames | allocore/allocore/sound/al_AudioScene.hpp:341-350 | the block length becomes v and every listener's orientation buffer is resized to v; nothing is resized when v equals the current length |
| Scene.AudioScene.CreateListener | allocore/allocore/sound/al_AudioScene.hpp:352-357 | appends exactly one new, compiled listener with a block-long orientation buffer and returns it |
| Scene.AudioScene.AddSource | allocore/allocore/sound/al_AudioScene.hpp:359-361 | appends the source at the end, even if it is already listed |
| Scene.AudioScene.RemoveSource | allocore/allocore/sound/al_AudioScene.hpp:363-365 | takes out every occurrence of the source and keeps the others in order |
| Scene.AudioScene.FrameStep | allocore/allocore/sound/al_AudioScene.hpp:413-446 | one frame's computation and range check makes the calls `FrameCall` specifies |
| Scene.AudioScene.FrameLoop | allocore/allocore/sound/al_AudioScene.hpp:405-475 | a source's scale and frame loop make the calls `FrameCalls` specifies |
| Scene.AudioScene.SourceLoop | allocore/allocore/sound/al_AudioScene.hpp:398-477 | the source loop makes the calls `SourceCalls` specifies |
| Scene.AudioScene.PushSource | allocore/allocore/sound/al_AudioScene.hpp:377-380 | one source-history step pushes the entry's position, keeping the count of pushes per source equal to its occurrences so far |
| Scene.AudioScene.PushSourcePositions | allocore/allocore/sound/al_AudioScene.hpp:377-380 | every source's history receives its position once per occurrence in the list, so once for a source listed once |
| Scene.AudioScene.UpdateListener | allocore/allocore/sound/al_AudioScene.hpp:391-395 | the first `numFrames` orientations are interpolated from the previous orientation to the current one, the current orientation becomes the previous one, and the current position is pushed |
| Scene.AudioScene.AdvanceListener | allocore/allocore/sound/al_AudioScene.hpp:391-395 | updating listener j leaves every earlier listener updated, every later one untouched and every source unchanged |
| Scene.AudioScene.ListenerStep | allocore/allocore/sound/al_AudioScene.hpp:386-479 | listener j's part of the block makes the calls `ListenerCalls` specifies, against the listener's new history |
| Scene.AudioScene.ListenerLoop | allocore/allocore/sound/al_AudioScene.hpp:385-481 | the listener loop updates every listener once, leaves the sources' histories alone, and makes the calls `RenderCalls` specifies |
| Scene.AudioScene.Render | allocore/allocore/sound/al_AudioScene.hpp:367-483 | `render` pushes each source's position once per list entry, updates every listener's orientations and history once, and makes exactly the calls `RenderCalls` specifies over the new histories |

## Left out

- Floating point. Every `double` and `float` is a real, so rounding, NaN propagation (beyond the one 0/0 of `attenuation`) and infinities are not modelled. `M_PI` is its 16-digit decimal expansion.
- `Vec3d::mag`, `tanh` and `Quatd::slerpBuffer` are function parameters of `render`. Their numeric values are not modelled; the attenuation lemmas assume only `TanhLike`.
- `RingBuffer<float>`, the source's sample buffer, is defined in a header that is not part of this model. It is represented by its size only, and `SoundSources.SoundSource.ReadSample` assumes that `read(k)` serves exactly the delays 0 <= k < `size()`; it does not assume that `RingBuffer` indexes like `StaticDelayLine`. `readSample` yields the two taps and the interpolation weight, not the interpolated sample, and `writeSample` is not modelled. `ipl::linear` is not part of this model.
- `SoundSources.SoundSource.ReadSample`: requires the truncated index to be at most `maxIndex()`. That is what its two reads need, and it is weaker than the comment's `index <= bufferSize() - 2`, which `render` itself does not meet at frame 0.
- `ShiftBuffer` and `Pose` are defined in headers that are not part of this model. `Push` follows the slot order that `render`'s interpolation weights imply: the newest value in slot 0.
- `Reverb.PlateReverb`: the filter network of `operator()` is not modelled: the pre-delay, the one-pole filters, the all-pass combs, the decay and diffusion coefficients and `mix`. Only the line sizes and the output taps are.
- `Reverb.StaticDelayLine.Read`: requires `0 <= i <= N`. The source does not check this. Other delays may index outside the array, depending on the cursor: with the cursor at N - 1, delay N + 1 lands on slot N - 2, but with the cursor at 0 it lands on -1.
- The spatializer's `prepare`, `perform` and `finalize` are recorded in the call trace that `render` returns. Subclass behaviour, `AudioIOData` and what `perform` does with a sample are not modelled. The base `numFrames` and `compile` hooks do nothing.
- `Scene.AudioScene.Render`: requires `framesPerBuffer()` not above the scene's block length. `slerpBuffer` writes that many orientations into a buffer of the block length, so more would overflow it.
- `Scene.AudioScene.Render`: requires every Doppler source to have a non-zero far clip. Its index scale divides by the far clip, which would give infinity or NaN.
- `Scene.AudioScene.Render`: the first value of `distanceToSample`, `sampleRate / mSpeedOfSound`, is overwritten for every source before it is read, so `framesPerSecond()` has no effect and is not modelled.
- `Scene.AudioScene.NumFrames`: requires a non-negative length when there are listeners. `Listener::numFrames` takes an `unsigned`, so a negative length becomes a huge resize.
- `Scene.AudioScene.CreateListener`: requires a non-negative block length. The scene's constructor accepts any `int`, and `createListener` hands it to `Listener::numFrames(unsigned)`, so a negative length would become a huge resize. That case is not modelled.
- `SoundSources.SoundSource.constructor`: takes `bufSize` as a `nat`, where the source takes an `int`. A negative buffer size, which `RingBuffer` would be asked to allocate, is not modelled.
- `Spatializer::perform` takes the frame index `i` by non-const reference, so an override could change which frames `render` visits. The model assumes `perform` leaves `i` alone, as `Dbap::perform` does. The trace `RenderCalls` and the lemmas about frame order (`FrameCallsSorted`, `SourceCallsShape`, `DopplerOffFrames`) rest on that assumption.
- Getters that only return a field (`pose()`, `nearClip()`, `rollOff()`, `ampFar()`, `listeners()`, `source()`) are field reads in the model.
- Concurrency. In the application, poses are written from a control thread while `render` reads them; the model is sequential.
- The commented-out code in `render` and `attenuation`, and the unused members `mKneeSmoothness` and `mFarFadeOut`.
