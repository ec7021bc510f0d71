/** The control skeleton of `AudioScene::render` (allocore/allocore/sound/al_AudioScene.hpp)
    as a pure function: the sequence of calls it makes on the listeners'
    spatializers. The relative position of each frame is computed exactly
    from the position histories; its magnitude (a square root) is a
    parameter, `mag`, and so is the hyperbolic tangent of the attenuation. */
module SceneRender {
  import opened SceneBasics
  import opened SoundSources

  /** A spatializer call, by listener number (registration order), source
      number (list order) and frame. `Perform` carries the relative position
      handed to the spatializer, the delay index the sample is read at, the
      distance it was computed from and the gain the sample is multiplied by. */
  datatype Call =
    | Prepare(listener: nat)
    | Perform(listener: nat, source: nat, frame: nat, relpos: Vec3, index: real,
              distance: real, gain: Option<real>)
    | Finalize(listener: nat)

  /** The moving average of `render`: the source's position relative to the
      listener, from their last four positions, `alpha` of the way through
      the block. Slot 3 (oldest) is weighted by `1 - alpha`, slot 0 (newest)
      by `alpha`, slots 1 and 2 fully, and the sum divided by 3. */
  function RelPos(sh: seq<Vec3>, lh: seq<Vec3>, alpha: real): Vec3
    requires |sh| == HistoryDepth && |lh| == HistoryDepth
  {
    sh[3].Minus(lh[3]).Times(1.0 - alpha)
      .Plus(sh[2].Minus(lh[2]))
      .Plus(sh[1].Minus(lh[1]))
      .Plus(sh[0].Minus(lh[0]).Times(alpha))
      .Times(1.0 / 3.0)
  }

  /** The factor from distance to delay index: `(maxIndex - numFrames) / farClip`
      with Doppler on, 0 with it off. */
  function Scale(p: SourceParams, frames: int): real
    requires p.useDoppler ==> p.FarClip() != 0.0
  {
    if p.useDoppler then (p.maxIndex - frames) as real / p.FarClip() else 0.0
  }

  /** `distance * distanceToSample`: a distance as a delay-line index. */
  function DelayIndex(distance: real, distanceToSample: real): real
  {
    distance * distanceToSample
  }

  /** What `render` can rely on of its sources: no source with Doppler on
      has a zero far clip, and every position history has four slots. */
  predicate SourcesReady(ps: seq<SourceParams>)
  {
    forall k :: 0 <= k < |ps| ==>
      (ps[k].useDoppler ==> ps[k].FarClip() != 0.0) && |ps[k].history| == HistoryDepth
  }

  /** Every listener's position history has four slots. */
  predicate ListenersReady(lhs: seq<seq<Vec3>>)
  {
    forall j :: 0 <= j < |lhs| ==> |lhs[j]| == HistoryDepth
  }

  /** Frame `i` of source `s` for listener `l`: the relative position and
      its distance, the range check on the truncated index, then the
      `numFrames - i` offset, the gain and the dispatch. */
  function FrameCall(l: nat, s: nat, p: SourceParams, lh: seq<Vec3>, frames: int, i: nat,
                     mag: Vec3 -> real, tanh: real -> real): seq<Call>
    requires p.useDoppler ==> p.FarClip() != 0.0
    requires |p.history| == HistoryDepth && |lh| == HistoryDepth
    requires i < frames
  {
    var rel := RelPos(p.history, lh, i as real / frames as real);
    var d := mag(rel);
    var idx := DelayIndex(d, Scale(p, frames));
    if Trunc(idx) <= p.maxIndex - frames then
      [Perform(l, s, i, rel, idx + (frames - i) as real, d, p.atten.Gain(d, tanh))]
    else []
  }

  /** The frame loop runs as many times as the block has frames (none for a
      negative count). */
  function FrameCount(frames: int): nat
  {
    if frames < 0 then 0 else frames
  }

  /** Frames 0 to n - 1 of source `s` for listener `l`. */
  function FrameCalls(l: nat, s: nat, p: SourceParams, lh: seq<Vec3>, frames: int, n: nat,
                      mag: Vec3 -> real, tanh: real -> real): seq<Call>
    requires p.useDoppler ==> p.FarClip() != 0.0
    requires |p.history| == HistoryDepth && |lh| == HistoryDepth
    requires n <= FrameCount(frames)
  {
    if n == 0 then []
    else FrameCalls(l, s, p, lh, frames, n - 1, mag, tanh) + FrameCall(l, s, p, lh, frames, n - 1, mag, tanh)
  }

  /** Sources 0 to k - 1 for listener `l`. */
  function SourceCalls(l: nat, ps: seq<SourceParams>, lh: seq<Vec3>, frames: int, k: nat,
                       mag: Vec3 -> real, tanh: real -> real): seq<Call>
    requires k <= |ps| && SourcesReady(ps) && |lh| == HistoryDepth
  {
    if k == 0 then []
    else SourceCalls(l, ps, lh, frames, k - 1, mag, tanh)
         + FrameCalls(l, k - 1, ps[k - 1], lh, frames, FrameCount(frames), mag, tanh)
  }

  /** Listener `l`'s part of the block: prepare, every source, finalize. */
  function ListenerCalls(l: nat, ps: seq<SourceParams>, lh: seq<Vec3>, frames: int,
                         mag: Vec3 -> real, tanh: real -> real): seq<Call>
    requires SourcesReady(ps) && |lh| == HistoryDepth
  {
    [Prepare(l)] + SourceCalls(l, ps, lh, frames, |ps|, mag, tanh) + [Finalize(l)]
  }

  /** The whole block: the listeners, whose position histories are `lhs`, in
      registration order. */
  function RenderCalls(lhs: seq<seq<Vec3>>, ps: seq<SourceParams>, frames: int,
                       mag: Vec3 -> real, tanh: real -> real): seq<Call>
    requires SourcesReady(ps) && ListenersReady(lhs)
    decreases |lhs|
  {
    if lhs == [] then []
    else
      var n := |lhs| - 1;
      RenderCalls(lhs[..n], ps, frames, mag, tanh) + ListenerCalls(n, ps, lhs[n], frames, mag, tanh)
  }

  /** One more listener appends its block after the blocks of the listeners
      before it. */
  lemma RenderCallsAppend(lhs: seq<seq<Vec3>>, h: seq<Vec3>, ps: seq<SourceParams>, frames: int,
                          mag: Vec3 -> real, tanh: real -> real)
    requires SourcesReady(ps) && ListenersReady(lhs) && |h| == HistoryDepth
    ensures ListenersReady(lhs + [h])
    ensures RenderCalls(lhs + [h], ps, frames, mag, tanh)
            == RenderCalls(lhs, ps, frames, mag, tanh) + ListenerCalls(|lhs|, ps, h, frames, mag, tanh)
  {
    assert (lhs + [h])[..|lhs|] == lhs;
  }

  // ---- the relative position ------------------------------------------------

  /** A source and a listener that have both stood still for four blocks are
      at their plain difference throughout the block: the four weights sum
      to 3. */
  lemma RelPosStationary(sh: seq<Vec3>, lh: seq<Vec3>, alpha: real)
    requires |sh| == HistoryDepth && |lh| == HistoryDepth
    requires forall k :: 0 <= k < HistoryDepth ==> sh[k] == sh[0] && lh[k] == lh[0]
    ensures RelPos(sh, lh, alpha) == sh[0].Minus(lh[0])
  {
    var r := sh[0].Minus(lh[0]);
    assert sh[1] == sh[0] && sh[2] == sh[0] && sh[3] == sh[0];
    assert lh[1] == lh[0] && lh[2] == lh[0] && lh[3] == lh[0];
    var sum := r.Times(1.0 - alpha).Plus(r).Plus(r).Plus(r.Times(alpha));
    assert sum == r.Times(3.0);
    assert r.Times(3.0).Times(1.0 / 3.0) == r;
  }

  /** At the first frame the newest positions carry no weight. */
  lemma RelPosFirstFrame(sh: seq<Vec3>, lh: seq<Vec3>, sNew: Vec3, lNew: Vec3)
    requires |sh| == HistoryDepth && |lh| == HistoryDepth
    ensures RelPos(sh[0 := sNew], lh[0 := lNew], 0.0) == RelPos(sh, lh, 0.0)
  {
  }

  // ---- the range check and `readSample` -------------------------------------

  /** A dispatched frame's read index truncates to at most `maxIndex - i`,
      hence at most `maxIndex`: the range check against `maxIndex - numFrames`
      leaves room for the `numFrames - i` offset. With a non-negative scale and
      distance the index is also at least 1. */
  lemma FrameCallIndex(l: nat, s: nat, p: SourceParams, lh: seq<Vec3>, frames: int, i: nat,
                       mag: Vec3 -> real, tanh: real -> real)
    requires p.useDoppler ==> p.FarClip() != 0.0
    requires |p.history| == HistoryDepth && |lh| == HistoryDepth
    requires i < frames
    ensures forall c :: c in FrameCall(l, s, p, lh, frames, i, mag, tanh) ==>
              var rel := RelPos(p.history, lh, i as real / frames as real);
              && c == Perform(l, s, i, rel, c.index, mag(rel), p.atten.Gain(mag(rel), tanh))
              && Trunc(c.index) <= p.maxIndex - i
              && (0.0 <= mag(rel) && 0.0 <= Scale(p, frames) ==> 1.0 <= c.index)
  {
    var rel := RelPos(p.history, lh, i as real / frames as real);
    var idx := DelayIndex(mag(rel), Scale(p, frames));
    if Trunc(idx) <= p.maxIndex - frames {
      TruncShift(idx, frames - i);
      if 0.0 <= mag(rel) && 0.0 <= Scale(p, frames) {
        assert 0.0 <= idx;
      }
    }
  }

  /** The calls of source `k` after the sorted calls of the sources before
      it keep the whole sorted. */
  lemma SourcesSortedAppend(x: seq<Call>, y: seq<Call>, k: nat)
    requires Sorted(x) && forall c :: c in x ==> c.Perform? && c.source < k
    requires Sorted(y) && forall c :: c in y ==> c.Perform? && c.source == k
    ensures Sorted(x + y)
  {
    SortedAppend(x, y);
  }

  /** `a` is a `Perform` that `render` makes before `b`: an earlier source in
      list order, or the same source at an earlier frame. */
  predicate Before(a: Call, b: Call)
  {
    a.Perform? && b.Perform? && (a.source < b.source || (a.source == b.source && a.frame < b.frame))
  }

  /** Every call of `cs` precedes, in the sense of `Before`, every later one. */
  predicate Sorted(cs: seq<Call>)
  {
    forall a, b :: 0 <= a < b < |cs| ==> Before(cs[a], cs[b])
  }

  lemma SortedAppend(x: seq<Call>, y: seq<Call>)
    requires Sorted(x) && Sorted(y)
    requires forall c, d :: c in x && d in y ==> Before(c, d)
    ensures Sorted(x + y)
  {
    var cs := x + y;
    forall a, b | 0 <= a < b < |cs|
      ensures Before(cs[a], cs[b])
    {
      if b < |x| {
        assert cs[a] == x[a] && cs[b] == x[b];
      } else if a < |x| {
        assert cs[a] == x[a] && cs[b] == y[b - |x|];
        assert cs[a] in x && cs[b] in y;
      } else {
        assert cs[a] == y[a - |x|] && cs[b] == y[b - |x|];
      }
    }
  }

  /** What frame `f` of source `p` for a listener with history `lh` hands to
      the spatializer: the moving-average position, its magnitude as the
      distance, and the source's attenuation at that distance. */
  predicate PerformOf(c: Call, p: SourceParams, lh: seq<Vec3>, frames: int, mag: Vec3 -> real, tanh: real -> real)
    requires c.Perform? && |p.history| == HistoryDepth && |lh| == HistoryDepth && 0 < frames
  {
    && c.relpos == RelPos(p.history, lh, c.frame as real / frames as real)
    && c.distance == mag(c.relpos)
    && c.gain == p.atten.Gain(c.distance, tanh)
  }

  /** `c` is a call that `render` may make for listener `l` and source
      number `s` with parameters `p`: a `Perform` with its frame's relative
      position, distance and gain, and an index whose truncation is at most
      `maxIndex` (and at least 1 when the scale and distance are not
      negative). */
  predicate FrameOk(c: Call, l: nat, s: nat, p: SourceParams, lh: seq<Vec3>, frames: int,
                    mag: Vec3 -> real, tanh: real -> real)
    requires p.useDoppler ==> p.FarClip() != 0.0
    requires |p.history| == HistoryDepth && |lh| == HistoryDepth
  {
    && c.Perform? && c.listener == l && c.source == s && 0 < frames
    && PerformOf(c, p, lh, frames, mag, tanh)
    && Trunc(c.index) <= p.maxIndex
    && (0.0 <= c.distance && 0.0 <= Scale(p, frames) ==> 1.0 <= c.index)
  }

  /** The frame a call of frame `i` dispatches, if any, is `FrameOk`. */
  lemma FrameCallOk(l: nat, s: nat, p: SourceParams, lh: seq<Vec3>, frames: int, i: nat,
                    mag: Vec3 -> real, tanh: real -> real)
    requires p.useDoppler ==> p.FarClip() != 0.0
    requires |p.history| == HistoryDepth && |lh| == HistoryDepth
    requires i < frames
    ensures |FrameCall(l, s, p, lh, frames, i, mag, tanh)| <= 1
    ensures forall c :: c in FrameCall(l, s, p, lh, frames, i, mag, tanh) ==>
              c.Perform? && c.source == s && c.frame == i && FrameOk(c, l, s, p, lh, frames, mag, tanh)
  {
    FrameCallIndex(l, s, p, lh, frames, i, mag, tanh);
  }

  /** Calls that are each `FrameOk` stay so when concatenated. */
  lemma FramesOkAppend(x: seq<Call>, y: seq<Call>, l: nat, s: nat, p: SourceParams, lh: seq<Vec3>,
                     frames: int, mag: Vec3 -> real, tanh: real -> real)
    requires p.useDoppler ==> p.FarClip() != 0.0
    requires |p.history| == HistoryDepth && |lh| == HistoryDepth
    requires forall c :: c in x ==> FrameOk(c, l, s, p, lh, frames, mag, tanh)
    requires forall c :: c in y ==> FrameOk(c, l, s, p, lh, frames, mag, tanh)
    ensures forall c :: c in x + y ==> FrameOk(c, l, s, p, lh, frames, mag, tanh)
  {
  }

  /** At most one call for frame `i` of source `s` after sorted calls for its
      earlier frames keeps the whole sorted. */
  lemma FramesSortedAppend(x: seq<Call>, y: seq<Call>, s: nat, i: nat)
    requires Sorted(x) && forall c :: c in x ==> c.Perform? && c.source == s && c.frame < i
    requires |y| <= 1 && forall c :: c in y ==> c.Perform? && c.source == s && c.frame == i
    ensures Sorted(x + y)
    ensures forall c :: c in x + y ==> c.Perform? && c.source == s && c.frame < i + 1
  {
    SortedAppend(x, y);
  }

  /** Everything `FrameCalls` dispatches is `FrameOk`. */
  lemma {:induction false} FrameCallsOk(l: nat, s: nat, p: SourceParams, lh: seq<Vec3>, frames: int, n: nat,
                                           mag: Vec3 -> real, tanh: real -> real)
    requires p.useDoppler ==> p.FarClip() != 0.0
    requires |p.history| == HistoryDepth && |lh| == HistoryDepth
    requires n <= FrameCount(frames)
    ensures forall c :: c in FrameCalls(l, s, p, lh, frames, n, mag, tanh) ==> FrameOk(c, l, s, p, lh, frames, mag, tanh)
  {
    if n > 0 {
      FrameCallsOk(l, s, p, lh, frames, n - 1, mag, tanh);
      FrameCallOk(l, s, p, lh, frames, n - 1, mag, tanh);
      var prefix := FrameCalls(l, s, p, lh, frames, n - 1, mag, tanh);
      var last := FrameCall(l, s, p, lh, frames, n - 1, mag, tanh);
      FramesOkAppend(prefix, last, l, s, p, lh, frames, mag, tanh);
    }
  }

  /** `FrameCalls` dispatches only `Perform`s of source `s`, at frames below
      `n`, in ascending frame order. */
  lemma {:induction false} FrameCallsSorted(l: nat, s: nat, p: SourceParams, lh: seq<Vec3>, frames: int, n: nat,
                                           mag: Vec3 -> real, tanh: real -> real)
    requires p.useDoppler ==> p.FarClip() != 0.0
    requires |p.history| == HistoryDepth && |lh| == HistoryDepth
    requires n <= FrameCount(frames)
    ensures forall c :: c in FrameCalls(l, s, p, lh, frames, n, mag, tanh) ==> c.Perform? && c.source == s && c.frame < n
    ensures Sorted(FrameCalls(l, s, p, lh, frames, n, mag, tanh))
  {
    if n > 0 {
      FrameCallsSorted(l, s, p, lh, frames, n - 1, mag, tanh);
      FrameCallOk(l, s, p, lh, frames, n - 1, mag, tanh);
      var prefix := FrameCalls(l, s, p, lh, frames, n - 1, mag, tanh);
      var last := FrameCall(l, s, p, lh, frames, n - 1, mag, tanh);
      FramesSortedAppend(prefix, last, s, n - 1);
    }
  }

  /** Everything `FrameCalls` dispatches is `FrameOk` for that listener and
      source, at a frame below `n`, in ascending frame order. */
  lemma FrameCallsShape(l: nat, s: nat, p: SourceParams, lh: seq<Vec3>, frames: int, n: nat,
                                           mag: Vec3 -> real, tanh: real -> real)
    requires p.useDoppler ==> p.FarClip() != 0.0
    requires |p.history| == HistoryDepth && |lh| == HistoryDepth
    requires n <= FrameCount(frames)
    ensures forall c :: c in FrameCalls(l, s, p, lh, frames, n, mag, tanh) ==>
              c.Perform? && c.source == s && c.frame < n && FrameOk(c, l, s, p, lh, frames, mag, tanh)
    ensures Sorted(FrameCalls(l, s, p, lh, frames, n, mag, tanh))
  {
    FrameCallsOk(l, s, p, lh, frames, n, mag, tanh);
    FrameCallsSorted(l, s, p, lh, frames, n, mag, tanh);
  }

  /** Between its prepare and its finalize, listener `l` receives only
      `Perform` calls, for sources in list order and, within a source, frames
      in ascending order, each `FrameOk` for its source: its frame's relative
      position, distance and gain, and a read index that truncates to at most
      that source's `maxIndex`. */
  lemma {:induction false} SourceCallsShape(l: nat, ps: seq<SourceParams>, lh: seq<Vec3>, frames: int, k: nat,
                                            mag: Vec3 -> real, tanh: real -> real)
    requires k <= |ps| && SourcesReady(ps) && |lh| == HistoryDepth
    ensures forall c :: c in SourceCalls(l, ps, lh, frames, k, mag, tanh) ==>
              c.Perform? && c.source < k && FrameOk(c, l, c.source, ps[c.source], lh, frames, mag, tanh)
    ensures Sorted(SourceCalls(l, ps, lh, frames, k, mag, tanh))
  {
    if k > 0 {
      SourceCallsShape(l, ps, lh, frames, k - 1, mag, tanh);
      FrameCallsShape(l, k - 1, ps[k - 1], lh, frames, FrameCount(frames), mag, tanh);
      var prefix := SourceCalls(l, ps, lh, frames, k - 1, mag, tanh);
      var last := FrameCalls(l, k - 1, ps[k - 1], lh, frames, FrameCount(frames), mag, tanh);
      SourcesSortedAppend(prefix, last, k - 1);
    }
  }

  /** Every sample `render` dispatches is read at an index that `readSample`
      accepts, provided the source's scale is not negative (Doppler off, or a
      buffer at least a block long with a positive far clip); magnitudes are
      never negative. */
  lemma RenderReadsReadable(lhs: seq<seq<Vec3>>, ps: seq<SourceParams>, frames: int,
                            mag: Vec3 -> real, tanh: real -> real)
    requires SourcesReady(ps) && ListenersReady(lhs)
    requires forall k :: 0 <= k < |ps| ==> 0.0 <= Scale(ps[k], frames)
    requires forall v :: 0.0 <= mag(v)
    ensures forall c :: c in RenderCalls(lhs, ps, frames, mag, tanh) && c.Perform? ==>
              c.source < |ps| && Readable(ps[c.source].maxIndex, c.index)
    decreases |lhs|
  {
    if lhs != [] {
      var n := |lhs| - 1;
      RenderReadsReadable(lhs[..n], ps, frames, mag, tanh);
      SourceCallsShape(n, ps, lhs[n], frames, |ps|, mag, tanh);
    }
  }

  /** The range check alone bounds the index only from above: a source with
      Doppler on whose buffer is shorter than the block (here maxIndex 2,
      8 frames, near clip 0, far clip 1) gets a negative scale, and at
      distance 10 from the listener it is dispatched at index -52, which is
      no delay `readSample` can serve. */
  lemma ShortBufferReadsNegative(sh: seq<Vec3>, lh: seq<Vec3>, mag: Vec3 -> real, tanh: real -> real)
    requires |sh| == HistoryDepth && |lh| == HistoryDepth
    requires mag(RelPos(sh, lh, 0.0)) == 10.0
    ensures var p := SourceParams(true, 2, Attenuator(true, 0.0, 1.0, 0.0), sh);
            && Scale(p, 8) == -6.0
            && FrameCall(0, 0, p, lh, 8, 0, mag, tanh)
               == [Perform(0, 0, 0, RelPos(sh, lh, 0.0), -52.0, 10.0, Some(0.0))]
            && !Readable(p.maxIndex, -52.0)
  {
    var p := SourceParams(true, 2, Attenuator(true, 0.0, 1.0, 0.0), sh);
    var alpha := 0 as real / 8 as real;
    assert alpha == 0.0;
    var rel := RelPos(sh, lh, 0.0);
    assert RelPos(p.history, lh, alpha) == rel;
    assert Scale(p, 8) == -6.0;
    assert Trunc(-60.0) == -60;
    assert p.atten.Gain(10.0, tanh) == Some(0.0);
  }

  /** `readSample`'s comment asks for an index of at most `bufferSize() - 2`,
      which is `maxIndex`, but the range check admits more at frame 0: with
      maxIndex 10, 2 frames, near clip 0 and far clip 1 the scale is 8, and at
      distance 1.05 the index 8.4 truncates to 8, passes the check, and is read
      at 10.4. That index is still `Readable`: its two taps, 10 and 11, lie in
      the buffer of 12. */
  lemma FirstFrameAboveDocumentedBound(sh: seq<Vec3>, lh: seq<Vec3>, mag: Vec3 -> real, tanh: real -> real)
    requires |sh| == HistoryDepth && |lh| == HistoryDepth
    requires mag(RelPos(sh, lh, 0.0)) == 1.05
    ensures var p := SourceParams(true, 10, Attenuator(true, 0.0, 1.0, 0.0), sh);
            && FrameCall(0, 0, p, lh, 2, 0, mag, tanh)
               == [Perform(0, 0, 0, RelPos(sh, lh, 0.0), 10.4, 1.05, Some(0.0))]
            && 10.4 > p.maxIndex as real && Readable(p.maxIndex, 10.4)
  {
    var p := SourceParams(true, 10, Attenuator(true, 0.0, 1.0, 0.0), sh);
    var alpha := 0 as real / 2 as real;
    assert alpha == 0.0;
    assert RelPos(p.history, lh, alpha) == RelPos(sh, lh, 0.0);
    assert Scale(p, 2) == 8.0;
    assert DelayIndex(1.05, 8.0) == 8.4;
    assert Trunc(8.4) == 8;
    assert Trunc(10.4) == 10;
    assert p.atten.Gain(1.05, tanh) == Some(0.0);
  }

  // ---- Doppler off ----------------------------------------------------------

  /** With Doppler off the scale is 0, so every frame of a source is
      dispatched exactly when its `maxIndex` is at least the block length,
      and frame `i` is read at exactly `numFrames - i`. */
  lemma {:induction false} DopplerOffFrames(l: nat, s: nat, p: SourceParams, lh: seq<Vec3>, frames: int, n: nat,
                                            mag: Vec3 -> real, tanh: real -> real)
    requires !p.useDoppler
    requires |p.history| == HistoryDepth && |lh| == HistoryDepth
    requires n <= FrameCount(frames)
    ensures var cs := FrameCalls(l, s, p, lh, frames, n, mag, tanh);
            && |cs| == (if frames <= p.maxIndex then n else 0)
            && forall j :: 0 <= j < |cs| ==>
                 cs[j].Perform? && cs[j].frame == j && cs[j].index == (frames - j) as real
  {
    if n > 0 {
      DopplerOffFrames(l, s, p, lh, frames, n - 1, mag, tanh);
      var rel := RelPos(p.history, lh, (n - 1) as real / frames as real);
      assert Trunc(DelayIndex(mag(rel), Scale(p, frames))) == 0;
    }
  }

  // ---- call order -----------------------------------------------------------

  /** Listener `l`'s calls start with its one `prepare` and end with its one
      `finalize`; everything in between is a `Perform` for `l`. */
  lemma ListenerCallsShape(l: nat, ps: seq<SourceParams>, lh: seq<Vec3>, frames: int,
                           mag: Vec3 -> real, tanh: real -> real)
    requires SourcesReady(ps) && |lh| == HistoryDepth
    ensures var cs := ListenerCalls(l, ps, lh, frames, mag, tanh);
            && |cs| >= 2 && cs[0] == Prepare(l) && cs[|cs| - 1] == Finalize(l)
            && forall j :: 0 < j < |cs| - 1 ==> cs[j].Perform? && cs[j].listener == l
  {
    SourceCallsShape(l, ps, lh, frames, |ps|, mag, tanh);
    var mid := SourceCalls(l, ps, lh, frames, |ps|, mag, tanh);
    var cs := ListenerCalls(l, ps, lh, frames, mag, tanh);
    forall j | 0 < j < |cs| - 1
      ensures cs[j].Perform? && cs[j].listener == l
    {
      assert cs[j] == mid[j - 1];
    }
  }

  /** Listener numbers never decrease along `cs`. */
  predicate ListenersAscending(cs: seq<Call>)
  {
    forall a, b :: 0 <= a < b < |cs| ==> cs[a].listener <= cs[b].listener
  }

  /** Calls for one listener `n` after ascending calls for listeners below
      `n` keep the listeners ascending. */
  lemma AscendingAppend(x: seq<Call>, y: seq<Call>, n: nat)
    requires ListenersAscending(x) && forall c :: c in x ==> c.listener < n
    requires forall c :: c in y ==> c.listener == n
    ensures ListenersAscending(x + y)
  {
    var cs := x + y;
    forall a, b | 0 <= a < b < |cs|
      ensures cs[a].listener <= cs[b].listener
    {
      if b < |x| {
        assert cs[a] == x[a] && cs[b] == x[b];
      } else {
        assert cs[b] == y[b - |x|] && cs[b] in y;
        if a < |x| {
          assert cs[a] == x[a] && cs[a] in x;
        } else {
          assert cs[a] == y[a - |x|] && cs[a] in y;
        }
      }
    }
  }

  /** All of listener `l`'s calls name `l`. */
  lemma ListenerCallsOnly(l: nat, ps: seq<SourceParams>, lh: seq<Vec3>, frames: int,
                          mag: Vec3 -> real, tanh: real -> real)
    requires SourcesReady(ps) && |lh| == HistoryDepth
    ensures forall c :: c in ListenerCalls(l, ps, lh, frames, mag, tanh) ==> c.listener == l
  {
    SourceCallsShape(l, ps, lh, frames, |ps|, mag, tanh);
  }

  /** Every call of a block names one of its listeners, and the listeners'
      calls come in registration order. */
  lemma {:induction false} RenderCallsOrdered(lhs: seq<seq<Vec3>>, ps: seq<SourceParams>, frames: int,
                                              mag: Vec3 -> real, tanh: real -> real)
    requires SourcesReady(ps) && ListenersReady(lhs)
    ensures forall c :: c in RenderCalls(lhs, ps, frames, mag, tanh) ==> c.listener < |lhs|
    ensures ListenersAscending(RenderCalls(lhs, ps, frames, mag, tanh))
    decreases |lhs|
  {
    if lhs != [] {
      var n := |lhs| - 1;
      RenderCallsOrdered(lhs[..n], ps, frames, mag, tanh);
      ListenerCallsOnly(n, ps, lhs[n], frames, mag, tanh);
      var prefix := RenderCalls(lhs[..n], ps, frames, mag, tanh);
      var last := ListenerCalls(n, ps, lhs[n], frames, mag, tanh);
      AscendingAppend(prefix, last, n);
    }
  }

  /** `SourceCalls` makes no call other than `Perform`. */
  lemma SourceCallsOnlyPerform(l: nat, ps: seq<SourceParams>, lh: seq<Vec3>, frames: int, k: nat,
                               mag: Vec3 -> real, tanh: real -> real, c: Call)
    requires k <= |ps| && SourcesReady(ps) && |lh| == HistoryDepth
    requires !c.Perform?
    ensures c !in SourceCalls(l, ps, lh, frames, k, mag, tanh)
  {
    SourceCallsShape(l, ps, lh, frames, k, mag, tanh);
  }

  /** One listener's step of the count: appending listener `n - 1`'s framed
      calls adds one occurrence of its own prepare and finalize and none of
      any other non-`Perform` call. */
  lemma CountAfterListener(prefix: seq<Call>, mid: seq<Call>, cs: seq<Call>, n: nat, c: Call)
    requires 0 < n && !c.Perform? && c !in mid
    requires cs == prefix + ([Prepare(n - 1)] + mid + [Finalize(n - 1)])
    requires multiset(prefix)[c] == (if c.listener < n - 1 then 1 else 0)
    ensures multiset(cs)[c] == (if c.listener < n then 1 else 0)
  {
    assert multiset(cs) == multiset(prefix) + multiset([Prepare(n - 1)]) + multiset(mid) + multiset([Finalize(n - 1)]);
    assert (c == Prepare(n - 1) || c == Finalize(n - 1)) <==> c.listener == n - 1;
  }

  /** Each listener of a block gets exactly one `prepare` and exactly one
      `finalize`: a call other than `Perform` occurs once if it names one of
      the block's listeners and never otherwise. */
  lemma {:induction false} OnePrepareOneFinalize(lhs: seq<seq<Vec3>>, ps: seq<SourceParams>, frames: int,
                                                 mag: Vec3 -> real, tanh: real -> real, c: Call)
    requires SourcesReady(ps) && ListenersReady(lhs)
    requires !c.Perform?
    ensures multiset(RenderCalls(lhs, ps, frames, mag, tanh))[c] == (if c.listener < |lhs| then 1 else 0)
    decreases |lhs|
  {
    if lhs != [] {
      var n := |lhs| - 1;
      OnePrepareOneFinalize(lhs[..n], ps, frames, mag, tanh, c);
      SourceCallsOnlyPerform(n, ps, lhs[n], frames, |ps|, mag, tanh, c);
      var mid := SourceCalls(n, ps, lhs[n], frames, |ps|, mag, tanh);
      assert ListenerCalls(n, ps, lhs[n], frames, mag, tanh) == [Prepare(n)] + mid + [Finalize(n)];
      assert RenderCalls(lhs, ps, frames, mag, tanh)
          == RenderCalls(lhs[..n], ps, frames, mag, tanh) + ListenerCalls(n, ps, lhs[n], frames, mag, tanh);
      CountAfterListener(RenderCalls(lhs[..n], ps, frames, mag, tanh), mid,
        RenderCalls(lhs, ps, frames, mag, tanh), n + 1, c);
    }
  }
}
