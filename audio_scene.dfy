/** `Spatializer`, `Listener` and `AudioScene` of allocore/allocore/sound/al_AudioScene.hpp:
    the objects whose state the scene updates in place, and `render`, the
    per-block loop over listeners, sources and frames. */
module Scene {
  import opened SceneBasics
  import opened SoundSources
  import opened SceneRender

  /** The base spatializer: it keeps a copy of its speaker layout. Its
      `numFrames`, `compile`, `prepare` and `finalize` hooks do nothing in
      the base class; `prepare`, `perform` and `finalize` are recorded in the
      call trace `render` returns. */
  class Spatializer {
    var speakers: seq<Speaker>

    constructor ()
      ensures speakers == []
    {
      speakers := [];
    }

    /** `setSpeakerLayout(sl)`: clear, then copy the layout's speakers one by
        one, in order. */
    method SetSpeakerLayout(sl: SpeakerLayout)
      modifies this`speakers
      ensures speakers == sl.speakers
      ensures NumSpeakers() == |sl.speakers|
    {
      speakers := [];
      var i := 0;
      while i < |sl.speakers|
        invariant 0 <= i <= |sl.speakers|
        invariant speakers == sl.speakers[..i]
      {
        speakers := speakers + [sl.speakers[i]];
        i := i + 1;
      }
    }

    /** `numSpeakers()`. */
    function NumSpeakers(): int
      reads this
    {
      |speakers|
    }
  }

  /** A listener: a pose, a spatializer, the interpolated orientations of
      the current block and the positions of earlier blocks. */
  class Listener {
    var pose: Pose
    const spatializer: Spatializer
    var isCompiled: bool
    /** `mQuatHistory`: one orientation per frame of the block. */
    var quatHistory: seq<Quat>
    /** `mPosHistory`: positions of the last four blocks, newest first. */
    var posHistory: seq<Vec3>
    /** `mQuatPrev`: the orientation at the end of the previous block. */
    var quatPrev: Quat

    ghost predicate Valid()
      reads this
    {
      |posHistory| == HistoryDepth
    }

    /** The constructor: `numFrames` orientations, then the spatializer is
        given the speaker layout. Default-constructed orientations are the
        identity and default positions the origin. */
    constructor (numFrames: nat, sl: SpeakerLayout, spatializer: Spatializer)
      modifies spatializer`speakers
      ensures Valid() && this.spatializer == spatializer && !isCompiled
      ensures quatHistory == Resized([], numFrames)
      ensures posHistory == [Origin, Origin, Origin, Origin] && quatPrev == IdentityQuat
      ensures pose == Pose(Origin, IdentityQuat)
      ensures spatializer.speakers == sl.speakers
    {
      pose := Pose(Origin, IdentityQuat);
      this.spatializer := spatializer;
      isCompiled := false;
      quatHistory := [];
      posHistory := [Origin, Origin, Origin, Origin];
      quatPrev := IdentityQuat;
      new;
      NumFrames(numFrames);
      spatializer.SetSpeakerLayout(sl);
    }

    /** `numFrames(v)`: resize the orientation buffer when its size differs. */
    method NumFrames(v: nat)
      modifies this`quatHistory
      ensures quatHistory == Resized(old(quatHistory), v)
    {
      if |quatHistory| != v {
        quatHistory := Resized(quatHistory, v);
      } else {
        assert Resized(quatHistory, v) == quatHistory;
      }
    }

    /** `compile()`. The base spatializer's `compile(listener)` hook does
        nothing. */
    method Compile()
      modifies this`isCompiled
      ensures isCompiled
    {
      isCompiled := true;
    }

    /** `pose(p)`. */
    method SetPose(p: Pose)
      modifies this`pose
      ensures pose == p
    {
      pose := p;
    }
  }

  /** The position histories of `ls`, in order. */
  function HistoriesOf(ls: seq<Listener>): (hs: seq<seq<Vec3>>)
    reads ls
    ensures |hs| == |ls| && forall j :: 0 <= j < |ls| ==> hs[j] == ls[j].posHistory
  {
    seq(|ls|, j reads ls requires 0 <= j < |ls| => ls[j].posHistory)
  }

  /** The previous orientations of `ls`, in order. */
  function QuatPrevsOf(ls: seq<Listener>): (qs: seq<Quat>)
    reads ls
    ensures |qs| == |ls| && forall j :: 0 <= j < |ls| ==> qs[j] == ls[j].quatPrev
  {
    seq(|ls|, j reads ls requires 0 <= j < |ls| => ls[j].quatPrev)
  }

  /** The orientation buffers of `ls`, in order. */
  function QuatHistoriesOf(ls: seq<Listener>): (qs: seq<seq<Quat>>)
    reads ls
    ensures |qs| == |ls| && forall j :: 0 <= j < |ls| ==> qs[j] == ls[j].quatHistory
  {
    seq(|ls|, j reads ls requires 0 <= j < |ls| => ls[j].quatHistory)
  }

  /** The position histories of the sources `ss`, in order. */
  function PositionHistoriesOf(ss: seq<SoundSource>): (hs: seq<seq<Vec3>>)
    reads ss
    ensures |hs| == |ss| && forall k :: 0 <= k < |ss| ==> hs[k] == ss[k].posHistory
  {
    seq(|ss|, k reads ss requires 0 <= k < |ss| => ss[k].posHistory)
  }

  /** The current positions of the sources `ss`, in order. */
  function PositionsOf(ss: seq<SoundSource>): (vs: seq<Vec3>)
    reads ss
    ensures |vs| == |ss| && forall k :: 0 <= k < |ss| ==> vs[k] == ss[k].pose.pos
  {
    seq(|ss|, k reads ss requires 0 <= k < |ss| => ss[k].pose.pos)
  }

  /** The position histories held in source parameters `ps`, in order. */
  function HistoriesOfParams(ps: seq<SourceParams>): (hs: seq<seq<Vec3>>)
    ensures |hs| == |ps| && forall k :: 0 <= k < |ps| ==> hs[k] == ps[k].history
  {
    seq(|ps|, k requires 0 <= k < |ps| => ps[k].history)
  }

  /** The histories of the sources are those recorded in their parameters. */
  lemma HistoriesOfConfigs(ss: seq<SoundSource>)
    ensures PositionHistoriesOf(ss) == HistoriesOfParams(ConfigsOf(ss))
  {
  }

  /** The position histories `h` are what the histories `h0` of the source
      list `ss` become when every entry of the list has its position (from
      `v0`) pushed: a source gets one push per occurrence in the list. */
  predicate PushedBy(h0: seq<seq<Vec3>>, v0: seq<Vec3>, ss: seq<SoundSource>, h: seq<seq<Vec3>>)
  {
    && |h0| == |v0| == |ss| == |h|
    && forall k :: 0 <= k < |ss| ==>
         |h0[k]| == HistoryDepth && h[k] == PushN(h0[k], v0[k], Occurrences(ss, |ss|, ss[k]))
  }

  /** What `render` reads of each of `ss`, in order. */
  function ConfigsOf(ss: seq<SoundSource>): (ps: seq<SourceParams>)
    reads ss
    ensures |ps| == |ss| && forall k :: 0 <= k < |ss| ==> ps[k] == ss[k].Params()
  {
    seq(|ss|, k reads ss requires 0 <= k < |ss| => ss[k].Params())
  }

  class AudioScene {
    /** `mListeners`, in registration order. */
    var listeners: seq<Listener>
    /** `mSources`, in list order; a source added twice is there twice. */
    var sources: seq<SoundSource>
    var numFrames: int
    const speedOfSound: real

    /** Every listener was created by this scene, so they are distinct, and
        each one's orientation buffer is a block long. */
    ghost predicate Valid()
      reads this, listeners
    {
      && (forall a, b :: 0 <= a < b < |listeners| ==> listeners[a] != listeners[b])
      && (forall j :: 0 <= j < |listeners| ==>
            listeners[j].Valid() && |listeners[j].quatHistory| == numFrames)
    }

    constructor (numFrames: int)
      ensures Valid() && listeners == [] && sources == []
      ensures this.numFrames == numFrames && speedOfSound == 343.0
    {
      listeners := [];
      sources := [];
      this.numFrames := numFrames;
      speedOfSound := 343.0;
    }

    /** `numFrames(v)`: when the block length changes, every listener's
        orientation buffer is resized. A negative length would be converted
        to a huge unsigned size, so it is only accepted with no listeners. */
    method NumFrames(v: int)
      requires Valid()
      requires 0 <= v || listeners == []
      modifies this`numFrames, listeners`quatHistory
      ensures Valid() && numFrames == v
      ensures forall j :: 0 <= j < |listeners| ==>
                listeners[j].quatHistory == Resized(old(listeners[j].quatHistory), v)
      ensures old(numFrames) == v ==>
                forall j :: 0 <= j < |listeners| ==> listeners[j].quatHistory == old(listeners[j].quatHistory)
    {
      if numFrames != v {
        ghost var quats0 := seq(|listeners|, j reads this, listeners requires 0 <= j < |listeners| =>
                                  listeners[j].quatHistory);
        var i := 0;
        while i < |listeners|
          invariant 0 <= i <= |listeners|
          invariant forall j :: 0 <= j < |listeners| ==>
                      listeners[j].quatHistory == if j < i then Resized(quats0[j], v) else quats0[j]
          modifies listeners`quatHistory
        {
          label step:
          listeners[i].NumFrames(v);
          forall j | 0 <= j < |listeners| && j != i
            ensures listeners[j].quatHistory == old@step(listeners[j].quatHistory)
          {
            if j < i {
              assert listeners[j] != listeners[i];
            } else {
              assert listeners[i] != listeners[j];
            }
          }
          i := i + 1;
        }
        numFrames := v;
        forall j | 0 <= j < |listeners|
          ensures listeners[j].quatHistory == Resized(old(listeners[j].quatHistory), v)
          ensures listeners[j].Valid() && |listeners[j].quatHistory| == numFrames
        {
          assert quats0[j] == old(listeners[j].quatHistory);
        }
      } else {
        forall j | 0 <= j < |listeners|
          ensures listeners[j].quatHistory == Resized(old(listeners[j].quatHistory), v)
        {
          assert Resized(listeners[j].quatHistory, v) == listeners[j].quatHistory;
        }
      }
    }

    /** `createListener(sl, spatializer)`: a new, compiled listener with a
        block-long orientation buffer, added after the existing ones. */
    method CreateListener(sl: SpeakerLayout, spatializer: Spatializer) returns (l: Listener)
      requires Valid() && 0 <= numFrames
      modifies this`listeners, spatializer`speakers
      ensures Valid() && fresh(l) && listeners == old(listeners) + [l]
      ensures l.isCompiled && l.spatializer == spatializer && spatializer.speakers == sl.speakers
      ensures l.quatHistory == Resized([], numFrames) && l.posHistory == [Origin, Origin, Origin, Origin]
    {
      l := new Listener(numFrames, sl, spatializer);
      l.Compile();
      listeners := listeners + [l];
    }

    /** `addSource(src)`: appended, even when already present. */
    method AddSource(src: SoundSource)
      modifies this`sources
      ensures sources == old(sources) + [src]
    {
      sources := sources + [src];
    }

    /** `removeSource(src)`: every occurrence is taken out. */
    method RemoveSource(src: SoundSource)
      modifies this`sources
      ensures sources == Removed(old(sources), src)
    {
      sources := Removed(sources, src);
    }

    /** One frame of `render` for source `src` (number `k`) and listener
        number `l`, whose position history is `lh`: the moving-average
        position, its distance, the delay index and its range check, then the
        gain and the dispatch. */
    static method FrameStep(l: nat, k: nat, src: SoundSource, lh: seq<Vec3>, frames: int, i: nat,
                            distanceToSample: real, mag: Vec3 -> real, tanh: real -> real)
      returns (cs: seq<Call>)
      requires src.Valid() && |lh| == HistoryDepth && i < frames
      requires src.useDoppler ==> src.FarClip() != 0.0
      requires distanceToSample == Scale(src.Params(), frames)
      ensures cs == FrameCall(l, k, src.Params(), lh, frames, i, mag, tanh)
    {
      var alpha := i as real / frames as real;
      var relpos := RelPos(src.posHistory, lh, alpha);
      var distance := mag(relpos);
      var idx := DelayIndex(distance, distanceToSample);
      var idx0 := Trunc(idx);
      cs := [];
      if idx0 <= src.MaxIndex() - frames {
        idx := idx + (frames - i) as real;
        var gain := src.Attenuation(distance, tanh);
        cs := [Perform(l, k, i, relpos, idx, distance, gain)];
      }
    }

    /** The frame loop of `render` for source `src` (number `k`) and
        listener number `l`, whose position history is `lh`. */
    static method FrameLoop(l: nat, k: nat, src: SoundSource, lh: seq<Vec3>, frames: int,
                            mag: Vec3 -> real, tanh: real -> real) returns (cs: seq<Call>)
      requires src.Valid() && |lh| == HistoryDepth
      requires src.useDoppler ==> src.FarClip() != 0.0
      ensures cs == FrameCalls(l, k, src.Params(), lh, frames, FrameCount(frames), mag, tanh)
    {
      var p := src.Params();
      var distanceToSample := Scale(p, frames);
      cs := [];
      for i := 0 to FrameCount(frames)
        invariant cs == FrameCalls(l, k, p, lh, frames, i, mag, tanh)
      {
        var c := FrameStep(l, k, src, lh, frames, i, distanceToSample, mag, tanh);
        cs := cs + c;
      }
    }

    /** The source loop of `render` for listener number `l`, whose position
        history is `lh`. */
    method SourceLoop(l: nat, lh: seq<Vec3>, frames: int, mag: Vec3 -> real, tanh: real -> real)
      returns (cs: seq<Call>)
      requires |lh| == HistoryDepth && SourcesReady(ConfigsOf(sources))
      ensures cs == SourceCalls(l, ConfigsOf(sources), lh, frames, |sources|, mag, tanh)
    {
      var ps := ConfigsOf(sources);
      cs := [];
      for k := 0 to |sources|
        invariant cs == SourceCalls(l, ps, lh, frames, k, mag, tanh)
      {
        var fs := FrameLoop(l, k, sources[k], lh, frames, mag, tanh);
        cs := cs + fs;
      }
    }

    /** The first `n` entries of the source list have had their position
        pushed, starting from the histories `h0`: each source has received
        one push per occurrence among those entries. */
    ghost predicate Pushed(h0: seq<seq<Vec3>>, n: int)
      reads this, sources
    {
      && 0 <= n <= |sources| && |h0| == |sources|
      && (forall k :: 0 <= k < |sources| ==> |h0[k]| == HistoryDepth)
      && forall k :: 0 <= k < |sources| ==>
           sources[k].posHistory == PushN(h0[k], sources[k].pose.pos, Occurrences(sources, n, sources[k]))
    }

    /** One iteration of the position-history step: push the position of
        entry `i`, source `s`. */
    method PushSource(i: int, s: SoundSource, ghost h0: seq<seq<Vec3>>)
      requires 0 <= i < |sources| && s == sources[i] && Pushed(h0, i)
      modifies s`posHistory
      ensures Pushed(h0, i + 1)
    {
      label step:
      s.posHistory := Push(s.posHistory, s.pose.pos);
      forall k | 0 <= k < |sources|
        ensures sources[k].posHistory
                == PushN(h0[k], sources[k].pose.pos, Occurrences(sources, i + 1, sources[k]))
      {
        if sources[k] != s {
          assert sources[k].posHistory == old@step(sources[k].posHistory);
        }
      }
    }

    /** The position-history step of `render`: every source in the list
        gets its current position pushed, once per occurrence. */
    method PushSourcePositions()
      requires forall k :: 0 <= k < |sources| ==> |sources[k].posHistory| == HistoryDepth
      modifies sources`posHistory
      ensures PushedBy(old(PositionHistoriesOf(sources)), old(PositionsOf(sources)), sources,
                       PositionHistoriesOf(sources))
    {
      ghost var h0, v0 := PositionHistoriesOf(sources), PositionsOf(sources);
      for i := 0 to |sources|
        invariant Pushed(h0, i)
      {
        PushSource(i, sources[i], h0);
      }
      assert v0 == PositionsOf(sources);
    }

    /** Listener `l` has had its `render` update, starting from position
        history `pos0`, previous orientation `prev0` and orientation buffer
        `quats0`. */
    static ghost predicate Updated(l: Listener, pos0: seq<Vec3>, prev0: Quat, quats0: seq<Quat>,
                                   frames: int, slerp: (Quat, Quat, nat, int) -> Quat)
      reads l
    {
      && |pos0| == HistoryDepth && l.posHistory == Push(pos0, l.pose.pos)
      && l.quatPrev == l.pose.quat
      && |l.quatHistory| == |quats0|
      && forall i :: 0 <= i < |quats0| ==>
           l.quatHistory[i] == if i < frames then slerp(prev0, l.pose.quat, i, frames) else quats0[i]
    }

    /** Listener `l` still has the state it started the loop with. */
    static ghost predicate Untouched(l: Listener, pos0: seq<Vec3>, prev0: Quat, quats0: seq<Quat>)
      reads l
    {
      l.posHistory == pos0 && l.quatPrev == prev0 && l.quatHistory == quats0
    }

    /** The listener loop has handled listeners 0 to j - 1 and no other,
        where `pos0`, `prev0` and `quats0` hold every listener's state from
        before the loop. */
    ghost predicate Progress(j: nat, pos0: seq<seq<Vec3>>, prev0: seq<Quat>, quats0: seq<seq<Quat>>,
                             frames: int, slerp: (Quat, Quat, nat, int) -> Quat)
      reads this, listeners
    {
      && j <= |listeners| && |pos0| == |prev0| == |quats0| == |listeners|
      && (forall m :: 0 <= m < j ==> Updated(listeners[m], pos0[m], prev0[m], quats0[m], frames, slerp))
      && (forall m :: j <= m < |listeners| ==> Untouched(listeners[m], pos0[m], prev0[m], quats0[m]))
    }

    /** `lhs` holds the position histories of the first `j` listeners. */
    ghost predicate HistoriesUpTo(lhs: seq<seq<Vec3>>, j: nat)
      reads this, listeners
    {
      j <= |listeners| && |lhs| == j && forall m :: 0 <= m < j ==> lhs[m] == listeners[m].posHistory
    }

    /** Once `lhs` holds all the listeners' histories, it is `HistoriesOf`. */
    lemma HistoriesComplete(lhs: seq<seq<Vec3>>)
      requires HistoriesUpTo(lhs, |listeners|)
      ensures lhs == HistoriesOf(listeners)
    {
    }

    /** The listener update of `render` for listener number `j`, as a step
        of the listener loop. */
    method AdvanceListener(j: nat, l: Listener, frames: int, slerp: (Quat, Quat, nat, int) -> Quat,
                           ghost pos0: seq<seq<Vec3>>, ghost prev0: seq<Quat>, ghost quats0: seq<seq<Quat>>,
                           ghost lhs: seq<seq<Vec3>>)
      requires Valid() && j < |listeners| && l == listeners[j] && frames <= numFrames
      requires Progress(j, pos0, prev0, quats0, frames, slerp) && HistoriesUpTo(lhs, j)
      modifies l`quatHistory, l`quatPrev, l`posHistory
      ensures Valid() && Progress(j + 1, pos0, prev0, quats0, frames, slerp)
      ensures HistoriesUpTo(lhs + [l.posHistory], j + 1)
      ensures ConfigsOf(sources) == old(ConfigsOf(sources))
    {
      UpdateListener(l, frames, slerp);
    }

    /** Listener number `j`'s part of `render`: `prepare`, the listener
        update, every source against the listener's new position history,
        then `finalize`. */
    method ListenerStep(j: nat, l: Listener, frames: int, mag: Vec3 -> real, tanh: real -> real,
                        slerp: (Quat, Quat, nat, int) -> Quat,
                        ghost pos0: seq<seq<Vec3>>, ghost prev0: seq<Quat>, ghost quats0: seq<seq<Quat>>,
                        ghost lhs: seq<seq<Vec3>>)
      returns (cs: seq<Call>)
      requires Valid() && j < |listeners| && l == listeners[j] && frames <= numFrames
      requires Progress(j, pos0, prev0, quats0, frames, slerp) && HistoriesUpTo(lhs, j)
      requires SourcesReady(ConfigsOf(sources))
      modifies l`quatHistory, l`quatPrev, l`posHistory
      ensures Valid() && Progress(j + 1, pos0, prev0, quats0, frames, slerp)
      ensures HistoriesUpTo(lhs + [l.posHistory], j + 1)
      ensures ConfigsOf(sources) == old(ConfigsOf(sources))
      ensures cs == ListenerCalls(j, ConfigsOf(sources), l.posHistory, frames, mag, tanh)
    {
      cs := [Prepare(j)];
      AdvanceListener(j, l, frames, slerp, pos0, prev0, quats0, lhs);
      var scs := SourceLoop(j, l.posHistory, frames, mag, tanh);
      cs := cs + scs + [Finalize(j)];
    }

    /** The listener loop of `render`, after the sources' positions have
        been pushed: each listener in order updates its state and renders
        every source against its new position history. */
    method ListenerLoop(frames: int, mag: Vec3 -> real, tanh: real -> real,
                        slerp: (Quat, Quat, nat, int) -> Quat) returns (calls: seq<Call>)
      requires Valid() && frames <= numFrames && SourcesReady(ConfigsOf(sources))
      modifies listeners`quatHistory, listeners`quatPrev, listeners`posHistory
      ensures Valid()
      ensures Progress(|listeners|, old(HistoriesOf(listeners)), old(QuatPrevsOf(listeners)),
                       old(QuatHistoriesOf(listeners)), frames, slerp)
      ensures ListenersReady(HistoriesOf(listeners)) && SourcesReady(ConfigsOf(sources))
      ensures calls == RenderCalls(HistoriesOf(listeners), ConfigsOf(sources), frames, mag, tanh)
      ensures PositionHistoriesOf(sources) == old(PositionHistoriesOf(sources))
    {
      ghost var ps := ConfigsOf(sources);
      HistoriesOfConfigs(sources);
      ghost var pos0 := HistoriesOf(listeners);
      ghost var prev0 := QuatPrevsOf(listeners);
      ghost var quats0 := QuatHistoriesOf(listeners);
      calls := [];
      ghost var lhs: seq<seq<Vec3>> := [];
      for j := 0 to |listeners|
        invariant Valid() && Progress(j, pos0, prev0, quats0, frames, slerp)
        invariant ConfigsOf(sources) == ps
        invariant HistoriesUpTo(lhs, j)
        invariant ListenersReady(lhs)
        invariant calls == RenderCalls(lhs, ps, frames, mag, tanh)
      {
        ghost var before := lhs;
        var cs := ListenerStep(j, listeners[j], frames, mag, tanh, slerp, pos0, prev0, quats0, before);
        calls := calls + cs;
        RenderCallsAppend(before, listeners[j].posHistory, ps, frames, mag, tanh);
        lhs := before + [listeners[j].posHistory];
      }
      HistoriesComplete(lhs);
      HistoriesOfConfigs(sources);
    }

    /** `render(io)` for a block of `io.framesPerBuffer` frames. First every
        source in the list gets its current position pushed (a source listed
        twice is pushed twice). Then, for each listener in order: its
        spatializer's `prepare`, the listener's orientation buffer, previous
        orientation and position history are updated, every source is
        rendered frame by frame against the listener's new history, and the
        spatializer's `finalize`. The result is the trace of spatializer
        calls, which is that of `RenderCalls` over the histories as they stand
        afterwards. The orientation buffer must hold the block (`slerpBuffer`
        writes that many entries), and a Doppler source must not have a zero
        far clip (its index scale divides by it). */
    method Render(io: AudioBlock, mag: Vec3 -> real, tanh: real -> real,
                  slerp: (Quat, Quat, nat, int) -> Quat) returns (calls: seq<Call>)
      requires Valid() && io.framesPerBuffer <= numFrames
      requires forall k :: 0 <= k < |sources| ==>
                 |sources[k].posHistory| == HistoryDepth
                 && (sources[k].useDoppler ==> sources[k].FarClip() != 0.0)
      modifies sources`posHistory, listeners`quatHistory, listeners`quatPrev, listeners`posHistory
      ensures Valid()
      ensures PushedBy(old(PositionHistoriesOf(sources)), old(PositionsOf(sources)), sources,
                       PositionHistoriesOf(sources))
      ensures Progress(|listeners|, old(HistoriesOf(listeners)), old(QuatPrevsOf(listeners)),
                       old(QuatHistoriesOf(listeners)), io.framesPerBuffer, slerp)
      ensures ListenersReady(HistoriesOf(listeners)) && SourcesReady(ConfigsOf(sources))
      ensures calls == RenderCalls(HistoriesOf(listeners), ConfigsOf(sources), io.framesPerBuffer, mag, tanh)
    {
      ghost var pos0 := HistoriesOf(listeners);
      ghost var prev0, quats0 := QuatPrevsOf(listeners), QuatHistoriesOf(listeners);
      PushSourcePositions();
      assert SourcesReady(ConfigsOf(sources));
      assert pos0 == HistoriesOf(listeners) && prev0 == QuatPrevsOf(listeners) && quats0 == QuatHistoriesOf(listeners);
      calls := ListenerLoop(io.framesPerBuffer, mag, tanh, slerp);
      assert Progress(|listeners|, pos0, prev0, quats0, io.framesPerBuffer, slerp);
    }

    /** The listener step of `render`: the orientation buffer's first
        `frames` entries are interpolated from the previous orientation to
        the current one (`slerp(from, to, i, n)` is entry `i` of the `n`
        that `slerpBuffer` writes), the current orientation becomes the
        previous one, and the current position is pushed. */
    static method UpdateListener(l: Listener, frames: int, slerp: (Quat, Quat, nat, int) -> Quat)
      requires l.Valid() && frames <= |l.quatHistory|
      modifies l`quatHistory, l`quatPrev, l`posHistory
      ensures l.Valid() && |l.quatHistory| == old(|l.quatHistory|)
      ensures forall i :: 0 <= i < |l.quatHistory| ==>
                l.quatHistory[i] == if i < frames then slerp(old(l.quatPrev), l.pose.quat, i, frames)
                                    else old(l.quatHistory[i])
      ensures l.quatPrev == l.pose.quat
      ensures l.posHistory == Push(old(l.posHistory), l.pose.pos)
    {
      var qnew := l.pose.quat;
      var prev := l.quatPrev;
      var before := l.quatHistory;
      l.quatHistory := seq(|before|, i requires 0 <= i < |before| =>
                           if i < frames then slerp(prev, qnew, i, frames) else before[i]);
      l.quatPrev := qnew;
      l.posHistory := Push(l.posHistory, l.pose.pos);
    }
  }
}
