/** Values shared by the spatial-audio scene (allocore/allocore/sound/al_AudioScene.hpp):
    geometry, speakers, the audio block, the C++ double-to-int conversions the
    scene relies on, and the containers it uses (a four-slot shift buffer,
    `std::list::remove`, `std::vector::resize`). */
module SceneBasics {

  datatype Option<T> = None | Some(value: T)

  datatype Vec3 = Vec3(x: real, y: real, z: real)
  {
    function Plus(v: Vec3): Vec3 { Vec3(x + v.x, y + v.y, z + v.z) }
    function Minus(v: Vec3): Vec3 { Vec3(x - v.x, y - v.y, z - v.z) }
    function Times(k: real): Vec3 { Vec3(x * k, y * k, z * k) }
  }
  const Origin := Vec3(0.0, 0.0, 0.0)

  datatype Quat = Quat(w: real, x: real, y: real, z: real)
  const IdentityQuat := Quat(1.0, 0.0, 0.0, 0.0)

  datatype Pose = Pose(pos: Vec3, quat: Quat)

  /** A speaker of a layout; its fields are carried, never interpreted. */
  datatype Speaker = Speaker(deviceChannel: int, azimuth: real, elevation: real)
  datatype SpeakerLayout = SpeakerLayout(speakers: seq<Speaker>)

  /** What `render` asks of the audio block: `framesPerBuffer()` and
      `framesPerSecond()`. */
  datatype AudioBlock = AudioBlock(framesPerBuffer: int, framesPerSecond: real)

  /** The C++ conversion `int i = x;` of a double: truncation toward zero. */
  function Trunc(x: real): int
  {
    if 0.0 <= x then x.Floor else -((-x).Floor)
  }

  /** Truncation moves a value toward zero by less than one. (Stated as a
      lemma rather than on `Trunc` itself, so that proofs about products of
      reals do not see these bounds unless they ask for them.) */
  lemma TruncBounds(x: real)
    ensures 0.0 <= x ==> 0 <= Trunc(x) && Trunc(x) as real <= x < Trunc(x) as real + 1.0
    ensures x < 0.0 ==> Trunc(x) <= 0 && Trunc(x) as real - 1.0 < x <= Trunc(x) as real
  {
  }

  /** `ceil(x)`: the least integer not below `x`. */
  function Ceil(x: real): (n: int)
    ensures n as real - 1.0 < x <= n as real
  {
    -((-x).Floor)
  }

  /** Adding a whole number of samples moves the truncated value by at most
      that much (exactly that much unless the sum crosses zero). */
  lemma TruncShift(x: real, k: nat)
    ensures Trunc(x + k as real) <= Trunc(x) + k
  {
    var y := x + k as real;
    TruncBounds(x);
    TruncBounds(y);
    if x < 0.0 && 0.0 <= y {
      assert Trunc(x) as real - 1.0 < x;
      assert Trunc(y) as real <= y;
    }
  }

  /** An index that `readSample` may be given: a delay of zero or more
      samples whose truncation leaves room for the second interpolation tap
      (`index0 + 1`) inside a buffer whose largest usable index is `maxIndex`. */
  predicate Readable(maxIndex: int, index: real)
  {
    0.0 <= index && Trunc(index) <= maxIndex
  }

  // ---- `ShiftBuffer<4, Vec3d>` ----------------------------------------------

  /** Number of slots in a position history. */
  const HistoryDepth := 4

  /** `buffer(v)`: the newest value enters slot 0 and every other value moves
      one slot up; the value in the last slot is dropped. Slot 0 being the
      newest is what `render`'s interpolation weights imply (slot 3 is
      weighted by 1 - alpha, slot 0 by alpha). */
  function Push(h: seq<Vec3>, v: Vec3): (r: seq<Vec3>)
    requires |h| == HistoryDepth
    ensures |r| == HistoryDepth && r[0] == v
    ensures forall k :: 1 <= k < HistoryDepth ==> r[k] == h[k - 1]
  {
    [v] + h[..HistoryDepth - 1]
  }

  /** `n` pushes of the same value. */
  function PushN(h: seq<Vec3>, v: Vec3, n: nat): (r: seq<Vec3>)
    requires |h| == HistoryDepth
    ensures |r| == HistoryDepth
  {
    if n == 0 then h else Push(PushN(h, v, n - 1), v)
  }

  /** After `n` pushes of one value, slot `k` holds that value if `k < n`
      and otherwise what slot `k - n` held before. */
  lemma {:induction false} PushNAt(h: seq<Vec3>, v: Vec3, n: nat, k: nat)
    requires |h| == HistoryDepth && k < HistoryDepth
    ensures PushN(h, v, n)[k] == if k < n then v else h[k - n]
  {
    if n > 0 && k > 0 {
      PushNAt(h, v, n - 1, k - 1);
      assert PushN(h, v, n)[k] == PushN(h, v, n - 1)[k - 1];
    }
  }

  /** So after as many pushes of one value as there are slots, every slot
      holds it, whatever the history held before. */
  lemma PushNFills(h: seq<Vec3>, v: Vec3, n: nat)
    requires |h| == HistoryDepth && HistoryDepth <= n
    ensures PushN(h, v, n) == seq(HistoryDepth, _ => v)
  {
    forall k | 0 <= k < HistoryDepth
      ensures PushN(h, v, n)[k] == v
    {
      PushNAt(h, v, n, k);
    }
  }

  // ---- occurrences in a list -------------------------------------------------

  /** How many of the first `n` entries of `s` are `x`. */
  function Occurrences<T(==)>(s: seq<T>, n: nat, x: T): nat
    requires n <= |s|
  {
    if n == 0 then 0 else Occurrences(s, n - 1, x) + if s[n - 1] == x then 1 else 0
  }

  /** Counting the first `n` entries is taking the multiplicity of `x` in
      that prefix; over the whole list it is `x`'s multiplicity. */
  lemma {:induction false} OccurrencesMultiplicity<T>(s: seq<T>, n: nat, x: T)
    requires n <= |s|
    ensures Occurrences(s, n, x) == multiset(s[..n])[x]
    ensures n == |s| ==> Occurrences(s, n, x) == multiset(s)[x]
  {
    if n > 0 {
      OccurrencesMultiplicity(s, n - 1, x);
      assert s[..n] == s[..n - 1] + [s[n - 1]];
    }
    assert s[..|s|] == s;
  }

  // ---- `std::list<SoundSource*>::remove` ------------------------------------

  /** The list with every element equal to `x` taken out, others in order. */
  function Removed<T(==)>(s: seq<T>, x: T): (r: seq<T>)
    decreases |s|
  {
    if s == [] then []
    else if s[|s| - 1] == x then Removed(s[..|s| - 1], x)
    else Removed(s[..|s| - 1], x) + [s[|s| - 1]]
  }

  /** Removal leaves no occurrence of `x`, keeps every other element with its
      multiplicity, and shrinks the list by the number of occurrences of `x`. */
  lemma {:induction false} RemovedCounts<T>(s: seq<T>, x: T)
    ensures x !in Removed(s, x)
    ensures forall y :: y != x ==> multiset(Removed(s, x))[y] == multiset(s)[y]
    ensures |Removed(s, x)| == |s| - multiset(s)[x]
    decreases |s|
  {
    if s != [] {
      var init, last := s[..|s| - 1], s[|s| - 1];
      assert s == init + [last];
      RemovedCounts(init, x);
    }
  }

  /** Removal works piecewise: removing from a concatenation concatenates the
      removals, so the elements that stay keep their relative order. */
  lemma {:induction false} RemovedAppend<T>(a: seq<T>, b: seq<T>, x: T)
    ensures Removed(a + b, x) == Removed(a, x) + Removed(b, x)
    decreases |b|
  {
    if b == [] {
      assert a + b == a;
    } else {
      var init, last := b[..|b| - 1], b[|b| - 1];
      assert a + b == (a + init) + [last];
      assert (a + b)[..|a + b| - 1] == a + init;
      RemovedAppend(a, init, x);
    }
  }

  /** An element that occurs nowhere is a no-op to remove. */
  lemma {:induction false} RemovedAbsent<T>(s: seq<T>, x: T)
    requires x !in s
    ensures Removed(s, x) == s
    decreases |s|
  {
    if s != [] {
      assert s == s[..|s| - 1] + [s[|s| - 1]];
      RemovedAbsent(s[..|s| - 1], x);
    }
  }

  /** Appending an element that was not in the list and then removing it
      gives the list back. */
  lemma AppendThenRemove<T>(s: seq<T>, x: T)
    requires x !in s
    ensures Removed(s + [x], x) == s
  {
    RemovedAppend(s, [x], x);
    RemovedAbsent(s, x);
    assert Removed([x], x) == Removed([], x);
  }

  // ---- `std::vector<Quatd>::resize` -----------------------------------------

  /** `resize(v)`: truncate to `v` elements, or extend with default ones. */
  function Resized(q: seq<Quat>, v: nat): (r: seq<Quat>)
    ensures |r| == v
    ensures forall k :: 0 <= k < v && k < |q| ==> r[k] == q[k]
    ensures forall k :: |q| <= k < v ==> r[k] == IdentityQuat
  {
    if v <= |q| then q[..v] else q + seq(v - |q|, _ => IdentityQuat)
  }
}
