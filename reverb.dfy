/** The fixed-size circular delay line `StaticDelayLine<N,T>` and the output
    taps of the plate reverberator that reads it (include/allocore/sound/al_Reverb.hpp).
    Samples are modelled as `real`: the line is generic in its element type,
    and its logic never depends on floating point. */
module Reverb {

  /** The N values held by a line whose array is `buf` and whose write cursor
      is `pos`, oldest first: `buf[pos]` was written N writes ago and is the
      slot the next write overwrites, `buf[pos-1]` was written last. */
  function Window(buf: seq<real>, pos: nat): (w: seq<real>)
    requires pos < |buf|
    ensures |w| == |buf|
  {
    buf[pos..] + buf[..pos]
  }

  /** Position `k` of the window is the array slot `k` places after the cursor. */
  lemma WindowAt(buf: seq<real>, pos: nat, k: nat)
    requires pos < |buf| && k < |buf|
    ensures Window(buf, pos)[k] == buf[(pos + k) % |buf|]
  {
    WrapOnce(pos + k, |buf|);
    if pos + k < |buf| {
      assert Window(buf, pos)[k] == buf[pos..][k];
    } else {
      assert Window(buf, pos)[k] == buf[..pos][k - (|buf| - pos)];
    }
  }

  /** An index below twice the length wraps at most once. */
  lemma WrapOnce(x: int, n: int)
    requires 0 <= x < 2 * n
    ensures x < n ==> x % n == x
    ensures n <= x ==> x % n == x - n
  {
  }

  /** The cursor after one write: one slot on, wrapping from N - 1 to 0. */
  function Advance(p: nat, n: nat): (q: nat)
    requires p < n
    ensures q < n && q == (p + 1) % n
  {
    if p + 1 < n then p + 1 else 0
  }

  /** A shift register step: the oldest value leaves, `v` becomes the newest. */
  function ShiftIn(w: seq<real>, v: real): (r: seq<real>)
    requires |w| > 0
    ensures |r| == |w| && r[|r| - 1] == v
    ensures forall k :: 0 <= k < |w| - 1 ==> r[k] == w[k + 1]
  {
    w[1..] + [v]
  }

  /** The window after a whole sequence of writes, one `ShiftIn` per value. */
  function ShiftAll(w: seq<real>, ws: seq<real>): (r: seq<real>)
    requires |w| > 0
    ensures |r| == |w|
    decreases |ws|
  {
    if ws == [] then w else ShiftAll(ShiftIn(w, ws[0]), ws[1..])
  }

  /** Storing `v` at the cursor and advancing the cursor with wrap-around is
      exactly one shift-register step on the window. */
  lemma WindowAfterWrite(buf: seq<real>, pos: nat, v: real)
    requires pos < |buf|
    ensures Window(buf[pos := v], Advance(pos, |buf|)) == ShiftIn(Window(buf, pos), v)
  {
    var b := buf[pos := v];
    var w := Window(buf, pos);
    assert w[1..] == buf[pos + 1..] + buf[..pos];
    if pos + 1 < |buf| {
      assert b[pos + 1..] == buf[pos + 1..];
      assert b[..pos + 1] == buf[..pos] + [v];
      calc {
        Window(b, pos + 1);
        b[pos + 1..] + b[..pos + 1];
        buf[pos + 1..] + (buf[..pos] + [v]);
        w[1..] + [v];
      }
    } else {
      assert b == buf[..pos] + [v];
      assert Window(b, 0) == b;
    }
  }

  /** After the writes `ws`, the window is the last N values of the initial
      window followed by `ws`. */
  lemma {:induction false} ShiftAllIsSuffix(w: seq<real>, ws: seq<real>)
    requires |w| > 0
    ensures ShiftAll(w, ws) == (w + ws)[|ws|..]
    decreases |ws|
  {
    if ws != [] {
      ShiftAllIsSuffix(ShiftIn(w, ws[0]), ws[1..]);
      assert ShiftIn(w, ws[0]) + ws[1..] == (w + ws)[1..];
    }
  }

  /** One more write after the writes `ws` is one more `ShiftIn`, so the
      view after k successive `Write` calls is `ShiftAll` of the k values. */
  lemma ShiftAllSnoc(w: seq<real>, ws: seq<real>, v: real)
    requires |w| > 0
    ensures ShiftAll(w, ws + [v]) == ShiftIn(ShiftAll(w, ws), v)
  {
    ShiftAllIsSuffix(w, ws + [v]);
    ShiftAllIsSuffix(w, ws);
    assert w + (ws + [v]) == (w + ws) + [v];
  }

  /** The delay semantics of the window: after the writes `ws`, position
      `N - k` holds the value written `k` writes ago (for 1 <= k <= N), or,
      when fewer than `k` writes happened, what the line held before them. */
  lemma ReadAfterWrites(w: seq<real>, ws: seq<real>, k: nat)
    requires 1 <= k <= |w|
    ensures |ShiftAll(w, ws)| == |w|
    ensures k <= |ws| ==> ShiftAll(w, ws)[|w| - k] == ws[|ws| - k]
    ensures k > |ws| ==> ShiftAll(w, ws)[|w| - k] == w[|ws| + |w| - k]
  {
    ShiftAllIsSuffix(w, ws);
  }

  /** `StaticDelayLine<N,T>`: the array `mBuf[N]` and the write cursor `mPos`. */
  class StaticDelayLine {
    const buf: array<real>
    var pos: int

    ghost predicate Valid()
      reads this
    {
      0 < buf.Length && 0 <= pos < buf.Length
    }

    /** The values in the line, oldest first. */
    ghost function Contents(): (w: seq<real>)
      reads this, buf
      requires Valid()
      ensures |w| == buf.Length
    {
      Window(buf[..], pos)
    }

    /** The default constructor: cursor at 0, then `zero()`. A C++ array
        member cannot have zero length, so N is positive. */
    constructor (n: nat)
      requires 0 < n
      ensures Valid() && fresh(buf) && buf.Length == n && pos == 0
      ensures forall j :: 0 <= j < n ==> buf[j] == 0.0
      ensures Contents() == seq(n, _ => 0.0)
    {
      buf := new real[n];
      pos := 0;
      new;
      Zero();
    }

    /** `size()`: the capacity N, which is the number of values in the line. */
    function Size(): (n: int)
      reads this
      requires Valid()
      ensures n == buf.Length && n > 0
    {
      buf.Length
    }

    /** `pos()`: the absolute index of the write tap. */
    function Pos(): (p: int)
      reads this
      requires Valid()
      ensures 0 <= p < Size() && p == pos
    {
      pos
    }

    /** `indexBack()`: the slot after the write tap, wrapping to 0. */
    function IndexBack(): (i: int)
      reads this
      requires Valid()
      ensures 0 <= i < buf.Length
      ensures i == (pos + 1) % buf.Length
    {
      var i := Pos() + 1;
      if i < Size() then i else 0
    }

    /** `back()`: the element at `indexBack()`. That is the value written
        N - 1 writes ago (for N of at least 2), the one that becomes the oldest
        once the next write has happened. */
    function Back(): (x: real)
      reads this, buf
      requires Valid()
      ensures x == buf[(pos + 1) % buf.Length]
      ensures buf.Length >= 2 ==> x == Contents()[1]
      ensures buf.Length == 1 ==> x == Contents()[0]
    {
      buf[IndexBack()]
    }

    /** `read(i)`: the value at delay `i`. The cursor minus `i` is wrapped
        once, upwards only, so the delays the line serves are 0 to N. */
    function Read(i: int): (x: real)
      reads this, buf
      requires Valid()
      requires 0 <= i <= buf.Length
      ensures 1 <= i ==> x == Contents()[buf.Length - i]
      ensures i == 0 ==> x == Contents()[0]
    {
      WindowAt(buf[..], pos, (buf.Length - i) % buf.Length);
      var ind := Pos() - i;
      var ind := if ind < 0 then ind + Size() else ind;
      buf[ind]
    }

    /** `write(v)`: store at the cursor, then advance it with wrap-around. */
    method Write(v: real)
      requires Valid()
      modifies this`pos, buf
      ensures Valid()
      ensures buf[old(pos)] == v
      ensures forall j :: 0 <= j < buf.Length && j != old(pos) ==> buf[j] == old(buf[j])
      ensures pos == Advance(old(pos), buf.Length)
      ensures Contents() == ShiftIn(old(Contents()), v)
    {
      ghost var before, p := buf[..], pos;
      WindowAfterWrite(before, p, v);
      buf[pos] := v;
      assert buf[..] == before[p := v];
      pos := pos + 1;
      if pos >= buf.Length {
        pos := 0;
      }
      assert pos == Advance(p, buf.Length);
    }

    /** `operator()(v)`: return the oldest value, then write `v`. */
    method Apply(v: real) returns (r: real)
      requires Valid()
      modifies this`pos, buf
      ensures r == old(buf[pos]) && r == old(Contents())[0]
      ensures Valid()
      ensures buf[old(pos)] == v
      ensures forall j :: 0 <= j < buf.Length && j != old(pos) ==> buf[j] == old(buf[j])
      ensures pos == Advance(old(pos), buf.Length)
      ensures Contents() == ShiftIn(old(Contents()), v)
    {
      r := buf[pos];
      Write(v);
    }

    /** `comb(v, ffd, fbk)`: a comb filter whose delay is the whole line. The
        oldest value `d` is fed back into the line as `v + d*fbk`, and the
        output is `d` plus that new value times `ffd`. */
    method Comb(v: real, ffd: real, fbk: real) returns (out: real)
      requires Valid()
      modifies this`pos, buf
      ensures Valid()
      ensures out == old(Contents())[0] + (v + old(Contents())[0] * fbk) * ffd
      ensures Contents() == ShiftIn(old(Contents()), v + old(Contents())[0] * fbk)
      ensures buf[old(pos)] == v + old(buf[pos]) * fbk
      ensures forall j :: 0 <= j < buf.Length && j != old(pos) ==> buf[j] == old(buf[j])
      ensures pos == Advance(old(pos), buf.Length)
    {
      var d := buf[pos];
      assert d == old(Contents())[0];
      var r := v + d * fbk;
      Write(r);
      assert r == v + old(Contents())[0] * fbk;
      assert Contents() == ShiftIn(old(Contents()), v + old(Contents())[0] * fbk);
      out := d + r * ffd;
    }

    /** `zero()`: every element becomes 0; the cursor stays. */
    method Zero()
      requires Valid()
      modifies buf
      ensures forall j :: 0 <= j < buf.Length ==> buf[j] == 0.0
      ensures Contents() == seq(buf.Length, _ => 0.0)
    {
      forall j | 0 <= j < buf.Length {
        buf[j] := 0.0;
      }
    }
  }

  /** The declared sizes of the plate reverberator's delay lines. */
  const PreDelaySize := 10
  const APIn1Size := 142
  const APIn2Size := 107
  const APIn3Size := 379
  const APIn4Size := 277
  const APDecay11Size := 672
  const APDecay12Size := 1800
  const Dly11Size := 4453
  const Dly12Size := 3720
  const APDecay21Size := 908
  const APDecay22Size := 2656
  const Dly21Size := 4217
  const Dly22Size := 3163

  /** The delay lines of `Reverb<T>`, with their declared sizes. The filter
      network that feeds them is not modelled; `Output` is the tap stage. */
  class PlateReverb {
    const preDelay: StaticDelayLine
    const apIn1: StaticDelayLine
    const apIn2: StaticDelayLine
    const apIn3: StaticDelayLine
    const apIn4: StaticDelayLine
    const apDecay11: StaticDelayLine
    const apDecay12: StaticDelayLine
    const dly11: StaticDelayLine
    const dly12: StaticDelayLine
    const apDecay21: StaticDelayLine
    const apDecay22: StaticDelayLine
    const dly21: StaticDelayLine
    const dly22: StaticDelayLine

    ghost predicate Valid()
      reads this, preDelay, apIn1, apIn2, apIn3, apIn4, apDecay11, apDecay12,
        dly11, dly12, apDecay21, apDecay22, dly21, dly22
    {
      && preDelay.Valid() && preDelay.buf.Length == PreDelaySize
      && apIn1.Valid() && apIn1.buf.Length == APIn1Size
      && apIn2.Valid() && apIn2.buf.Length == APIn2Size
      && apIn3.Valid() && apIn3.buf.Length == APIn3Size
      && apIn4.Valid() && apIn4.buf.Length == APIn4Size
      && apDecay11.Valid() && apDecay11.buf.Length == APDecay11Size
      && apDecay12.Valid() && apDecay12.buf.Length == APDecay12Size
      && dly11.Valid() && dly11.buf.Length == Dly11Size
      && dly12.Valid() && dly12.buf.Length == Dly12Size
      && apDecay21.Valid() && apDecay21.buf.Length == APDecay21Size
      && apDecay22.Valid() && apDecay22.buf.Length == APDecay22Size
      && dly21.Valid() && dly21.buf.Length == Dly21Size
      && dly22.Valid() && dly22.buf.Length == Dly22Size
    }

    constructor ()
      ensures Valid()
    {
      preDelay := new StaticDelayLine(PreDelaySize);
      apIn1 := new StaticDelayLine(APIn1Size);
      apIn2 := new StaticDelayLine(APIn2Size);
      apIn3 := new StaticDelayLine(APIn3Size);
      apIn4 := new StaticDelayLine(APIn4Size);
      apDecay11 := new StaticDelayLine(APDecay11Size);
      apDecay12 := new StaticDelayLine(APDecay12Size);
      dly11 := new StaticDelayLine(Dly11Size);
      dly12 := new StaticDelayLine(Dly12Size);
      apDecay21 := new StaticDelayLine(APDecay21Size);
      apDecay22 := new StaticDelayLine(APDecay22Size);
      dly21 := new StaticDelayLine(Dly21Size);
      dly22 := new StaticDelayLine(Dly22Size);
    }

    /** The two wet outputs of `operator()`: signed sums of fourteen fixed taps
        into six of the lines, scaled by `gain`. Every tap is a delay the line
        it reads can serve (0 to its size), so each is the value written that
        many writes ago. */
    method Output(gain: real) returns (out1: real, out2: real)
      requires Valid()
      ensures out1 == (  dly21.Contents()[Dly21Size - 266]
                       + dly21.Contents()[Dly21Size - 2974]
                       - apDecay22.Contents()[APDecay22Size - 1913]
                       + dly22.Contents()[Dly22Size - 1996]
                       - dly11.Contents()[Dly11Size - 1990]
                       - apDecay12.Contents()[APDecay12Size - 187]
                       - dly12.Contents()[Dly12Size - 1066]) * gain
      ensures out2 == (  dly11.Contents()[Dly11Size - 353]
                       + dly11.Contents()[Dly11Size - 3627]
                       - apDecay12.Contents()[APDecay12Size - 1228]
                       + dly12.Contents()[Dly12Size - 2673]
                       - dly21.Contents()[Dly21Size - 2111]
                       - apDecay22.Contents()[APDecay22Size - 335]
                       - dly22.Contents()[Dly22Size - 121]) * gain
    {
      out1 := (  dly21.Read(266)
               + dly21.Read(2974)
               - apDecay22.Read(1913)
               + dly22.Read(1996)
               - dly11.Read(1990)
               - apDecay12.Read(187)
               - dly12.Read(1066)) * gain;
      out2 := (  dly11.Read(353)
               + dly11.Read(3627)
               - apDecay12.Read(1228)
               + dly12.Read(2673)
               - dly21.Read(2111)
               - apDecay22.Read(335)
               - dly22.Read(121)) * gain;
    }
  }
}
