/** The per-frame render step and the progressive sample counter of
    MainScript (`Render`, `Update`), as a state machine over the fields they
    read and write. The class in module Script keeps these fields and is
    proved against the step functions here. */
module Rendering {

  /** `sampleCount` is a C# `uint`: `sampleCount++` wraps modulo 2^32. */
  const UINT_MODULUS: nat := 0x1_0000_0000
  /** Edge of the compute kernel's work-group tile, in pixels. */
  const TILE: int := 8

  /** `Mathf.CeilToInt(n / 8.0f)`: the fewest 8-pixel tiles that cover `n` pixels. */
  function TilesCovering(n: int): (t: int)
    ensures TILE * (t - 1) < n <= TILE * t
  {
    (n + TILE - 1) / TILE
  }

  /** Thread-group counts of a `Dispatch` call. */
  datatype Grid = Grid(x: int, y: int, z: int)

  /** The dispatch grid: one group per 8x8 tile of the screen, one layer deep. */
  function DispatchGrid(width: int, height: int): (g: Grid)
    ensures g.z == 1
    ensures TILE * (g.x - 1) < width <= TILE * g.x
    ensures TILE * (g.y - 1) < height <= TILE * g.y
  {
    Grid(TilesCovering(width), TilesCovering(height), 1)
  }

  /** The fields `Render` and `Update` touch: whether `texture` has been created,
      `sampleCount`, and the `hasChanged` flags of the camera's and the
      light's transforms. */
  datatype RenderState = RenderState(textureAllocated: bool, sampleCount: nat,
                                     cameraChanged: bool, lightChanged: bool)

  predicate CounterInRange(st: RenderState)
  {
    st.sampleCount < UINT_MODULUS
  }

  /** What one `Render` hands to the GPU that the model keeps: the dispatch
      grid and the sample index given to the blend material. */
  datatype FrameOutput = FrameOutput(grid: Grid, sampleNum: nat)

  /** `Render`: allocate the texture on first use, restarting the count;
      dispatch over the screen; blend with the current count; count the
      sample. */
  function RenderStep(st: RenderState, width: int, height: int): (r: (RenderState, FrameOutput))
    ensures r.0.textureAllocated
    ensures r.1.sampleNum == if st.textureAllocated then st.sampleCount else 0
    ensures r.0.sampleCount == (r.1.sampleNum + 1) % UINT_MODULUS && CounterInRange(r.0)
    ensures r.0.cameraChanged == st.cameraChanged && r.0.lightChanged == st.lightChanged
    ensures r.1.grid == DispatchGrid(width, height)
  {
    var ready := if st.textureAllocated then st else st.(textureAllocated := true, sampleCount := 0);
    var out := FrameOutput(DispatchGrid(width, height), ready.sampleCount);
    (ready.(sampleCount := (ready.sampleCount + 1) % UINT_MODULUS), out)
  }

  /** `Update`: a raised flag restarts the count and both flags are cleared;
      with neither raised nothing changes. */
  function UpdateStep(st: RenderState): (r: RenderState)
    ensures !r.cameraChanged && !r.lightChanged
    ensures r.textureAllocated == st.textureAllocated
    ensures r.sampleCount == if st.cameraChanged || st.lightChanged then 0 else st.sampleCount
  {
    if st.cameraChanged || st.lightChanged then
      st.(sampleCount := 0, cameraChanged := false, lightChanged := false)
    else
      st
  }

  /** One frame as the engine drives it: transforms that moved raise their
      `hasChanged` flag, then `Update` runs, then the image is rendered
      (`OnRenderImage` calls `Render`). */
  datatype Frame = Frame(cameraMoved: bool, lightMoved: bool, width: int, height: int)

  function RunFrame(st: RenderState, f: Frame): (r: (RenderState, FrameOutput))
    ensures r.1.sampleNum == if Restarts(st, f) then 0 else st.sampleCount
    ensures r.0.sampleCount == (r.1.sampleNum + 1) % UINT_MODULUS
    ensures r.0.textureAllocated && !r.0.cameraChanged && !r.0.lightChanged
    ensures r.1.grid == DispatchGrid(f.width, f.height)
  {
    var raised := st.(cameraChanged := st.cameraChanged || f.cameraMoved,
                      lightChanged := st.lightChanged || f.lightMoved);
    RenderStep(UpdateStep(raised), f.width, f.height)
  }

  /** The state after `frames`, and the sample index blended in each of them. */
  function Run(st: RenderState, frames: seq<Frame>): (r: (RenderState, seq<nat>))
    ensures |r.1| == |frames|
    decreases |frames|
  {
    if frames == [] then (st, [])
    else
      var step := RunFrame(st, frames[0]);
      var rest := Run(step.0, frames[1..]);
      (rest.0, [step.1.sampleNum] + rest.1)
  }

  /** Nothing moved in the frame. */
  predicate Still(f: Frame)
  {
    !f.cameraMoved && !f.lightMoved
  }

  /** The frame blends the first sample of a new accumulation: the texture is
      about to be created, or a transform moved or had already been flagged. */
  predicate Restarts(st: RenderState, f: Frame)
  {
    !st.textureAllocated || st.cameraChanged || st.lightChanged || f.cameraMoved || f.lightMoved
  }

  // ---------------------------------------------------------------------------

  /** A still frame with the texture created and both flags clear blends
      the current count and counts one sample, modulo 2^32. */
  lemma StillFrameStep(st: RenderState, f: Frame)
    requires st.textureAllocated && !st.cameraChanged && !st.lightChanged && Still(f)
    ensures RunFrame(st, f).1.sampleNum == st.sampleCount
    ensures RunFrame(st, f).0 == st.(sampleCount := (st.sampleCount + 1) % UINT_MODULUS)
  {
  }

  /** The state after a run of still frames: the count has advanced by the
      number of frames, modulo 2^32. */
  lemma {:induction false} StillFramesFinalState(st: RenderState, frames: seq<Frame>)
    requires st.textureAllocated && !st.cameraChanged && !st.lightChanged && CounterInRange(st)
    requires forall k :: 0 <= k < |frames| ==> Still(frames[k])
    ensures Run(st, frames).0 == st.(sampleCount := (st.sampleCount + |frames|) % UINT_MODULUS)
    decreases |frames|
  {
    if frames == [] {
      SmallRemainder(st.sampleCount);
    } else {
      StillFrameStep(st, frames[0]);
      var next := RunFrame(st, frames[0]).0;
      assert forall k :: 0 <= k < |frames[1..]| ==> Still(frames[1..][k]);
      StillFramesFinalState(next, frames[1..]);
      ShiftedRemainder(st.sampleCount + 1, |frames| - 1);
    }
  }

  /** Frame `k` of a run of still frames blends (count + k) modulo 2^32. */
  lemma {:induction false} StillFrameIndex(st: RenderState, frames: seq<Frame>, k: nat)
    requires st.textureAllocated && !st.cameraChanged && !st.lightChanged && CounterInRange(st)
    requires forall j :: 0 <= j < |frames| ==> Still(frames[j])
    requires k < |frames|
    ensures Run(st, frames).1[k] == (st.sampleCount + k) % UINT_MODULUS
    decreases k
  {
    var c := st.sampleCount;
    StillFrameStep(st, frames[0]);
    var next := RunFrame(st, frames[0]).0;
    var rest := Run(next, frames[1..]);
    assert Run(st, frames).1 == [c] + rest.1;
    if k == 0 {
      SmallRemainder(c);
    } else {
      assert forall j :: 0 <= j < |frames[1..]| ==> Still(frames[1..][j]);
      StillFrameIndex(next, frames[1..], k - 1);
      ShiftedRemainder(c + 1, k - 1);
    }
  }

  /** While nothing moves, the blend receives consecutive sample indices
      starting from the current count, and the count advances by one per frame,
      both modulo 2^32 once they reach the top of the `uint` range. */
  lemma StillFramesCountUp(st: RenderState, frames: seq<Frame>)
    requires st.textureAllocated && !st.cameraChanged && !st.lightChanged && CounterInRange(st)
    requires forall k :: 0 <= k < |frames| ==> Still(frames[k])
    ensures forall k :: 0 <= k < |frames| ==> Run(st, frames).1[k] == (st.sampleCount + k) % UINT_MODULUS
    ensures Run(st, frames).0 == st.(sampleCount := (st.sampleCount + |frames|) % UINT_MODULUS)
  {
    forall k | 0 <= k < |frames|
      ensures Run(st, frames).1[k] == (st.sampleCount + k) % UINT_MODULUS
    {
      StillFrameIndex(st, frames, k);
    }
    StillFramesFinalState(st, frames);
  }

  /** Reducing modulo 2^32 before adding `k` gives the same remainder. */
  lemma ShiftedRemainder(a: nat, k: nat)
    ensures (a % UINT_MODULUS + k) % UINT_MODULUS == (a + k) % UINT_MODULUS
  {
  }

  /** A count already in range is its own remainder. */
  lemma SmallRemainder(c: nat)
    requires c < UINT_MODULUS
    ensures c % UINT_MODULUS == c
  {
  }

  /** A frame that restarts the accumulation blends sample 0 and leaves the
      flags clear and the texture created with one sample counted. */
  lemma RestartBlendsFirstSample(st: RenderState, f: Frame)
    requires Restarts(st, f)
    ensures RunFrame(st, f).1.sampleNum == 0
    ensures RunFrame(st, f).0 == RenderState(true, 1, false, false)
  {
  }

  /** Without a restart the frame blends the current count. */
  lemma NoRestartBlendsCurrentCount(st: RenderState, f: Frame)
    requires !Restarts(st, f)
    ensures RunFrame(st, f).1.sampleNum == st.sampleCount
  {
  }

  /** After a moving frame (or the first one), a run of still frames blends the
      indices 0, 1, 2, ... in order, wrapping to 0 after 2^32 - 1. */
  lemma {:induction false} RestartThenCountUp(st: RenderState, frames: seq<Frame>)
    requires |frames| >= 1 && Restarts(st, frames[0])
    requires forall k :: 1 <= k < |frames| ==> Still(frames[k])
    ensures forall k :: 0 <= k < |frames| ==> Run(st, frames).1[k] == k % UINT_MODULUS
  {
    RestartBlendsFirstSample(st, frames[0]);
    var next := RunFrame(st, frames[0]).0;
    assert forall k :: 0 <= k < |frames[1..]| ==> Still(frames[1..][k]);
    StillFramesCountUp(next, frames[1..]);
  }

  /** The counter is a `uint`: the still frame after the one that blended
      2^32 - 1 leaves the count at 0 again. */
  lemma CounterWrapsAtTop(st: RenderState, f: Frame)
    requires st.textureAllocated && !st.cameraChanged && !st.lightChanged && Still(f)
    requires st.sampleCount == UINT_MODULUS - 1
    ensures RunFrame(st, f).1.sampleNum == UINT_MODULUS - 1
    ensures RunFrame(st, f).0.sampleCount == 0
  {
  }
}
