/** Harvesting of the pipeline-statistics queries that measure how many
    cubes the compute-culling path drew (Window/scene.cpp,
    Scene::ReadQueries). Frame `f` was measured by the query in slot
    `f % MAX_QUERY`; queries are consumed strictly in frame order, starting
    at the oldest frame not yet harvested, and harvesting stops at the
    first query whose data is not available yet. */
module QueryHarvest {

  /** What GetData reports for one query: not available yet, or the
      statistics with the number of primitives the input assembler read. */
  datatype QueryData = NotReady | Ready(iaPrimitives: nat)

  /** The two fields ReadQueries updates. */
  datatype HarvestState = HarvestState(lastCompletedFrame: nat, cubesCountGPU: int)

  const TwoTo31: int := 0x8000_0000
  const TwoTo32: int := 0x1_0000_0000

  /** The `int(...)` conversion of an unsigned value to a 32-bit signed
      integer: the value modulo 2^32, read as two's complement. */
  function Int32Of(v: nat): (r: int)
    ensures -TwoTo31 <= r < TwoTo31
    ensures (r - v) % TwoTo32 == 0
  {
    var m := v % TwoTo32;
    if m < TwoTo31 then m else m - TwoTo32
  }

  /** Below 2^31 the conversion keeps the value. */
  lemma Int32OfSmall(v: nat)
    requires v < TwoTo31
    ensures Int32Of(v) == v
  {
  }

  /** A cube is drawn as 12 triangles, so the primitive count divided by
      12 is the number of cubes drawn. */
  const PrimitivesPerCube: nat := 12

  /** The cube count one query reports. */
  function CubesReported(iaPrimitives: nat): int
  {
    Int32Of(iaPrimitives / PrimitivesPerCube)
  }

  /** The state ReadQueries leaves, starting from frame `last` with the
      frame counter at `cur` and the GPU count at `gpu`; `poll(slot)` is
      what GetData reports for the query in `slot` during this call. */
  function Harvest(last: nat, cur: nat, maxQuery: nat, poll: nat -> QueryData, gpu: int): HarvestState
    requires maxQuery > 0
    decreases cur - last
  {
    if last < cur then
      match poll(last % maxQuery)
      case Ready(p) => Harvest(last + 1, cur, maxQuery, poll, CubesReported(p))
      case NotReady => HarvestState(last, gpu)
    else
      HarvestState(last, gpu)
  }

  /** Harvesting never moves backwards and never passes the frame
      counter; with nothing outstanding it changes nothing. */
  lemma {:induction false} HarvestBounds(last: nat, cur: nat, maxQuery: nat, poll: nat -> QueryData, gpu: int)
    requires maxQuery > 0
    ensures last <= Harvest(last, cur, maxQuery, poll, gpu).lastCompletedFrame
    ensures last <= cur ==> Harvest(last, cur, maxQuery, poll, gpu).lastCompletedFrame <= cur
    ensures last >= cur ==> Harvest(last, cur, maxQuery, poll, gpu) == HarvestState(last, gpu)
    decreases cur - last
  {
    if last < cur && poll(last % maxQuery).Ready? {
      HarvestBounds(last + 1, cur, maxQuery, poll, CubesReported(poll(last % maxQuery).iaPrimitives));
    }
  }

  /** Every frame harvested had its query ready, in slot frame % MAX_QUERY. */
  lemma {:induction false} HarvestedWereReady(last: nat, cur: nat, maxQuery: nat, poll: nat -> QueryData, gpu: int, f: nat)
    requires maxQuery > 0
    requires last <= f < Harvest(last, cur, maxQuery, poll, gpu).lastCompletedFrame
    ensures poll(f % maxQuery).Ready?
    decreases cur - last
  {
    if f > last {
      HarvestedWereReady(last + 1, cur, maxQuery, poll, CubesReported(poll(last % maxQuery).iaPrimitives), f);
    }
  }

  /** Harvesting that stops short of the frame counter stopped at a frame
      whose query was not ready. */
  lemma {:induction false} HarvestStopsAtNotReady(last: nat, cur: nat, maxQuery: nat, poll: nat -> QueryData, gpu: int)
    requires maxQuery > 0
    requires Harvest(last, cur, maxQuery, poll, gpu).lastCompletedFrame < cur
    ensures poll(Harvest(last, cur, maxQuery, poll, gpu).lastCompletedFrame % maxQuery) == NotReady
    decreases cur - last
  {
    if poll(last % maxQuery).Ready? {
      HarvestStopsAtNotReady(last + 1, cur, maxQuery, poll, CubesReported(poll(last % maxQuery).iaPrimitives));
    }
  }

  /** The GPU cube count comes from the last query harvested, and is left
      alone when none was. */
  lemma {:induction false} HarvestCount(last: nat, cur: nat, maxQuery: nat, poll: nat -> QueryData, gpu: int)
    requires maxQuery > 0
    ensures var r := Harvest(last, cur, maxQuery, poll, gpu);
            if r.lastCompletedFrame == last then r.cubesCountGPU == gpu
            else poll((r.lastCompletedFrame - 1) % maxQuery).Ready? &&
                 r.cubesCountGPU == CubesReported(poll((r.lastCompletedFrame - 1) % maxQuery).iaPrimitives)
    decreases cur - last
  {
    if last < cur && poll(last % maxQuery).Ready? {
      var p := poll(last % maxQuery).iaPrimitives;
      HarvestCount(last + 1, cur, maxQuery, poll, CubesReported(p));
      HarvestBounds(last + 1, cur, maxQuery, poll, CubesReported(p));
    }
  }

  /** Conversely, the frame where harvesting stops is determined: it is the
      frame `stop` such that every frame from `last` up to `stop` was ready
      and `stop` is either the frame counter or a frame that was not. */
  lemma {:induction false} HarvestStopsAt(last: nat, cur: nat, maxQuery: nat, poll: nat -> QueryData, gpu: int, stop: nat)
    requires maxQuery > 0
    requires last <= stop <= cur
    requires forall f :: last <= f < stop ==> poll(f % maxQuery).Ready?
    requires stop == cur || poll(stop % maxQuery) == NotReady
    ensures Harvest(last, cur, maxQuery, poll, gpu).lastCompletedFrame == stop
    decreases cur - last
  {
    if last < stop {
      HarvestStopsAt(last + 1, cur, maxQuery, poll, CubesReported(poll(last % maxQuery).iaPrimitives), stop);
    }
  }

  /** Four frames outstanding, eight query slots, the queries of frames 0
      and 1 ready with 36 and 120 primitives and frame 2's not yet:
      harvesting stops at frame 2 with the count of frame 1, 10 cubes. */
  lemma HarvestScenario()
    ensures Harvest(0, 4, 8, s => if s == 0 then Ready(36) else if s == 1 then Ready(120) else NotReady, -1)
            == HarvestState(2, 10)
  {
  }
}
