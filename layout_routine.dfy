/** The master side of one force-directed layout run: it alternates the seeding and propagating
    computations, cools the temperatures between seedings, watches for convergence and, once the
    drawing has converged, drives the halting sequence (one-degree vertices reintegrated, a
    blank superstep, the drawing bounds explored, the components packed on a grid) before
    letting the run halt. */
module Layout {
  import opened Common
  import opened GridPacking

  /** Default fraction of settled vertices above which the drawing counts as converged. */
  const DefaultConvergenceThreshold: real := 0.85

  /** The vertex computations the master can install for the next superstep. */
  datatype Computation =
    | Seeder
    | Propagator
    | DrawingScaler
    | DrawingExplorer
    | LayoutCCs
    | Dummy
    | FairShareReintegrateOneEdges
    | Reintegration(className: string)

  /** The one-degree reintegration computation: the configured class when it names a loadable
      class, otherwise the fair-share reintegration (also when nothing is configured, since the
      default setting is not a loadable class name). */
  function SelectReintegration(configured: Option<string>, loadable: set<string>): (c: Computation)
    ensures c.Reintegration? <==> configured.Some? && configured.value in loadable
    ensures c.Reintegration? ==> c.className == configured.value
    ensures !c.Reintegration? ==> c == FairShareReintegrateOneEdges
  {
    if configured.Some? && configured.value in loadable then Reintegration(configured.value)
    else FairShareReintegrateOneEdges
  }

  // ---------------------------------------------------------------- convergence

  function Abs(a: int): nat
  {
    if a < 0 then -a else a
  }

  /** Integer division of 64-bit longs: the quotient is truncated toward zero. */
  function TruncDiv(a: int, b: int): int
    requires b != 0
  {
    var q := Abs(a) / Abs(b);
    if (a >= 0) == (b > 0) then q else -q
  }

  /** The convergence test as written: the number of settled vertices divided by the number
      of vertices in long arithmetic, then compared with the threshold. */
  function ConvergedAsWritten(settled: int, all: int, threshold: real): bool
    requires all > 0
  {
    TruncDiv(settled, all) as real > threshold
  }

  /** The convergence test as intended: the fraction of settled vertices exceeds the
      threshold. */
  function Converged(settled: int, all: int, threshold: real): bool
    requires all > 0
  {
    settled as real / all as real > threshold
  }

  /** The intended test holds exactly when more than `threshold` times the vertices settled. */
  lemma ConvergedIff(settled: int, all: int, threshold: real)
    requires all > 0
    ensures Converged(settled, all, threshold) <==> settled as real > threshold * all as real
  {
    var f := settled as real / all as real;
    assert f * all as real == settled as real;
    if f > threshold {
      assert f * all as real > threshold * all as real;
    } else {
      assert f * all as real <= threshold * all as real;
    }
  }

  /** With a threshold below one, the test as written holds only once every vertex has
      settled: the truncated quotient is zero before that. */
  lemma ConvergedAsWrittenNeedsAll(settled: int, all: int, threshold: real)
    requires all > 0 && settled >= 0 && 0.0 <= threshold < 1.0
    ensures ConvergedAsWritten(settled, all, threshold) <==> settled >= all
  {
    assert TruncDiv(settled, all) == settled / all;
    if settled < all {
      QuotientZero(settled, all);
    } else {
      QuotientAtLeastOne(settled, all);
    }
  }

  lemma QuotientZero(a: int, b: int)
    requires 0 <= a < b
    ensures a / b == 0
  {
    assert a == (a / b) * b + a % b && 0 <= a % b < b;
  }

  lemma QuotientAtLeastOne(a: int, b: int)
    requires 0 < b <= a
    ensures a / b >= 1
  {
    var q := a / b;
    var r := a % b;
    assert a == q * b + r && r < b;
  }

  /** With the default threshold, 90 settled vertices out of 100 are far above the threshold,
      yet the test as written does not see convergence. */
  lemma ConvergedAsWrittenMisses()
    ensures Converged(90, 100, DefaultConvergenceThreshold)
    ensures !ConvergedAsWritten(90, 100, DefaultConvergenceThreshold)
  {
    assert TruncDiv(90, 100) == 0;
  }

  // ---------------------------------------------------------------- the halting sequence

  /** What the halting sequence does at a given stage. */
  datatype HaltAction = StartReintegration | RunDummy | ExploreDrawing | LayoutComponents | Finish

  /** The stage `readyToSleep` of a halting sequence in progress. */
  function StageAction(readyToSleep: int): (a: HaltAction)
    ensures a == Finish <==> readyToSleep < 0 || readyToSleep > 3
  {
    if readyToSleep == 0 then StartReintegration
    else if readyToSleep == 1 then RunDummy
    else if readyToSleep == 2 then ExploreDrawing
    else if readyToSleep == 3 then LayoutComponents
    else Finish
  }

  /** The actions of `n` consecutive calls of the halting sequence from stage `readyToSleep`;
      every action but `Finish` advances the stage by one. */
  function HaltActions(readyToSleep: int, n: nat): (actions: seq<HaltAction>)
    ensures |actions| == n
    decreases n
  {
    if n == 0 then []
    else
      var a := StageAction(readyToSleep);
      [a] + HaltActions(if a == Finish then readyToSleep else readyToSleep + 1, n - 1)
  }

  /** Once started, the sequence reintegrates, runs a blank superstep, explores the drawing,
      packs the components, and then finishes on every later call. */
  lemma HaltingSequenceOrder(n: nat)
    requires n >= 4
    ensures HaltActions(0, n)[..4] == [StartReintegration, RunDummy, ExploreDrawing, LayoutComponents]
    ensures forall i :: 4 <= i < n ==> HaltActions(0, n)[i] == Finish
  {
    FinishForever(4, n - 4);
    assert HaltActions(3, n - 3) == [LayoutComponents] + HaltActions(4, n - 4);
    assert HaltActions(2, n - 2) == [ExploreDrawing] + HaltActions(3, n - 3);
    assert HaltActions(1, n - 1) == [RunDummy] + HaltActions(2, n - 2);
    assert HaltActions(0, n) == [StartReintegration] + HaltActions(1, n - 1);
  }

  lemma {:induction false} FinishForever(readyToSleep: int, n: nat)
    requires readyToSleep > 3
    ensures forall i :: 0 <= i < n ==> HaltActions(readyToSleep, n)[i] == Finish
  {
    if n > 0 {
      FinishForever(readyToSleep, n - 1);
      assert HaltActions(readyToSleep, n) == [Finish] + HaltActions(readyToSleep, n - 1);
    }
  }

  /** The part of the master state the halting sequence touches. */
  datatype HaltState = HaltState(allVertices: int, halting: bool, readyToSleep: int, computation: Computation,
                                 maxCoords: map<int, Point>, minCoords: map<int, Point>,
                                 offsets: map<int, Offset>)

  /** A call from `b` performs a stage: the sequence is already in progress, or the first
      convergence check (with a recorded number of vertices) sees convergence. */
  predicate Started(b: HaltState, settled: int, threshold: real)
  {
    b.readyToSleep != 0 || (b.allVertices > 0 && Converged(settled, b.allVertices, threshold))
  }

  /** One call of the halting sequence takes `b` to `a` and reports `done` and `ok`. Before
      the sequence starts, the call only records the number of vertices on the first check.
      Once started, halting is set and each stage installs its computation and moves to the
      next stage: the reintegration, the blank computation, the drawing explorer on cleared
      bounds, then the offsets of the component grid. When the grid cannot be computed `ok` is
      false and the stage stays. The call after the last stage reports `done` and changes
      nothing else. */
  ghost predicate HaltingStep(b: HaltState, a: HaltState, done: bool, ok: bool, totalVertices: int, settled: int,
                              threshold: real, componentsNo: map<int, int>, configured: Option<string>,
                              loadable: set<string>, padding: real, minRatio: real)
  {
    if !Started(b, settled, threshold) then
      !done && ok && a == b.(allVertices := if b.allVertices <= 0 then totalVertices else b.allVertices)
    else
      StageStep(b, a, done, ok, componentsNo, configured, loadable, padding, minRatio)
  }

  /** The stage a started halting sequence performs from `b`. */
  ghost predicate StageStep(b: HaltState, a: HaltState, done: bool, ok: bool, componentsNo: map<int, int>,
                            configured: Option<string>, loadable: set<string>, padding: real, minRatio: real)
  {
    match StageAction(b.readyToSleep)
    case StartReintegration =>
      !done && ok && a == b.(halting := true, readyToSleep := 1, computation := SelectReintegration(configured, loadable))
    case RunDummy =>
      !done && ok && a == b.(halting := true, readyToSleep := 2, computation := Dummy)
    case ExploreDrawing =>
      !done && ok && a == b.(halting := true, readyToSleep := 3, computation := DrawingExplorer,
                             maxCoords := map[], minCoords := map[])
    case LayoutComponents =>
      && !done
      && (exists sorted :: IsEntryOrder(sorted, componentsNo)
            && GridPlaced(GridLayout(sorted, b.maxCoords, b.minCoords, padding, minRatio), ok, a.offsets))
      && a == if ok then b.(halting := true, readyToSleep := 4, computation := LayoutCCs, offsets := a.offsets)
              else b.(halting := true)
    case Finish =>
      done && ok && a == b.(halting := true)
  }

  /** One cooling of the temperature map: every component's pair of temperatures cooled. */
  function Cooled(temps: map<int, (real, real)>, cool: real -> real): map<int, (real, real)>
  {
    map k | k in temps :: (cool(temps[k].0), cool(temps[k].1))
  }

  /** A cooling that lowers every positive temperature and keeps it positive keeps every
      component, and lowers both temperatures of each while keeping them positive. */
  lemma CoolingLowers(temps: map<int, (real, real)>, cool: real -> real)
    requires forall t :: t > 0.0 ==> 0.0 < cool(t) < t
    requires forall k :: k in temps ==> temps[k].0 > 0.0 && temps[k].1 > 0.0
    ensures Cooled(temps, cool).Keys == temps.Keys
    ensures forall k :: k in temps ==>
      && 0.0 < Cooled(temps, cool)[k].0 < temps[k].0
      && 0.0 < Cooled(temps, cool)[k].1 < temps[k].1
  {
    forall k | k in temps
      ensures 0.0 < Cooled(temps, cool)[k].0 < temps[k].0 && 0.0 < Cooled(temps, cool)[k].1 < temps[k].1
    {
      var t := temps[k];
      assert 0.0 < cool(t.0) < t.0;
      assert 0.0 < cool(t.1) < t.1;
    }
  }

  /** The master-side state of a layout run, together with the aggregated values it reads and
      writes: the per-component temperatures, drawing bounds, sizes and grid offsets. */
  class LayoutRoutine {
    var allVertices: int
    var threshold: real
    var halting: bool
    var settledSteps: int
    var readyToSleep: int
    /** The computation installed for the next superstep. */
    var computation: Computation
    var temps: map<int, (real, real)>
    var maxCoords: map<int, Point>
    var minCoords: map<int, Point>
    var componentsNo: map<int, int>
    var offsets: map<int, Offset>

    /** The halting stage stays within the sequence, and a started sequence means halting. */
    predicate Valid()
      reads this
    {
      0 <= readyToSleep <= 4 && (readyToSleep > 0 ==> halting) && settledSteps >= 0
    }

    constructor (threshold: real, initial: Computation)
      ensures Valid()
      ensures this.threshold == threshold && computation == initial
      ensures allVertices == 0 && !halting && settledSteps == 0 && readyToSleep == 0
      ensures temps == map[] && maxCoords == map[] && minCoords == map[] && componentsNo == map[] && offsets == map[]
    {
      this.threshold := threshold;
      computation := initial;
      allVertices := 0;
      halting := false;
      settledSteps := 0;
      readyToSleep := 0;
      temps := map[];
      maxCoords := map[];
      minCoords := map[];
      componentsNo := map[];
      offsets := map[];
    }

    /** The first call only records the number of vertices and reports no convergence; later
        calls compare the settled vertices with the recorded number. */
    method CheckForConvergence(totalVertices: int, settled: int) returns (converged: bool)
      modifies this`allVertices
      ensures old(allVertices) <= 0 ==> !converged && allVertices == totalVertices
      ensures old(allVertices) > 0 ==>
                allVertices == old(allVertices) && converged == Converged(settled, allVertices, threshold)
    {
      if allVertices <= 0 {
        allVertices := totalVertices;
        return false;
      }
      converged := settled as real / allVertices as real > threshold;
    }

    /** Cools both temperatures of every component. */
    method UpdateTemperatureAggregator(cool: real -> real)
      modifies this`temps
      ensures temps == Cooled(old(temps), cool)
    {
      var cooled: map<int, (real, real)> := map[];
      var rest := temps.Keys;
      while rest != {}
        invariant temps == old(temps)
        invariant rest <= temps.Keys
        invariant cooled.Keys == temps.Keys - rest
        invariant forall k :: k in cooled ==> cooled[k] == (cool(temps[k].0), cool(temps[k].1))
        decreases rest
      {
        ghost var some := Choose(rest);
        var k :| k in rest;
        cooled := cooled[k := (cool(temps[k].0), cool(temps[k].1))];
        rest := rest - {k};
      }
      assert cooled.Keys == Cooled(temps, cool).Keys;
      assert forall k :: k in cooled ==> cooled[k] == Cooled(temps, cool)[k];
      assert cooled == Cooled(temps, cool);
      temps := cooled;
    }

    /** The part of the state the halting sequence touches. */
    function HaltView(): HaltState
      reads this
    {
      HaltState(allVertices, halting, readyToSleep, computation, maxCoords, minCoords, offsets)
    }

    /** One call of the halting sequence. Before it starts, a convergence check decides
        whether it starts now; once started, each call performs the next stage (installing the
        reintegration, the blank computation, the drawing explorer on cleared bounds, then the
        component packing) and the call after the last stage reports that the run may halt.
        `ok` is false when the grid cannot be computed (the source fails there). */
    method MasterHaltingSequence(totalVertices: int, settled: int, configured: Option<string>,
                                 loadable: set<string>, padding: real, minRatio: real)
      returns (done: bool, ok: bool)
      requires Valid()
      modifies this`allVertices, this`halting, this`readyToSleep, this`computation,
               this`maxCoords, this`minCoords, this`offsets
      ensures Valid()
      ensures HaltingStep(old(HaltView()), HaltView(), done, ok, totalVertices, settled, threshold, componentsNo,
                          configured, loadable, padding, minRatio)
    {
      var started := readyToSleep != 0;
      if !started {
        started := CheckForConvergence(totalVertices, settled);
      }
      if !started {
        return false, true;
      }
      done, ok := RunStage(configured, loadable, padding, minRatio);
    }

    /** The stage of a started halting sequence. */
    method RunStage(configured: Option<string>, loadable: set<string>, padding: real, minRatio: real)
      returns (done: bool, ok: bool)
      requires 0 <= readyToSleep <= 4
      modifies this`halting, this`readyToSleep, this`computation, this`maxCoords, this`minCoords, this`offsets
      ensures 0 <= readyToSleep <= 4 && halting
      ensures StageStep(old(HaltView()), HaltView(), done, ok, componentsNo, configured, loadable, padding, minRatio)
    {
      halting := true;
      if readyToSleep == 0 {
        computation := SelectReintegration(configured, loadable);
        readyToSleep := readyToSleep + 1;
        return false, true;
      }
      if readyToSleep == 1 {
        computation := Dummy;
        readyToSleep := readyToSleep + 1;
        return false, true;
      }
      if readyToSleep == 2 {
        maxCoords := map[];
        minCoords := map[];
        computation := DrawingExplorer;
        readyToSleep := readyToSleep + 1;
        return false, true;
      }
      if readyToSleep == 3 {
        ok := PackComponents(padding, minRatio);
        return false, ok;
      }
      return true, true;
    }

    /** The packing stage: the offsets of the component grid are installed with the component
        layout; when the grid cannot be computed nothing changes. */
    method PackComponents(padding: real, minRatio: real) returns (ok: bool)
      requires readyToSleep == 3
      modifies this`readyToSleep, this`computation, this`offsets
      ensures exists sorted :: IsEntryOrder(sorted, componentsNo)
                && GridPlaced(GridLayout(sorted, maxCoords, minCoords, padding, minRatio), ok, offsets)
      ensures ok ==> readyToSleep == 4 && computation == LayoutCCs
      ensures !ok ==> readyToSleep == 3 && computation == old(computation) && offsets == old(offsets)
    {
      var grid, sorted := ComputeComponentGridLayout(componentsNo, maxCoords, minCoords, padding, minRatio);
      if grid.None? {
        assert IsEntryOrder(sorted, componentsNo)
          && GridPlaced(GridLayout(sorted, maxCoords, minCoords, padding, minRatio), false, offsets);
        return false;
      }
      offsets := grid.value;
      computation := LayoutCCs;
      readyToSleep := readyToSleep + 1;
      ok := true;
      assert IsEntryOrder(sorted, componentsNo)
        && GridPlaced(GridLayout(sorted, maxCoords, minCoords, padding, minRatio), ok, offsets);
    }

    /** One master superstep of the layout: nothing at superstep 0; the halting sequence when
        it is in progress (the run halts when it completes); the drawing scaler at superstep 1;
        afterwards a seeding step (after cooling the temperatures, except before the first one)
        whenever the vertices report that all messages arrived and the previous step was not a
        seeding, otherwise a propagation step. `ok` is false when the run fails. */
    method Compute(superstep: int, messagesFlag: bool, totalVertices: int, settled: int,
                   configured: Option<string>, loadable: set<string>, cool: real -> real,
                   padding: real, minRatio: real)
      returns (halt: bool, ok: bool)
      requires Valid()
      modifies this
      ensures Valid()
      ensures threshold == old(threshold) && componentsNo == old(componentsNo)
      ensures superstep == 0 ==> !halt && ok && HaltView() == old(HaltView())
                                 && settledSteps == old(settledSteps) && temps == old(temps)
      ensures superstep != 0 && halting ==>
                HaltingStep(old(HaltView()), HaltView(), halt, ok, totalVertices, settled, threshold, componentsNo,
                            configured, loadable, padding, minRatio)
      ensures halt ==> ok && halting && readyToSleep == 4
      ensures old(halting) || halting ==> settledSteps == old(settledSteps) && temps == old(temps)
      ensures superstep != 0 && !halting ==>
                && !halt && ok && !old(halting) && readyToSleep == 0
                && allVertices == (if old(allVertices) <= 0 then totalVertices else old(allVertices))
                && maxCoords == old(maxCoords) && minCoords == old(minCoords) && offsets == old(offsets)
      ensures superstep == 1 && !halting ==>
                computation == DrawingScaler && settledSteps == old(settledSteps) && temps == old(temps)
      ensures superstep > 1 && !halting && messagesFlag && !old(computation).Seeder? ==>
                computation == Seeder && settledSteps == old(settledSteps) + 1
                && temps == (if old(settledSteps) > 0 then Cooled(old(temps), cool) else old(temps))
      ensures superstep > 1 && !halting && !(messagesFlag && !old(computation).Seeder?) ==>
                computation == (if old(computation).Seeder? || !old(computation).Propagator? then Propagator
                                else old(computation))
                && settledSteps == old(settledSteps) && temps == old(temps)
    {
      if superstep == 0 {
        return false, true;
      }
      var done;
      done, ok := MasterHaltingSequence(totalVertices, settled, configured, loadable, padding, minRatio);
      if !ok {
        return false, false;
      }
      if done {
        return true, true;
      }
      if halting {
        return false, true;
      }
      Advance(superstep, messagesFlag, cool);
      return false, true;
    }

    /** A superstep of the layout proper: the drawing scaler at superstep 1, then a seeding
        step (after cooling the temperatures, except before the first one) whenever all
        messages arrived and the previous step was not a seeding, otherwise a propagation
        step. */
    method Advance(superstep: int, messagesFlag: bool, cool: real -> real)
      modifies this`computation, this`settledSteps, this`temps
      ensures superstep == 1 ==>
                computation == DrawingScaler && settledSteps == old(settledSteps) && temps == old(temps)
      ensures superstep != 1 && messagesFlag && !old(computation).Seeder? ==>
                computation == Seeder && settledSteps == old(settledSteps) + 1
                && temps == (if old(settledSteps) > 0 then Cooled(old(temps), cool) else old(temps))
      ensures superstep != 1 && !(messagesFlag && !old(computation).Seeder?) ==>
                computation == (if old(computation).Seeder? || !old(computation).Propagator? then Propagator
                                else old(computation))
                && settledSteps == old(settledSteps) && temps == old(temps)
    {
      if superstep == 1 {
        computation := DrawingScaler;
        return;
      }
      if messagesFlag && !computation.Seeder? {
        if settledSteps > 0 {
          UpdateTemperatureAggregator(cool);
        }
        computation := Seeder;
        settledSteps := settledSteps + 1;
      } else if !computation.Propagator? {
        computation := Propagator;
      }
    }
  }

  /** The offsets installed agree with the grid computed: present exactly when the grid could
      be computed, and then equal to it. */
  predicate GridPlaced(grid: Option<map<int, Offset>>, ok: bool, offsets: map<int, Offset>)
  {
    (ok <==> grid.Some?) && (ok ==> offsets == grid.value)
  }
}
