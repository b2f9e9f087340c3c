/** The multi-scale master: a state machine over six phase flags that, superstep by superstep,
    first coarsens the graph layer by layer (merging), then lays out each layer from the coarsest
    down (layout), places the next finer layer's bodies around their suns (placing), and at the
    finest layer reintegrates the removed vertices and terminates. The merger, layout, placer
    and reintegration routines are consulted as oracles: each reports whether it is done. */
module MultiScale {
  import opened Common
  import opened Adaptation

  /** The number of angular-maximization iterations when the configuration names none. */
  const AngularMaximizationMaxIterationsDefault: int := 30

  /** The smallest positive single-precision value, 2^-149: the reset value of the
      largest-k aggregator. */
  const FloatMinValue: real := 1.0 / 713623846352979940529142984724747568191373312.0

  /** The sub-routines the master consults. */
  datatype Routine = Merger | LayoutRun | Placer | Reintegration

  /** The phase flags of the master. */
  datatype Phases = Phases(merging: bool, preparePlacer: bool, layout: bool, placing: bool,
                           reintegrating: bool, terminate: bool)

  /** What each sub-routine reports if it is consulted in this superstep: true when it is done. */
  datatype Reports = Reports(mergerDone: bool, layoutDone: bool, placerDone: bool, reintegrationDone: bool)

  /** The effect of one master superstep: the new flags, the routines consulted in order,
      whether the computation halts, whether the merger-to-placer dummy computation is
      installed, whether the layer's layout parameters are selected and whether the layout
      aggregators are reset. */
  datatype Outcome = Outcome(next: Phases, calls: seq<Routine>, halt: bool, toPlacerDummy: bool,
                             selectsK: bool, resetLayout: bool)

  /** The flags right after the master is initialized. */
  const Initial: Phases := Phases(false, false, false, false, false, false)

  /** The flooding depth k applied to a layer: on the finest layer (0) it is at most 2. */
  function AppliedK(currentLayer: int, selectedK: int): (k: int)
    ensures k <= selectedK
    ensures currentLayer == 0 ==> k <= 2 && (selectedK <= 2 ==> k == selectedK)
    ensures currentLayer != 0 ==> k == selectedK
  {
    if currentLayer == 0 && selectedK > 2 then 2 else selectedK
  }

  /** The k the configured strategy selects for the layer, capped on layer 0. */
  function SelectK(s: Strategy, currentLayer: int, noOfLayers: int, noOfVertices: int, noOfEdges: int,
                   combinedK: int): (k: int)
    ensures currentLayer == 0 ==> k <= 2
    ensures k <= StrategyK(s, currentLayer, noOfLayers, noOfVertices, noOfEdges, combinedK)
    ensures currentLayer != 0 ==> k == StrategyK(s, currentLayer, noOfLayers, noOfVertices, noOfEdges, combinedK)
  {
    AppliedK(currentLayer, StrategyK(s, currentLayer, noOfLayers, noOfVertices, noOfEdges, combinedK))
  }

  /** One master superstep. Superstep 0 switches merging on. A terminated master halts before
      consulting anything; while merging only the merger runs; otherwise a pending placer
      preparation switches layout on and the layer's phase runs. */
  function MasterStep(p: Phases, superstep: int, currentLayer: int, r: Reports): Outcome
  {
    var p0 := if superstep == 0 then p.(merging := true) else p;
    if p0.terminate then Outcome(p0, [], true, false, false, false)
    else if p0.merging then
      if r.mergerDone then Outcome(p0.(merging := false, preparePlacer := true), [Merger], false, true, false, false)
      else Outcome(p0, [Merger], false, false, false, false)
    else
      var p1 := if p0.preparePlacer then p0.(preparePlacer := false, layout := true) else p0;
      var s := LayerStep(p1, currentLayer, r);
      s.(selectsK := s.selectsK || p0.preparePlacer)
  }

  /** The layout and placing phases of a layer, skipped on a negative layer or once
      reintegrating, followed by the reintegration phase. */
  function LayerStep(p: Phases, currentLayer: int, r: Reports): Outcome
  {
    if currentLayer >= 0 && !p.reintegrating then
      if p.layout && !r.layoutDone then Outcome(p, [LayoutRun], false, false, false, false)
      else
        var p2 := if !p.layout then p
                  else if currentLayer > 0 then p.(layout := false, placing := true)
                  else p.(layout := false, reintegrating := true);
        PlacingStep(p2, if p.layout then [LayoutRun] else [], r)
    else ReintegrationStep(p, [], r)
  }

  /** The placing phase after the routines in `calls`: once the placer is done, layout restarts
      on the next layer with reset aggregators and newly selected parameters, and the
      superstep ends; without placing, the reintegration phase follows. */
  function PlacingStep(p: Phases, calls: seq<Routine>, r: Reports): Outcome
  {
    if p.placing then
      if r.placerDone then Outcome(p.(placing := false, layout := true), calls + [Placer], false, false, true, true)
      else Outcome(p, calls + [Placer], false, false, false, false)
    else ReintegrationStep(p, calls, r)
  }

  /** The reintegration phase: once reintegration is done the master terminates and halts. */
  function ReintegrationStep(p: Phases, calls: seq<Routine>, r: Reports): Outcome
  {
    if !p.reintegrating then Outcome(p, calls, false, false, false, false)
    else if r.reintegrationDone then Outcome(p.(terminate := true), calls + [Reintegration], true, false, false, false)
    else Outcome(p, calls + [Reintegration], false, false, false, false)
  }

  // ---------------------------------------------------------------- properties of one step

  /** A terminated master halts, consults no routine and changes nothing (but the superstep-0
      switch to merging). */
  lemma TerminatedHaltsAlone(p: Phases, superstep: int, currentLayer: int, r: Reports)
    requires p.terminate
    ensures var s := MasterStep(p, superstep, currentLayer, r);
      && s.halt && s.calls == [] && !s.toPlacerDummy && !s.selectsK && !s.resetLayout
      && s.next == (if superstep == 0 then p.(merging := true) else p)
  {
  }

  /** While merging, the merger is the only routine consulted; when it reports done, merging
      ends, the placer preparation is pending and the dummy computation is installed, and
      otherwise the flags stay. */
  lemma MergingGate(p: Phases, superstep: int, currentLayer: int, r: Reports)
    requires !p.terminate && (p.merging || superstep == 0)
    ensures var s := MasterStep(p, superstep, currentLayer, r);
      && s.calls == [Merger] && !s.halt && !s.selectsK && !s.resetLayout
      && (s.toPlacerDummy <==> r.mergerDone)
      && s.next == (if r.mergerDone then p.(merging := false, preparePlacer := true) else p.(merging := true))
  {
  }

  /** The dummy computation is installed only by the merger reporting done. */
  lemma DummyOnlyAfterMerge(p: Phases, superstep: int, currentLayer: int, r: Reports)
    ensures var s := MasterStep(p, superstep, currentLayer, r);
      s.toPlacerDummy <==> !p.terminate && (p.merging || superstep == 0) && r.mergerDone
  {
  }

  /** A pending placer preparation switches layout on and selects the layer's parameters. */
  lemma PreparePlacerStartsLayout(p: Phases, superstep: int, currentLayer: int, r: Reports)
    requires superstep != 0 && !p.terminate && !p.merging && p.preparePlacer
    requires currentLayer >= 0 && !p.reintegrating && !r.layoutDone
    ensures var s := MasterStep(p, superstep, currentLayer, r);
      && s.selectsK && s.calls == [LayoutRun] && !s.halt && !s.resetLayout
      && s.next == p.(preparePlacer := false, layout := true)
  {
  }

  /** When the layout of the finest layer is done, layout ends, reintegration starts in the
      same superstep, and the master terminates when reintegration is already done. */
  lemma LayoutDoneOnFinestLayer(p: Phases, superstep: int, r: Reports)
    requires superstep != 0 && !p.terminate && !p.merging && !p.preparePlacer
    requires p.layout && !p.placing && !p.reintegrating && r.layoutDone
    ensures var s := MasterStep(p, superstep, 0, r);
      && s.calls == [LayoutRun, Reintegration]
      && s.next == p.(layout := false, reintegrating := true, terminate := r.reintegrationDone)
      && (s.halt <==> r.reintegrationDone)
  {
  }

  /** When the layout of a coarser layer is done, layout ends and placing starts in the same
      superstep; when the placer is already done too, layout restarts on the next layer with
      freshly reset aggregators and newly selected parameters. */
  lemma LayoutDoneOnCoarserLayer(p: Phases, superstep: int, currentLayer: int, r: Reports)
    requires superstep != 0 && !p.terminate && !p.merging && !p.preparePlacer
    requires p.layout && !p.reintegrating && r.layoutDone && currentLayer > 0
    ensures var s := MasterStep(p, superstep, currentLayer, r);
      && s.calls == [LayoutRun, Placer] && !s.halt
      && s.next == p.(layout := r.placerDone, placing := !r.placerDone)
      && (s.resetLayout <==> r.placerDone) && (s.selectsK <==> r.placerDone)
  {
  }

  /** When the placer is consulted and reports done, placing ends, layout restarts, the layout
      aggregators are reset and the layer's parameters are selected again; the placer is the
      last routine consulted in that superstep. */
  lemma PlacingDone(p: Phases, superstep: int, currentLayer: int, r: Reports)
    requires Placer in MasterStep(p, superstep, currentLayer, r).calls && r.placerDone
    ensures var s := MasterStep(p, superstep, currentLayer, r);
      && s.next.layout && !s.next.placing && s.resetLayout && s.selectsK && !s.halt
      && s.calls[|s.calls| - 1] == Placer && s.next.terminate == p.terminate
  {
    var p0 := if superstep == 0 then p.(merging := true) else p;
    var p1 := if p0.preparePlacer then p0.(preparePlacer := false, layout := true) else p0;
    assert !p0.terminate && !p0.merging && currentLayer >= 0 && !p1.reintegrating;
  }

  /** The aggregators are reset only when the placer reports done. */
  lemma ResetOnlyAfterPlacing(p: Phases, superstep: int, currentLayer: int, r: Reports)
    ensures var s := MasterStep(p, superstep, currentLayer, r);
      s.resetLayout <==> Placer in s.calls && r.placerDone
  {
  }

  /** The reintegration phase halts exactly when it terminates the master, and it does so
      exactly when the reintegration routine reports done. */
  lemma ReintegrationTerminates(p: Phases, calls: seq<Routine>, r: Reports)
    requires !p.terminate
    ensures var s := ReintegrationStep(p, calls, r);
      && (s.halt <==> s.next.terminate)
      && (s.next.terminate <==> p.reintegrating && r.reintegrationDone)
      && (p.reintegrating ==> s.calls == calls + [Reintegration])
      && (!p.reintegrating ==> s.calls == calls)
  {
  }

  /** The layer's phases halt exactly when they terminate the master, and they do so exactly
      when the reintegration routine is consulted and reports done. */
  lemma LayerTerminates(p: Phases, currentLayer: int, r: Reports)
    requires !p.terminate
    ensures var s := LayerStep(p, currentLayer, r);
      && (s.halt <==> s.next.terminate)
      && (s.next.terminate <==> Reintegration in s.calls && r.reintegrationDone)
  {
    if currentLayer >= 0 && !p.reintegrating {
      if !(p.layout && !r.layoutDone) {
        var p2 := if !p.layout then p
                  else if currentLayer > 0 then p.(layout := false, placing := true)
                  else p.(layout := false, reintegrating := true);
        var calls: seq<Routine> := if p.layout then [LayoutRun] else [];
        if !p2.placing {
          ReintegrationTerminates(p2, calls, r);
          assert Reintegration !in calls;
        }
      }
    } else {
      ReintegrationTerminates(p, [], r);
    }
  }

  /** The master halts exactly when it is terminated after the step. */
  lemma HaltIffTerminated(p: Phases, superstep: int, currentLayer: int, r: Reports)
    ensures var s := MasterStep(p, superstep, currentLayer, r);
      s.halt <==> s.next.terminate
  {
    var p0 := if superstep == 0 then p.(merging := true) else p;
    if !p0.terminate && !p0.merging {
      LayerTerminates(if p0.preparePlacer then p0.(preparePlacer := false, layout := true) else p0, currentLayer, r);
    }
  }

  /** A master that was not terminated becomes terminated exactly when the reintegration
      routine is consulted and reports done. */
  lemma TerminatedOnlyByReintegration(p: Phases, superstep: int, currentLayer: int, r: Reports)
    requires !p.terminate
    ensures var s := MasterStep(p, superstep, currentLayer, r);
      s.next.terminate <==> Reintegration in s.calls && r.reintegrationDone
  {
    var p0 := if superstep == 0 then p.(merging := true) else p;
    if !p0.merging {
      LayerTerminates(if p0.preparePlacer then p0.(preparePlacer := false, layout := true) else p0, currentLayer, r);
    }
  }

  /** The position of each routine in a superstep's consultation order. */
  function Rank(x: Routine): int
  {
    match x
    case Merger => 0
    case LayoutRun => 1
    case Placer => 2
    case Reintegration => 3
  }

  /** Each routine is consulted at most once per superstep, in the order merger, layout,
      placer, reintegration, and the merger never together with another routine. */
  lemma CallsInOrder(p: Phases, superstep: int, currentLayer: int, r: Reports)
    ensures var c := MasterStep(p, superstep, currentLayer, r).calls;
      && (forall i, j :: 0 <= i < j < |c| ==> Rank(c[i]) < Rank(c[j]))
      && (Merger in c ==> c == [Merger])
  {
  }

  // ---------------------------------------------------------------- exclusive phases

  /** The number of phase flags (terminate aside) that are set. */
  function ActiveCount(p: Phases): nat
  {
    (if p.merging then 1 else 0) + (if p.preparePlacer then 1 else 0) + (if p.layout then 1 else 0)
    + (if p.placing then 1 else 0) + (if p.reintegrating then 1 else 0)
  }

  /** At most one phase is active, and a terminated master was reintegrating. */
  predicate Exclusive(p: Phases)
  {
    ActiveCount(p) <= 1 && (p.terminate ==> p.reintegrating)
  }

  /** A step keeps the phases exclusive; superstep 0 starts from an idle master. */
  lemma StepKeepsExclusive(p: Phases, superstep: int, currentLayer: int, r: Reports)
    requires Exclusive(p) && (superstep == 0 ==> ActiveCount(p) == 0)
    ensures Exclusive(MasterStep(p, superstep, currentLayer, r).next)
  {
  }

  /** The per-superstep inputs of a run: the current layer and the routines' reports. */
  datatype StepInput = StepInput(currentLayer: int, reports: Reports)

  /** The flags before each superstep of a run from `superstep` on, and after its last one. */
  function Trace(p: Phases, superstep: int, inputs: seq<StepInput>): (t: seq<Phases>)
    ensures |t| == |inputs| + 1 && t[0] == p
    decreases |inputs|
  {
    if inputs == [] then [p]
    else [p] + Trace(MasterStep(p, superstep, inputs[0].currentLayer, inputs[0].reports).next,
                     superstep + 1, inputs[1..])
  }

  /** Each flag state of a run is the step from the one before it. */
  lemma {:induction false} TraceSteps(p: Phases, superstep: int, inputs: seq<StepInput>, i: int)
    requires 0 <= i < |inputs|
    ensures Trace(p, superstep, inputs)[i + 1]
         == MasterStep(Trace(p, superstep, inputs)[i], superstep + i, inputs[i].currentLayer, inputs[i].reports).next
    decreases |inputs|
  {
    if i > 0 {
      var q := MasterStep(p, superstep, inputs[0].currentLayer, inputs[0].reports).next;
      TraceSteps(q, superstep + 1, inputs[1..], i - 1);
    }
  }

  /** In every run from the initialized master at superstep 0, at most one phase is active at
      any time, and termination comes only after reintegration. */
  lemma {:induction false} RunPhasesExclusive(p: Phases, superstep: int, inputs: seq<StepInput>)
    requires superstep >= 0 && Exclusive(p) && (superstep == 0 ==> ActiveCount(p) == 0)
    ensures forall i :: 0 <= i < |Trace(p, superstep, inputs)| ==> Exclusive(Trace(p, superstep, inputs)[i])
    decreases |inputs|
  {
    if inputs != [] {
      var q := MasterStep(p, superstep, inputs[0].currentLayer, inputs[0].reports).next;
      StepKeepsExclusive(p, superstep, inputs[0].currentLayer, inputs[0].reports);
      RunPhasesExclusive(q, superstep + 1, inputs[1..]);
    }
  }

  /** Once terminated after superstep 0, the master stays exactly as it is for the rest of the
      run, whatever the routines would report. */
  lemma {:induction false} TerminatedStaysTerminated(p: Phases, superstep: int, inputs: seq<StepInput>)
    requires p.terminate && superstep > 0
    ensures forall i :: 0 <= i < |Trace(p, superstep, inputs)| ==> Trace(p, superstep, inputs)[i] == p
    decreases |inputs|
  {
    if inputs != [] {
      RunStep(p, superstep, inputs);
      TerminatedStaysTerminated(p, superstep + 1, inputs[1..]);
    }
  }

  lemma RunStep(p: Phases, superstep: int, inputs: seq<StepInput>)
    requires p.terminate && superstep > 0 && inputs != []
    ensures Trace(p, superstep, inputs) == [p] + Trace(p, superstep + 1, inputs[1..])
  {
  }

  // ---------------------------------------------------------------- the master object

  /** The values the master hands to the layout for the current layer. */
  datatype LayoutParameters = LayoutParameters(ttlMax: int, coolingSpeed: real, initialTempFactor: real,
                                               accuracy: real)

  /** The parameters selected for a layer with flooding depth `k`. */
  function ParametersFor(k: int, currentLayer: int, noOfLayers: int, noOfVertices: int, noOfEdges: int): LayoutParameters
  {
    LayoutParameters(k, CoolingSpeed(currentLayer, noOfLayers, noOfVertices, noOfEdges),
                     InitialTempFactor(currentLayer, noOfLayers, noOfVertices, noOfEdges),
                     TargetAccuracy(currentLayer, noOfLayers, noOfVertices, noOfEdges))
  }

  class MultiScaleMaster {
    var merging: bool
    var preparePlacer: bool
    var layout: bool
    var placing: bool
    var reintegrating: bool
    var terminate: bool
    var strategy: Strategy
    var angularMaximizationIterations: int
    var angularMaximizationIterationsMax: int
    /** The aggregators the master writes for the layout of the current layer. */
    var ttlMax: int
    var coolingSpeed: real
    var initialTempFactor: real
    var accuracy: real
    /** The layout aggregators reset between layers. */
    var maxK: real
    var componentNoOfNodes: map<int, int>
    var maxCoords: map<int, Point>
    var minCoords: map<int, Point>

    function Flags(): Phases
      reads this
    {
      Phases(merging, preparePlacer, layout, placing, reintegrating, terminate)
    }

    function Parameters(): LayoutParameters
      reads this
    {
      LayoutParameters(ttlMax, coolingSpeed, initialTempFactor, accuracy)
    }

    /** Initialization: every phase is off, the iteration bound is the configured one or 30, and
        the adaptation strategy is the class named by the first entry of the configured list,
        falling back to the combined size-and-density strategy when nothing is configured or
        the name does not load. */
    constructor (configured: Option<seq<string>>, loadable: map<string, Strategy>, configuredIterations: Option<int>)
      ensures Flags() == Initial
      ensures angularMaximizationIterations == 0
      ensures angularMaximizationIterationsMax
           == if configuredIterations.Some? then configuredIterations.value else AngularMaximizationMaxIterationsDefault
      ensures configured.None? ==> strategy == SizeAndDensityDriven
      ensures configured.Some? ==> strategy == ResolveStrategy(configured.value, loadable)
      ensures maxK == FloatMinValue && componentNoOfNodes == map[] && maxCoords == map[] && minCoords == map[]
    {
      merging, layout, reintegrating, preparePlacer, placing, terminate := false, false, false, false, false, false;
      angularMaximizationIterations := 0;
      angularMaximizationIterationsMax :=
        if configuredIterations.Some? then configuredIterations.value else AngularMaximizationMaxIterationsDefault;
      strategy := if configured.Some? then ResolveStrategy(configured.value, loadable) else SizeAndDensityDriven;
      ttlMax, coolingSpeed, initialTempFactor, accuracy := 0, 0.0, 0.0, 0.0;
      maxK, componentNoOfNodes, maxCoords, minCoords := FloatMinValue, map[], map[], map[];
    }

    /** Records the layer's flooding depth and the strategy's cooling speed, initial temperature
        factor and target accuracy for it. */
    method UpdateAggregators(k: int, currentLayer: int, noOfLayers: int, noOfVertices: int, noOfEdges: int)
      modifies this`ttlMax, this`coolingSpeed, this`initialTempFactor, this`accuracy
      ensures Parameters() == ParametersFor(k, currentLayer, noOfLayers, noOfVertices, noOfEdges)
    {
      ttlMax := k;
      coolingSpeed := CoolingSpeed(currentLayer, noOfLayers, noOfVertices, noOfEdges);
      initialTempFactor := InitialTempFactor(currentLayer, noOfLayers, noOfVertices, noOfEdges);
      accuracy := TargetAccuracy(currentLayer, noOfLayers, noOfVertices, noOfEdges);
    }

    /** Clears the largest k and the per-component node counts and bounding boxes before the
        next layer is laid out. */
    method ResetLayoutAggregators()
      modifies this`maxK, this`componentNoOfNodes, this`maxCoords, this`minCoords
      ensures maxK == FloatMinValue && componentNoOfNodes == map[] && maxCoords == map[] && minCoords == map[]
    {
      maxK := FloatMinValue;
      componentNoOfNodes := map[];
      maxCoords := map[];
      minCoords := map[];
    }

    /** One master superstep: the flags, the routines consulted, the halt and the dummy
        computation follow `MasterStep`; the layer's parameters are written when it selects k,
        and the layout aggregators are cleared when it resets them. */
    method Compute(superstep: int, currentLayer: int, noOfLayers: int, noOfVertices: int, noOfEdges: int,
                   combinedK: int, reports: Reports) returns (halt: bool, calls: seq<Routine>, toPlacerDummy: bool)
      modifies this`merging, this`preparePlacer, this`layout, this`placing, this`reintegrating, this`terminate
      modifies this`ttlMax, this`coolingSpeed, this`initialTempFactor, this`accuracy
      modifies this`maxK, this`componentNoOfNodes, this`maxCoords, this`minCoords
      ensures var s := MasterStep(old(Flags()), superstep, currentLayer, reports);
        Flags() == s.next && halt == s.halt && calls == s.calls && toPlacerDummy == s.toPlacerDummy
      ensures var s := MasterStep(old(Flags()), superstep, currentLayer, reports);
        Parameters() == if s.selectsK
                        then ParametersFor(SelectK(strategy, currentLayer, noOfLayers, noOfVertices, noOfEdges, combinedK),
                                           currentLayer, noOfLayers, noOfVertices, noOfEdges)
                        else old(Parameters())
      ensures var s := MasterStep(old(Flags()), superstep, currentLayer, reports);
        if s.resetLayout
        then maxK == FloatMinValue && componentNoOfNodes == map[] && maxCoords == map[] && minCoords == map[]
        else maxK == old(maxK) && componentNoOfNodes == old(componentNoOfNodes)
             && maxCoords == old(maxCoords) && minCoords == old(minCoords)
    {
      halt, calls, toPlacerDummy := false, [], false;
      if superstep == 0 {
        merging := true;
      }
      if terminate {
        halt := true;
        return;
      }
      if merging {
        calls := [Merger];
        if !reports.mergerDone {
          return;
        }
        merging := false;
        preparePlacer := true;
        toPlacerDummy := true;
        return;
      }
      var k := SelectK(strategy, currentLayer, noOfLayers, noOfVertices, noOfEdges, combinedK);
      calls, halt := LayerSuperstep(k, currentLayer, noOfLayers, noOfVertices, noOfEdges, reports);
    }

    /** A superstep outside merging: a pending placer preparation switches layout on and
        selects the layer's parameters, then the layer's phases run. */
    method LayerSuperstep(k: int, currentLayer: int, noOfLayers: int, noOfVertices: int, noOfEdges: int,
                          reports: Reports) returns (calls: seq<Routine>, halt: bool)
      modifies this`preparePlacer, this`layout, this`placing, this`reintegrating, this`terminate
      modifies this`ttlMax, this`coolingSpeed, this`initialTempFactor, this`accuracy
      modifies this`maxK, this`componentNoOfNodes, this`maxCoords, this`minCoords
      ensures var p := old(Flags());
        var s := LayerStep(if p.preparePlacer then p.(preparePlacer := false, layout := true) else p, currentLayer, reports);
        && Flags() == s.next && halt == s.halt && calls == s.calls
        && Parameters() == (if s.selectsK || p.preparePlacer
                            then ParametersFor(k, currentLayer, noOfLayers, noOfVertices, noOfEdges)
                            else old(Parameters()))
        && (if s.resetLayout
            then maxK == FloatMinValue && componentNoOfNodes == map[] && maxCoords == map[] && minCoords == map[]
            else maxK == old(maxK) && componentNoOfNodes == old(componentNoOfNodes)
                 && maxCoords == old(maxCoords) && minCoords == old(minCoords))
    {
      if preparePlacer {
        preparePlacer := false;
        layout := true;
        UpdateAggregators(k, currentLayer, noOfLayers, noOfVertices, noOfEdges);
      }
      calls, halt := LayerPhase(k, currentLayer, noOfLayers, noOfVertices, noOfEdges, reports);
    }

    /** The layout and placing phases of the current layer, then the reintegration phase, as
        `LayerStep` says; `k` is the flooding depth selected for the layer. */
    method LayerPhase(k: int, currentLayer: int, noOfLayers: int, noOfVertices: int, noOfEdges: int, reports: Reports)
      returns (calls: seq<Routine>, halt: bool)
      modifies this`layout, this`placing, this`reintegrating, this`terminate
      modifies this`ttlMax, this`coolingSpeed, this`initialTempFactor, this`accuracy
      modifies this`maxK, this`componentNoOfNodes, this`maxCoords, this`minCoords
      ensures var s := LayerStep(old(Flags()), currentLayer, reports);
        Flags() == s.next && halt == s.halt && calls == s.calls
      ensures var s := LayerStep(old(Flags()), currentLayer, reports);
        Parameters() == if s.selectsK then ParametersFor(k, currentLayer, noOfLayers, noOfVertices, noOfEdges)
                        else old(Parameters())
      ensures var s := LayerStep(old(Flags()), currentLayer, reports);
        if s.resetLayout
        then maxK == FloatMinValue && componentNoOfNodes == map[] && maxCoords == map[] && minCoords == map[]
        else maxK == old(maxK) && componentNoOfNodes == old(componentNoOfNodes)
             && maxCoords == old(maxCoords) && minCoords == old(minCoords)
    {
      calls, halt := [], false;
      if currentLayer >= 0 && !reintegrating {
        if layout {
          calls := calls + [LayoutRun];
          if !reports.layoutDone {
            return;
          }
          layout := false;
          if currentLayer > 0 {
            placing := true;
          } else {
            reintegrating := true;
          }
        }
        calls, halt := PlacingPhase(k, currentLayer, noOfLayers, noOfVertices, noOfEdges, calls, reports);
      } else {
        calls, halt := ReintegrationPhase(calls, reports);
      }
    }

    /** The placing phase, as `PlacingStep` says, after the routines in `before`. */
    method PlacingPhase(k: int, currentLayer: int, noOfLayers: int, noOfVertices: int, noOfEdges: int,
                        before: seq<Routine>, reports: Reports) returns (calls: seq<Routine>, halt: bool)
      modifies this`layout, this`placing, this`terminate
      modifies this`ttlMax, this`coolingSpeed, this`initialTempFactor, this`accuracy
      modifies this`maxK, this`componentNoOfNodes, this`maxCoords, this`minCoords
      ensures var s := PlacingStep(old(Flags()), before, reports);
        Flags() == s.next && halt == s.halt && calls == s.calls
      ensures var s := PlacingStep(old(Flags()), before, reports);
        Parameters() == if s.selectsK then ParametersFor(k, currentLayer, noOfLayers, noOfVertices, noOfEdges)
                        else old(Parameters())
      ensures var s := PlacingStep(old(Flags()), before, reports);
        if s.resetLayout
        then maxK == FloatMinValue && componentNoOfNodes == map[] && maxCoords == map[] && minCoords == map[]
        else maxK == old(maxK) && componentNoOfNodes == old(componentNoOfNodes)
             && maxCoords == old(maxCoords) && minCoords == old(minCoords)
    {
      if placing {
        calls, halt := before + [Placer], false;
        if !reports.placerDone {
          return;
        }
        placing := false;
        layout := true;
        ResetLayoutAggregators();
        UpdateAggregators(k, currentLayer, noOfLayers, noOfVertices, noOfEdges);
        return;
      }
      calls, halt := ReintegrationPhase(before, reports);
    }

    /** The reintegration phase, as `ReintegrationStep` says, after the routines in `before`. */
    method ReintegrationPhase(before: seq<Routine>, reports: Reports) returns (calls: seq<Routine>, halt: bool)
      modifies this`terminate
      ensures var s := ReintegrationStep(old(Flags()), before, reports);
        Flags() == s.next && halt == s.halt && calls == s.calls
    {
      calls, halt := before, false;
      if reintegrating {
        calls := calls + [Reintegration];
        if reports.reintegrationDone {
          terminate := true;
          halt := true;
        }
      }
    }
  }
}
