/** The table-driven layout adaptation strategies: from the size of the current layer to the
    flooding depth k, the cooling speed, the initial temperature factor and the target accuracy.
    Every table ignores the layer index and the number of layers; only the density-driven k
    looks at the vertex count. */
module Adaptation {

  const MaxK: int := 6
  const MaxAccuracy: real := 0.0001
  const MinCoolingSpeed: real := 0.98
  const MinInitialTempFactor: real := 0.8

  /** The strategies a configuration can name. The combined size-and-density strategy is the
      fallback; its own k rule is not part of this model and is supplied by the caller. */
  datatype Strategy = DensityDriven | SizeDriven | SizeAndDensityDriven

  function InitialTempFactor(currentLayer: int, nOfLayers: int, nOfVertices: int, nOfEdges: int): (f: real)
    ensures f == 0.1 || f == 0.2 || f == 0.4 || f == 0.8
    ensures 0.1 <= f <= MinInitialTempFactor
    ensures nOfEdges < 250 <==> f == 0.1
    ensures nOfEdges >= 10000 <==> f == MinInitialTempFactor
  {
    if nOfEdges < 250 then 0.1
    else if nOfEdges < 500 then 0.2
    else if nOfEdges < 10000 then 0.4
    else MinInitialTempFactor
  }

  function CoolingSpeed(currentLayer: int, nOfLayers: int, nOfVertices: int, nOfEdges: int): (c: real)
    ensures 0.9 <= c <= MinCoolingSpeed
    ensures nOfEdges < 500 <==> c == MinCoolingSpeed
    ensures nOfEdges >= 1000000 <==> c == 0.9
  {
    if nOfEdges < 500 then MinCoolingSpeed
    else if nOfEdges < 1500 then 0.96
    else if nOfEdges < 10000 then 0.94
    else if nOfEdges < 1000000 then 0.92
    else 0.9
  }

  function TargetAccuracy(currentLayer: int, nOfLayers: int, nOfVertices: int, nOfEdges: int): (a: real)
    ensures MaxAccuracy <= a <= 0.1
    ensures nOfEdges < 1000 <==> a == MaxAccuracy
    ensures nOfEdges >= 1000000 <==> a == 0.1
  {
    if nOfEdges < 1000 then MaxAccuracy
    else if nOfEdges < 10000 then 0.001
    else if nOfEdges < 1000000 then 0.01
    else 0.1
  }

  /** The density edges/vertices of the source is a float division; it exceeds 1.5 exactly
      when the edges outnumber 1.5 times the vertices (for a positive vertex count), when the
      quotient is +infinity (no vertices, some edges) or, for a negative vertex count, when the
      signs flip the comparison. A NaN or -infinity quotient never exceeds it. */
  predicate DenseLayer(nOfVertices: int, nOfEdges: int)
  {
    if nOfVertices > 0 then nOfEdges as real > 1.5 * nOfVertices as real
    else if nOfVertices == 0 then nOfEdges > 0
    else nOfEdges as real < 1.5 * nOfVertices as real
  }

  function DensityDrivenK(currentLayer: int, nOfLayers: int, nOfVertices: int, nOfEdges: int): (k: int)
    ensures k == 3 || k == MaxK
    ensures k == 3 <==> DenseLayer(nOfVertices, nOfEdges)
  {
    // The source's further tests (density above 2.5 gives 2, above 4 gives 1) come after the
    // test against 1.5 and can never be reached.
    if DenseLayer(nOfVertices, nOfEdges) then 3 else MaxK
  }

  function SizeDrivenK(currentLayer: int, nOfLayers: int, nOfVertices: int, nOfEdges: int): (k: int)
    ensures 1 <= k <= MaxK
    ensures nOfEdges < 1000 <==> k == MaxK
    ensures nOfEdges > 1000000 <==> k == 1
  {
    if nOfEdges < 1000 then MaxK
    else if nOfEdges < 5000 then 5
    else if nOfEdges < 10000 then 4
    else if nOfEdges > 1000000 then 1
    else if nOfEdges > 100000 then 2
    else 3
  }

  /** The k a strategy selects; the combined strategy's choice is the given `combinedK`. */
  function StrategyK(s: Strategy, currentLayer: int, nOfLayers: int, nOfVertices: int, nOfEdges: int,
                     combinedK: int): (k: int)
    ensures s == DensityDriven ==> k == 3 || k == MaxK
    ensures s == SizeDriven ==> 1 <= k <= MaxK
    ensures s == SizeAndDensityDriven ==> k == combinedK
  {
    match s
    case DensityDriven => DensityDrivenK(currentLayer, nOfLayers, nOfVertices, nOfEdges)
    case SizeDriven => SizeDrivenK(currentLayer, nOfLayers, nOfVertices, nOfEdges)
    case SizeAndDensityDriven => combinedK
  }

  /** Resolving the configured strategy class from the comma-separated entries of the
      setting: the first entry names the class. An empty list or a first entry that does not
      load falls back to the combined size-and-density strategy; later entries are never
      consulted. `loadable` maps the class names that load. */
  function ResolveStrategy(entries: seq<string>, loadable: map<string, Strategy>): (s: Strategy)
    ensures |entries| > 0 && entries[0] in loadable ==> s == loadable[entries[0]]
    ensures |entries| == 0 || entries[0] !in loadable ==> s == SizeAndDensityDriven
  {
    if |entries| > 0 && entries[0] in loadable then loadable[entries[0]] else SizeAndDensityDriven
  }

  /** Only the first entry decides: entries after it change nothing. */
  lemma ResolveStrategyFirstEntry(first: string, more: seq<string>, loadable: map<string, Strategy>)
    ensures ResolveStrategy([first] + more, loadable) == ResolveStrategy([first], loadable)
  {
  }

  lemma InitialTempFactorMonotone(layer: int, layers: int, v: int, e1: int, e2: int)
    requires e1 <= e2
    ensures InitialTempFactor(layer, layers, v, e1) <= InitialTempFactor(layer, layers, v, e2)
  {
  }

  lemma CoolingSpeedAntitone(layer: int, layers: int, v: int, e1: int, e2: int)
    requires e1 <= e2
    ensures CoolingSpeed(layer, layers, v, e1) >= CoolingSpeed(layer, layers, v, e2)
  {
  }

  lemma TargetAccuracyMonotone(layer: int, layers: int, v: int, e1: int, e2: int)
    requires e1 <= e2
    ensures TargetAccuracy(layer, layers, v, e1) <= TargetAccuracy(layer, layers, v, e2)
  {
  }

  lemma SizeDrivenKAntitone(layer: int, layers: int, v: int, e1: int, e2: int)
    requires e1 <= e2
    ensures SizeDrivenK(layer, layers, v, e1) >= SizeDrivenK(layer, layers, v, e2)
  {
  }

  /** None of the tables depends on the layer index or the number of layers, and all but the
      density-driven k ignore the vertex count. */
  lemma TablesIgnoreLayer(l1: int, n1: int, v1: int, l2: int, n2: int, v2: int, e: int)
    ensures InitialTempFactor(l1, n1, v1, e) == InitialTempFactor(l2, n2, v2, e)
    ensures CoolingSpeed(l1, n1, v1, e) == CoolingSpeed(l2, n2, v2, e)
    ensures TargetAccuracy(l1, n1, v1, e) == TargetAccuracy(l2, n2, v2, e)
    ensures SizeDrivenK(l1, n1, v1, e) == SizeDrivenK(l2, n2, v2, e)
    ensures DensityDrivenK(l1, n1, v1, e) == DensityDrivenK(l2, n2, v1, e)
  {
  }
}
