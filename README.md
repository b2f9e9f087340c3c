# Multi-GiLA: a Dafny model of the multilevel layout core

Multi-GiLA draws large graphs on a vertex-centric Giraph cluster. It first collapses the
graph into coarser and coarser layers by the "solar merger": each vertex becomes a sun, a
planet or a moon. It then lays out the coarsest layer with a force-directed run. After
that it places every finer layer from the coarser one with the "solar placer" and lays that
layer out in turn. Last it reintegrates the one-degree vertices and packs the connected
components into a grid.

This project models the core of that pipeline:

- the master's phase machine: merging, placer preparation, layout, placing, reintegration,
  termination;
- the layout routine that drives one force-directed run: convergence check, halting
  sequence, temperature cooling;
- the packing of the connected components into a grid, with the map sort it uses;
- the adaptation tables that choose the flooding depth k, the cooling speed, the initial
  temperature and the target accuracy of each layer;
- the solar placer's per-vertex computation;
- the layered sending helpers;
- the writable state of an astral body, the set writable and the layout message, with
  their serialisers.

The modules follow the source files:

| module | file | form |
|---|---|---|
| `Common` | shared ids, points, paths, tokens | datatypes |
| `Adaptation` | `LayoutAdaptationStrategy.java`, `AdaptationStrategy.java` | pure functions |
| `Messages` | `LayoutMessage.java` | value datatype and functions |
| `SetWritables` | `SetWritable.java` | class over a `set` field |
| `AstralBodies` | `AstralBodyCoordinateWritable.java` | class with the body's fields |
| `LayeredSending` | `MultiScaleComputation.java` | methods with loops over the edges |
| `SolarPlacing` | `SolarPlacer.java` | methods over an `AstralBody` |
| `GridPacking` | `LayoutRoutine.java` (grid, sort, `LayoutCCs`) | methods with loops and functions |
| `Layout` | `LayoutRoutine.java` (master side) | class with the routine's fields |
| `MultiScale` | `MultiScaleMaster.java` | step function plus a class with the master's flags |

Serialisation is over abstract tokens (`Common.Token`): an id, an int, a long, a double, a
boolean or a nested payload. Each serialiser has a decoder and a round-trip lemma. Giraph's
aggregators, its messaging layer and the routines the master consults are parameters: an
aggregator becomes a field or an argument; a send becomes an entry in a returned outbox; a
routine becomes a boolean report.

## Model

| member | source | states |
|---|---|---|
| Adaptation.InitialTempFactor | gila-multi/src/unipg/gila/multi/layout/LayoutAdaptationStrategy.java:36-45 | the factor is one of 0.1, 0.2, 0.4, 0.8; it is 0.1 exactly below 250 edges and 0.8 exactly from 10000 edges |
| Adaptation.CoolingSpeed | gila-multi/src/unipg/gila/multi/layout/LayoutAdaptationStrategy.java:50-61 | the speed lies in [0.9, 0.98]; it is 0.98 exactly below 500 edges and 0.9 exactly from 1000000 edges |
| Adaptation.TargetAccuracy | gila-multi/src/unipg/gila/multi/layout/LayoutAdaptationStrategy.java:66-75 | the accuracy lies in [0.0001, 0.1]; it is 0.0001 exactly below 1000 edges and 0.1 exactly from 1000000 edges |
| Adaptation.DensityDrivenK | gila-multi/src/unipg/gila/multi/layout/LayoutAdaptationStrategy.java:82-92 | k is 3 exactly on a dense layer, and 6 otherwise |
| Adaptation.SizeDrivenK | gila-multi/src/unipg/gila/multi/layout/LayoutAdaptationStrategy.java:102-115 | k lies in 1..6; it is 6 exactly below 1000 edges and 1 exactly above 1000000 edges |
| Adaptation.StrategyK | gila-multi/src/unipg/gila/multi/layout/AdaptationStrategy.java:25-36 | each strategy's k keeps that strategy's bounds; the combined strategy yields its own k |
| Adaptation.ResolveStrategy | gila-multi/src/unipg/gila/multi/MultiScaleMaster.java:85-91 | the class named by the first configured entry is used when it loads; an empty list or a first entry that does not load falls back to the size-and-density strategy |
| Adaptation.ResolveStrategyFirstEntry | gila-multi/src/unipg/gila/multi/MultiScaleMaster.java:86 | entries after the first never change the strategy |
| Adaptation.InitialTempFactorMonotone | gila-multi/src/unipg/gila/multi/layout/LayoutAdaptationStrategy.java:36-45 | more edges never give a lower initial temperature factor |
| Adaptation.CoolingSpeedAntitone | gila-multi/src/unipg/gila/multi/layout/LayoutAdaptationStrategy.java:50-61 | more edges never give a slower-cooling (higher) speed |
| Adaptation.TargetAccuracyMonotone | gila-multi/src/unipg/gila/multi/layout/LayoutAdaptationStrategy.java:66-75 | more edges never give a finer accuracy |
| Adaptation.SizeDrivenKAntitone | gila-multi/src/unipg/gila/multi/layout/LayoutAdaptationStrategy.java:102-115 | more edges never give a larger k |
| Adaptation.TablesIgnoreLayer | gila-multi/src/unipg/gila/multi/layout/LayoutAdaptationStrategy.java:36-115 | every table depends on the layer's edge count only (density k: edges and vertices), never on the layer index or the layer count |
| Messages.NewMessage | gila-common/src/unipg/gila/common/datastructures/messagetypes/LayoutMessage.java:48-51 | a new message carries its payload and coordinates, ttl 0, no weight and no sender |
| Messages.NewMessageWithTtl | gila-common/src/unipg/gila/common/datastructures/messagetypes/LayoutMessage.java:60-63 | as above, with the given ttl |
| Messages.Propagate | gila-common/src/unipg/gila/common/datastructures/messagetypes/LayoutMessage.java:72-79 | the copy has ttl one less, the same payload, coordinates and weight, and no sender |
| Messages.PropagateAndDie | gila-common/src/unipg/gila/common/datastructures/messagetypes/LayoutMessage.java:89-94 | the copy has ttl 0, the same payload, coordinates and weight, and no sender |
| Messages.Copy | gila-common/src/unipg/gila/common/datastructures/messagetypes/LayoutMessage.java:143-145 | the copy keeps payload, ttl and coordinates and drops weight and sender |
| Messages.SetSenderId | gila-common/src/unipg/gila/common/datastructures/messagetypes/LayoutMessage.java:150-159 | the sender read back is the one set; nothing else changes |
| Messages.AddToWeight | gila-multi/src/unipg/gila/multi/MultiScaleComputation.java:91-96 | the weight grows by the edge value; nothing else changes |
| Messages.SpecificWrite | gila-common/src/unipg/gila/common/datastructures/messagetypes/LayoutMessage.java:121-126 | the message's own part is four tokens |
| Messages.SpecificRead | gila-common/src/unipg/gila/common/datastructures/messagetypes/LayoutMessage.java:104-111 | reading succeeds exactly on an id, two doubles and a long; it consumes four tokens and keeps ttl and weight of the message read into |
| Messages.SpecificRoundTrip | gila-common/src/unipg/gila/common/datastructures/messagetypes/LayoutMessage.java:104-126 | reading what was written restores payload, coordinates and sender and leaves the rest of the input |
| Messages.PropagateChain | gila-common/src/unipg/gila/common/datastructures/messagetypes/LayoutMessage.java:72-94 | k propagations lower the ttl by k and keep payload, coordinates and weight; dying after them equals dying at once |
| SetWritables.ReadSet | gila-common/src/unipg/gila/common/datastructures/SetWritable.java:73-81 | an empty input yields the empty set and a failed read |
| SetWritables.ItemSetAppend | gila-common/src/unipg/gila/common/datastructures/SetWritable.java:73-81 | one more item read adds that element to the set read |
| SetWritables.ReadItemsOfItems | gila-common/src/unipg/gila/common/datastructures/SetWritable.java:76-80 | reading as many items as are present yields their set and the rest of the input |
| SetWritables.RoundTrip | gila-common/src/unipg/gila/common/datastructures/SetWritable.java:73-88 | reading any encoding of a set gives that set back and the rest of the input |
| SetWritables.SetWritable.constructor | gila-common/src/unipg/gila/common/datastructures/SetWritable.java:35-38 | a new set is empty |
| SetWritables.SetWritable.AddAll | gila-common/src/unipg/gila/common/datastructures/SetWritable.java:40-42 | the set becomes the old set plus the collection's elements |
| SetWritables.SetWritable.Reset | gila-common/src/unipg/gila/common/datastructures/SetWritable.java:48-50 | the set becomes empty |
| SetWritables.SetWritable.AddElement | gila-common/src/unipg/gila/common/datastructures/SetWritable.java:52-54 | the element is added; the size grows by one exactly when it was absent |
| SetWritables.SetWritable.Contains | gila-common/src/unipg/gila/common/datastructures/SetWritable.java:56-58 | true exactly for members |
| SetWritables.SetWritable.Remove | gila-common/src/unipg/gila/common/datastructures/SetWritable.java:60-62 | the element is removed; the result says whether it was present |
| SetWritables.SetWritable.Size | gila-common/src/unipg/gila/common/datastructures/SetWritable.java:64-66 | the number of elements |
| SetWritables.SetWritable.Write | gila-common/src/unipg/gila/common/datastructures/SetWritable.java:83-88 | the output is the count followed by each element exactly once |
| SetWritables.SetWritable.ReadFields | gila-common/src/unipg/gila/common/datastructures/SetWritable.java:73-81 | the new set and the rest of the input are those of the reader function, which round-trips with Write |
| AstralBodies.RolesPartition | gila-common/src/unipg/gila/common/coordinatewritables/AstralBodyCoordinateWritable.java:134-151 | every distance from -1 up gives exactly one role among asteroid, sun, planet and moon |
| AstralBodies.MergeWeight | gila-common/src/unipg/gila/common/coordinatewritables/AstralBodyCoordinateWritable.java:173-179 | the neighbour sun is recorded with the larger of its old and new weight; other suns keep theirs |
| AstralBodies.MergeWeightCommutes | gila-common/src/unipg/gila/common/coordinatewritables/AstralBodyCoordinateWritable.java:173-179 | recording two weights for one sun gives the same map in either order |
| AstralBodies.PathsFor | gila-common/src/unipg/gila/common/coordinatewritables/AstralBodyCoordinateWritable.java:186-188 | the paths are exactly those of the referrers whose event generator is the given body |
| AstralBodies.FileReferrers | gila-common/src/unipg/gila/common/coordinatewritables/AstralBodyCoordinateWritable.java:181-201 | no referrers change nothing and succeed |
| AstralBodies.FilingFailsIff | gila-common/src/unipg/gila/common/coordinatewritables/AstralBodyCoordinateWritable.java:181-201 | filing fails exactly when, for some referrer, the planet map is missing, or the referrer is in neither map while a moon map exists |
| AstralBodies.FiledBuckets | gila-common/src/unipg/gila/common/coordinatewritables/AstralBodyCoordinateWritable.java:181-201 | after filing, each planet and moon bucket holds its old paths plus the new paths of its referrers |
| AstralBodies.FiledPlanets | gila-common/src/unipg/gila/common/coordinatewritables/AstralBodyCoordinateWritable.java:181-201 | after a successful filing, the planet map exists exactly when it did and keeps its keys, and each planet bucket gains exactly the paths of the referrers it generated |
| AstralBodies.FiledMoons | gila-common/src/unipg/gila/common/coordinatewritables/AstralBodyCoordinateWritable.java:181-201 | after a successful filing, the moon map exists exactly when it did and keeps its keys; a moon bucket whose key has no planet bucket gains exactly the paths of the referrers it generated, one whose key also has a planet bucket is unchanged |
| AstralBodies.Encode | gila-common/src/unipg/gila/common/coordinatewritables/AstralBodyCoordinateWritable.java:314-337 | a cleared body is written as a single true flag; otherwise a false flag and the fields, failing exactly when an absent optional field must be written |
| AstralBodies.DecodeBody | gila-common/src/unipg/gila/common/coordinatewritables/AstralBodyCoordinateWritable.java:288-311 | reading the fields never lengthens the input |
| AstralBodies.Decode | gila-common/src/unipg/gila/common/coordinatewritables/AstralBodyCoordinateWritable.java:283-312 | a true flag marks the body cleared and reads nothing else; every read consumes input |
| AstralBodies.RoundTrip | gila-common/src/unipg/gila/common/coordinatewritables/AstralBodyCoordinateWritable.java:283-337 | reading what was written restores the cleared flag and leaves the rest of the input unread; a cleared record keeps every other prior field; otherwise the header fields come back, plus a sun's three maps, a moon's proxies and favourite proxy, and the sun of every other non-asteroid |
| AstralBodies.AstralBody.constructor | gila-common/src/unipg/gila/common/coordinatewritables/AstralBodyCoordinateWritable.java:44-55 | a new body is an unassigned asteroid of weight 2, with no sun, proxies, planets, moons or neighbours |
| AstralBodies.AstralBody.WithLowerLevelWeight | gila-common/src/unipg/gila/common/coordinatewritables/AstralBodyCoordinateWritable.java:67-70 | as above, with the given lower-level weight, so its astral weight is that plus one |
| AstralBodies.AstralBody.SetAsSun | gila-common/src/unipg/gila/common/coordinatewritables/AstralBodyCoordinateWritable.java:104-107 | the body is a sun at distance and weight 0, and no other role |
| AstralBodies.AstralBody.SetAsPlanet | gila-common/src/unipg/gila/common/coordinatewritables/AstralBodyCoordinateWritable.java:109-112 | the body is a planet at distance 1 with the given weight, and no other role |
| AstralBodies.AstralBody.SetAsMoon | gila-common/src/unipg/gila/common/coordinatewritables/AstralBodyCoordinateWritable.java:114-117 | the body is a moon at distance 2 with the given weight, and no other role |
| AstralBodies.AstralBody.ResetToAsteroid | gila-common/src/unipg/gila/common/coordinatewritables/AstralBodyCoordinateWritable.java:153-155 | the body is an asteroid and no other role |
| AstralBodies.AstralBody.SetWeightFromSun | gila-common/src/unipg/gila/common/coordinatewritables/AstralBodyCoordinateWritable.java:99-101 | the weight from the sun is set |
| AstralBodies.AstralBody.SetAssigned | gila-common/src/unipg/gila/common/coordinatewritables/AstralBodyCoordinateWritable.java:119-121 | the body is assigned |
| AstralBodies.AstralBody.ResetAssigned | gila-common/src/unipg/gila/common/coordinatewritables/AstralBodyCoordinateWritable.java:126-128 | the body is not assigned |
| AstralBodies.AstralBody.SetSun | gila-common/src/unipg/gila/common/coordinatewritables/AstralBodyCoordinateWritable.java:242-245 | sun and favourite proxy are set |
| AstralBodies.AstralBody.AddToProxies | gila-common/src/unipg/gila/common/coordinatewritables/AstralBodyCoordinateWritable.java:253-258 | the proxy joins the proxy set, which is created when absent |
| AstralBodies.AstralBody.AddPlanet | gila-common/src/unipg/gila/common/coordinatewritables/AstralBodyCoordinateWritable.java:157-162 | the planet gets an empty path set, the astral weight grows by the planet's weight, and the planet count grows exactly when the planet is new |
| AstralBodies.AstralBody.AddMoon | gila-common/src/unipg/gila/common/coordinatewritables/AstralBodyCoordinateWritable.java:164-169 | the same for moons |
| AstralBodies.AstralBody.AddNeighbourSystem | gila-common/src/unipg/gila/common/coordinatewritables/AstralBodyCoordinateWritable.java:171-202 | the neighbour weight is merged; without referrers nothing else changes; with referrers the buckets are those filed, or the call fails exactly as filing does |
| AstralBodies.AstralBody.PlanetsNo | gila-common/src/unipg/gila/common/coordinatewritables/AstralBodyCoordinateWritable.java:351-353 | zero without a planet map, else its size |
| AstralBodies.AstralBody.MoonsNo | gila-common/src/unipg/gila/common/coordinatewritables/AstralBodyCoordinateWritable.java:359-361 | zero without a moon map, else its size |
| AstralBodies.AstralBody.NeighbourSystemsNo | gila-common/src/unipg/gila/common/coordinatewritables/AstralBodyCoordinateWritable.java:220-224 | zero without a neighbour map, else its size |
| AstralBodies.AstralBody.GetProxy | gila-common/src/unipg/gila/common/coordinatewritables/AstralBodyCoordinateWritable.java:247-251 | a planet's proxy is its sun; any other body's is its favourite proxy |
| AstralBodies.AstralBody.ClearAstralInfo | gila-common/src/unipg/gila/common/coordinatewritables/AstralBodyCoordinateWritable.java:264-272 | the body is cleared with no planets, moons, neighbours, sun or proxies; role, weights and assignment are kept |
| AstralBodies.AstralBody.Write | gila-common/src/unipg/gila/common/coordinatewritables/AstralBodyCoordinateWritable.java:314-337 | the output is the encoding of the body's fields |
| AstralBodies.AstralBody.ReadFields | gila-common/src/unipg/gila/common/coordinatewritables/AstralBodyCoordinateWritable.java:283-312 | the read succeeds exactly when decoding does, and the new fields are the decoded ones |
| AstralBodies.AstralBody.ReadBody | gila-common/src/unipg/gila/common/coordinatewritables/AstralBodyCoordinateWritable.java:293-311 | the role-dependent part is read exactly as decoding reads it: a sun's three maps, a moon's proxies, a non-asteroid's sun |
| LayeredSending.SameLayerTargets | gila-multi/src/unipg/gila/multi/MultiScaleComputation.java:126-137 | no more targets than edges |
| LayeredSending.SameLayerTargetsMembers | gila-multi/src/unipg/gila/multi/MultiScaleComputation.java:126-137 | a target is kept exactly when some edge leads to it and it sits in the layer |
| LayeredSending.SameLayerTargetsStayInLayer | gila-multi/src/unipg/gila/multi/MultiScaleComputation.java:130-134 | every kept target sits in the layer |
| LayeredSending.EdgeValueIsFirstMatch | gila-multi/src/unipg/gila/multi/MultiScaleComputation.java:91-96 | an edge value exists exactly when an edge leads to the id, and it is the first such edge's |
| LayeredSending.SendWithWeight | gila-multi/src/unipg/gila/multi/MultiScaleComputation.java:91-96 | a send happens exactly when an edge leads to the id; its weight grows by that edge's value |
| LayeredSending.Broadcast | gila-multi/src/unipg/gila/multi/MultiScaleComputation.java:126-137 | one send per target, in order, all with the same message |
| LayeredSending.SendMessageToAllEdges | gila-multi/src/unipg/gila/multi/MultiScaleComputation.java:126-137 | the same message goes to every same-layer target in edge order, and to no one else |
| LayeredSending.SendMessageToAllEdgesWithWeight | gila-multi/src/unipg/gila/multi/MultiScaleComputation.java:111-120 | a weighted copy goes to every same-layer target in edge order; each weight is the edge value toward that target |
| LayeredSending.SendMessageToMultipleEdgesWithWeight | gila-multi/src/unipg/gila/multi/MultiScaleComputation.java:101-106 | each id in turn gets a weighted copy; the call fails exactly when some id has no edge, at the first such id |
| SolarPlacing.LastValueForIsLast | gila-multi/src/unipg/gila/multi/placers/SolarPlacer.java:71-78 | coordinates are known for a body exactly when some message names it, and they are those of the last such message |
| SolarPlacing.DemuxKeepsLast | gila-multi/src/unipg/gila/multi/placers/SolarPlacer.java:71-78 | the vertex's own coordinates and every other body's are those of the last message naming it; the vertex is not in the map |
| SolarPlacing.Contribution | gila-multi/src/unipg/gila/multi/placers/SolarPlacer.java:120-124 | a path contributes the vertex-minus-sun displacement scaled by its position over its length |
| SolarPlacing.SumRemove | gila-multi/src/unipg/gila/multi/placers/SolarPlacer.java:118-126 | the sum of the contributions does not depend on the order the paths are taken in |
| SolarPlacing.Arranged | gila-multi/src/unipg/gila/multi/placers/SolarPlacer.java:110-129 | every body is placed, and only those |
| SolarPlacing.SinglePathPlacement | gila-multi/src/unipg/gila/multi/placers/SolarPlacer.java:118-127 | a body with one path is placed at the vertex-minus-sun displacement scaled by that path's position over its length |
| SolarPlacing.SumPaths | gila-multi/src/unipg/gila/multi/placers/SolarPlacer.java:113-126 | the loop's sum is the sum of the contributions; it fails exactly when some referenced sun is unknown or a path has length 0 |
| SolarPlacing.ArrangeBodies | gila-multi/src/unipg/gila/multi/placers/SolarPlacer.java:110-129 | every body is placed at the mean of its paths' contributions; it fails exactly when some body is not arrangeable |
| SolarPlacing.PlanetSendsOnePerPlanet | gila-multi/src/unipg/gila/multi/placers/SolarPlacer.java:91-95 | one message per planet, addressed to it, carrying its coordinates |
| SolarPlacing.DemuxMessages | gila-multi/src/unipg/gila/multi/placers/SolarPlacer.java:71-78 | the map of other bodies is the demultiplexed one, and the vertex takes its own coordinates from the last message naming it |
| SolarPlacing.SendToPlanets | gila-multi/src/unipg/gila/multi/placers/SolarPlacer.java:91-95 | the sends are one per placed planet, in some order of the planets |
| SolarPlacing.SendToMoons | gila-multi/src/unipg/gila/multi/placers/SolarPlacer.java:98-102 | one ttl-1 broadcast per placed moon, about that moon, addressed to the placing vertex's same-layer edge targets, in some order of the moons |
| SolarPlacing.VertexInLayerComputation | gila-multi/src/unipg/gila/multi/placers/SolarPlacer.java:45-103 | a vertex that is not a sun and has lower-level weight 0 does nothing; otherwise its own coordinates come from the messages, its planets and moons are arranged, each planet is sent its own position and each moon's position is broadcast to the vertex's same-layer edge targets; the run fails exactly when arranging fails |
| SolarPlacing.Compute | gila-multi/src/unipg/gila/multi/MultiScaleComputation.java:55-65 | a vertex outside the current layer does nothing; one inside runs the placer step |
| GridPacking.EntryOrderKeysDistinct | gila-core/src/unipg/gila/layout/LayoutRoutine.java:485-501 | the sorted entries name each component once |
| GridPacking.FirstIsLeast | gila-core/src/unipg/gila/layout/LayoutRoutine.java:489-501 | the first sorted entry is the least by value, then key |
| GridPacking.EntryOrderTail | gila-core/src/unipg/gila/layout/LayoutRoutine.java:489-501 | dropping the first entry leaves the sort of the rest of the map |
| GridPacking.FirstEntriesAgree | gila-core/src/unipg/gila/layout/LayoutRoutine.java:489-501 | two sorts of one map start with the same entry |
| GridPacking.EntryOrderUnique | gila-core/src/unipg/gila/layout/LayoutRoutine.java:478-505 | a map has exactly one sorted order |
| GridPacking.SortKeys | gila-core/src/unipg/gila/layout/LayoutRoutine.java:479-482 | the keys, each once, strictly ascending |
| GridPacking.SortValues | gila-core/src/unipg/gila/layout/LayoutRoutine.java:480-483 | the values ascending and a permutation of the input |
| GridPacking.FirstKeyWithValue | gila-core/src/unipg/gila/layout/LayoutRoutine.java:491-500 | the first remaining key holding the value, or none of them holds it |
| GridPacking.SortStep | gila-core/src/unipg/gila/layout/LayoutRoutine.java:489-501 | taking out the first key holding the smallest unused value keeps the sort invariant, and such a key exists |
| GridPacking.SortMapByValues | gila-core/src/unipg/gila/layout/LayoutRoutine.java:478-505 | every entry of the map exactly once, by value and then by key |
| GridPacking.TransformPoint | gila-core/src/unipg/gila/layout/LayoutRoutine.java:599 | a coordinate is translated, scaled and moved to the component's cell |
| GridPacking.LayoutCC | gila-core/src/unipg/gila/layout/LayoutRoutine.java:597-599 | a vertex moves exactly when its component has an offset, by that offset |
| GridPacking.OffsetMovesBox | gila-core/src/unipg/gila/layout/LayoutRoutine.java:450-456 | the offset puts the component's lower corner on the cursor and its upper corner at the scaled size from it |
| GridPacking.Scale | gila-core/src/unipg/gila/layout/LayoutRoutine.java:445-449 | the scale is the size ratio, raised to the minimum ratio when smaller |
| GridPacking.CeilSqrt | gila-core/src/unipg/gila/layout/LayoutRoutine.java:423 | the least c with c * c at least n |
| GridPacking.CeilSqrtFrom | gila-core/src/unipg/gila/layout/LayoutRoutine.java:423 | the least root search keeps and returns the least c with c * c at least n |
| GridPacking.ComputeComponentGridLayout | gila-core/src/unipg/gila/layout/LayoutRoutine.java:405-469 | the components are taken in sorted order and the result is the grid of that order |
| GridPacking.PlaceOthers | gila-core/src/unipg/gila/layout/LayoutRoutine.java:442-467 | the loop over the smaller components yields exactly the grid placement from the next largest down, or none when a component has no bounds |
| GridPacking.PlaceComponent | gila-core/src/unipg/gila/layout/LayoutRoutine.java:443-466 | placing one component moves the cursor, row height, counter and offsets exactly as one grid step does |
| GridPacking.PlaceStepRowRule | gila-core/src/unipg/gila/layout/LayoutRoutine.java:442-467 | the cursor moves right past the component and the padding while the row has room, else back to the left edge and down past the row's tallest component |
| GridPacking.PlaceFromFailsIff | gila-core/src/unipg/gila/layout/LayoutRoutine.java:443-446 | placing fails exactly when some component has no recorded bounds |
| GridPacking.PlaceFromKeys | gila-core/src/unipg/gila/layout/LayoutRoutine.java:442-467 | placing records one offset per placed component and keeps the others |
| GridPacking.PlaceFromOffsets | gila-core/src/unipg/gila/layout/LayoutRoutine.java:442-467 | each placed component is translated by minus its lower corner and scaled by its ratio |
| GridPacking.GridLayoutUnfold | gila-core/src/unipg/gila/layout/LayoutRoutine.java:428-442 | the largest component is anchored at the origin and the others are placed from the next largest down |
| GridPacking.GridLayoutOffsets | gila-core/src/unipg/gila/layout/LayoutRoutine.java:405-469 | every component gets one offset; the largest lands on the origin at scale 1; the others are translated by minus their lower corner and scaled by their ratio |
| GridPacking.GridLayoutMany | gila-core/src/unipg/gila/layout/LayoutRoutine.java:431-467 | the same for more than one component |
| GridPacking.OffsetsByKey | gila-core/src/unipg/gila/layout/LayoutRoutine.java:442-467 | the per-position placement facts hold per component |
| Layout.SelectReintegration | gila-core/src/unipg/gila/layout/LayoutRoutine.java:314-319 | a loadable configured class is used; otherwise the fair-share reintegration |
| Layout.ConvergedIff | gila-core/src/unipg/gila/layout/LayoutRoutine.java:394-400 | the corrected check holds exactly when the settled share exceeds the threshold |
| Layout.ConvergedAsWrittenNeedsAll | gila-core/src/unipg/gila/layout/LayoutRoutine.java:399 | the check as written holds exactly when every vertex has settled |
| Layout.ConvergedAsWrittenMisses | gila-core/src/unipg/gila/layout/LayoutRoutine.java:399 | 90 settled of 100 converges by the threshold but not as written |
| Layout.StageAction | gila-core/src/unipg/gila/layout/LayoutRoutine.java:311-342 | the sequence finishes exactly outside stages 0..3 |
| Layout.HaltActions | gila-core/src/unipg/gila/layout/LayoutRoutine.java:311-342 | one action per call |
| Layout.HaltingSequenceOrder | gila-core/src/unipg/gila/layout/LayoutRoutine.java:311-342 | from the start the stages run reintegration, dummy, explorer, packing, then finish for good |
| Layout.FinishForever | gila-core/src/unipg/gila/layout/LayoutRoutine.java:341-342 | past the last stage every call finishes |
| Layout.CoolingLowers | gila-core/src/unipg/gila/layout/LayoutRoutine.java:291-304 | with a cooling that lowers positive temperatures, every component's temperatures drop and stay positive |
| Layout.LayoutRoutine.constructor | gila-core/src/unipg/gila/layout/LayoutRoutine.java:170-234 | the threshold and initial computation are set; counters, flags and maps are empty |
| Layout.LayoutRoutine.CheckForConvergence | gila-core/src/unipg/gila/layout/LayoutRoutine.java:394-400 | the first call records the vertex count and reports no convergence; later calls use the corrected check |
| Layout.LayoutRoutine.UpdateTemperatureAggregator | gila-core/src/unipg/gila/layout/LayoutRoutine.java:291-304 | both temperatures of every component are cooled |
| Layout.LayoutRoutine.MasterHaltingSequence | gila-core/src/unipg/gila/layout/LayoutRoutine.java:311-346 | before the sequence starts a call only records the vertex count on the first check; once started, each call sets halting and makes exactly its stage's state change (reintegration class, blank computation, cleared bounds with the explorer, grid offsets with the component layout, or failure keeping the stage); the call after the last stage reports done and changes nothing else |
| Layout.LayoutRoutine.RunStage | gila-core/src/unipg/gila/layout/LayoutRoutine.java:313-342 | a started sequence sets halting and makes exactly the state change of its current stage |
| Layout.LayoutRoutine.PackComponents | gila-core/src/unipg/gila/layout/LayoutRoutine.java:335-340 | the installed offsets are the grid of a size order of the components and the component layout follows; when the grid cannot be computed the stage, computation and offsets stay |
| Layout.LayoutRoutine.Compute | gila-core/src/unipg/gila/layout/LayoutRoutine.java:353-387 | superstep 0 changes nothing; while the halting sequence is on, the call is exactly one step of it and halts only when the sequence completes; otherwise the stage stays 0, only the vertex count may be recorded, bounds and offsets are untouched, and the scaler, seeding or propagation step follows |
| Layout.LayoutRoutine.Advance | gila-core/src/unipg/gila/layout/LayoutRoutine.java:364-386 | the scaler at superstep 1; then seeding after a complete message round unless the last step seeded, cooling the temperatures before every seeding but the first, else propagation |
| MultiScale.AppliedK | gila-multi/src/unipg/gila/multi/MultiScaleMaster.java:130-131 | k never grows; on layer 0 it is at most 2, and unchanged when already at most 2; elsewhere unchanged |
| MultiScale.SelectK | gila-multi/src/unipg/gila/multi/MultiScaleMaster.java:127-131 | the strategy's k, capped at 2 on layer 0 |
| MultiScale.TerminatedHaltsAlone | gila-multi/src/unipg/gila/multi/MultiScaleMaster.java:102-106 | a terminated master halts without consulting any routine or changing anything |
| MultiScale.MergingGate | gila-multi/src/unipg/gila/multi/MultiScaleMaster.java:98-118 | while merging only the merger runs; when it is done merging ends, placer preparation is pending and the dummy is installed |
| MultiScale.DummyOnlyAfterMerge | gila-multi/src/unipg/gila/multi/MultiScaleMaster.java:109-118 | the dummy is installed exactly when the merger reports done |
| MultiScale.PreparePlacerStartsLayout | gila-multi/src/unipg/gila/multi/MultiScaleMaster.java:123-146 | a pending preparation switches layout on and selects the layer's parameters |
| MultiScale.LayoutDoneOnFinestLayer | gila-multi/src/unipg/gila/multi/MultiScaleMaster.java:146-184 | the finished layout of layer 0 starts reintegration in the same superstep |
| MultiScale.LayoutDoneOnCoarserLayer | gila-multi/src/unipg/gila/multi/MultiScaleMaster.java:146-177 | the finished layout of a coarser layer starts placing in the same superstep |
| MultiScale.PlacingDone | gila-multi/src/unipg/gila/multi/MultiScaleMaster.java:158-177 | a finished placer restarts layout, resets the aggregators, selects parameters and ends the superstep |
| MultiScale.ResetOnlyAfterPlacing | gila-multi/src/unipg/gila/multi/MultiScaleMaster.java:158-177 | the aggregators are reset exactly when the placer reports done |
| MultiScale.ReintegrationTerminates | gila-multi/src/unipg/gila/multi/MultiScaleMaster.java:180-184 | the reintegration phase terminates and halts exactly when the reintegration is done |
| MultiScale.LayerTerminates | gila-multi/src/unipg/gila/multi/MultiScaleMaster.java:135-184 | a layer's phases halt exactly when they terminate, and only through reintegration |
| MultiScale.HaltIffTerminated | gila-multi/src/unipg/gila/multi/MultiScaleMaster.java:97-185 | the master halts exactly when it is terminated after the step |
| MultiScale.TerminatedOnlyByReintegration | gila-multi/src/unipg/gila/multi/MultiScaleMaster.java:97-185 | termination comes only from a finished reintegration |
| MultiScale.CallsInOrder | gila-multi/src/unipg/gila/multi/MultiScaleMaster.java:97-185 | the routines run at most once each, in the order merger, layout, placer, reintegration, and the merger alone |
| MultiScale.StepKeepsExclusive | gila-multi/src/unipg/gila/multi/MultiScaleMaster.java:97-185 | at most one phase is active after a step when at most one was before |
| MultiScale.Trace | gila-multi/src/unipg/gila/multi/MultiScaleMaster.java:97-185 | one state per superstep plus the initial one |
| MultiScale.TraceSteps | gila-multi/src/unipg/gila/multi/MultiScaleMaster.java:97-185 | each state of a run is the step from the state before it |
| MultiScale.RunPhasesExclusive | gila-multi/src/unipg/gila/multi/MultiScaleMaster.java:75-185 | a run from the initial flags never has two phases active |
| MultiScale.TerminatedStaysTerminated | gila-multi/src/unipg/gila/multi/MultiScaleMaster.java:102-106 | once terminated, the flags never change again |
| MultiScale.RunStep | gila-multi/src/unipg/gila/multi/MultiScaleMaster.java:102-106 | a terminated run repeats its state superstep after superstep |
| MultiScale.MultiScaleMaster.constructor | gila-multi/src/unipg/gila/multi/MultiScaleMaster.java:59-95 | all flags are off, the iteration limit is the configured one or 30, and the strategy is resolved with its fallback |
| MultiScale.MultiScaleMaster.UpdateAggregators | gila-multi/src/unipg/gila/multi/MultiScaleMaster.java:187-207 | k, cooling speed, initial temperature factor and accuracy are those of the tables for the layer |
| MultiScale.MultiScaleMaster.ResetLayoutAggregators | gila-multi/src/unipg/gila/multi/MultiScaleMaster.java:212-218 | the maximum k is reset to the least float and the component maps are emptied |
| MultiScale.MultiScaleMaster.Compute | gila-multi/src/unipg/gila/multi/MultiScaleMaster.java:97-185 | the flags, routines run, halt and dummy follow the step function; parameters are reselected and aggregators reset exactly when it says so |
| MultiScale.MultiScaleMaster.LayerSuperstep | gila-multi/src/unipg/gila/multi/MultiScaleMaster.java:123-185 | the preparation and the layer's phases follow the step function |
| MultiScale.MultiScaleMaster.LayerPhase | gila-multi/src/unipg/gila/multi/MultiScaleMaster.java:135-184 | the layout and what follows it follow the layer step |
| MultiScale.MultiScaleMaster.PlacingPhase | gila-multi/src/unipg/gila/multi/MultiScaleMaster.java:158-184 | the placing and what follows it follow the placing step |
| MultiScale.MultiScaleMaster.ReintegrationPhase | gila-multi/src/unipg/gila/multi/MultiScaleMaster.java:180-184 | the reintegration follows the reintegration step |

## Left out

- Giraph itself is not modelled: the cluster runtime, supersteps as scheduled work, message delivery, aggregator combination across workers, counters and logging. Aggregator values are fields or arguments, sends are returned outboxes, and a routine the master consults is a boolean report.
- The solar merger, the graph reintegration routine, the force-directed seeder and propagator computations (`FR.java`), the drawing explorer and scaler, and the input format are not part of this model. The master only sees their reports.
- `superstepOneSpecials` of the layout routine and its failure path are left out; the model installs the drawing scaler at superstep 1.
- The master's Walshaw constant and optimal edge length use floating powers of aggregated values; they are not modelled.
- The master reads per-layer vertex, edge and edge-weight counts from aggregator maps; a missing entry there ends the run with a null dereference. The model takes the counts as inputs that are present.
- `SizeAndDensityDrivenAdaptationStrategy` is not part of this model. Its k is an input (`combinedK`), and its other tables are taken to be the inherited ones.
- The angular maximization fields are initialised by the master and never used in the modelled code; only their initial values are modelled.
- Floating point is modelled as exact reals. Float rounding, NaN and infinity are left out. The least positive float is the exact rational 2^-149.
- SolarPlacing.ArrangeBodies: a body with no paths divides 0 by 0 in the source (NaN coordinates), and a path of length 0 divides by 0. The model reports failure for both rather than producing NaN.
- GridPacking.ComputeComponentGridLayout: with more than one component and a largest size of 0, the source's float division gives infinity or NaN rather than failing. The model reports no grid there.
- GridPacking.ComputeComponentGridLayout: the source mutates the bounding-box arrays read from the aggregator while scaling them. The model computes on values and leaves that aliasing out.
- Messages: a `LayoutMessage` is a value. The source sends one object to many targets and may mutate it afterwards; that aliasing is not modelled.
- The payload type differs between the solar placer and `LayoutMessage.java` (a plain long id against a layered id). The model compares the payload's id with the vertex id.
- Splitting the configured adaptation-strategy setting into comma-separated entries is done by the Hadoop configuration class, which is not part of this model. The master receives the list of entries.
- Messages.UnsetWeight: the weight field and the constructors that leave it unset belong to the message superclass, which is not part of this model. Its starting value is taken to be 0, so the claim that every weight sent by LayeredSending.SendMessageToAllEdgesWithWeight is an edge value rests on that assumption.
- AstralBodies.PathFor: `PathWritable` is not part of this model. The path built at gila-common/src/unipg/gila/common/coordinatewritables/AstralBodyCoordinateWritable.java:188 is given only the position and the sun, so the length the model records (the neighbour weight) is an assumption about that class, and so is path equality being equality of position, sun and length, on which the duplicate checks at lines 190 and 196 rely.
- Serialisation is over abstract tokens. Hadoop's byte encodings and the `CoordinateWritable` superclass fields are left out.
- AstralBodies.AstralBody.ReadFields: a read that fails part-way leaves the source object half-updated. The model leaves the fields unspecified on failure.
- 32-bit wrap-around of the int weights and counters is not modelled.
- SetWritables.ReadSet: its own contract covers only the empty input; the round trip is stated by SetWritables.RoundTrip.

## Findings

| source | as written | input that shows it | evidently intended | confidence | as-written member | corrected member |
|---|---|---|---|---|---|---|
| gila-core/src/unipg/gila/layout/LayoutRoutine.java:399 | `settled / allVertices > threshold` divides two longs, so the quotient is 0 until every vertex has settled and the threshold is ignored | 90 settled of 100 vertices, threshold 0.85: 90/100 is 0, so no convergence | convergence once the settled share exceeds the threshold (0.9 > 0.85) | high, not executed | Layout.ConvergedAsWritten (shown by Layout.ConvergedAsWrittenMisses and Layout.ConvergedAsWrittenNeedsAll) | Layout.Converged (Layout.ConvergedIff), used by Layout.LayoutRoutine.CheckForConvergence |
