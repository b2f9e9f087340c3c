/** The placer step of the multi-level layout: a sun (or a weighted body) that received the
    coordinates of its own counterpart and of the neighbouring suns places each of its planets
    and moons at the mean, over the paths recorded for it, of its displacement from the
    referenced sun scaled by the body's position along the path, and tells each body. */
module SolarPlacing {
  import opened Common
  import opened Messages
  import opened AstralBodies
  import opened LayeredSending

  /** The messages of one superstep split by payload: the coordinates addressed to the vertex
      itself, and those of every other vertex keyed by its id. */
  datatype Demuxed = Demuxed(own: Option<Point>, coords: map<int, Point>)

  /** Taking the messages in order: one whose payload is the vertex itself sets its own
      coordinates, any other records its coordinates under its payload id; a later message
      overwrites an earlier one. */
  function Demux(msgs: seq<LayoutMessage>, self: int): Demuxed
    decreases |msgs|
  {
    if msgs == [] then Demuxed(None, map[])
    else
      var d := Demux(msgs[..|msgs| - 1], self);
      var m := msgs[|msgs| - 1];
      if m.payload.id == self then d.(own := Some(m.value))
      else d.(coords := d.coords[m.payload.id := m.value])
  }

  /** The coordinates carried by the last message about vertex `k`. */
  function LastValueFor(msgs: seq<LayoutMessage>, k: int): Option<Point>
    decreases |msgs|
  {
    if msgs == [] then None
    else if msgs[|msgs| - 1].payload.id == k then Some(msgs[|msgs| - 1].value)
    else LastValueFor(msgs[..|msgs| - 1], k)
  }

  /** `LastValueFor` is the value of a message about `k` that no later message about `k`
      follows, and it exists exactly when some message is about `k`. */
  lemma {:induction false} LastValueForIsLast(msgs: seq<LayoutMessage>, k: int)
    ensures LastValueFor(msgs, k).Some? <==> exists i :: 0 <= i < |msgs| && msgs[i].payload.id == k
    ensures LastValueFor(msgs, k).Some? ==>
      exists i :: 0 <= i < |msgs| && msgs[i].payload.id == k && msgs[i].value == LastValueFor(msgs, k).value
                  && forall j :: i < j < |msgs| ==> msgs[j].payload.id != k
    decreases |msgs|
  {
    if msgs != [] && msgs[|msgs| - 1].payload.id != k {
      var init := msgs[..|msgs| - 1];
      LastValueForIsLast(init, k);
      assert forall i :: 0 <= i < |init| ==> init[i] == msgs[i];
    }
  }

  /** After the split, the vertex's own coordinates are those of the last message about
      itself, and every other vertex that some message was about is recorded with the
      coordinates of the last message about it; nothing else is recorded. */
  lemma {:induction false} DemuxKeepsLast(msgs: seq<LayoutMessage>, self: int)
    ensures Demux(msgs, self).own == LastValueFor(msgs, self)
    ensures self !in Demux(msgs, self).coords
    ensures forall k :: k != self ==> (k in Demux(msgs, self).coords <==> LastValueFor(msgs, k).Some?)
    ensures forall k :: k in Demux(msgs, self).coords ==> Demux(msgs, self).coords[k] == LastValueFor(msgs, k).value
    decreases |msgs|
  {
    if msgs != [] {
      DemuxKeepsLast(msgs[..|msgs| - 1], self);
    }
  }

  function Add(a: Point, b: Point): Point
  {
    Point(a.x + b.x, a.y + b.y)
  }

  /** A path can be used when the sun it refers to sent its coordinates and its length is not
      zero (the source divides by it). */
  predicate PathUsable(p: Path, coords: map<int, Point>)
  {
    p.referencedSun.id in coords && p.pathLength != 0
  }

  /** What one path contributes: the displacement from the referenced sun, scaled by how far
      along the path the body sits. */
  function Contribution(my: Point, coords: map<int, Point>, p: Path): (c: Point)
    requires PathUsable(p, coords)
    ensures var ratio := p.positionInPath as real / p.pathLength as real;
      c.x == (my.x - coords[p.referencedSun.id].x) * ratio && c.y == (my.y - coords[p.referencedSun.id].y) * ratio
  {
    var ref := coords[p.referencedSun.id];
    var ratio := p.positionInPath as real / p.pathLength as real;
    Point((my.x - ref.x) * ratio, (my.y - ref.y) * ratio)
  }

  ghost function Pick(s: set<Path>): (p: Path)
    requires s != {}
    ensures p in s
  {
    var p :| p in s; p
  }

  /** The sum of the contributions of a set of paths. */
  ghost function SumContributions(s: set<Path>, my: Point, coords: map<int, Point>): Point
    requires forall p :: p in s ==> PathUsable(p, coords)
    decreases |s|
  {
    if s == {} then Point(0.0, 0.0)
    else
      var p := Pick(s);
      Add(Contribution(my, coords, p), SumContributions(s - {p}, my, coords))
  }

  /** The sum does not depend on the element taken first. */
  lemma {:induction false} SumRemove(s: set<Path>, q: Path, my: Point, coords: map<int, Point>)
    requires forall p :: p in s ==> PathUsable(p, coords)
    requires q in s
    ensures SumContributions(s, my, coords) == Add(Contribution(my, coords, q), SumContributions(s - {q}, my, coords))
    decreases |s|
  {
    var p := Pick(s);
    if p != q {
      SumRemove(s - {p}, q, my, coords);
      SumRemove(s - {q}, p, my, coords);
      assert s - {p} - {q} == s - {q} - {p};
    }
  }

  predicate BodyArrangeable(paths: set<Path>, coords: map<int, Point>)
  {
    paths != {} && forall p :: p in paths ==> PathUsable(p, coords)
  }

  /** Every body has at least one path and every path can be used. */
  predicate Arrangeable(bodies: PathMap, coords: map<int, Point>)
  {
    forall k :: k in bodies ==> BodyArrangeable(bodies[k], coords)
  }

  /** The mean contribution of the paths of one body. */
  ghost function Mean(paths: set<Path>, my: Point, coords: map<int, Point>): Point
    requires BodyArrangeable(paths, coords)
  {
    var s := SumContributions(paths, my, coords);
    Point(s.x / |paths| as real, s.y / |paths| as real)
  }

  /** The placement of every body. */
  ghost function Arranged(bodies: PathMap, my: Point, coords: map<int, Point>): (r: map<LayeredId, Point>)
    requires Arrangeable(bodies, coords)
    ensures r.Keys == bodies.Keys
  {
    map k | k in bodies :: Mean(bodies[k], my, coords)
  }

  /** A body with a single path sits at the displacement from that path's sun scaled by its
      position along the path. */
  lemma SinglePathPlacement(p: Path, my: Point, coords: map<int, Point>)
    requires PathUsable(p, coords)
    ensures var ratio := p.positionInPath as real / p.pathLength as real;
      Mean({p}, my, coords) == Point((my.x - coords[p.referencedSun.id].x) * ratio,
                                     (my.y - coords[p.referencedSun.id].y) * ratio)
  {
    SumRemove({p}, p, my, coords);
    assert {p} - {p} == {};
  }

  /** Sums the contributions of the paths of one body, taking them in some order. No result
      when a path cannot be used. */
  method SumPaths(my: Point, paths: set<Path>, coords: map<int, Point>) returns (sum: Option<Point>)
    ensures sum.Some? <==> forall p :: p in paths ==> PathUsable(p, coords)
    ensures sum.Some? ==> sum.value == SumContributions(paths, my, coords)
  {
    var acc := Point(0.0, 0.0);
    var todo := paths;
    while todo != {}
      invariant todo <= paths
      invariant forall p :: p in paths - todo ==> PathUsable(p, coords)
      invariant acc == SumContributions(paths - todo, my, coords)
      decreases todo
    {
      var p :| p in todo;
      if !PathUsable(p, coords) {
        return None;
      }
      AddPath(paths, todo, p, my, coords);
      acc := Add(acc, Contribution(my, coords, p));
      todo := todo - {p};
    }
    assert paths - {} == paths;
    sum := Some(acc);
  }

  /** Moving one usable path from the paths still to sum to the summed ones adds its
      contribution. */
  lemma AddPath(paths: set<Path>, todo: set<Path>, p: Path, my: Point, coords: map<int, Point>)
    requires todo <= paths && p in todo && PathUsable(p, coords)
    requires forall q :: q in paths - todo ==> PathUsable(q, coords)
    ensures SumContributions(paths - (todo - {p}), my, coords)
      == Add(SumContributions(paths - todo, my, coords), Contribution(my, coords, p))
  {
    SumRemove(paths - todo + {p}, p, my, coords);
    assert paths - todo + {p} - {p} == paths - todo;
    assert paths - (todo - {p}) == paths - todo + {p};
  }

  /** Places every body at the mean contribution of its paths. No result when a body has no
      path, a path has length zero or its sun sent no coordinates (the source then computes a
      non-finite coordinate or dereferences a missing entry). */
  method ArrangeBodies(my: Point, bodies: PathMap, coords: map<int, Point>) returns (r: Option<map<LayeredId, Point>>)
    ensures r.Some? <==> Arrangeable(bodies, coords)
    ensures r.Some? ==> r.value == Arranged(bodies, my, coords)
  {
    var result: map<LayeredId, Point> := map[];
    var remaining := bodies.Keys;
    while remaining != {}
      invariant remaining <= bodies.Keys
      invariant result.Keys == bodies.Keys - remaining
      invariant forall k :: k in result ==> BodyArrangeable(bodies[k], coords) && result[k] == Mean(bodies[k], my, coords)
      decreases remaining
    {
      var key :| key in remaining;
      var paths := bodies[key];
      var sum := SumPaths(my, paths, coords);
      if sum.None? || |paths| == 0 {
        assert !BodyArrangeable(bodies[key], coords);
        return None;
      }
      result := result[key := Point(sum.value.x / |paths| as real, sum.value.y / |paths| as real)];
      remaining := remaining - {key};
    }
    r := Some(result);
  }

  /** `order` lists every key exactly once. */
  ghost predicate IsOrdering(order: seq<LayeredId>, keys: set<LayeredId>)
  {
    && |order| == |keys|
    && (forall i, j :: 0 <= i < j < |order| ==> order[i] != order[j])
    && (forall k :: k in order <==> k in keys)
  }

  /** One message to each planet in `order`, addressed to the planet, carrying its new
      coordinates with the planet as payload. */
  function PlanetSends(order: seq<LayeredId>, placed: map<LayeredId, Point>): seq<Send>
    requires forall k :: k in order ==> k in placed
  {
    if order == [] then []
    else
      var k := order[|order| - 1];
      PlanetSends(order[..|order| - 1], placed) + [Send(k, NewMessage(k, placed[k]))]
  }

  /** For each moon in `order`, a ttl-1 message with the moon as payload and its new
      coordinates, sent to every edge target in the current layer. */
  function MoonSends(order: seq<LayeredId>, placed: map<LayeredId, Point>, edges: seq<Edge>, layer: int): seq<Send>
    requires forall k :: k in order ==> k in placed
  {
    if order == [] then []
    else
      var k := order[|order| - 1];
      MoonSends(order[..|order| - 1], placed, edges, layer)
        + Broadcast(SameLayerTargets(edges, layer), NewMessageWithTtl(k, 1, placed[k]))
  }

  /** Each planet hears exactly once, directly and about itself. */
  lemma {:induction false} PlanetSendsOnePerPlanet(order: seq<LayeredId>, placed: map<LayeredId, Point>)
    requires forall k :: k in order ==> k in placed
    ensures |PlanetSends(order, placed)| == |order|
    ensures forall i :: 0 <= i < |order| ==>
      PlanetSends(order, placed)[i] == Send(order[i], NewMessage(order[i], placed[order[i]]))
    decreases |order|
  {
    if order != [] {
      var init := order[..|order| - 1];
      PlanetSendsOnePerPlanet(init, placed);
      assert forall i :: 0 <= i < |init| ==> init[i] == order[i];
    }
  }

  /** The sends of a placer step, taking the planets and moons in the given orders (the
      source iterates over hash maps, whose order is not specified). */
  ghost predicate Placed(isSun: bool, lowerLevelWeight: int, planets: Option<PathMap>, moons: Option<PathMap>,
                         oldCoords: Point, self: int, edges: seq<Edge>, msgs: seq<LayoutMessage>, layer: int,
                         newCoords: Point, sends: seq<Send>, ok: bool,
                         planetOrder: seq<LayeredId>, moonOrder: seq<LayeredId>)
  {
    if !isSun && lowerLevelWeight == 0 then newCoords == oldCoords && sends == [] && ok
    else
      var d := Demux(msgs, self);
      && newCoords == (if d.own.Some? then d.own.value else oldCoords)
      && (ok <==> Arrangeable(OrEmpty(planets), d.coords) && Arrangeable(OrEmpty(moons), d.coords))
      && (!ok ==> sends == [])
      && (ok ==>
            && IsOrdering(planetOrder, OrEmpty(planets).Keys)
            && IsOrdering(moonOrder, OrEmpty(moons).Keys)
            && sends == PlanetSends(planetOrder, Arranged(OrEmpty(planets), newCoords, d.coords))
                        + MoonSends(moonOrder, Arranged(OrEmpty(moons), newCoords, d.coords), edges, layer))
  }

  /** Splits the messages, updating the vertex's own coordinates as it goes. */
  method DemuxMessages(vertex: AstralBody, self: int, msgs: seq<LayoutMessage>) returns (coords: map<int, Point>)
    modifies vertex`coords
    ensures coords == Demux(msgs, self).coords
    ensures vertex.coords == if Demux(msgs, self).own.Some? then Demux(msgs, self).own.value else old(vertex.coords)
  {
    coords := map[];
    var i := 0;
    while i < |msgs|
      invariant 0 <= i <= |msgs|
      invariant coords == Demux(msgs[..i], self).coords
      invariant vertex.coords == if Demux(msgs[..i], self).own.Some? then Demux(msgs[..i], self).own.value else old(vertex.coords)
    {
      assert msgs[..i + 1][..i] == msgs[..i];
      var msg := msgs[i];
      if msg.payload.id == self {
        vertex.coords := msg.value;
      } else {
        coords := coords[msg.payload.id := msg.value];
      }
      i := i + 1;
    }
    assert msgs[..|msgs|] == msgs;
  }

  /** Sends each planet its new coordinates, in some order of the planets. */
  method SendToPlanets(placed: map<LayeredId, Point>) returns (sends: seq<Send>, ghost order: seq<LayeredId>)
    ensures IsOrdering(order, placed.Keys)
    ensures sends == PlanetSends(order, placed)
  {
    sends := [];
    order := [];
    var pending := placed.Keys;
    while pending != {}
      invariant pending <= placed.Keys
      invariant |order| + |pending| == |placed.Keys|
      invariant forall i, j :: 0 <= i < j < |order| ==> order[i] != order[j]
      invariant forall k :: k in order <==> k in placed.Keys - pending
      invariant sends == PlanetSends(order, placed)
      decreases pending
    {
      var key :| key in pending;
      assert key !in order;
      assert (order + [key])[..|order|] == order;
      sends := sends + [Send(key, NewMessage(key, placed[key]))];
      order := order + [key];
      pending := pending - {key};
    }
  }

  /** Floods each moon's new coordinates to the current layer, in some order of the moons. */
  method SendToMoons(placed: map<LayeredId, Point>, edges: seq<Edge>, layer: int)
    returns (sends: seq<Send>, ghost order: seq<LayeredId>)
    ensures IsOrdering(order, placed.Keys)
    ensures sends == MoonSends(order, placed, edges, layer)
  {
    sends := [];
    order := [];
    var pending := placed.Keys;
    while pending != {}
      invariant pending <= placed.Keys
      invariant |order| + |pending| == |placed.Keys|
      invariant forall i, j :: 0 <= i < j < |order| ==> order[i] != order[j]
      invariant forall k :: k in order <==> k in placed.Keys - pending
      invariant sends == MoonSends(order, placed, edges, layer)
      decreases pending
    {
      var key :| key in pending;
      assert key !in order;
      assert (order + [key])[..|order|] == order;
      var flood := SendMessageToAllEdges(edges, layer, NewMessageWithTtl(key, 1, placed[key]));
      sends := sends + flood;
      order := order + [key];
      pending := pending - {key};
    }
  }

  /** One placer step of a vertex in the current layer. */
  method VertexInLayerComputation(vertex: AstralBody, self: int, edges: seq<Edge>, msgs: seq<LayoutMessage>, layer: int)
    returns (sends: seq<Send>, ok: bool, ghost planetOrder: seq<LayeredId>, ghost moonOrder: seq<LayeredId>)
    modifies vertex`coords
    ensures Placed(old(vertex.IsSun()), old(vertex.lowerLevelWeight), old(vertex.planets), old(vertex.moons),
                   old(vertex.coords), self, edges, msgs, layer, vertex.coords, sends, ok, planetOrder, moonOrder)
  {
    planetOrder, moonOrder := [], [];
    if !vertex.IsSun() && vertex.lowerLevelWeight == 0 {
      return [], true, planetOrder, moonOrder;
    }
    var coords := DemuxMessages(vertex, self, msgs);
    var planets := ArrangeBodies(vertex.coords, OrEmpty(vertex.planets), coords);
    var moons := ArrangeBodies(vertex.coords, OrEmpty(vertex.moons), coords);
    if planets.None? || moons.None? {
      return [], false, planetOrder, moonOrder;
    }
    var toPlanets, toMoons;
    toPlanets, planetOrder := SendToPlanets(planets.value);
    toMoons, moonOrder := SendToMoons(moons.value, edges, layer);
    sends := toPlanets + toMoons;
    ok := true;
  }

  /** The placer's entry point: only a vertex of the layer being processed takes part. */
  method Compute(vertex: AstralBody, id: LayeredId, edges: seq<Edge>, msgs: seq<LayoutMessage>, layer: int)
    returns (sends: seq<Send>, ok: bool, ghost planetOrder: seq<LayeredId>, ghost moonOrder: seq<LayeredId>)
    modifies vertex`coords
    ensures !InCurrentLayer(id, layer) ==> sends == [] && ok && vertex.coords == old(vertex.coords)
    ensures InCurrentLayer(id, layer) ==>
      Placed(old(vertex.IsSun()), old(vertex.lowerLevelWeight), old(vertex.planets), old(vertex.moons),
             old(vertex.coords), id.id, edges, msgs, layer, vertex.coords, sends, ok, planetOrder, moonOrder)
  {
    if !InCurrentLayer(id, layer) {
      return [], true, [], [];
    }
    sends, ok, planetOrder, moonOrder := VertexInLayerComputation(vertex, id.id, edges, msgs, layer);
  }
}
