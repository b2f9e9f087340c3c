/** The solar-system record of a vertex in the multi-level layout: its role (asteroid, sun,
    planet or moon) derived from its distance to its sun, the bodies a sun owns with the paths
    recorded for each of them, the neighbouring solar systems it knows, and the record's
    role-dependent serialiser. */
module AstralBodies {
  import opened Common

  /** The paths recorded per planet (or per moon) of a sun. */
  type PathMap = map<LayeredId, set<Path>>
  /** The path length recorded per neighbouring sun. */
  type WeightMap = map<LayeredId, int>

  /** A referrer of a neighbour-system event: the body that generated it and the distance
      accumulated from that body up to the sun that received it. */
  datatype Referrer = Referrer(eventGenerator: LayeredId, distanceAccumulator: int)

  // The role of a body is a function of its distance from its sun.
  predicate AsteroidAt(d: int) { d == -1 }
  predicate SunAt(d: int) { d == 0 }
  predicate PlanetAt(d: int) { d == 1 }
  predicate MoonAt(d: int) { d > 1 }

  function RoleCount(d: int): (n: nat)
  {
    (if AsteroidAt(d) then 1 else 0) + (if SunAt(d) then 1 else 0)
    + (if PlanetAt(d) then 1 else 0) + (if MoonAt(d) then 1 else 0)
  }

  /** Every distance from -1 upwards gives exactly one role; a smaller one gives none. */
  lemma RolesPartition(d: int)
    ensures d >= -1 ==> RoleCount(d) == 1
    ensures d < -1 ==> RoleCount(d) == 0
  {
  }

  function KeyCount<V>(m: Option<map<LayeredId, V>>): (n: nat)
    ensures m.None? ==> n == 0
    ensures m.Some? ==> n == |m.value.Keys|
  {
    if m.None? then 0 else |m.value.Keys|
  }

  function OrEmpty<V>(m: Option<map<LayeredId, V>>): (r: map<LayeredId, V>)
    ensures m.None? ==> r == map[]
    ensures m.Some? ==> r == m.value
  {
    if m.None? then map[] else m.value
  }

  /** Recording a path length `weight` toward the neighbouring system of `sun`: a new sun is
      stored with that weight; a known one keeps the larger of the stored and the new weight
      (equal weights keep the stored one). No other entry changes. */
  function MergeWeight(ns: Option<WeightMap>, sun: LayeredId, weight: int): (r: WeightMap)
    ensures r.Keys == OrEmpty(ns).Keys + {sun}
    ensures forall k :: k in r && k != sun ==> r[k] == OrEmpty(ns)[k]
    ensures sun !in OrEmpty(ns) ==> r[sun] == weight
    ensures sun in OrEmpty(ns) ==> r[sun] >= weight && r[sun] >= OrEmpty(ns)[sun]
    ensures sun in OrEmpty(ns) ==> r[sun] == weight || r[sun] == OrEmpty(ns)[sun]
  {
    var m := OrEmpty(ns);
    if sun in m then
      if weight > m[sun] then m[sun := weight] else m
    else m[sun := weight]
  }

  /** The order in which two neighbour-system events for the same sun arrive does not matter. */
  lemma MergeWeightCommutes(ns: Option<WeightMap>, sun: LayeredId, w1: int, w2: int)
    ensures MergeWeight(Some(MergeWeight(ns, sun, w1)), sun, w2)
         == MergeWeight(Some(MergeWeight(ns, sun, w2)), sun, w1)
  {
    var a := MergeWeight(Some(MergeWeight(ns, sun, w1)), sun, w2);
    var b := MergeWeight(Some(MergeWeight(ns, sun, w2)), sun, w1);
    assert a.Keys == b.Keys;
    assert a == b;
  }

  /** The path a referrer contributes: it sits `weight - distanceAccumulator` along the path
      leading to `sun`. The path record is built from that position and the sun only; the
      length it carries is taken here to be the neighbour weight `weight`. */
  function PathFor(sun: LayeredId, weight: int, r: Referrer): Path
  {
    Path(weight - r.distanceAccumulator, sun, weight)
  }

  /** The paths that the referrers generated by `gen` contribute. */
  function PathsFor(sun: LayeredId, weight: int, rs: seq<Referrer>, gen: LayeredId): (ps: set<Path>)
    ensures forall p :: p in ps <==> exists i :: 0 <= i < |rs| && rs[i].eventGenerator == gen && p == PathFor(sun, weight, rs[i])
  {
    if rs == [] then {}
    else
      var tail := PathsFor(sun, weight, rs[1..], gen);
      assert forall p :: p in tail <==> exists i :: 1 <= i < |rs| && rs[i].eventGenerator == gen && p == PathFor(sun, weight, rs[i]) by {
        forall p ensures p in tail <==> exists i :: 1 <= i < |rs| && rs[i].eventGenerator == gen && p == PathFor(sun, weight, rs[i]) {
          if p in tail {
            var j :| 0 <= j < |rs[1..]| && rs[1..][j].eventGenerator == gen && p == PathFor(sun, weight, rs[1..][j]);
            assert rs[j + 1] == rs[1..][j];
          }
          if exists i :: 1 <= i < |rs| && rs[i].eventGenerator == gen && p == PathFor(sun, weight, rs[i]) {
            var i :| 1 <= i < |rs| && rs[i].eventGenerator == gen && p == PathFor(sun, weight, rs[i]);
            assert rs[1..][i - 1] == rs[i];
          }
        }
      }
      (if rs[0].eventGenerator == gen then {PathFor(sun, weight, rs[0])} else {}) + tail
  }

  /** The planet and moon buckets after filing referrers, and whether filing completed. */
  datatype Filing = Filing(planets: Option<PathMap>, moons: Option<PathMap>, ok: bool)

  /** Filing the referrers one after the other: each path goes into the bucket of its
      generator among the planets if it is a planet, otherwise among the moons; with no moon
      map such a referrer is skipped. A missing planet map, or a generator found in neither map
      while there is a moon map, stops the filing (the source dereferences a missing map). */
  function FileReferrers(planets: Option<PathMap>, moons: Option<PathMap>, sun: LayeredId, weight: int,
                         rs: seq<Referrer>): (f: Filing)
    ensures rs == [] ==> f == Filing(planets, moons, true)
    decreases |rs|
  {
    if rs == [] then Filing(planets, moons, true)
    else
      var gen := rs[0].eventGenerator;
      var p := PathFor(sun, weight, rs[0]);
      if planets.None? then Filing(planets, moons, false)
      else if gen in planets.value then
        FileReferrers(Some(planets.value[gen := planets.value[gen] + {p}]), moons, sun, weight, rs[1..])
      else if moons.None? then FileReferrers(planets, moons, sun, weight, rs[1..])
      else if gen !in moons.value then Filing(planets, moons, false)
      else FileReferrers(planets, Some(moons.value[gen := moons.value[gen] + {p}]), sun, weight, rs[1..])
  }

  /** A referrer the record cannot file. */
  predicate Unfileable(planets: Option<PathMap>, moons: Option<PathMap>, r: Referrer)
  {
    planets.None? || (r.eventGenerator !in planets.value && moons.Some? && r.eventGenerator !in moons.value)
  }

  /** Filing fails exactly when some referrer cannot be filed. */
  lemma {:induction false} FilingFailsIff(planets: Option<PathMap>, moons: Option<PathMap>, sun: LayeredId,
                                          weight: int, rs: seq<Referrer>)
    ensures !FileReferrers(planets, moons, sun, weight, rs).ok <==>
            exists i :: 0 <= i < |rs| && Unfileable(planets, moons, rs[i])
    decreases |rs|
  {
    if rs != [] {
      var gen := rs[0].eventGenerator;
      var p := PathFor(sun, weight, rs[0]);
      var P, M := planets, moons;
      if planets.None? {
        assert Unfileable(planets, moons, rs[0]);
      } else if gen !in planets.value && moons.Some? && gen !in moons.value {
        assert Unfileable(planets, moons, rs[0]);
      } else {
        if gen in planets.value {
          P := Some(planets.value[gen := planets.value[gen] + {p}]);
        } else if moons.Some? {
          M := Some(moons.value[gen := moons.value[gen] + {p}]);
        }
        assert FileReferrers(planets, moons, sun, weight, rs) == FileReferrers(P, M, sun, weight, rs[1..]);
        FilingFailsIff(P, M, sun, weight, rs[1..]);
        assert !Unfileable(planets, moons, rs[0]);
        forall i | 0 <= i < |rs| - 1
          ensures Unfileable(P, M, rs[1..][i]) <==> Unfileable(planets, moons, rs[i + 1])
        {
          assert rs[1..][i] == rs[i + 1];
        }
        if exists i :: 0 <= i < |rs| && Unfileable(planets, moons, rs[i]) {
          var i :| 0 <= i < |rs| && Unfileable(planets, moons, rs[i]);
          assert Unfileable(P, M, rs[1..][i - 1]);
        }
      }
    }
  }

  /** After a complete filing, every planet bucket holds its old paths plus those of the
      referrers it generated, every moon bucket that is not also a planet likewise, and no map
      gains or loses a key or comes into existence. */
  lemma FiledBuckets(planets: Option<PathMap>, moons: Option<PathMap>, sun: LayeredId,
                     weight: int, rs: seq<Referrer>)
    requires FileReferrers(planets, moons, sun, weight, rs).ok
    ensures var f := FileReferrers(planets, moons, sun, weight, rs);
      && f.planets.Some? == planets.Some?
      && f.moons.Some? == moons.Some?
      && (planets.Some? ==> f.planets.value.Keys == planets.value.Keys)
      && (planets.Some? ==> forall k :: k in planets.value ==>
            f.planets.value[k] == planets.value[k] + PathsFor(sun, weight, rs, k))
      && (moons.Some? ==> f.moons.value.Keys == moons.value.Keys)
      && (moons.Some? ==> forall k :: k in moons.value ==>
            f.moons.value[k] == moons.value[k] +
              (if planets.Some? && k in planets.value then {} else PathsFor(sun, weight, rs, k)))
  {
    FiledPlanets(planets, moons, sun, weight, rs);
    FiledMoons(planets, moons, sun, weight, rs);
  }

  /** The planet buckets after a successful filing. */
  lemma {:induction false} FiledPlanets(planets: Option<PathMap>, moons: Option<PathMap>, sun: LayeredId,
                                        weight: int, rs: seq<Referrer>)
    requires FileReferrers(planets, moons, sun, weight, rs).ok
    ensures var f := FileReferrers(planets, moons, sun, weight, rs);
      && f.planets.Some? == planets.Some?
      && (planets.Some? ==> f.planets.value.Keys == planets.value.Keys)
      && (planets.Some? ==> forall k :: k in planets.value ==>
            f.planets.value[k] == planets.value[k] + PathsFor(sun, weight, rs, k))
    decreases |rs|
  {
    if rs != [] {
      var gen := rs[0].eventGenerator;
      var p := PathFor(sun, weight, rs[0]);
      var P, M := planets, moons;
      if gen in planets.value {
        P := Some(planets.value[gen := planets.value[gen] + {p}]);
      } else if moons.Some? {
        M := Some(moons.value[gen := moons.value[gen] + {p}]);
      }
      assert FileReferrers(planets, moons, sun, weight, rs) == FileReferrers(P, M, sun, weight, rs[1..]);
      FiledPlanets(P, M, sun, weight, rs[1..]);
    }
  }

  /** The moon buckets after a successful filing: a generator with a planet bucket files
      nothing here. */
  lemma {:induction false} FiledMoons(planets: Option<PathMap>, moons: Option<PathMap>, sun: LayeredId,
                                      weight: int, rs: seq<Referrer>)
    requires FileReferrers(planets, moons, sun, weight, rs).ok
    ensures var f := FileReferrers(planets, moons, sun, weight, rs);
      && f.moons.Some? == moons.Some?
      && (moons.Some? ==> f.moons.value.Keys == moons.value.Keys)
      && (moons.Some? ==> forall k :: k in moons.value ==>
            f.moons.value[k] == moons.value[k] +
              (if planets.Some? && k in planets.value then {} else PathsFor(sun, weight, rs, k)))
    decreases |rs|
  {
    if rs != [] {
      var gen := rs[0].eventGenerator;
      var p := PathFor(sun, weight, rs[0]);
      var P, M := planets, moons;
      if gen in planets.value {
        P := Some(planets.value[gen := planets.value[gen] + {p}]);
      } else if moons.Some? {
        M := Some(moons.value[gen := moons.value[gen] + {p}]);
      }
      assert FileReferrers(planets, moons, sun, weight, rs) == FileReferrers(P, M, sun, weight, rs[1..]);
      FiledMoons(P, M, sun, weight, rs[1..]);
    }
  }

  /** A snapshot of the fields the record writes (its own fields; the coordinate part it
      inherits is not part of this model). */
  datatype Record = Record(
    cleared: bool,
    distanceFromSun: int,
    weightFromSun: int,
    isAssigned: bool,
    lowerLevelWeight: int,
    astralWeight: int,
    planets: Option<PathMap>,
    moons: Option<PathMap>,
    neighborSystems: Option<WeightMap>,
    sunProxies: Option<set<LayeredId>>,
    favProxy: Option<LayeredId>,
    sun: Option<LayeredId>)

  /** The items `write` emits: the cleared flag alone for a cleared record; otherwise the
      flag, distance, weight from sun, isAssigned flag and both weights, then for a sun its
      planet, moon and neighbour maps, for a moon its proxy set and favourite proxy, and for
      every body that is not an asteroid and not a sun its sun. A part that is missing cannot
      be written (the source dereferences it): no result. */
  function Encode(r: Record): (out: Option<seq<Token>>)
    ensures r.cleared ==> out == Some([TBool(true)])
    ensures !r.cleared && out.Some? ==> |out.value| >= 6 && out.value[0] == TBool(false)
    ensures !r.cleared ==> (out.None? <==>
      (SunAt(r.distanceFromSun) && (r.planets.None? || r.moons.None? || r.neighborSystems.None?))
      || (MoonAt(r.distanceFromSun) && (r.sunProxies.None? || r.favProxy.None?))
      || (!SunAt(r.distanceFromSun) && !AsteroidAt(r.distanceFromSun) && r.sun.None?))
  {
    if r.cleared then Some([TBool(true)])
    else
      var header := [TBool(false), TInt(r.distanceFromSun), TInt(r.weightFromSun), TBool(r.isAssigned),
                     TInt(r.lowerLevelWeight), TInt(r.astralWeight)];
      if SunAt(r.distanceFromSun) then
        if r.planets.None? || r.moons.None? || r.neighborSystems.None? then None
        else Some(header + [TPathMap(r.planets.value), TPathMap(r.moons.value), TWeightMap(r.neighborSystems.value)])
      else if MoonAt(r.distanceFromSun) && (r.sunProxies.None? || r.favProxy.None?) then None
      else if !AsteroidAt(r.distanceFromSun) && r.sun.None? then None
      else
        var moonPart := if MoonAt(r.distanceFromSun) then [TIdSet(r.sunProxies.value), TId(r.favProxy.value)] else [];
        var sunPart := if !AsteroidAt(r.distanceFromSun) then [TId(r.sun.value)] else [];
        Some(header + moonPart + sunPart)
  }

  /** The role-dependent tail of a non-cleared record, read over `prior` once the header fields
      are in place: a sun replaces its three maps, a moon its proxy set and favourite proxy,
      and every non-asteroid that is not a sun its sun; every other field keeps its prior value. */
  function DecodeBody(prior: Record, input: seq<Token>): (r: Option<(Record, seq<Token>)>)
    ensures r.Some? ==> |r.value.1| <= |input|
  {
    if SunAt(prior.distanceFromSun) then
      if |input| < 3 || !input[0].TPathMap? || !input[1].TPathMap? || !input[2].TWeightMap? then None
      else Some((prior.(planets := Some(input[0].paths), moons := Some(input[1].paths),
                        neighborSystems := Some(input[2].weights)), input[3..]))
    else
      var afterMoon: Option<(Record, seq<Token>)> :=
        if !MoonAt(prior.distanceFromSun) then Some((prior, input))
        else if |input| < 2 || !input[0].TIdSet? || !input[1].TId? then None
        else Some((prior.(sunProxies := Some(input[0].ids), favProxy := Some(input[1].ident)), input[2..]));
      if afterMoon.None? then None
      else if AsteroidAt(prior.distanceFromSun) then afterMoon
      else
        var (rec, rest) := afterMoon.value;
        if |rest| < 1 || !rest[0].TId? then None
        else Some((rec.(sun := Some(rest[0].ident)), rest[1..]))
  }

  /** What `readFields` makes of `prior` from `input`: the cleared flag; then, unless the
      record is cleared, the header fields followed by the role-dependent part. No result when
      the stream ends early or holds an item of the wrong kind. */
  function Decode(prior: Record, input: seq<Token>): (r: Option<(Record, seq<Token>)>)
    ensures r.Some? ==> |r.value.1| < |input|
    ensures |input| >= 1 && input[0] == TBool(true) ==> r == Some((prior.(cleared := true), input[1..]))
  {
    if |input| < 1 || !input[0].TBool? then None
    else if input[0].b then Some((prior.(cleared := true), input[1..]))
    else if |input| < 6 || !input[1].TInt? || !input[2].TInt? || !input[3].TBool? || !input[4].TInt? || !input[5].TInt? then None
    else
      var header := prior.(cleared := false, distanceFromSun := input[1].i, weightFromSun := input[2].i,
                           isAssigned := input[3].b, lowerLevelWeight := input[4].i, astralWeight := input[5].i);
      DecodeBody(header, input[6..])
  }

  /** Writing a record and reading it back over any prior state, with anything after it,
      restores the cleared flag; a non-cleared record also gets back its distance, weights and
      isAssigned flag, a sun its three maps, a moon its proxies and favourite proxy, and every
      other non-asteroid its sun; the following items are left unread. A cleared record keeps
      every other field of the prior state. */
  lemma RoundTrip(r: Record, prior: Record, rest: seq<Token>)
    requires Encode(r).Some?
    ensures var d := Decode(prior, Encode(r).value + rest);
      && d.Some? && d.value.1 == rest && d.value.0.cleared == r.cleared
      && (r.cleared ==> d.value.0 == prior.(cleared := true))
      && (!r.cleared ==>
            && d.value.0.distanceFromSun == r.distanceFromSun
            && d.value.0.weightFromSun == r.weightFromSun
            && d.value.0.isAssigned == r.isAssigned
            && d.value.0.lowerLevelWeight == r.lowerLevelWeight
            && d.value.0.astralWeight == r.astralWeight)
      && (!r.cleared && SunAt(r.distanceFromSun) ==>
            d.value.0.planets == r.planets && d.value.0.moons == r.moons
            && d.value.0.neighborSystems == r.neighborSystems)
      && (!r.cleared && MoonAt(r.distanceFromSun) ==>
            d.value.0.sunProxies == r.sunProxies && d.value.0.favProxy == r.favProxy)
      && (!r.cleared && !SunAt(r.distanceFromSun) && !AsteroidAt(r.distanceFromSun) ==> d.value.0.sun == r.sun)
  {
    var out := Encode(r).value;
    var input := out + rest;
    if r.cleared {
      assert input[0] == TBool(true) && input[1..] == rest;
    } else {
      assert input[..6] == out[..6];
      var body := input[6..];
      assert body == out[6..] + rest;
      if SunAt(r.distanceFromSun) {
        assert body[3..] == rest;
      } else if MoonAt(r.distanceFromSun) {
        assert body[2..][1..] == rest;
      } else if !AsteroidAt(r.distanceFromSun) {
        assert body[1..] == rest;
      } else {
        assert body == rest;
      }
    }
  }

  class AstralBody {
    var coords: Point
    var component: int
    var favProxy: Option<LayeredId>
    var sunProxies: Option<set<LayeredId>>
    var sun: Option<LayeredId>
    var distanceFromSun: int
    var weightFromSun: int
    var planets: Option<PathMap>
    var moons: Option<PathMap>
    var neighborSystems: Option<WeightMap>
    var lowerLevelWeight: int
    var astralWeight: int
    var cleared: bool
    var isAssigned: bool

    /** A fresh body: an asteroid with no sun, no bodies, no neighbours and both weights 1. */
    constructor (coords: Point, component: int)
      ensures this.coords == coords && this.component == component
      ensures IsAsteroid() && weightFromSun == -1
      ensures lowerLevelWeight == 1 && astralWeight == 1 && AstralWeight() == 2
      ensures !cleared && !isAssigned
      ensures sun.None? && favProxy.None? && sunProxies.None?
      ensures PlanetsNo() == 0 && MoonsNo() == 0 && NeighbourSystemsNo() == 0
    {
      this.coords := coords;
      this.component := component;
      favProxy := None;
      sunProxies := None;
      sun := None;
      distanceFromSun := -1;
      weightFromSun := -1;
      planets := None;
      moons := None;
      neighborSystems := None;
      lowerLevelWeight := 1;
      astralWeight := 1;
      cleared := false;
      isAssigned := false;
    }

    /** A fresh body standing for `lowerLevelWeight` vertices of the level below. */
    constructor WithLowerLevelWeight(lowerLevelWeight: int, coords: Point, component: int)
      ensures this.coords == coords && this.component == component
      ensures IsAsteroid() && weightFromSun == -1
      ensures this.lowerLevelWeight == lowerLevelWeight && astralWeight == 1
      ensures AstralWeight() == lowerLevelWeight + 1
      ensures !cleared && !isAssigned
      ensures sun.None? && favProxy.None? && sunProxies.None?
      ensures PlanetsNo() == 0 && MoonsNo() == 0 && NeighbourSystemsNo() == 0
    {
      this.coords := coords;
      this.component := component;
      favProxy := None;
      sunProxies := None;
      sun := None;
      distanceFromSun := -1;
      weightFromSun := -1;
      planets := None;
      moons := None;
      neighborSystems := None;
      this.lowerLevelWeight := lowerLevelWeight;
      astralWeight := 1;
      cleared := false;
      isAssigned := false;
    }

    /** The weight the body carries: its own lower-level weight plus the weight of the bodies
        it has taken in. */
    function AstralWeight(): int
      reads this
    {
      lowerLevelWeight + astralWeight
    }

    predicate IsAsteroid() reads this { AsteroidAt(distanceFromSun) }
    predicate IsSun() reads this { SunAt(distanceFromSun) }
    predicate IsPlanet() reads this { PlanetAt(distanceFromSun) }
    predicate IsMoon() reads this { MoonAt(distanceFromSun) }

    method SetAsSun()
      modifies this`distanceFromSun, this`weightFromSun
      ensures distanceFromSun == 0 && weightFromSun == 0
      ensures IsSun() && !IsAsteroid() && !IsPlanet() && !IsMoon()
    {
      distanceFromSun := 0;
      weightFromSun := 0;
    }

    method SetAsPlanet(weightFromSun: int)
      modifies this`distanceFromSun, this`weightFromSun
      ensures distanceFromSun == 1 && this.weightFromSun == weightFromSun
      ensures IsPlanet() && !IsAsteroid() && !IsSun() && !IsMoon()
    {
      distanceFromSun := 1;
      this.weightFromSun := weightFromSun;
    }

    method SetAsMoon(weightFromSun: int)
      modifies this`distanceFromSun, this`weightFromSun
      ensures distanceFromSun == 2 && this.weightFromSun == weightFromSun
      ensures IsMoon() && !IsAsteroid() && !IsSun() && !IsPlanet()
    {
      distanceFromSun := 2;
      this.weightFromSun := weightFromSun;
    }

    /** Only the distance changes: the weight from the sun is left as it was. */
    method ResetToAsteroid()
      modifies this`distanceFromSun
      ensures distanceFromSun == -1
      ensures IsAsteroid() && !IsSun() && !IsPlanet() && !IsMoon()
    {
      distanceFromSun := -1;
    }

    method SetWeightFromSun(weightFromSun: int)
      modifies this`weightFromSun
      ensures this.weightFromSun == weightFromSun
    {
      this.weightFromSun := weightFromSun;
    }

    method SetAssigned()
      modifies this`isAssigned
      ensures isAssigned
    {
      isAssigned := true;
    }

    method ResetAssigned()
      modifies this`isAssigned
      ensures !isAssigned
    {
      isAssigned := false;
    }

    method SetSun(sun: LayeredId, favProxy: LayeredId)
      modifies this`sun, this`favProxy
      ensures this.sun == Some(sun) && this.favProxy == Some(favProxy)
    {
      this.sun := Some(sun);
      this.favProxy := Some(favProxy);
    }

    method AddToProxies(proxy: LayeredId)
      modifies this`sunProxies
      ensures sunProxies == Some((if old(sunProxies).None? then {} else old(sunProxies).value) + {proxy})
    {
      if sunProxies.None? {
        sunProxies := Some({});
      }
      sunProxies := Some(sunProxies.value + {proxy});
    }

    /** Takes in a planet: its path set starts (again) empty, and its weight is added. */
    method AddPlanet(id: LayeredId, weight: int)
      modifies this`planets, this`astralWeight
      ensures planets == Some(OrEmpty(old(planets))[id := {}])
      ensures astralWeight == old(astralWeight) + weight
      ensures AstralWeight() == old(AstralWeight()) + weight
      ensures PlanetsNo() == if id in OrEmpty(old(planets)) then old(PlanetsNo()) else old(PlanetsNo()) + 1
    {
      if planets.None? {
        planets := Some(map[]);
      }
      planets := Some(planets.value[id := {}]);
      astralWeight := astralWeight + weight;
    }

    /** Takes in a moon: its path set starts (again) empty, and its weight is added. */
    method AddMoon(id: LayeredId, weight: int)
      modifies this`moons, this`astralWeight
      ensures moons == Some(OrEmpty(old(moons))[id := {}])
      ensures astralWeight == old(astralWeight) + weight
      ensures AstralWeight() == old(AstralWeight()) + weight
      ensures MoonsNo() == if id in OrEmpty(old(moons)) then old(MoonsNo()) else old(MoonsNo()) + 1
    {
      if moons.None? {
        moons := Some(map[]);
      }
      moons := Some(moons.value[id := {}]);
      astralWeight := astralWeight + weight;
    }

    /** Records a path of length `weight` toward the system of `sun`, then files the path of
        every referrer into its generator's bucket. `ok` is false when a referrer could not be
        filed; the buckets then hold what was filed before it. */
    method AddNeighbourSystem(sun: LayeredId, referrers: Option<seq<Referrer>>, weight: int) returns (ok: bool)
      modifies this`neighborSystems, this`planets, this`moons
      ensures neighborSystems == Some(MergeWeight(old(neighborSystems), sun, weight))
      ensures referrers.None? ==> ok && planets == old(planets) && moons == old(moons)
      ensures referrers.Some? ==>
        Filing(planets, moons, ok) == FileReferrers(old(planets), old(moons), sun, weight, referrers.value)
    {
      neighborSystems := Some(MergeWeight(neighborSystems, sun, weight));
      if referrers.None? {
        return true;
      }
      var rs := referrers.value;
      var i := 0;
      while i < |rs|
        invariant 0 <= i <= |rs|
        invariant neighborSystems == Some(MergeWeight(old(neighborSystems), sun, weight))
        invariant FileReferrers(old(planets), old(moons), sun, weight, rs)
               == FileReferrers(planets, moons, sun, weight, rs[i..])
      {
        assert rs[i..][1..] == rs[i + 1..];
        var gen := rs[i].eventGenerator;
        var p := PathFor(sun, weight, rs[i]);
        if planets.None? {
          return false;
        }
        if gen in planets.value {
          planets := Some(planets.value[gen := planets.value[gen] + {p}]);
        } else if moons.Some? {
          if gen !in moons.value {
            return false;
          }
          moons := Some(moons.value[gen := moons.value[gen] + {p}]);
        }
        i := i + 1;
      }
      ok := true;
    }

    function PlanetsNo(): (n: nat)
      reads this
      ensures planets.None? ==> n == 0
    {
      KeyCount(planets)
    }

    function MoonsNo(): (n: nat)
      reads this
      ensures moons.None? ==> n == 0
    {
      KeyCount(moons)
    }

    function NeighbourSystemsNo(): (n: nat)
      reads this
      ensures neighborSystems.None? ==> n == 0
    {
      KeyCount(neighborSystems)
    }

    /** The body through which this one reaches its sun: the sun itself for a planet, the
        favourite proxy for any other body. */
    function GetProxy(): (p: Option<LayeredId>)
      reads this
      ensures IsPlanet() ==> p == sun
      ensures !IsPlanet() ==> p == favProxy
    {
      if IsPlanet() then sun else favProxy
    }

    /** Drops every piece of solar-system information and marks the record cleared; the
        role, the weights and the isAssigned flag stay. */
    method ClearAstralInfo()
      modifies this`cleared, this`planets, this`moons, this`neighborSystems, this`sun, this`sunProxies, this`favProxy
      ensures cleared
      ensures PlanetsNo() == 0 && MoonsNo() == 0 && NeighbourSystemsNo() == 0
      ensures sun.None? && sunProxies.None? && favProxy.None? && GetProxy().None?
      ensures distanceFromSun == old(distanceFromSun) && weightFromSun == old(weightFromSun)
      ensures lowerLevelWeight == old(lowerLevelWeight) && astralWeight == old(astralWeight)
      ensures isAssigned == old(isAssigned)
    {
      cleared := true;
      planets := None;
      moons := None;
      neighborSystems := None;
      sun := None;
      sunProxies := None;
      favProxy := None;
    }

    function Snapshot(): Record
      reads this
    {
      Record(cleared, distanceFromSun, weightFromSun, isAssigned, lowerLevelWeight, astralWeight,
             planets, moons, neighborSystems, sunProxies, favProxy, sun)
    }

    /** Writes the record; no result when a part its role requires is missing. */
    method Write() returns (out: Option<seq<Token>>)
      ensures out == Encode(Snapshot())
    {
      if cleared {
        return Some([TBool(true)]);
      }
      var items := [TBool(false), TInt(distanceFromSun), TInt(weightFromSun), TBool(isAssigned),
                    TInt(lowerLevelWeight), TInt(astralWeight)];
      if IsSun() {
        if planets.None? || moons.None? || neighborSystems.None? {
          return None;
        }
        items := items + [TPathMap(planets.value), TPathMap(moons.value), TWeightMap(neighborSystems.value)];
        return Some(items);
      }
      var moonPart := [];
      if IsMoon() {
        if sunProxies.None? || favProxy.None? {
          return None;
        }
        moonPart := [TIdSet(sunProxies.value), TId(favProxy.value)];
      }
      var sunPart := [];
      if !IsAsteroid() {
        if sun.None? {
          return None;
        }
        sunPart := [TId(sun.value)];
      }
      out := Some(items + moonPart + sunPart);
    }

    /** Reads the record from `input`, leaving the fields the stream does not carry as they
        were. The result is what remains of the stream, or none when it is malformed. */
    method ReadFields(input: seq<Token>) returns (rest: Option<seq<Token>>)
      modifies this`cleared, this`distanceFromSun, this`weightFromSun, this`isAssigned, this`lowerLevelWeight,
               this`astralWeight, this`planets, this`moons, this`neighborSystems, this`sunProxies,
               this`favProxy, this`sun
      ensures rest.Some? <==> Decode(old(Snapshot()), input).Some?
      ensures rest.Some? ==> Decode(old(Snapshot()), input) == Some((Snapshot(), rest.value))
    {
      if |input| < 1 || !input[0].TBool? {
        return None;
      }
      cleared := input[0].b;
      if cleared {
        return Some(input[1..]);
      }
      if |input| < 6 || !input[1].TInt? || !input[2].TInt? || !input[3].TBool? || !input[4].TInt? || !input[5].TInt? {
        return None;
      }
      distanceFromSun := input[1].i;
      weightFromSun := input[2].i;
      isAssigned := input[3].b;
      lowerLevelWeight := input[4].i;
      astralWeight := input[5].i;
      ghost var header := Snapshot();
      assert header == old(Snapshot()).(cleared := false, distanceFromSun := input[1].i, weightFromSun := input[2].i,
                                          isAssigned := input[3].b, lowerLevelWeight := input[4].i,
                                          astralWeight := input[5].i);
      rest := ReadBody(input[6..]);
    }

    /** Reads the role-dependent part of a non-cleared record, the header fields already in
        place. */
    method ReadBody(input: seq<Token>) returns (rest: Option<seq<Token>>)
      modifies this`planets, this`moons, this`neighborSystems, this`sunProxies, this`favProxy, this`sun
      ensures rest.Some? <==> DecodeBody(old(Snapshot()), input).Some?
      ensures rest.Some? ==> DecodeBody(old(Snapshot()), input) == Some((Snapshot(), rest.value))
    {
      if IsSun() {
        if |input| < 3 || !input[0].TPathMap? || !input[1].TPathMap? || !input[2].TWeightMap? {
          return None;
        }
        planets := Some(input[0].paths);
        moons := Some(input[1].paths);
        neighborSystems := Some(input[2].weights);
        return Some(input[3..]);
      }
      var pos := 0;
      if IsMoon() {
        if |input| < 2 || !input[0].TIdSet? || !input[1].TId? {
          return None;
        }
        sunProxies := Some(input[0].ids);
        favProxy := Some(input[1].ident);
        pos := 2;
      }
      if !IsAsteroid() {
        if |input| < pos + 1 || !input[pos].TId? {
          return None;
        }
        sun := Some(input[pos].ident);
        pos := pos + 1;
      }
      rest := Some(input[pos..]);
    }
  }
}
