/** Types shared by every part of the model: identifiers, coordinates, optional values
    and the abstract token stream that the record serialisers write to and read from. */
module Common {

  datatype Option<T> = None | Some(value: T)

  /** A vertex identifier of the layered graph: the vertex id proper, its partition hint
      and the abstraction layer it lives in (layer 0 is the input graph). */
  datatype LayeredId = LayeredId(id: int, partition: int, layer: int)

  /** A 2-D coordinate pair; the source's floats and doubles are modelled as reals. */
  datatype Point = Point(x: real, y: real)

  /** A path recorded by a sun for one of its planets or moons: how far along the path the
      body sits, the neighbouring sun the path leads to, and the length of the path. */
  datatype Path = Path(positionInPath: int, referencedSun: LayeredId, pathLength: int)

  /** One item of a serialised record. Primitive writes (boolean, int, long, double, an
      identifier) are one token each; a whole Hadoop map or identifier set is one token. */
  datatype Token =
    | TBool(b: bool)
    | TInt(i: int)
    | TLong(l: int)
    | TDouble(d: real)
    | TId(ident: LayeredId)
    | TIdSet(ids: set<LayeredId>)
    | TPathMap(paths: map<LayeredId, set<Path>>)
    | TWeightMap(weights: map<LayeredId, int>)

  function Max(a: real, b: real): (r: real)
    ensures r >= a && r >= b && (r == a || r == b)
  {
    if a >= b then a else b
  }

  /** Some element of a non-empty set. */
  lemma Choose<X>(s: set<X>) returns (z: X)
    requires s != {}
    ensures z in s
  {
    z :| z in s;
  }
}
