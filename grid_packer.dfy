/** The final arrangement of the connected components of a drawing: the components are sorted
    by their number of nodes, the largest one is anchored at the origin, and every other one is
    scaled by its size relative to the largest and placed on a grid to its right, row by row. */
module GridPacking {
  import opened Common

  /** Minimum ratio between a component's scale and the largest component's. */
  const DefaultMinRatioThreshold: real := 0.2
  /** Space left between components. */
  const DefaultPadding: real := 20.0

  // ---------------------------------------------------------------- sorting

  predicate Ascending(s: seq<int>)
  {
    forall i, j :: 0 <= i < j < |s| ==> s[i] <= s[j]
  }

  predicate StrictlyAscending(s: seq<int>)
  {
    forall i, j :: 0 <= i < j < |s| ==> s[i] < s[j]
  }

  /** Entries ordered by value, and by key among equal values. */
  predicate LexLess(a: (int, int), b: (int, int))
  {
    a.1 < b.1 || (a.1 == b.1 && a.0 < b.0)
  }

  predicate SortedByValueThenKey(r: seq<(int, int)>)
  {
    forall i, j :: 0 <= i < j < |r| ==> LexLess(r[i], r[j])
  }

  /** `r` lists exactly the entries of `m`, each once, by non-decreasing value and, among equal
      values, by ascending key. */
  ghost predicate IsEntryOrder(r: seq<(int, int)>, m: map<int, int>)
  {
    && |r| == |m.Keys|
    && (forall i :: 0 <= i < |r| ==> r[i].0 in m && r[i].1 == m[r[i].0])
    && (forall k :: k in m ==> exists i :: 0 <= i < |r| && r[i].0 == k)
    && SortedByValueThenKey(r)
  }

  /** In an entry order no key appears twice. */
  lemma EntryOrderKeysDistinct(r: seq<(int, int)>, m: map<int, int>)
    requires IsEntryOrder(r, m)
    ensures forall i, j :: 0 <= i < j < |r| ==> r[i].0 != r[j].0
  {
    forall i, j | 0 <= i < j < |r| ensures r[i].0 != r[j].0 {
      assert LexLess(r[i], r[j]);
    }
  }

  lemma {:induction false} SetMinExists(s: set<int>)
    requires s != {}
    ensures exists x :: x in s && forall y :: y in s ==> x <= y
    decreases |s|
  {
    var z := Choose(s);
    var rest := s - {z};
    if rest == {} {
      assert s == {z};
    } else {
      SetMinExists(rest);
      var x :| x in rest && forall y :: y in rest ==> x <= y;
      var least := if z < x then z else x;
      forall y | y in s ensures least <= y {
        if y != z { assert y in rest; }
      }
      assert least in s;
    }
  }

  /** The first entry of an entry order is the least entry of the map. */
  lemma FirstIsLeast(r: seq<(int, int)>, m: map<int, int>)
    requires IsEntryOrder(r, m) && |r| > 0
    ensures forall k :: k in m ==> k == r[0].0 || LexLess(r[0], (k, m[k]))
  {
    forall k | k in m ensures k == r[0].0 || LexLess(r[0], (k, m[k])) {
      var i :| 0 <= i < |r| && r[i].0 == k;
      if i != 0 {
        assert LexLess(r[0], r[i]);
      }
    }
  }

  /** Dropping the first entry leaves an entry order of the rest of the map. */
  lemma EntryOrderTail(r: seq<(int, int)>, m: map<int, int>)
    requires IsEntryOrder(r, m) && |r| > 0
    ensures IsEntryOrder(r[1..], m - {r[0].0})
  {
    EntryOrderKeysDistinct(r, m);
    var m' := m - {r[0].0};
    assert |m'.Keys| == |m.Keys| - 1 by {
      assert m'.Keys == m.Keys - {r[0].0};
    }
    forall k | k in m' ensures exists i :: 0 <= i < |r[1..]| && r[1..][i].0 == k {
      var i :| 0 <= i < |r| && r[i].0 == k;
      assert r[1..][i - 1] == r[i];
    }
  }

  lemma FirstEntriesAgree(r1: seq<(int, int)>, r2: seq<(int, int)>, m: map<int, int>)
    requires IsEntryOrder(r1, m) && IsEntryOrder(r2, m) && |r1| > 0
    ensures |r2| > 0 && r1[0] == r2[0]
  {
    FirstIsLeast(r1, m);
    FirstIsLeast(r2, m);
    var a := r1[0];
    var b := r2[0];
    assert a.1 == m[a.0] && b.1 == m[b.0];
    assert b.0 == a.0 || LexLess(a, b);
    assert a.0 == b.0 || LexLess(b, a);
  }

  /** A map has one entry order only: sorting by value, then key, leaves no choice. */
  lemma {:induction false} EntryOrderUnique(r1: seq<(int, int)>, r2: seq<(int, int)>, m: map<int, int>)
    requires IsEntryOrder(r1, m) && IsEntryOrder(r2, m)
    ensures r1 == r2
    decreases |r1|
  {
    if |r1| > 0 {
      var rest := EntryOrderPeel(r1, r2, m);
      EntryOrderUnique(r1[1..], r2[1..], rest);
      SameHeadAndTail(r1, r2);
    }
  }

  lemma SameHeadAndTail(r1: seq<(int, int)>, r2: seq<(int, int)>)
    requires |r1| > 0 && |r2| > 0 && r1[0] == r2[0] && r1[1..] == r2[1..]
    ensures r1 == r2
  {
    assert r1 == [r1[0]] + r1[1..] && r2 == [r2[0]] + r2[1..];
  }

  /** Two entry orders of a map start alike, and what follows is an entry order of the rest. */
  lemma EntryOrderPeel(r1: seq<(int, int)>, r2: seq<(int, int)>, m: map<int, int>) returns (rest: map<int, int>)
    requires IsEntryOrder(r1, m) && IsEntryOrder(r2, m) && |r1| > 0
    ensures |r2| > 0 && r1[0] == r2[0]
    ensures IsEntryOrder(r1[1..], rest) && IsEntryOrder(r2[1..], rest)
  {
    FirstEntriesAgree(r1, r2, m);
    EntryOrderTail(r1, m);
    EntryOrderTail(r2, m);
    rest := m - {r1[0].0};
  }

  /** The keys in ascending order. */
  method SortKeys(keys: set<int>) returns (s: seq<int>)
    ensures StrictlyAscending(s)
    ensures |s| == |keys|
    ensures forall k :: k in s <==> k in keys
    ensures forall i :: 0 <= i < |s| ==> s[i] in keys
  {
    s := [];
    var rest := keys;
    while rest != {}
      invariant rest <= keys
      invariant StrictlyAscending(s)
      invariant |s| + |rest| == |keys|
      invariant forall k :: k in s <==> k in keys - rest
      invariant forall i, y :: 0 <= i < |s| && y in rest ==> s[i] < y
      decreases rest
    {
      SetMinExists(rest);
      var x :| x in rest && forall y :: y in rest ==> x <= y;
      s := s + [x];
      rest := rest - {x};
    }
  }

  /** The position of a smallest element. */
  method MinIndex(s: seq<int>) returns (k: int)
    requires |s| > 0
    ensures 0 <= k < |s| && forall u :: 0 <= u < |s| ==> s[k] <= s[u]
  {
    k := 0;
    var u := 1;
    while u < |s|
      invariant 0 <= k < u <= |s|
      invariant forall w :: 0 <= w < u ==> s[k] <= s[w]
    {
      if s[u] < s[k] {
        k := u;
      }
      u := u + 1;
    }
  }

  /** Removing position `k` removes one occurrence of its element and keeps the others. */
  lemma RemoveAt(s: seq<int>, k: int)
    requires 0 <= k < |s|
    ensures multiset(s[..k] + s[k + 1..]) + multiset{s[k]} == multiset(s)
    ensures |s[..k] + s[k + 1..]| == |s| - 1
    ensures forall u :: 0 <= u < |s| - 1 ==> (s[..k] + s[k + 1..])[u] == if u < k then s[u] else s[u + 1]
  {
    assert s == s[..k] + [s[k]] + s[k + 1..];
  }

  /** A sorted permutation of the values, by repeatedly taking out a smallest one. */
  method SortValues(vs: seq<int>) returns (s: seq<int>)
    ensures Ascending(s)
    ensures multiset(s) == multiset(vs)
  {
    s := [];
    var rest := vs;
    while rest != []
      invariant Ascending(s)
      invariant multiset(s) + multiset(rest) == multiset(vs)
      invariant forall i, u :: 0 <= i < |s| && 0 <= u < |rest| ==> s[i] <= rest[u]
      decreases |rest|
    {
      var k := MinIndex(rest);
      TakeSmallest(s, rest, k);
      s, rest := s + [rest[k]], rest[..k] + rest[k + 1..];
    }
  }

  /** Moving a smallest remaining value to the end of the sorted prefix keeps it sorted and
      below everything still remaining, and loses no value. */
  lemma TakeSmallest(s: seq<int>, rest: seq<int>, k: int)
    requires Ascending(s) && 0 <= k < |rest|
    requires forall u :: 0 <= u < |rest| ==> rest[k] <= rest[u]
    requires forall i, u :: 0 <= i < |s| && 0 <= u < |rest| ==> s[i] <= rest[u]
    ensures var s', next := s + [rest[k]], rest[..k] + rest[k + 1..];
      && |next| < |rest|
      && Ascending(s')
      && multiset(s') + multiset(next) == multiset(s) + multiset(rest)
      && (forall i, u :: 0 <= i < |s'| && 0 <= u < |next| ==> s'[i] <= next[u])
  {
    RemoveAt(rest, k);
    var s', next := s + [rest[k]], rest[..k] + rest[k + 1..];
    forall i, u | 0 <= i < |s'| && 0 <= u < |next| ensures s'[i] <= next[u] {
      assert next[u] == rest[if u < k then u else u + 1];
    }
  }

  /** The values of `m` at the keys `ks`, in the order of `ks`. */
  function ValuesAt(m: map<int, int>, ks: seq<int>): (vs: seq<int>)
    requires forall i :: 0 <= i < |ks| ==> ks[i] in m
    ensures |vs| == |ks| && forall i :: 0 <= i < |ks| ==> vs[i] == m[ks[i]]
  {
    seq(|ks|, i requires 0 <= i < |ks| => m[ks[i]])
  }

  lemma ValuesAtRemove(m: map<int, int>, ks: seq<int>, t: int)
    requires forall i :: 0 <= i < |ks| ==> ks[i] in m
    requires 0 <= t < |ks|
    ensures multiset(ValuesAt(m, ks[..t] + ks[t + 1..])) == multiset(ValuesAt(m, ks)) - multiset{m[ks[t]]}
  {
    var vs := ValuesAt(m, ks);
    assert ValuesAt(m, ks[..t] + ks[t + 1..]) == vs[..t] + vs[t + 1..];
    assert vs == vs[..t] + [vs[t]] + vs[t + 1..];
  }

  lemma AscendingLowerBound(values: seq<int>, i: int, x: int)
    requires Ascending(values) && 0 <= i < |values|
    requires x in multiset(values[i..])
    ensures values[i] <= x
  {
    var u :| 0 <= u < |values[i..]| && values[i..][u] == x;
    assert values[i + u] == x;
  }

  /** The state of the sort after `i` values: `sorted` holds the `i` smallest entries in
      order, `remaining` the other keys in ascending order, and the values not yet used are
      exactly those of the remaining keys, each below none of the sorted ones. */
  ghost predicate SortInv(m: map<int, int>, values: seq<int>, i: int, remaining: seq<int>, sorted: seq<(int, int)>)
  {
    && 0 <= i <= |values|
    && Ascending(values)
    && |remaining| == |values| - i && |sorted| == i
    && StrictlyAscending(remaining)
    && (forall u :: 0 <= u < |remaining| ==> remaining[u] in m)
    && multiset(values[i..]) == multiset(ValuesAt(m, remaining))
    && (forall q :: 0 <= q < |sorted| ==> sorted[q].0 in m && sorted[q].1 == m[sorted[q].0])
    && (forall k :: k in m ==> k in remaining || exists q :: 0 <= q < |sorted| && sorted[q].0 == k)
    && SortedByValueThenKey(sorted)
    && (forall q, u :: 0 <= q < |sorted| && 0 <= u < |remaining| ==>
          LexLess(sorted[q], (remaining[u], m[remaining[u]])))
  }

  /** The smallest unused value is held by some remaining key. */
  lemma ValuePresent(m: map<int, int>, values: seq<int>, i: int, remaining: seq<int>, t: int)
    requires 0 <= i < |values| && 0 <= t <= |remaining|
    requires forall u :: 0 <= u < |remaining| ==> remaining[u] in m
    requires multiset(values[i..]) == multiset(ValuesAt(m, remaining))
    requires forall u :: 0 <= u < t ==> m[remaining[u]] != values[i]
    ensures t < |remaining|
  {
    var vs := ValuesAt(m, remaining);
    assert values[i..][0] == values[i];
    assert values[i] in multiset(vs);
    var w :| 0 <= w < |vs| && vs[w] == values[i];
    assert m[remaining[w]] == values[i];
  }

  /** The first remaining key holding the smallest unused value gives the smallest remaining
      entry. */
  lemma SmallestEntry(m: map<int, int>, values: seq<int>, i: int, remaining: seq<int>, t: int)
    requires 0 <= i < |values| && Ascending(values) && StrictlyAscending(remaining)
    requires forall u :: 0 <= u < |remaining| ==> remaining[u] in m
    requires multiset(values[i..]) == multiset(ValuesAt(m, remaining))
    requires 0 <= t < |remaining| && m[remaining[t]] == values[i]
    requires forall u :: 0 <= u < t ==> m[remaining[u]] != values[i]
    ensures forall u :: 0 <= u < |remaining| && u != t ==>
              LexLess((remaining[t], values[i]), (remaining[u], m[remaining[u]]))
  {
    var vs := ValuesAt(m, remaining);
    forall u | 0 <= u < |remaining| && u != t
      ensures LexLess((remaining[t], values[i]), (remaining[u], m[remaining[u]]))
    {
      assert m[remaining[u]] in multiset(values[i..]) by {
        assert vs[u] == m[remaining[u]];
      }
      AscendingLowerBound(values, i, m[remaining[u]]);
    }
  }

  /** Removing position `t` from the remaining keys keeps them ascending and removes exactly
      the value they held there. */
  lemma StepRemaining(m: map<int, int>, values: seq<int>, i: int, remaining: seq<int>, t: int)
    requires 0 <= i < |values| && 0 <= t < |remaining| && StrictlyAscending(remaining)
    requires forall u :: 0 <= u < |remaining| ==> remaining[u] in m
    requires multiset(values[i..]) == multiset(ValuesAt(m, remaining)) && m[remaining[t]] == values[i]
    ensures var next := remaining[..t] + remaining[t + 1..];
      && |next| == |remaining| - 1
      && StrictlyAscending(next)
      && (forall u :: 0 <= u < |next| ==> next[u] in m)
      && multiset(values[i + 1..]) == multiset(ValuesAt(m, next))
  {
    var next := remaining[..t] + remaining[t + 1..];
    ValuesAtRemove(m, remaining, t);
    assert values[i..] == [values[i]] + values[i + 1..];
    assert forall u :: 0 <= u < |next| ==> next[u] == if u < t then remaining[u] else remaining[u + 1];
  }

  /** The taken entry follows every sorted one and precedes every one still remaining. */
  lemma StepOrder(m: map<int, int>, values: seq<int>, i: int, remaining: seq<int>, sorted: seq<(int, int)>, t: int)
    requires 0 <= i < |values| && 0 <= t < |remaining|
    requires forall u :: 0 <= u < |remaining| ==> remaining[u] in m
    requires SortedByValueThenKey(sorted)
    requires forall q, u :: 0 <= q < |sorted| && 0 <= u < |remaining| ==>
               LexLess(sorted[q], (remaining[u], m[remaining[u]]))
    requires m[remaining[t]] == values[i]
    requires forall u :: 0 <= u < |remaining| && u != t ==>
               LexLess((remaining[t], values[i]), (remaining[u], m[remaining[u]]))
    ensures var next := remaining[..t] + remaining[t + 1..];
      var sorted' := sorted + [(remaining[t], values[i])];
      && SortedByValueThenKey(sorted')
      && forall q, u :: 0 <= q < |sorted'| && 0 <= u < |next| ==> LexLess(sorted'[q], (next[u], m[next[u]]))
  {
    var next := remaining[..t] + remaining[t + 1..];
    var sorted' := sorted + [(remaining[t], values[i])];
    assert forall q :: 0 <= q < |sorted| ==> LexLess(sorted[q], (remaining[t], values[i]));
    forall q, u | 0 <= q < |sorted'| && 0 <= u < |next|
      ensures LexLess(sorted'[q], (next[u], m[next[u]]))
    {
      var u' := if u < t then u else u + 1;
      assert next[u] == remaining[u'] && u' != t;
    }
  }

  /** Every key of the map is still remaining or already sorted. */
  lemma StepCoverage(m: map<int, int>, remaining: seq<int>, sorted: seq<(int, int)>, t: int, v: int)
    requires 0 <= t < |remaining|
    requires forall k :: k in m ==> k in remaining || exists q :: 0 <= q < |sorted| && sorted[q].0 == k
    ensures var next := remaining[..t] + remaining[t + 1..];
      var sorted' := sorted + [(remaining[t], v)];
      forall k :: k in m ==> k in next || exists q :: 0 <= q < |sorted'| && sorted'[q].0 == k
  {
    var next := remaining[..t] + remaining[t + 1..];
    var sorted' := sorted + [(remaining[t], v)];
    forall k | k in m ensures k in next || exists q :: 0 <= q < |sorted'| && sorted'[q].0 == k {
      if k == remaining[t] {
        assert sorted'[|sorted|].0 == k;
      } else if k in remaining {
        var u :| 0 <= u < |remaining| && remaining[u] == k;
        assert next[if u < t then u else u - 1] == k;
      } else {
        var q :| 0 <= q < |sorted| && sorted[q].0 == k;
        assert sorted'[q].0 == k;
      }
    }
  }

  /** Taking out the first remaining key that holds the smallest unused value keeps the sort
      state; such a key always exists. */
  lemma SortStep(m: map<int, int>, values: seq<int>, i: int, remaining: seq<int>, sorted: seq<(int, int)>, t: int)
    requires SortInv(m, values, i, remaining, sorted) && i < |values|
    requires 0 <= t <= |remaining|
    requires forall u :: 0 <= u < t ==> m[remaining[u]] != values[i]
    requires t < |remaining| ==> m[remaining[t]] == values[i]
    ensures t < |remaining|
    ensures SortInv(m, values, i + 1, remaining[..t] + remaining[t + 1..], sorted + [(remaining[t], values[i])])
  {
    ValuePresent(m, values, i, remaining, t);
    SmallestEntry(m, values, i, remaining, t);
    StepRemaining(m, values, i, remaining, t);
    StepOrder(m, values, i, remaining, sorted, t);
    StepCoverage(m, remaining, sorted, t, values[i]);
  }

  /** The position of the first key of `keys` holding `v`, or `|keys|` when none does. */
  method FirstKeyWithValue(m: map<int, int>, keys: seq<int>, v: int) returns (t: int)
    requires forall u :: 0 <= u < |keys| ==> keys[u] in m
    ensures 0 <= t <= |keys|
    ensures forall u :: 0 <= u < t ==> m[keys[u]] != v
    ensures t < |keys| ==> m[keys[t]] == v
  {
    t := 0;
    while t < |keys| && m[keys[t]] != v
      invariant 0 <= t <= |keys|
      invariant forall u :: 0 <= u < t ==> m[keys[u]] != v
    {
      t := t + 1;
    }
  }

  /** The entries of `m` by value, ties by key: the keys and the values are sorted separately,
      then for each value in turn the first remaining key holding that value is taken out. */
  method SortMapByValues(m: map<int, int>) returns (sorted: seq<(int, int)>)
    ensures IsEntryOrder(sorted, m)
  {
    var keys := SortKeys(m.Keys);
    var values := SortValues(ValuesAt(m, keys));
    SortStart(m, keys, values);
    sorted := [];
    var remaining := keys;
    var i := 0;
    while i < |values|
      invariant SortInv(m, values, i, remaining, sorted)
      decreases |values| - i
    {
      var t := FirstKeyWithValue(m, remaining, values[i]);
      SortStep(m, values, i, remaining, sorted, t);
      sorted := sorted + [(remaining[t], values[i])];
      remaining := remaining[..t] + remaining[t + 1..];
      i := i + 1;
    }
    SortDone(m, values, remaining, sorted);
  }

  /** Before the first value nothing is sorted and every key remains; there are as many
      values as keys. */
  lemma SortStart(m: map<int, int>, keys: seq<int>, values: seq<int>)
    requires StrictlyAscending(keys) && |keys| == |m.Keys|
    requires forall k :: k in keys <==> k in m
    requires forall i :: 0 <= i < |keys| ==> keys[i] in m
    requires Ascending(values) && multiset(values) == multiset(ValuesAt(m, keys))
    ensures |values| == |m.Keys|
    ensures SortInv(m, values, 0, keys, [])
  {
    assert |values| == |multiset(values)| == |multiset(ValuesAt(m, keys))| == |keys|;
    assert values[0..] == values;
  }

  /** Once every value is used, the sorted entries are an entry order of the map. */
  lemma SortDone(m: map<int, int>, values: seq<int>, remaining: seq<int>, sorted: seq<(int, int)>)
    requires |values| == |m.Keys| && SortInv(m, values, |values|, remaining, sorted)
    ensures IsEntryOrder(sorted, m)
  {
    assert remaining == [];
  }

  // ---------------------------------------------------------------- the grid

  /** The transformation of one component: a translation by (dx, dy), a scale, then a
      translation to the component's place (cx, cy). */
  datatype Offset = Offset(dx: real, dy: real, scale: real, cx: real, cy: real)

  /** The state of the grid cursor while the components are placed. */
  datatype GridState = GridState(x: real, y: real, colMaxY: real, counter: int, offsets: map<int, Offset>)

  /** The per-vertex transformation applied once the grid is known. */
  function TransformPoint(c: Point, off: Offset): (r: Point)
    ensures r.x == (c.x + off.dx) * off.scale + off.cx
    ensures r.y == (c.y + off.dy) * off.scale + off.cy
  {
    Point((c.x + off.dx) * off.scale + off.cx, (c.y + off.dy) * off.scale + off.cy)
  }

  /** A vertex of component `component` moved to its place; no result when the component has
      no offset (the source dereferences a missing entry). */
  function LayoutCC(coords: Point, component: int, offsets: map<int, Offset>): (r: Option<Point>)
    ensures r.Some? <==> component in offsets
    ensures r.Some? ==> r.value == TransformPoint(coords, offsets[component])
  {
    if component in offsets then Some(TransformPoint(coords, offsets[component])) else None
  }

  /** The offset of a component whose bounding box starts at `minC`, scaled by `scale` and put
      at (cx, cy). */
  function OffsetFor(minC: Point, scale: real, cx: real, cy: real): Offset
  {
    Offset(-minC.x, -minC.y, scale, cx, cy)
  }

  /** Such an offset moves the component's lower corner to (cx, cy) and its upper corner to
      (cx, cy) plus the scaled extent of the component. */
  lemma OffsetMovesBox(minC: Point, maxC: Point, scale: real, cx: real, cy: real)
    ensures TransformPoint(minC, OffsetFor(minC, scale, cx, cy)) == Point(cx, cy)
    ensures TransformPoint(maxC, OffsetFor(minC, scale, cx, cy))
         == Point(cx + (maxC.x - minC.x) * scale, cy + (maxC.y - minC.y) * scale)
  {
  }

  /** A length of the layout once scaled. */
  function Scaled(length: real, scale: real): real
  {
    length * scale
  }

  /** A component's scale: its size relative to the largest, but no less than `minRatio`. */
  function Scale(value: int, maxNo: int, minRatio: real): (s: real)
    requires maxNo != 0
    ensures s >= minRatio && s >= value as real / maxNo as real
    ensures s == minRatio || s == value as real / maxNo as real
  {
    var ratio := value as real / maxNo as real;
    if ratio < minRatio then minRatio else ratio
  }

  /** Placing one component at the cursor: its offset is recorded, the row's tallest scaled
      height is updated, and the cursor moves right past the component, or, once the row holds
      `cols` components, back to the grid's left edge and down past the row. */
  function PlaceStep(st: GridState, comp: int, value: int, maxNo: int, maxC: Point, minC: Point,
                     padding: real, minRatio: real, cols: int, originX: real): GridState
    requires maxNo != 0 && cols > 0
  {
    var scale := Scale(value, maxNo, minRatio);
    var w := Scaled(maxC.x - minC.x, scale);
    var h := Scaled(maxC.y - minC.y, scale);
    var offsets := st.offsets[comp := OffsetFor(minC, scale, st.x, st.y)];
    var colMaxY := if h > st.colMaxY then h else st.colMaxY;
    if st.counter % cols != 0 then GridState(st.x + w + padding, st.y, colMaxY, st.counter + 1, offsets)
    else GridState(originX, st.y + colMaxY + padding, 0.0, 1, offsets)
  }

  /** The components `sorted[j]`, `sorted[j-1]`, ..., `sorted[0]` placed in turn. No result
      when one of them has no recorded bounding box. */
  function PlaceFrom(sorted: seq<(int, int)>, j: int, st: GridState, maxNo: int,
                     maxCoords: map<int, Point>, minCoords: map<int, Point>,
                     padding: real, minRatio: real, cols: int, originX: real): Option<GridState>
    requires -1 <= j < |sorted| && maxNo != 0 && cols > 0
    decreases j + 1
  {
    if j < 0 then Some(st)
    else
      var (comp, value) := sorted[j];
      if comp !in maxCoords || comp !in minCoords then None
      else PlaceFrom(sorted, j - 1, PlaceStep(st, comp, value, maxNo, maxCoords[comp], minCoords[comp],
                                                padding, minRatio, cols, originX),
                     maxNo, maxCoords, minCoords, padding, minRatio, cols, originX)
  }

  /** Placing from position `j` fails when that component has no bounds, and otherwise places
      it and goes on with the next smaller one. */
  lemma PlaceFromStep(sorted: seq<(int, int)>, j: int, st: GridState, maxNo: int,
                      maxCoords: map<int, Point>, minCoords: map<int, Point>,
                      padding: real, minRatio: real, cols: int, originX: real)
    requires 0 <= j < |sorted| && maxNo != 0 && cols > 0
    ensures var comp := sorted[j].0;
      (comp !in maxCoords || comp !in minCoords) ==>
        PlaceFrom(sorted, j, st, maxNo, maxCoords, minCoords, padding, minRatio, cols, originX).None?
    ensures var comp := sorted[j].0;
      (comp in maxCoords && comp in minCoords) ==>
        PlaceFrom(sorted, j, st, maxNo, maxCoords, minCoords, padding, minRatio, cols, originX)
        == PlaceFrom(sorted, j - 1, PlaceStep(st, comp, sorted[j].1, maxNo, maxCoords[comp], minCoords[comp],
                                              padding, minRatio, cols, originX),
                     maxNo, maxCoords, minCoords, padding, minRatio, cols, originX)
  {
  }

  /** Columns per row: the ceiling of the square root of the number of components besides the
      largest. */
  function CeilSqrt(n: nat): (c: nat)
    ensures c * c >= n
    ensures c == 0 || (c - 1) * (c - 1) < n
  {
    CeilSqrtFrom(n, 0)
  }

  function CeilSqrtFrom(n: nat, c: nat): (r: nat)
    requires c == 0 || (c - 1) * (c - 1) < n
    ensures r * r >= n
    ensures r == 0 || (r - 1) * (r - 1) < n
    decreases n - c
  {
    if c * c >= n then c
    else
      assert c < n by {
        if c >= 1 {
          assert c * c >= c * 1;
        }
      }
      CeilSqrtFrom(n, c + 1)
  }

  /** The whole grid for already sorted components: no result for no components, for a
      missing bounding box, or, with more than one component, for a largest size of zero (the
      source would divide by it). */
  function GridLayout(sorted: seq<(int, int)>, maxCoords: map<int, Point>, minCoords: map<int, Point>,
                      padding: real, minRatio: real): Option<map<int, Offset>>
  {
    if |sorted| == 0 then None
    else
      var n := |sorted|;
      var (maxID, maxNo) := sorted[n - 1];
      if maxID !in minCoords || maxID !in maxCoords then None
      else if n > 1 && maxNo == 0 then None
      else
        var minC := minCoords[maxID];
        var maxC := maxCoords[maxID];
        var originX := (maxC.x - minC.x) + padding;
        var start := GridState(originX, 0.0, 0.0, 1, map[maxID := OffsetFor(minC, 1.0, 0.0, 0.0)]);
        if n == 1 then Some(start.offsets)
        else
          var placed := PlaceFrom(sorted, n - 2, start, maxNo, maxCoords, minCoords, padding, minRatio,
                                  CeilSqrt(n - 1), originX);
          if placed.None? then None else Some(placed.value.offsets)
  }

  /** Computes the grid: sorts the components by size, anchors the largest at the origin and
      places the others right of it, from the next largest down. */
  method ComputeComponentGridLayout(componentsNo: map<int, int>, maxCoords: map<int, Point>,
                                    minCoords: map<int, Point>, padding: real, minRatio: real)
    returns (offsets: Option<map<int, Offset>>, ghost sorted: seq<(int, int)>)
    ensures IsEntryOrder(sorted, componentsNo)
    ensures offsets == GridLayout(sorted, maxCoords, minCoords, padding, minRatio)
  {
    var entries := SortMapByValues(componentsNo);
    sorted := entries;
    var n := |entries|;
    if n == 0 {
      return None, sorted;
    }
    var cols := CeilSqrt(n - 1);
    var maxID := entries[n - 1].0;
    var maxNo := entries[n - 1].1;
    if maxID !in minCoords || maxID !in maxCoords {
      return None, sorted;
    }
    var minC := minCoords[maxID];
    var maxC := maxCoords[maxID];
    var originX := (maxC.x - minC.x) + padding;
    var start := GridState(originX, 0.0, 0.0, 1, map[maxID := OffsetFor(minC, 1.0, 0.0, 0.0)]);
    if n > 1 && maxNo == 0 {
      return None, sorted;
    }
    if n == 1 {
      return Some(start.offsets), sorted;
    }
    var placed := PlaceOthers(entries, start, maxNo, maxCoords, minCoords, padding, minRatio, cols, originX);
    offsets := if placed.None? then None else Some(placed.value.offsets);
  }

  /** Places the components other than the largest on the grid, from the next largest down,
      starting from the cursor, row height, counter and offsets in `start`. */
  method PlaceOthers(entries: seq<(int, int)>, start: GridState, maxNo: int,
                     maxCoords: map<int, Point>, minCoords: map<int, Point>,
                     padding: real, minRatio: real, cols: int, originX: real)
    returns (placed: Option<GridState>)
    requires |entries| > 1 && maxNo != 0 && cols > 0
    ensures placed == PlaceFrom(entries, |entries| - 2, start, maxNo, maxCoords, minCoords, padding, minRatio,
                                cols, originX)
  {
    var cursorX, cursorY, colMaxY, counter, result := start.x, start.y, start.colMaxY, start.counter, start.offsets;
    var j := |entries| - 2;
    while j >= 0
      invariant -1 <= j <= |entries| - 2
      invariant PlaceFrom(entries, |entries| - 2, start, maxNo, maxCoords, minCoords, padding, minRatio, cols, originX)
             == PlaceFrom(entries, j, GridState(cursorX, cursorY, colMaxY, counter, result),
                          maxNo, maxCoords, minCoords, padding, minRatio, cols, originX)
      decreases j
    {
      var comp := entries[j].0;
      PlaceFromStep(entries, j, GridState(cursorX, cursorY, colMaxY, counter, result),
                    maxNo, maxCoords, minCoords, padding, minRatio, cols, originX);
      if comp !in maxCoords || comp !in minCoords {
        return None;
      }
      cursorX, cursorY, colMaxY, counter, result :=
        PlaceComponent(cursorX, cursorY, colMaxY, counter, result, comp, entries[j].1, maxNo,
                       maxCoords[comp], minCoords[comp], padding, minRatio, cols, originX);
      j := j - 1;
    }
    placed := Some(GridState(cursorX, cursorY, colMaxY, counter, result));
  }

  /** One iteration of the placement loop: the component's size ratio, raised to `minRatio`,
      its offset at the cursor, the row's tallest height, then the cursor's move to the right
      or, when the row is full, to the start of the next row. */
  method PlaceComponent(cursorX: real, cursorY: real, colMaxY: real, counter: int, result: map<int, Offset>,
                        comp: int, value: int, maxNo: int, boxMax: Point, boxMin: Point,
                        padding: real, minRatio: real, cols: int, originX: real)
    returns (cursorX': real, cursorY': real, colMaxY': real, counter': int, result': map<int, Offset>)
    requires maxNo != 0 && cols > 0
    ensures GridState(cursorX', cursorY', colMaxY', counter', result')
         == PlaceStep(GridState(cursorX, cursorY, colMaxY, counter, result), comp, value, maxNo, boxMax, boxMin,
                      padding, minRatio, cols, originX)
  {
    var scale := value as real / maxNo as real;
    if scale < minRatio {
      scale := minRatio;
    }
    var w := Scaled(boxMax.x - boxMin.x, scale);
    var h := Scaled(boxMax.y - boxMin.y, scale);
    result' := result[comp := OffsetFor(boxMin, scale, cursorX, cursorY)];
    colMaxY' := colMaxY;
    if h > colMaxY' {
      colMaxY' := h;
    }
    if counter % cols != 0 {
      cursorX', cursorY', counter' := cursorX + w + padding, cursorY, counter + 1;
    } else {
      cursorX', cursorY', colMaxY', counter' := originX, cursorY + colMaxY' + padding, 0.0, 1;
    }
  }

  // ---------------------------------------------------------------- properties of the grid

  /** One placement keeps the counter within 1..cols and follows the row rule: the cursor moves
      right, past the component and the padding, while the row has room, and otherwise returns
      to the left edge and moves down past the row's tallest component and the padding. */
  lemma PlaceStepRowRule(st: GridState, comp: int, value: int, maxNo: int, maxC: Point, minC: Point,
                         padding: real, minRatio: real, cols: int, originX: real)
    requires maxNo != 0 && cols > 0 && 1 <= st.counter <= cols
    ensures var r := PlaceStep(st, comp, value, maxNo, maxC, minC, padding, minRatio, cols, originX);
      var scale := Scale(value, maxNo, minRatio);
      var off := OffsetFor(minC, scale, st.x, st.y);
      && 1 <= r.counter <= cols
      && r.offsets == st.offsets[comp := off]
      && TransformPoint(minC, off) == Point(st.x, st.y)
      && (st.counter < cols ==>
            r.x == TransformPoint(maxC, off).x + padding && r.y == st.y && r.counter == st.counter + 1
            && r.colMaxY == Max(st.colMaxY, TransformPoint(maxC, off).y - st.y))
      && (st.counter == cols ==>
            r.x == originX && r.counter == 1 && r.colMaxY == 0.0
            && r.y == st.y + Max(st.colMaxY, TransformPoint(maxC, off).y - st.y) + padding)
  {
    if st.counter < cols {
      assert st.counter % cols == st.counter;
    } else {
      assert st.counter % cols == 0;
    }
  }

  /** Placing components `sorted[j]` down to `sorted[0]` fails exactly when one of them has
      no recorded bounding box. */
  lemma {:induction false} PlaceFromFailsIff(sorted: seq<(int, int)>, j: int, st: GridState, maxNo: int,
                                             maxCoords: map<int, Point>, minCoords: map<int, Point>,
                                             padding: real, minRatio: real, cols: int, originX: real)
    requires -1 <= j < |sorted| && maxNo != 0 && cols > 0
    ensures PlaceFrom(sorted, j, st, maxNo, maxCoords, minCoords, padding, minRatio, cols, originX).None?
        <==> exists i :: 0 <= i <= j && (sorted[i].0 !in maxCoords || sorted[i].0 !in minCoords)
    decreases j + 1
  {
    if j >= 0 && sorted[j].0 in maxCoords && sorted[j].0 in minCoords {
      var (comp, value) := sorted[j];
      PlaceFromFailsIff(sorted, j - 1, PlaceStep(st, comp, value, maxNo, maxCoords[comp], minCoords[comp],
                                                 padding, minRatio, cols, originX),
                        maxNo, maxCoords, minCoords, padding, minRatio, cols, originX);
    }
  }

  /** Placing components `sorted[j]` down to `sorted[0]` records an offset for each of them
      and keeps the offsets of every other component. */
  lemma {:induction false} PlaceFromKeys(sorted: seq<(int, int)>, j: int, st: GridState, maxNo: int,
                                         maxCoords: map<int, Point>, minCoords: map<int, Point>,
                                         padding: real, minRatio: real, cols: int, originX: real)
    requires -1 <= j < |sorted| && maxNo != 0 && cols > 0
    requires PlaceFrom(sorted, j, st, maxNo, maxCoords, minCoords, padding, minRatio, cols, originX).Some?
    ensures var r := PlaceFrom(sorted, j, st, maxNo, maxCoords, minCoords, padding, minRatio, cols, originX).value;
      && r.offsets.Keys == st.offsets.Keys + (set i | 0 <= i <= j :: sorted[i].0)
      && (forall k :: k in st.offsets && (forall i :: 0 <= i <= j ==> sorted[i].0 != k) ==> r.offsets[k] == st.offsets[k])
    decreases j + 1
  {
    if j >= 0 {
      var (comp, value) := sorted[j];
      var next := PlaceStep(st, comp, value, maxNo, maxCoords[comp], minCoords[comp], padding, minRatio, cols, originX);
      PlaceFromKeys(sorted, j - 1, next, maxNo, maxCoords, minCoords, padding, minRatio, cols, originX);
      assert (set i | 0 <= i <= j :: sorted[i].0) == (set i | 0 <= i <= j - 1 :: sorted[i].0) + {comp};
    }
  }

  /** Every placed component gets its own offset: translated by minus its lower corner and
      scaled by its size relative to the largest, no less than `minRatio`. */
  lemma {:induction false} PlaceFromOffsets(sorted: seq<(int, int)>, j: int, st: GridState, maxNo: int,
                                            maxCoords: map<int, Point>, minCoords: map<int, Point>,
                                            padding: real, minRatio: real, cols: int, originX: real)
    requires -1 <= j < |sorted| && maxNo != 0 && cols > 0
    requires forall a, b :: 0 <= a < b <= j ==> sorted[a].0 != sorted[b].0
    requires PlaceFrom(sorted, j, st, maxNo, maxCoords, minCoords, padding, minRatio, cols, originX).Some?
    ensures var r := PlaceFrom(sorted, j, st, maxNo, maxCoords, minCoords, padding, minRatio, cols, originX).value;
      forall i :: 0 <= i <= j ==>
        && sorted[i].0 in minCoords && sorted[i].0 in r.offsets
        && r.offsets[sorted[i].0].dx == -minCoords[sorted[i].0].x
        && r.offsets[sorted[i].0].dy == -minCoords[sorted[i].0].y
        && r.offsets[sorted[i].0].scale == Scale(sorted[i].1, maxNo, minRatio)
    decreases j + 1
  {
    if j >= 0 {
      var (comp, value) := sorted[j];
      var next := PlaceStep(st, comp, value, maxNo, maxCoords[comp], minCoords[comp], padding, minRatio, cols, originX);
      PlaceFromOffsets(sorted, j - 1, next, maxNo, maxCoords, minCoords, padding, minRatio, cols, originX);
      PlaceFromKeys(sorted, j - 1, next, maxNo, maxCoords, minCoords, padding, minRatio, cols, originX);
      assert next.offsets[comp] == OffsetFor(minCoords[comp], Scale(value, maxNo, minRatio), st.x, st.y);
    }
  }

  /** The grid of more than one component is the largest one's offset followed by the
      placement of all the others, next largest first. */
  lemma GridLayoutUnfold(sorted: seq<(int, int)>, maxCoords: map<int, Point>, minCoords: map<int, Point>,
                         padding: real, minRatio: real)
    requires |sorted| > 1
    requires GridLayout(sorted, maxCoords, minCoords, padding, minRatio).Some?
    ensures var n := |sorted|;
      var maxID := sorted[n - 1].0;
      && maxID in minCoords && maxID in maxCoords && sorted[n - 1].1 != 0 && CeilSqrt(n - 1) > 0
      && var start := GridState((maxCoords[maxID].x - minCoords[maxID].x) + padding, 0.0, 0.0, 1,
                                map[maxID := OffsetFor(minCoords[maxID], 1.0, 0.0, 0.0)]);
         var placed := PlaceFrom(sorted, n - 2, start, sorted[n - 1].1, maxCoords, minCoords, padding, minRatio,
                                 CeilSqrt(n - 1), start.x);
         placed.Some? && GridLayout(sorted, maxCoords, minCoords, padding, minRatio).value == placed.value.offsets
  {
  }

  /** Every component gets exactly one offset; the largest is translated to the origin at
      scale 1, so its lower corner lands on the origin, and every other one is translated by
      minus its lower corner and scaled by its relative size, no less than `minRatio`. */
  lemma GridLayoutOffsets(m: map<int, int>, sorted: seq<(int, int)>, maxCoords: map<int, Point>,
                          minCoords: map<int, Point>, padding: real, minRatio: real)
    requires IsEntryOrder(sorted, m)
    requires GridLayout(sorted, maxCoords, minCoords, padding, minRatio).Some?
    ensures var offs := GridLayout(sorted, maxCoords, minCoords, padding, minRatio).value;
      var maxID := sorted[|sorted| - 1].0;
      && offs.Keys == m.Keys
      && offs[maxID] == OffsetFor(minCoords[maxID], 1.0, 0.0, 0.0)
      && TransformPoint(minCoords[maxID], offs[maxID]) == Point(0.0, 0.0)
      && (forall k :: k in m && k != maxID ==>
            && k in minCoords
            && offs[k].dx == -minCoords[k].x && offs[k].dy == -minCoords[k].y
            && offs[k].scale == Scale(m[k], m[maxID], minRatio))
  {
    var n := |sorted|;
    var maxID := sorted[n - 1].0;
    if n == 1 {
      GridLayoutSingle(m, sorted, maxCoords, minCoords, padding, minRatio);
    } else {
      GridLayoutMany(m, sorted, maxCoords, minCoords, padding, minRatio);
    }
    OffsetMovesBox(minCoords[maxID], maxCoords[maxID], 1.0, 0.0, 0.0);
  }

  /** A single component is anchored at the origin and is the only one. */
  lemma GridLayoutSingle(m: map<int, int>, sorted: seq<(int, int)>, maxCoords: map<int, Point>,
                         minCoords: map<int, Point>, padding: real, minRatio: real)
    requires IsEntryOrder(sorted, m) && |sorted| == 1
    requires GridLayout(sorted, maxCoords, minCoords, padding, minRatio).Some?
    ensures var offs := GridLayout(sorted, maxCoords, minCoords, padding, minRatio).value;
      var maxID := sorted[0].0;
      && maxID in minCoords && maxID in maxCoords
      && offs == map[maxID := OffsetFor(minCoords[maxID], 1.0, 0.0, 0.0)]
      && m.Keys == {maxID}
  {
    var maxID := sorted[0].0;
    assert forall k :: k in m ==> k == maxID;
  }

  /** The offsets of the components other than the largest, as placed on the grid. */
  lemma GridLayoutMany(m: map<int, int>, sorted: seq<(int, int)>, maxCoords: map<int, Point>,
                       minCoords: map<int, Point>, padding: real, minRatio: real)
    requires IsEntryOrder(sorted, m) && |sorted| > 1
    requires GridLayout(sorted, maxCoords, minCoords, padding, minRatio).Some?
    ensures var offs := GridLayout(sorted, maxCoords, minCoords, padding, minRatio).value;
      var maxID := sorted[|sorted| - 1].0;
      && offs.Keys == m.Keys
      && offs[maxID] == OffsetFor(minCoords[maxID], 1.0, 0.0, 0.0)
      && (forall k :: k in m && k != maxID ==>
            && k in minCoords
            && offs[k].dx == -minCoords[k].x && offs[k].dy == -minCoords[k].y
            && offs[k].scale == Scale(m[k], m[maxID], minRatio))
  {
    EntryOrderKeysDistinct(sorted, m);
    GridLayoutUnfold(sorted, maxCoords, minCoords, padding, minRatio);
    var n := |sorted|;
    var maxID := sorted[n - 1].0;
    var start := GridState((maxCoords[maxID].x - minCoords[maxID].x) + padding, 0.0, 0.0, 1,
                           map[maxID := OffsetFor(minCoords[maxID], 1.0, 0.0, 0.0)]);
    PlaceFromKeys(sorted, n - 2, start, sorted[n - 1].1, maxCoords, minCoords, padding, minRatio,
                  CeilSqrt(n - 1), start.x);
    PlaceFromOffsets(sorted, n - 2, start, sorted[n - 1].1, maxCoords, minCoords, padding, minRatio,
                     CeilSqrt(n - 1), start.x);
    var offs := PlaceFrom(sorted, n - 2, start, sorted[n - 1].1, maxCoords, minCoords, padding, minRatio,
                          CeilSqrt(n - 1), start.x).value.offsets;
    OffsetsByKey(m, sorted, offs, maxCoords, minCoords, minRatio, start.offsets);
  }

  /** The per-position facts of a placement, read per component. */
  lemma OffsetsByKey(m: map<int, int>, sorted: seq<(int, int)>, offs: map<int, Offset>,
                     maxCoords: map<int, Point>, minCoords: map<int, Point>, minRatio: real,
                     first: map<int, Offset>)
    requires IsEntryOrder(sorted, m) && |sorted| > 1
    requires sorted[|sorted| - 1].0 in minCoords
    requires var maxID := sorted[|sorted| - 1].0; first == map[maxID := OffsetFor(minCoords[maxID], 1.0, 0.0, 0.0)]
    requires sorted[|sorted| - 1].1 != 0
    requires offs.Keys == first.Keys + (set i | 0 <= i <= |sorted| - 2 :: sorted[i].0)
    requires forall k :: k in first && (forall i :: 0 <= i <= |sorted| - 2 ==> sorted[i].0 != k) ==> offs[k] == first[k]
    requires forall i :: 0 <= i <= |sorted| - 2 ==>
            && sorted[i].0 in minCoords
            && offs[sorted[i].0].dx == -minCoords[sorted[i].0].x
            && offs[sorted[i].0].dy == -minCoords[sorted[i].0].y
            && offs[sorted[i].0].scale == Scale(sorted[i].1, sorted[|sorted| - 1].1, minRatio)
    ensures var maxID := sorted[|sorted| - 1].0;
      && offs.Keys == m.Keys
      && offs[maxID] == first[maxID]
      && (forall k :: k in m && k != maxID ==>
            && k in minCoords
            && offs[k].dx == -minCoords[k].x && offs[k].dy == -minCoords[k].y
            && offs[k].scale == Scale(m[k], m[maxID], minRatio))
  {
    var n := |sorted|;
    var maxID := sorted[n - 1].0;
    PlacedKeys(m, sorted, offs, first);
    forall i | 0 <= i <= n - 2 ensures sorted[i].0 in offs {
      assert sorted[i].0 in (set j | 0 <= j <= n - 2 :: sorted[j].0);
    }
    forall k | k in m && k != maxID
      ensures k in minCoords && offs[k].dx == -minCoords[k].x && offs[k].dy == -minCoords[k].y
      ensures offs[k].scale == Scale(m[k], m[maxID], minRatio)
    {
      OffsetOfPlaced(m, sorted, offs, minCoords, minRatio, k);
    }
  }

  /** The placement facts of the position holding `k`, read by key. */
  lemma OffsetOfPlaced(m: map<int, int>, sorted: seq<(int, int)>, offs: map<int, Offset>,
                       minCoords: map<int, Point>, minRatio: real, k: int)
    requires IsEntryOrder(sorted, m) && |sorted| > 1
    requires k in m && k != sorted[|sorted| - 1].0 && sorted[|sorted| - 1].1 != 0
    requires forall i :: 0 <= i <= |sorted| - 2 ==> sorted[i].0 in offs
    requires forall i :: 0 <= i <= |sorted| - 2 ==>
            && sorted[i].0 in minCoords
            && offs[sorted[i].0].dx == -minCoords[sorted[i].0].x
            && offs[sorted[i].0].dy == -minCoords[sorted[i].0].y
            && offs[sorted[i].0].scale == Scale(sorted[i].1, sorted[|sorted| - 1].1, minRatio)
    ensures k in minCoords && k in offs && offs[k].dx == -minCoords[k].x && offs[k].dy == -minCoords[k].y
    ensures offs[k].scale == Scale(m[k], m[sorted[|sorted| - 1].0], minRatio)
  {
    var i :| 0 <= i < |sorted| && sorted[i].0 == k;
    assert i <= |sorted| - 2;
  }

  /** The components placed on the grid, with the largest one, are exactly the map's keys, and
      the largest keeps its anchoring offset. */
  lemma PlacedKeys(m: map<int, int>, sorted: seq<(int, int)>, offs: map<int, Offset>, first: map<int, Offset>)
    requires IsEntryOrder(sorted, m) && |sorted| > 1
    requires first.Keys == {sorted[|sorted| - 1].0}
    requires offs.Keys == first.Keys + (set i | 0 <= i <= |sorted| - 2 :: sorted[i].0)
    requires forall k :: k in first && (forall i :: 0 <= i <= |sorted| - 2 ==> sorted[i].0 != k) ==> offs[k] == first[k]
    ensures offs.Keys == m.Keys
    ensures offs[sorted[|sorted| - 1].0] == first[sorted[|sorted| - 1].0]
  {
    EntryOrderKeysDistinct(sorted, m);
    var n := |sorted|;
    var maxID := sorted[n - 1].0;
    assert forall i :: 0 <= i <= n - 2 ==> sorted[i].0 != maxID;
    forall k | k in m ensures k in offs {
      var i :| 0 <= i < n && sorted[i].0 == k;
      if i < n - 1 {
        assert k in (set i | 0 <= i <= n - 2 :: sorted[i].0);
      }
    }
  }
}
