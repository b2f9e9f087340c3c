/** A set that can be written to and read from a stream: its size first, then each element. */
module SetWritables {
  import opened Common

  /** One item of a serialised set: the element count, or one element (each element's own
      encoding is taken to round-trip and is one item here). */
  datatype SetToken<T> = Count(n: int) | Item(e: T)

  predicate AllItems<T>(s: seq<SetToken<T>>)
  {
    forall i :: 0 <= i < |s| ==> s[i].Item?
  }

  /** The elements carried by a run of element items. */
  function ItemSet<T>(s: seq<SetToken<T>>): set<T>
    requires AllItems(s)
  {
    if s == [] then {} else {s[0].e} + ItemSet(s[1..])
  }

  /** `out` is what writing the set `s` produces: its size, then every element once, in the
      (unspecified) iteration order of the set. */
  ghost predicate IsEncodingOf<T>(s: set<T>, out: seq<SetToken<T>>)
  {
    && |out| == |s| + 1
    && out[0] == Count(|s|)
    && AllItems(out[1..])
    && ItemSet(out[1..]) == s
  }

  /** Reading `n` elements: the elements read and what is left of the stream, or no rest when
      the stream ended early or held something else (the elements read before are kept). */
  function ReadItems<T>(input: seq<SetToken<T>>, n: int): (r: (set<T>, Option<seq<SetToken<T>>>))
    decreases if n > 0 then n else 0
  {
    if n <= 0 then ({}, Some(input))
    else if |input| == 0 || !input[0].Item? then ({}, None)
    else
      var tail := ReadItems(input[1..], n - 1);
      ({input[0].e} + tail.0, tail.1)
  }

  /** Reading a whole set: the count, then that many elements (a count of zero or less reads
      none). A stream without a leading count reads nothing. */
  function ReadSet<T>(input: seq<SetToken<T>>): (r: (set<T>, Option<seq<SetToken<T>>>))
    ensures |input| == 0 ==> r == ({}, None)
  {
    if |input| == 0 || !input[0].Count? then ({}, None)
    else ReadItems(input[1..], input[0].n)
  }

  lemma {:induction false} ItemSetAppend<T>(s: seq<SetToken<T>>, e: T)
    requires AllItems(s)
    ensures AllItems(s + [Item(e)]) && ItemSet(s + [Item(e)]) == ItemSet(s) + {e}
  {
    if s != [] {
      ItemSetAppend(s[1..], e);
      assert (s + [Item(e)])[1..] == s[1..] + [Item(e)];
    }
  }

  lemma {:induction false} ReadItemsOfItems<T>(items: seq<SetToken<T>>, rest: seq<SetToken<T>>)
    requires AllItems(items)
    ensures ReadItems(items + rest, |items|) == (ItemSet(items), Some(rest))
  {
    if items != [] {
      assert AllItems(items[1..]) by {
        forall i | 0 <= i < |items[1..]| ensures items[1..][i].Item? { assert items[1..][i] == items[i + 1]; }
      }
      ReadItemsOfItems(items[1..], rest);
      assert (items + rest)[0] == items[0];
      assert (items + rest)[1..] == items[1..] + rest;
      var tail := ReadItems(items[1..] + rest, |items| - 1);
      assert ReadItems(items + rest, |items|) == ({items[0].e} + tail.0, tail.1);
    } else {
      assert items + rest == rest;
    }
  }

  /** Writing a set and reading the result back, with anything after it, yields the same set
      and leaves exactly the following items unread. */
  lemma RoundTrip<T>(s: set<T>, out: seq<SetToken<T>>, rest: seq<SetToken<T>>)
    requires IsEncodingOf(s, out)
    ensures ReadSet(out + rest) == (s, Some(rest))
  {
    var input := out + rest;
    assert input[1..] == out[1..] + rest;
    ReadItemsOfItems(out[1..], rest);
  }

  class SetWritable<T(==)> {
    var elements: set<T>

    constructor ()
      ensures elements == {}
    {
      elements := {};
    }

    method AddAll(c: seq<T>)
      modifies this
      ensures elements == old(elements) + (set x | x in c)
    {
      elements := elements + (set x | x in c);
    }

    method Reset()
      modifies this
      ensures elements == {}
    {
      elements := {};
    }

    method AddElement(e: T)
      modifies this
      ensures elements == old(elements) + {e}
      ensures Contains(e)
      ensures Size() == if e in old(elements) then old(Size()) else old(Size()) + 1
    {
      if e in elements {
        assert elements + {e} == elements;
      }
      elements := elements + {e};
    }

    function Contains(e: T): (b: bool)
      reads this
      ensures b <==> e in elements
    {
      e in elements
    }

    method Remove(e: T) returns (wasPresent: bool)
      modifies this
      ensures wasPresent <==> e in old(elements)
      ensures elements == old(elements) - {e}
      ensures !Contains(e)
    {
      wasPresent := e in elements;
      elements := elements - {e};
    }

    function Size(): (n: nat)
      reads this
      ensures n == |elements|
    {
      |elements|
    }

    /** Writes the size, then every element once. */
    method Write() returns (out: seq<SetToken<T>>)
      ensures IsEncodingOf(elements, out)
    {
      out := [Count(|elements|)];
      var remaining := elements;
      ghost var written: set<T> := {};
      while remaining != {}
        invariant remaining + written == elements && remaining !! written
        invariant |out| == |written| + 1 && out[0] == Count(|elements|)
        invariant AllItems(out[1..]) && ItemSet(out[1..]) == written
        decreases remaining
      {
        var e :| e in remaining;
        ItemSetAppend(out[1..], e);
        assert (out + [Item(e)])[1..] == out[1..] + [Item(e)];
        out := out + [Item(e)];
        written := written + {e};
        remaining := remaining - {e};
      }
    }

    /** Clears the set, reads the count, then reads that many elements. */
    method ReadFields(input: seq<SetToken<T>>) returns (rest: Option<seq<SetToken<T>>>)
      modifies this
      ensures (elements, rest) == ReadSet(input)
    {
      elements := {};
      if |input| == 0 || !input[0].Count? {
        return None;
      }
      var limit := input[0].n;
      var pos := 1;
      var i := 0;
      while i < limit
        invariant 0 <= i && pos == i + 1 && pos <= |input|
        invariant ReadItems(input[1..], limit).0 == elements + ReadItems(input[pos..], limit - i).0
        invariant ReadItems(input[1..], limit).1 == ReadItems(input[pos..], limit - i).1
        decreases limit - i
      {
        if pos >= |input| || !input[pos].Item? {
          return None;
        }
        assert input[pos..][0] == input[pos] && input[pos..][1..] == input[pos + 1..];
        elements := elements + {input[pos].e};
        pos := pos + 1;
        i := i + 1;
      }
      rest := Some(input[pos..]);
    }
  }
}
