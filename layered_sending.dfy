/** Sending within one layer of the multi-level graph. A vertex's out-edges lead to vertices
    of its own layer and to its counterparts in the layers above and below; the sending helpers
    keep messages inside the layer being processed. A send is returned as an outbox entry. */
module LayeredSending {
  import opened Common
  import opened Messages

  /** An out-edge: its target and its integer value (the weight of the edge). */
  datatype Edge = Edge(target: LayeredId, value: int)

  /** One message handed to the messaging layer, addressed to `to`. */
  datatype Send = Send(to: LayeredId, msg: LayoutMessage)

  /** A vertex takes part in a superstep only when it lives in the layer being processed. */
  predicate InCurrentLayer(id: LayeredId, currentLayer: int)
  {
    id.layer == currentLayer
  }

  /** The targets of the edges that stay in `layer`, in edge order. */
  function SameLayerTargets(edges: seq<Edge>, layer: int): (ts: seq<LayeredId>)
    ensures |ts| <= |edges|
  {
    if edges == [] then []
    else
      var tail := SameLayerTargets(edges[1..], layer);
      if edges[0].target.layer == layer then [edges[0].target] + tail else tail
  }

  /** The targets kept are exactly the edge targets that sit in `layer`. */
  lemma {:induction false} SameLayerTargetsMembers(edges: seq<Edge>, layer: int)
    ensures forall t :: t in SameLayerTargets(edges, layer) <==>
      exists i :: 0 <= i < |edges| && edges[i].target == t && t.layer == layer
  {
    if edges != [] {
      var tail := edges[1..];
      SameLayerTargetsMembers(tail, layer);
      forall t ensures t in SameLayerTargets(edges, layer) <==>
        exists i :: 0 <= i < |edges| && edges[i].target == t && t.layer == layer
      {
        if t in SameLayerTargets(tail, layer) {
          var j :| 0 <= j < |tail| && tail[j].target == t && t.layer == layer;
          assert edges[j + 1] == tail[j];
        }
        if exists i :: 1 <= i < |edges| && edges[i].target == t && t.layer == layer {
          var i :| 1 <= i < |edges| && edges[i].target == t && t.layer == layer;
          assert tail[i - 1] == edges[i];
        }
      }
    }
  }

  /** A target sits in the same layer, and every other-layer edge is skipped. */
  lemma SameLayerTargetsStayInLayer(edges: seq<Edge>, layer: int)
    ensures forall i :: 0 <= i < |SameLayerTargets(edges, layer)| ==> SameLayerTargets(edges, layer)[i].layer == layer
  {
    SameLayerTargetsMembers(edges, layer);
    var ts := SameLayerTargets(edges, layer);
    forall i | 0 <= i < |ts| ensures ts[i].layer == layer {
      assert ts[i] in ts;
    }
  }

  /** Scanning one more edge from position `i`. */
  lemma SameLayerTargetsStep(edges: seq<Edge>, i: int, layer: int)
    requires 0 <= i < |edges|
    ensures SameLayerTargets(edges[i..], layer)
         == (if edges[i].target.layer == layer then [edges[i].target] else []) + SameLayerTargets(edges[i + 1..], layer)
  {
    assert edges[i..][0] == edges[i] && edges[i..][1..] == edges[i + 1..];
  }

  /** The value of the edge toward `id`: the first such edge in edge order; none when the
      vertex has no edge to `id`. */
  function EdgeValue(edges: seq<Edge>, id: LayeredId): Option<int>
  {
    if edges == [] then None
    else if edges[0].target == id then Some(edges[0].value)
    else EdgeValue(edges[1..], id)
  }

  /** There is an edge value toward `id` exactly when some edge leads to `id`, and it is the
      value of the first such edge. */
  lemma {:induction false} EdgeValueIsFirstMatch(edges: seq<Edge>, id: LayeredId)
    ensures EdgeValue(edges, id).Some? <==> exists i :: 0 <= i < |edges| && edges[i].target == id
    ensures EdgeValue(edges, id).Some? ==>
      exists i :: 0 <= i < |edges| && edges[i].target == id && edges[i].value == EdgeValue(edges, id).value
                  && forall j :: 0 <= j < i ==> edges[j].target != id
  {
    if edges != [] && edges[0].target != id {
      var tail := edges[1..];
      EdgeValueIsFirstMatch(tail, id);
      assert forall i :: 1 <= i < |edges| ==> edges[i] == tail[i - 1];
      if EdgeValue(tail, id).Some? {
        var i :| 0 <= i < |tail| && tail[i].target == id && tail[i].value == EdgeValue(tail, id).value
                 && forall j :: 0 <= j < i ==> tail[j].target != id;
        assert edges[i + 1] == tail[i];
      }
    }
  }

  /** Sends `msg` to `id` with the value of the edge toward `id` added to its weight. Without
      such an edge the source dereferences a missing value: no send. */
  function SendWithWeight(edges: seq<Edge>, id: LayeredId, msg: LayoutMessage): (s: Option<Send>)
    ensures s.Some? <==> exists i :: 0 <= i < |edges| && edges[i].target == id
    ensures s.Some? ==> EdgeValue(edges, id).Some? && s.value.to == id
                        && s.value.msg == AddToWeight(msg, EdgeValue(edges, id).value)
  {
    EdgeValueIsFirstMatch(edges, id);
    match EdgeValue(edges, id)
    case None => None
    case Some(v) => Some(Send(id, AddToWeight(msg, v)))
  }

  /** The same message addressed to each target in turn. */
  function Broadcast(targets: seq<LayeredId>, msg: LayoutMessage): (sends: seq<Send>)
    ensures |sends| == |targets|
    ensures forall i :: 0 <= i < |sends| ==> sends[i] == Send(targets[i], msg)
  {
    if targets == [] then [] else [Send(targets[0], msg)] + Broadcast(targets[1..], msg)
  }

  /** Sends the very same message to every edge target in the current layer, in edge order,
      and to no other target. */
  method SendMessageToAllEdges(edges: seq<Edge>, currentLayer: int, msg: LayoutMessage) returns (sends: seq<Send>)
    ensures |sends| == |SameLayerTargets(edges, currentLayer)|
    ensures forall i :: 0 <= i < |sends| ==> sends[i] == Send(SameLayerTargets(edges, currentLayer)[i], msg)
    ensures sends == Broadcast(SameLayerTargets(edges, currentLayer), msg)
  {
    sends := [];
    var i := 0;
    while i < |edges|
      invariant 0 <= i <= |edges|
      invariant SameLayerTargets(edges, currentLayer)
             == Addressees(sends) + SameLayerTargets(edges[i..], currentLayer)
      invariant forall j :: 0 <= j < |sends| ==> sends[j].msg == msg
    {
      var current := edges[i].target;
      if current.layer == currentLayer {
        OutboxTake(edges, currentLayer, i, sends, Send(current, msg));
        sends := sends + [Send(current, msg)];
      } else {
        OutboxSkip(edges, currentLayer, i, sends);
      }
      i := i + 1;
    }
    assert Addressees(sends) + [] == Addressees(sends);
    forall j | 0 <= j < |sends| ensures sends[j] == Send(SameLayerTargets(edges, currentLayer)[j], msg) {
      AddresseesAt(sends, j);
    }
  }

  /** Sends a fresh copy of the message to every edge target in the current layer, in edge
      order, each with the value of the edge toward that target added to the copy's weight.
      A copy carries no weight of its own, so every weight sent is an edge value. */
  method SendMessageToAllEdgesWithWeight(edges: seq<Edge>, currentLayer: int, msg: LayoutMessage)
    returns (sends: seq<Send>)
    ensures |sends| == |SameLayerTargets(edges, currentLayer)|
    ensures forall i :: 0 <= i < |sends| ==>
      sends[i].to == SameLayerTargets(edges, currentLayer)[i]
      && SendWithWeight(edges, sends[i].to, Copy(msg)) == Some(sends[i])
    ensures forall i :: 0 <= i < |sends| ==>
      EdgeValue(edges, sends[i].to).Some? && sends[i].msg.weight == EdgeValue(edges, sends[i].to).value as real
  {
    sends := [];
    var i := 0;
    while i < |edges|
      invariant 0 <= i <= |edges|
      invariant SameLayerTargets(edges, currentLayer)
             == Addressees(sends) + SameLayerTargets(edges[i..], currentLayer)
      invariant forall j :: 0 <= j < |sends| ==> SendWithWeight(edges, sends[j].to, Copy(msg)) == Some(sends[j])
    {
      var current := edges[i].target;
      if current.layer == currentLayer {
        var s := SendWithWeight(edges, current, Copy(msg));
        assert s.Some?;
        OutboxTake(edges, currentLayer, i, sends, s.value);
        sends := sends + [s.value];
      } else {
        OutboxSkip(edges, currentLayer, i, sends);
      }
      i := i + 1;
    }
    assert Addressees(sends) + [] == Addressees(sends);
    forall j | 0 <= j < |sends| ensures sends[j].to == SameLayerTargets(edges, currentLayer)[j] {
      AddresseesAt(sends, j);
    }
  }

  /** An edge leaving the layer adds nothing to the outbox. */
  lemma OutboxSkip(edges: seq<Edge>, layer: int, i: int, sends: seq<Send>)
    requires 0 <= i < |edges| && edges[i].target.layer != layer
    requires SameLayerTargets(edges, layer) == Addressees(sends) + SameLayerTargets(edges[i..], layer)
    ensures SameLayerTargets(edges, layer) == Addressees(sends) + SameLayerTargets(edges[i + 1..], layer)
  {
    SameLayerTargetsStep(edges, i, layer);
    assert [] + SameLayerTargets(edges[i + 1..], layer) == SameLayerTargets(edges[i + 1..], layer);
  }

  /** An edge inside the layer adds one send to its target. */
  lemma OutboxTake(edges: seq<Edge>, layer: int, i: int, sends: seq<Send>, s: Send)
    requires 0 <= i < |edges| && edges[i].target.layer == layer && s.to == edges[i].target
    requires SameLayerTargets(edges, layer) == Addressees(sends) + SameLayerTargets(edges[i..], layer)
    ensures SameLayerTargets(edges, layer) == Addressees(sends + [s]) + SameLayerTargets(edges[i + 1..], layer)
  {
    SameLayerTargetsStep(edges, i, layer);
    AddresseesAppend(sends, s);
    assert Addressees(sends) + ([s.to] + SameLayerTargets(edges[i + 1..], layer))
        == (Addressees(sends) + [s.to]) + SameLayerTargets(edges[i + 1..], layer);
  }

  /** Sends a fresh copy of the message to each id in turn, in the given order and whatever
      its layer, with the value of the edge toward that id added to the copy's weight. An id the
      vertex has no edge to stops the sending (the source dereferences a missing edge value):
      `ok` is false and the sends made before it stand. */
  method SendMessageToMultipleEdgesWithWeight(edges: seq<Edge>, ids: seq<LayeredId>, msg: LayoutMessage)
    returns (sends: seq<Send>, ok: bool)
    ensures ok <==> forall k :: 0 <= k < |ids| ==> EdgeValue(edges, ids[k]).Some?
    ensures ok ==> |sends| == |ids|
    ensures !ok ==> |sends| < |ids| && EdgeValue(edges, ids[|sends|]).None?
    ensures forall k :: 0 <= k < |sends| ==>
      && sends[k].to == ids[k]
      && EdgeValue(edges, ids[k]).Some?
      && sends[k].msg == AddToWeight(Copy(msg), EdgeValue(edges, ids[k]).value)
  {
    sends := [];
    var i := 0;
    while i < |ids|
      invariant 0 <= i <= |ids| && |sends| == i
      invariant forall k :: 0 <= k < i ==>
        && sends[k].to == ids[k]
        && EdgeValue(edges, ids[k]).Some?
        && sends[k].msg == AddToWeight(Copy(msg), EdgeValue(edges, ids[k]).value)
    {
      var s := SendWithWeight(edges, ids[i], Copy(msg));
      if s.None? {
        return sends, false;
      }
      sends := sends + [s.value];
      i := i + 1;
    }
    ok := true;
  }

  /** The addressees of an outbox, in order. */
  function Addressees(sends: seq<Send>): (ts: seq<LayeredId>)
    ensures |ts| == |sends|
  {
    if sends == [] then [] else [sends[0].to] + Addressees(sends[1..])
  }

  lemma {:induction false} AddresseesAppend(sends: seq<Send>, s: Send)
    ensures Addressees(sends + [s]) == Addressees(sends) + [s.to]
  {
    if sends != [] {
      assert (sends + [s])[1..] == sends[1..] + [s];
      AddresseesAppend(sends[1..], s);
    }
  }

  lemma {:induction false} AddresseesAt(sends: seq<Send>, j: int)
    requires 0 <= j < |sends|
    ensures Addressees(sends)[j] == sends[j].to
  {
    if j > 0 {
      AddresseesAt(sends[1..], j - 1);
    }
  }
}
