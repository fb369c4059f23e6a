/**
 * The image-target bookkeeping of the activity and what its ARScene listener
 * does with found, updated and removed anchors.
 *
 * `Registry` is the pair the handlers change: the map from target id to
 * (target, node) binding, and the set of image targets the scene is still
 * searching for. For each handler there is a function giving the registry
 * afterwards and one giving the engine calls it issues; `RunRegistry`,
 * `RunEffects` and `Consumed` follow a whole sequence of anchor callbacks.
 */
module Anchors {
  import opened Scene

  /** What an image target is linked with: the target and the node to show. */
  datatype Binding = Binding(target: ImageTarget, node: NodeRef)

  /** An `ARAnchor` as the handlers read it: its id, position and rotation. */
  datatype Anchor = Anchor(anchorId: string, position: Vec, rotation: Vec)

  datatype Registry = Registry(targetedNodes: map<string, Binding>, sceneTargets: set<ImageTarget>)

  /** One callback of the scene listener. */
  datatype AnchorEvent = Found(anchor: Anchor) | Updated(anchor: Anchor) | Removed(anchor: Anchor)

  /** The dragon's scale once revealed, the reveal's duration and curve. */
  const RevealScale: Vec := Vec(0.09, 0.09, 0.09)
  const RevealMs: nat := 500
  /** Where the dragon settles relative to the marker, and how fast. */
  const RestingOffset: Vec := Vec(0.0, 0.0, -0.19)
  const SettleMs: nat := 300

  /** Every binding is filed under its own target's id. */
  ghost predicate KeyedById(m: map<string, Binding>)
  {
    forall k :: k in m ==> m[k].target.id == k
  }

  /** `linkTargetWithNode`: file the pair under the target's id. An existing
      entry for that id is overwritten; there is no duplicate check. */
  function Link(m: map<string, Binding>, target: ImageTarget, node: NodeRef): (r: map<string, Binding>)
    ensures target.id in r && r[target.id] == Binding(target, node)
    ensures forall k :: k != target.id ==> (k in r <==> k in m)
    ensures forall k :: k in m && k != target.id ==> r[k] == m[k]
    ensures KeyedById(m) ==> KeyedById(r)
  {
    m[target.id := Binding(target, node)]
  }

  /** Linking the same target id twice keeps only the second binding. */
  lemma LinkOverwrites(m: map<string, Binding>, t1: ImageTarget, n1: NodeRef, t2: ImageTarget, n2: NodeRef)
    requires t1.id == t2.id
    ensures Link(Link(m, t1, n1), t2, n2) == Link(m, t2, n2)
  {
  }

  /** The rotation applied to a found node: heading only, pitch and roll dropped. */
  function YawOnly(rotation: Vec): Vec
  {
    Vec(0.0, rotation.y, 0.0)
  }

  /** `animateDragonVisible`: grow the dragon into place, no listener. */
  function RevealTransaction(dragon: NodeRef): Event
  {
    ScaleTransaction(dragon, RevealMs, RevealScale, EaseInEaseOut, false)
  }

  /** The second transaction of a reveal: move the dragon to its resting offset. */
  function SettleTransaction(dragon: NodeRef): Event
  {
    Animated(Transaction(SettleMs, None, [SetPosition(dragon, RestingOffset)], false))
  }

  /** `animateDragonVisible` followed by the settling move. */
  function RevealEffects(dragon: NodeRef): seq<Event>
  {
    [RevealTransaction(dragon), SettleTransaction(dragon)]
  }

  /** Put a found node where the anchor is, facing its heading, and show it. */
  function PoseEffects(node: NodeRef, a: Anchor): seq<Event>
  {
    [ Immediate(SetPosition(node, a.position)),
      Immediate(SetRotation(node, YawOnly(a.rotation))),
      Immediate(SetVisible(node, true)) ]
  }

  /** The engine calls of `onAnchorFound`. */
  function FoundEffects(r: Registry, dragon: NodeRef, a: Anchor): seq<Event>
  {
    if a.anchorId !in r.targetedNodes then []
    else
      var b := r.targetedNodes[a.anchorId];
      PoseEffects(b.node, a) + RevealEffects(dragon) + [RemoveImageTarget(b.target)]
  }

  lemma PoseView(v: NodeView, n: NodeRef, node: NodeRef, a: Anchor)
    ensures Replay(v, n, PoseEffects(node, a)) ==
      (if n == node then v.(position := Some(a.position), rotation := Some(YawOnly(a.rotation)), visible := Some(true)) else v)
  {
    var p := PoseEffects(node, a);
    ReplayCons(v, n, p[0], p[1..]);
    ReplayCons(ApplyEvent(v, n, p[0]), n, p[1], p[2..]);
    ReplayCons(ApplyEvent(ApplyEvent(v, n, p[0]), n, p[1]), n, p[2], []);
    assert p == [p[0]] + p[1..] && p[1..] == [p[1]] + p[2..] && p[2..] == [p[2]] + [];
  }

  lemma RevealView(v: NodeView, n: NodeRef, dragon: NodeRef)
    ensures Replay(v, n, RevealEffects(dragon)) ==
      (if n == dragon then v.(scale := Some(RevealScale), position := Some(RestingOffset)) else v)
  {
    var p := RevealEffects(dragon);
    ReplayCons(v, n, p[0], p[1..]);
    ReplayCons(ApplyEvent(v, n, p[0]), n, p[1], []);
    assert p == [p[0]] + p[1..] && p[1..] == [p[1]] + [];
    assert ApplyChanges(v, n, [SetScale(dragon, RevealScale)]) == ApplyChange(v, n, SetScale(dragon, RevealScale));
    var w := ApplyEvent(v, n, p[0]);
    assert ApplyChanges(w, n, [SetPosition(dragon, RestingOffset)]) == ApplyChange(w, n, SetPosition(dragon, RestingOffset));
  }

  /** The view after `onAnchorFound`: pose, then reveal; dropping the target
      from the search set touches no node. */
  lemma FoundView(v: NodeView, n: NodeRef, r: Registry, dragon: NodeRef, a: Anchor)
    requires a.anchorId in r.targetedNodes
    ensures var b := r.targetedNodes[a.anchorId];
      Replay(v, n, FoundEffects(r, dragon, a)) == Replay(Replay(v, n, PoseEffects(b.node, a)), n, RevealEffects(dragon))
  {
    var b := r.targetedNodes[a.anchorId];
    var pose, grow := PoseEffects(b.node, a), RevealEffects(dragon);
    ReplayAppend(v, n, pose + grow, [RemoveImageTarget(b.target)]);
    ReplayAppend(v, n, pose, grow);
    ReplayCons(Replay(v, n, pose + grow), n, RemoveImageTarget(b.target), []);
  }

  /** The registry after `onAnchorFound`: the target is no longer searched for
      and its binding is dropped, so the reveal is one-shot. */
  function AfterFound(r: Registry, a: Anchor): Registry
  {
    if a.anchorId !in r.targetedNodes then r
    else
      var b := r.targetedNodes[a.anchorId];
      Registry(r.targetedNodes - {a.anchorId}, r.sceneTargets - {b.target})
  }

  /** The engine calls of `onAnchorRemoved`: hide the bound node, if any. */
  function RemovedEffects(r: Registry, a: Anchor): seq<Event>
  {
    if a.anchorId !in r.targetedNodes then []
    else [Immediate(SetVisible(r.targetedNodes[a.anchorId].node, false))]
  }

  /** Whether the callback reveals something: a found anchor still registered. */
  predicate Fires(r: Registry, e: AnchorEvent)
  {
    e.Found? && e.anchor.anchorId in r.targetedNodes
  }

  /** The registry after one callback (`onAnchorRemoved` and `onAnchorUpdated`
      leave it alone). */
  function Handle(r: Registry, e: AnchorEvent): Registry
  {
    match e
    case Found(a) => AfterFound(r, a)
    case Updated(_) => r
    case Removed(_) => r
  }

  /** The engine calls of one callback (`onAnchorUpdated` issues none). */
  function HandleEffects(r: Registry, dragon: NodeRef, e: AnchorEvent): seq<Event>
  {
    match e
    case Found(a) => FoundEffects(r, dragon, a)
    case Updated(_) => []
    case Removed(a) => RemovedEffects(r, a)
  }

  function RunRegistry(r: Registry, es: seq<AnchorEvent>): Registry
    decreases |es|
  {
    if es == [] then r else RunRegistry(Handle(r, es[0]), es[1..])
  }

  function RunEffects(r: Registry, dragon: NodeRef, es: seq<AnchorEvent>): seq<Event>
    decreases |es|
  {
    if es == [] then [] else HandleEffects(r, dragon, es[0]) + RunEffects(Handle(r, es[0]), dragon, es[1..])
  }

  /** The ids whose reveal fired along a run, in order. */
  function Consumed(r: Registry, es: seq<AnchorEvent>): seq<string>
    decreases |es|
  {
    if es == [] then []
    else (if Fires(r, es[0]) then [es[0].anchor.anchorId] else []) + Consumed(Handle(r, es[0]), es[1..])
  }

  /** Callbacks for an id that is not registered (never linked, or already
      found) change nothing and call nothing. */
  lemma UnknownIdIsIgnored(r: Registry, dragon: NodeRef, e: AnchorEvent)
    requires e.anchor.anchorId !in r.targetedNodes
    ensures Handle(r, e) == r && HandleEffects(r, dragon, e) == []
  {
  }

  /** `onAnchorUpdated` never does anything. */
  lemma UpdatedIsIgnored(r: Registry, dragon: NodeRef, a: Anchor)
    ensures Handle(r, Updated(a)) == r && HandleEffects(r, dragon, Updated(a)) == []
  {
  }

  /** A second found anchor for an id, once its reveal has fired, is ignored. */
  lemma FoundIsOneShot(r: Registry, dragon: NodeRef, a: Anchor, again: Anchor)
    requires again.anchorId == a.anchorId
    ensures Handle(AfterFound(r, a), Found(again)) == AfterFound(r, a)
    ensures HandleEffects(AfterFound(r, a), dragon, Found(again)) == []
  {
  }

  /** A found anchor for a registered id consumes exactly that id and its
      target; every other binding and searched target stays. */
  lemma FoundConsumesOnlyItsTarget(r: Registry, a: Anchor)
    requires a.anchorId in r.targetedNodes
    ensures var r' := AfterFound(r, a);
      && a.anchorId !in r'.targetedNodes
      && r.targetedNodes[a.anchorId].target !in r'.sceneTargets
      && (forall k :: k != a.anchorId ==> (k in r'.targetedNodes <==> k in r.targetedNodes))
      && (forall k :: k in r'.targetedNodes ==> r'.targetedNodes[k] == r.targetedNodes[k])
      && (forall t :: t != r.targetedNodes[a.anchorId].target ==> (t in r'.sceneTargets <==> t in r.sceneTargets))
      && (KeyedById(r.targetedNodes) ==>
            r.targetedNodes[a.anchorId].target.id == a.anchorId && KeyedById(r'.targetedNodes))
  {
  }

  /** A found anchor for a registered id poses and shows the bound node: at the
      anchor's position (unless that node is the dragon itself, which the reveal
      moves afterwards), turned to the anchor's heading only, visible. */
  lemma FoundPosesBoundNode(r: Registry, dragon: NodeRef, a: Anchor, log: seq<Event>)
    requires a.anchorId in r.targetedNodes
    ensures var node := r.targetedNodes[a.anchorId].node;
      var v := ViewOf(log + FoundEffects(r, dragon, a), node);
      && v.visible == Some(true)
      && v.rotation == Some(YawOnly(a.rotation))
      && (node != dragon ==> v.position == Some(a.position))
  {
    var node := r.targetedNodes[a.anchorId].node;
    var v := ViewOf(log, node);
    ReplayAppend(Untouched, node, log, FoundEffects(r, dragon, a));
    FoundView(v, node, r, dragon, a);
    PoseView(v, node, node, a);
    RevealView(Replay(v, node, PoseEffects(node, a)), node, dragon);
  }

  /** A found anchor for a registered id reveals the dragon with exactly two
      transactions: a 500 ms ease-in-ease-out scale to 0.09 without listener,
      then a 300 ms move to (0, 0, -0.19); the dragon ends at that scale and
      offset. An unregistered id starts no transaction. */
  lemma FoundReveals(r: Registry, dragon: NodeRef, a: Anchor, log: seq<Event>)
    ensures a.anchorId !in r.targetedNodes ==> Transactions(FoundEffects(r, dragon, a)) == []
    ensures a.anchorId in r.targetedNodes ==>
      && Transactions(FoundEffects(r, dragon, a)) ==
           [ Transaction(500, Some(EaseInEaseOut), [SetScale(dragon, Vec(0.09, 0.09, 0.09))], false),
             Transaction(300, None, [SetPosition(dragon, Vec(0.0, 0.0, -0.19))], false) ]
      && ViewOf(log + FoundEffects(r, dragon, a), dragon).scale == Some(Vec(0.09, 0.09, 0.09))
      && ViewOf(log + FoundEffects(r, dragon, a), dragon).position == Some(Vec(0.0, 0.0, -0.19))
  {
    if a.anchorId in r.targetedNodes {
      var b := r.targetedNodes[a.anchorId];
      var pose, grow := PoseEffects(b.node, a), RevealEffects(dragon);
      var v := ViewOf(log, dragon);
      ReplayAppend(Untouched, dragon, log, FoundEffects(r, dragon, a));
      FoundView(v, dragon, r, dragon, a);
      RevealView(Replay(v, dragon, pose), dragon, dragon);
      TransactionsAppend(pose + grow, [RemoveImageTarget(b.target)]);
      TransactionsAppend(pose, grow);
      TransactionsCons(pose[0], pose[1..]);
      TransactionsCons(pose[1], pose[2..]);
      TransactionsCons(pose[2], []);
      assert pose == [pose[0]] + pose[1..] && pose[1..] == [pose[1]] + pose[2..] && pose[2..] == [pose[2]] + [];
      TransactionsCons(grow[0], grow[1..]);
      TransactionsCons(grow[1], []);
      assert grow == [grow[0]] + grow[1..] && grow[1..] == [grow[1]] + [];
      TransactionsCons(RemoveImageTarget(b.target), []);
    }
  }

  /** A removed anchor for a registered id hides its node and keeps the
      binding, so a later found anchor still reveals it. */
  lemma RemovedHidesAndKeeps(r: Registry, dragon: NodeRef, a: Anchor, log: seq<Event>)
    requires a.anchorId in r.targetedNodes
    ensures Handle(r, Removed(a)) == r
    ensures var node := r.targetedNodes[a.anchorId].node;
      ViewOf(log + HandleEffects(r, dragon, Removed(a)), node).visible == Some(false)
  {
    var node := r.targetedNodes[a.anchorId].node;
    ReplayAppend(Untouched, node, log, HandleEffects(r, dragon, Removed(a)));
    ReplayCons(ViewOf(log, node), node, Immediate(SetVisible(node, false)), []);
  }

  /** Along any run: each id's reveal fires at most once, only for an id that
      was registered when the run began, and the ids still registered at the
      end are exactly those registered at the start and never consumed. */
  lemma {:induction false} ConsumedOnce(r: Registry, es: seq<AnchorEvent>)
    ensures forall i :: 0 <= i < |Consumed(r, es)| ==> Consumed(r, es)[i] in r.targetedNodes
    ensures forall i, j :: 0 <= i < j < |Consumed(r, es)| ==> Consumed(r, es)[i] != Consumed(r, es)[j]
    ensures forall k :: k in RunRegistry(r, es).targetedNodes <==> k in r.targetedNodes && k !in Consumed(r, es)
    decreases |es|
  {
    if es != [] {
      var r1 := Handle(r, es[0]);
      ConsumedOnce(r1, es[1..]);
      assert r1.targetedNodes.Keys <= r.targetedNodes.Keys;
      if Fires(r, es[0]) {
        var id := es[0].anchor.anchorId;
        assert id !in r1.targetedNodes;
        assert Consumed(r, es) == [id] + Consumed(r1, es[1..]);
      } else {
        assert r1 == r;
        assert Consumed(r, es) == Consumed(r1, es[1..]);
      }
    }
  }

  /** A found callback for an id registered when the run began consumes that
      id, at that callback or at an earlier one. */
  lemma {:induction false} FoundInRunIsConsumed(r: Registry, es: seq<AnchorEvent>, i: nat)
    requires i < |es| && es[i].Found? && es[i].anchor.anchorId in r.targetedNodes
    ensures es[i].anchor.anchorId in Consumed(r, es)
    decreases i
  {
    var id := es[i].anchor.anchorId;
    var r1 := Handle(r, es[0]);
    if Fires(r, es[0]) && es[0].anchor.anchorId == id {
      assert Consumed(r, es) == [id] + Consumed(r1, es[1..]);
    } else {
      assert i != 0;
      assert id in r1.targetedNodes;
      assert es[1..][i - 1] == es[i];
      FoundInRunIsConsumed(r1, es[1..], i - 1);
      assert Consumed(r, es) == (if Fires(r, es[0]) then [es[0].anchor.anchorId] else []) + Consumed(r1, es[1..]);
    }
  }

  /** Every consumed id is the id of some found callback of the run. */
  lemma {:induction false} ConsumedComesFromFound(r: Registry, es: seq<AnchorEvent>)
    ensures forall k :: k in Consumed(r, es) ==>
      exists i :: 0 <= i < |es| && es[i].Found? && es[i].anchor.anchorId == k
    decreases |es|
  {
    if es != [] {
      var r1 := Handle(r, es[0]);
      var tail := Consumed(r1, es[1..]);
      ConsumedComesFromFound(r1, es[1..]);
      assert Consumed(r, es) == (if Fires(r, es[0]) then [es[0].anchor.anchorId] else []) + tail;
      forall k | k in Consumed(r, es)
        ensures exists i :: 0 <= i < |es| && es[i].Found? && es[i].anchor.anchorId == k
      {
        if Fires(r, es[0]) && k == es[0].anchor.anchorId {
          assert es[0].Found?;
        } else {
          assert k in tail;
          var j :| 0 <= j < |es[1..]| && es[1..][j].Found? && es[1..][j].anchor.anchorId == k;
          assert es[j + 1] == es[1..][j];
        }
      }
    }
  }

  /** One callback issues the reveal transaction once if it fires, else never. */
  lemma RevealsOfOneCallback(r: Registry, dragon: NodeRef, e: AnchorEvent)
    ensures multiset(HandleEffects(r, dragon, e))[RevealTransaction(dragon)] == if Fires(r, e) then 1 else 0
  {
    var rt := RevealTransaction(dragon);
    if Fires(r, e) {
      var b := r.targetedNodes[e.anchor.anchorId];
      var pose := PoseEffects(b.node, e.anchor);
      assert rt !in multiset(pose);
      assert multiset(RevealEffects(dragon))[rt] == 1;
      assert rt !in multiset([RemoveImageTarget(b.target)]);
      assert multiset(HandleEffects(r, dragon, e)) == multiset(pose) + multiset(RevealEffects(dragon)) + multiset([RemoveImageTarget(b.target)]);
    } else if e.Removed? && e.anchor.anchorId in r.targetedNodes {
      assert HandleEffects(r, dragon, e) == [Immediate(SetVisible(r.targetedNodes[e.anchor.anchorId].node, false))];
    } else {
      assert HandleEffects(r, dragon, e) == [];
    }
  }

  /** Along any run, the dragon's reveal transaction is issued once per
      consumed id and never otherwise. */
  lemma {:induction false} RevealsMatchConsumed(r: Registry, dragon: NodeRef, es: seq<AnchorEvent>)
    ensures multiset(RunEffects(r, dragon, es))[RevealTransaction(dragon)] == |Consumed(r, es)|
    decreases |es|
  {
    if es != [] {
      RevealsMatchConsumed(Handle(r, es[0]), dragon, es[1..]);
      RevealsOfOneCallback(r, dragon, es[0]);
    }
  }

  /** A repetition-free list drawn from a set is no longer than the set. */
  lemma {:induction false} DistinctWithin(s: seq<string>, keys: set<string>)
    requires forall i :: 0 <= i < |s| ==> s[i] in keys
    requires forall i, j :: 0 <= i < j < |s| ==> s[i] != s[j]
    ensures |s| <= |keys|
  {
    if s != [] {
      forall i | 0 <= i < |s[1..]| ensures s[1..][i] in keys - {s[0]} {
        assert s[1..][i] == s[i + 1];
      }
      DistinctWithin(s[1..], keys - {s[0]});
    }
  }

  /** However the tracking engine repeats its callbacks, the dragon is
      revealed at most once per linked target. */
  lemma AtMostOneRevealPerTarget(r: Registry, dragon: NodeRef, es: seq<AnchorEvent>)
    ensures multiset(RunEffects(r, dragon, es))[RevealTransaction(dragon)] <= |r.targetedNodes|
  {
    RevealsMatchConsumed(r, dragon, es);
    ConsumedOnce(r, es);
    DistinctWithin(Consumed(r, es), r.targetedNodes.Keys);
  }
}
