/**
 * The activity itself: its tap fields, its image-target map, the ARScene's
 * set of searched targets and the dragon model node, with one method per
 * handler. Every engine call a method makes is appended to the ghost `log`.
 * Each method is proved to change the state and the log exactly as the
 * functions of `Anchors` and `TapResponder` say, so the lemmas proved there
 * hold of the activity.
 */
module Activity {
  import opened Scene
  import opened Anchors
  import opened TapResponder

  /** The `ARImageTarget` built at scene creation for the logo picture. */
  function LogoTarget(id: string): ImageTarget
  {
    ImageTarget(id, "logo.png", Up, 0.188)
  }

  /** The registry right after scene creation: the logo is searched for and
      linked with the dragon's group node. */
  function InitialRegistry(target: ImageTarget, group: NodeRef): Registry
  {
    Registry(map[target.id := Binding(target, group)], {target})
  }

  /** The engine calls of scene creation that the model keeps: search for the
      logo, hang the zero-scaled dragon model under the group node, hide the
      group and add it under the scene's root. */
  function SetupEffects(target: ImageTarget, root: NodeRef, group: NodeRef, model: NodeRef): seq<Event>
  {
    [ AddImageTarget(target),
      Immediate(SetScale(model, Origin)),
      AddChild(group, model),
      Immediate(SetVisible(group, false)),
      AddChild(root, group) ]
  }

  class ViroActivityAR {
    var numTaps: int
    var turnedRight: bool
    var turnedLeft: bool
    var dragonModel: NodeRef
    var targetedNodes: map<string, Binding>
    /** The image targets the ARScene is searching for. */
    var sceneTargets: set<ImageTarget>
    /** Every engine call made so far, in order. */
    ghost var log: seq<Event>

    function Taps(): TapState
      reads this
    {
      TapState(numTaps, turnedRight, turnedLeft)
    }

    function Tracking(): Registry
      reads this
    {
      Registry(targetedNodes, sceneTargets)
    }

    /** The tap counter is in 0..3 and every binding is filed under its
        target's id. */
    ghost predicate Valid()
      reads this
    {
      && 0 <= numTaps <= 3
      && KeyedById(targetedNodes)
    }

    /** `onCreate` followed by `onRenderCreate`: `targetId` is the id the engine
        gives the new logo target, `root` the scene's root node, `group` and
        `model` the new dragon group node and dragon model node. */
    constructor (targetId: string, root: NodeRef, group: NodeRef, model: NodeRef)
      ensures Valid()
      ensures Taps() == Initial
      ensures Tracking() == InitialRegistry(LogoTarget(targetId), group)
      ensures dragonModel == model
      ensures log == SetupEffects(LogoTarget(targetId), root, group, model)
    {
      numTaps, turnedRight, turnedLeft := 0, false, false;
      targetedNodes := map[];
      sceneTargets := {};
      log := [];
      new;
      var dragonTarget := LogoTarget(targetId);
      sceneTargets := sceneTargets + {dragonTarget};
      log := log + [AddImageTarget(dragonTarget)];
      InitDragonModel(group, model);
      log := log + [Immediate(SetVisible(group, false))];
      log := log + [AddChild(root, group)];
      LinkTargetWithNode(dragonTarget, group);
    }

    /** `initDragonModel`, without the asynchronous model load: the model starts
        at zero scale, hangs under the group node and becomes the dragon. */
    method InitDragonModel(group: NodeRef, model: NodeRef)
      modifies this
      ensures dragonModel == model
      ensures log == old(log) + [Immediate(SetScale(model, Origin)), AddChild(group, model)]
      ensures Taps() == old(Taps()) && Tracking() == old(Tracking())
    {
      log := log + [Immediate(SetScale(model, Origin))];
      log := log + [AddChild(group, model)];
      dragonModel := model;
    }

    /** `linkTargetWithNode`: file the pair under the target's id, replacing
        any earlier pair for that id. */
    method LinkTargetWithNode(imageToDetect: ImageTarget, nodeToRender: NodeRef)
      requires Valid()
      modifies this
      ensures Valid()
      ensures targetedNodes == Link(old(targetedNodes), imageToDetect, nodeToRender)
      ensures sceneTargets == old(sceneTargets) && log == old(log)
      ensures Taps() == old(Taps()) && dragonModel == old(dragonModel)
    {
      var key := imageToDetect.id;
      targetedNodes := targetedNodes[key := Binding(imageToDetect, nodeToRender)];
    }

    /** `onAnchorFound`. */
    method OnAnchorFound(anchor: Anchor)
      requires Valid()
      modifies this
      ensures Valid()
      ensures Tracking() == AfterFound(old(Tracking()), anchor)
      ensures log == old(log) + FoundEffects(old(Tracking()), dragonModel, anchor)
      ensures Taps() == old(Taps()) && dragonModel == old(dragonModel)
    {
      var anchorId := anchor.anchorId;
      if anchorId !in targetedNodes {
        return;
      }
      var imageTargetNode := targetedNodes[anchorId].node;
      var rot := Vec(0.0, anchor.rotation.y, 0.0);
      log := log + [Immediate(SetPosition(imageTargetNode, anchor.position))];
      log := log + [Immediate(SetRotation(imageTargetNode, rot))];
      log := log + [Immediate(SetVisible(imageTargetNode, true))];
      AnimateDragonVisible(dragonModel);
      log := log + [Animated(Transaction(300, None, [SetPosition(dragonModel, Vec(0.0, 0.0, -0.19))], false))];
      var imgTarget := targetedNodes[anchorId].target;
      sceneTargets := sceneTargets - {imgTarget};
      log := log + [RemoveImageTarget(imgTarget)];
      targetedNodes := targetedNodes - {anchorId};
    }

    /** `onAnchorRemoved`. */
    method OnAnchorRemoved(anchor: Anchor)
      requires Valid()
      modifies this
      ensures Valid()
      ensures Tracking() == old(Tracking())
      ensures log == old(log) + RemovedEffects(old(Tracking()), anchor)
      ensures Taps() == old(Taps()) && dragonModel == old(dragonModel)
    {
      var anchorId := anchor.anchorId;
      if anchorId !in targetedNodes {
        return;
      }
      var imageTargetNode := targetedNodes[anchorId].node;
      log := log + [Immediate(SetVisible(imageTargetNode, false))];
    }

    /** `onAnchorUpdated` does nothing, which is what the registry model says
        of an updated anchor. */
    method OnAnchorUpdated(anchor: Anchor)
      ensures Tracking() == Handle(old(Tracking()), Updated(anchor))
      ensures log == old(log) + HandleEffects(old(Tracking()), dragonModel, Updated(anchor))
      ensures Taps() == old(Taps()) && dragonModel == old(dragonModel)
    {
    }

    /** The dragon's click listener: one tap on `node`. */
    method OnClick(node: NodeRef)
      requires Valid()
      modifies this
      ensures Valid()
      ensures Taps() == NextTap(old(Taps()))
      ensures log == old(log) + TapEffects(old(Taps()), node)
      ensures Tracking() == old(Tracking()) && dragonModel == old(dragonModel)
    {
      numTaps := numTaps + 1;
      if numTaps == 4 {
        log := log + [Animated(Transaction(350, None, [SetRotation(node, Vec(0.0, 0.0, 0.0))], false))];
        numTaps := 0;
      } else if numTaps == 3 {
        log := log + [PlaySound("file:///android_asset/roar.mp3", 1.0, false)];
        log := log + [Animated(Transaction(350, None, [SetRotation(node, Vec(-0.25, 0.0, 0.0))], false))];
      } else {
        log := log + [PlaySound("file:///android_asset/steps.mp3", 1.0, false)];
        var rotation: Vec;
        if turnedLeft {
          rotation := Vec(0.0, -0.25, 0.0);
          turnedLeft := false;
        } else if turnedRight {
          rotation := Vec(0.0, 0.25, 0.0);
          turnedRight := false;
        } else {
          rotation := Vec(0.0, 0.25, 0.0);
          turnedLeft := true;
        }
        log := log + [Animated(Transaction(700, None, [SetRotation(node, rotation)], false))];
      }
    }

    /** `animateScale`: one transaction of the given duration and curve that
        scales `node`, with an `onFinish` listener when `hasListener`. */
    method AnimateScale(node: NodeRef, duration: nat, targetScale: Vec, fcn: TimingFunction, hasListener: bool)
      modifies this
      ensures log == old(log) + [ScaleTransaction(node, duration, targetScale, fcn, hasListener)]
      ensures Taps() == old(Taps()) && Tracking() == old(Tracking()) && dragonModel == old(dragonModel)
    {
      log := log + [Animated(Transaction(duration, Some(fcn), [SetScale(node, targetScale)], hasListener))];
    }

    /** `animateDragonVisible`. */
    method AnimateDragonVisible(dragon: NodeRef)
      modifies this
      ensures log == old(log) + [RevealTransaction(dragon)]
      ensures Taps() == old(Taps()) && Tracking() == old(Tracking()) && dragonModel == old(dragonModel)
    {
      AnimateScale(dragon, 500, Vec(0.09, 0.09, 0.09), EaseInEaseOut, false);
    }
  }

  /** From scene creation on, whatever anchor callbacks arrive, the logo counts
      as found once a found callback carries its id. Then its binding is gone,
      the group node is shown, the dragon model has the revealed scale and the
      reveal has been issued exactly once; before that the group is hidden, the
      dragon has zero scale and no reveal has been issued. */
  lemma {:induction false} SessionFromSetup(target: ImageTarget, root: NodeRef, group: NodeRef, model: NodeRef, es: seq<AnchorEvent>)
    requires group != model
    ensures var log := SetupEffects(target, root, group, model) + RunEffects(InitialRegistry(target, group), model, es);
      var found := exists i :: 0 <= i < |es| && es[i].Found? && es[i].anchor.anchorId == target.id;
      && (target.id !in RunRegistry(InitialRegistry(target, group), es).targetedNodes <==> found)
      && ViewOf(log, group).visible == Some(found)
      && ViewOf(log, model).scale == Some(if found then RevealScale else Origin)
      && multiset(log)[RevealTransaction(model)] == (if found then 1 else 0)
  {
    var r := InitialRegistry(target, group);
    var setup := SetupEffects(target, root, group, model);
    SetupView(target, root, group, model);
    ReplayAppend(Untouched, group, setup, RunEffects(r, model, es));
    ReplayAppend(Untouched, model, setup, RunEffects(r, model, es));
    SingleTargetRun(r, target, group, model, es, ViewOf(setup, group), ViewOf(setup, model));
    LogoConsumption(target, group, es);
    RevealsMatchConsumed(r, model, es);
    assert RevealTransaction(model) !in multiset(setup);
  }

  /** With only the logo linked, a run consumes the logo's id exactly when one
      of its found callbacks carries that id, and consumes nothing else. */
  lemma LogoConsumption(target: ImageTarget, group: NodeRef, es: seq<AnchorEvent>)
    ensures var r := InitialRegistry(target, group);
      var found := exists i :: 0 <= i < |es| && es[i].Found? && es[i].anchor.anchorId == target.id;
      && (target.id !in RunRegistry(r, es).targetedNodes <==> found)
      && |Consumed(r, es)| == (if found then 1 else 0)
  {
    var r := InitialRegistry(target, group);
    var consumed := Consumed(r, es);
    var found := exists i :: 0 <= i < |es| && es[i].Found? && es[i].anchor.anchorId == target.id;
    ConsumedOnce(r, es);
    ConsumedComesFromFound(r, es);
    if found {
      var i :| 0 <= i < |es| && es[i].Found? && es[i].anchor.anchorId == target.id;
      FoundInRunIsConsumed(r, es, i);
    }
    assert target.id in consumed <==> found;
    // Only the logo's id can be consumed, and at most once.
    DistinctWithin(consumed, r.targetedNodes.Keys);
    assert r.targetedNodes.Keys == {target.id};
    if |consumed| > 0 {
      assert consumed[0] == target.id;
    }
  }

  lemma SetupView(target: ImageTarget, root: NodeRef, group: NodeRef, model: NodeRef)
    requires group != model
    ensures ViewOf(SetupEffects(target, root, group, model), group).visible == Some(false)
    ensures ViewOf(SetupEffects(target, root, group, model), model).scale == Some(Origin)
  {
    var s := SetupEffects(target, root, group, model);
    forall n | n == group || n == model
      ensures ViewOf(s, n) == ApplyChange(ApplyChange(Untouched, n, SetScale(model, Origin)), n, SetVisible(group, false))
    {
      ReplayCons(Untouched, n, s[0], s[1..]);
      ReplayCons(ApplyEvent(Untouched, n, s[0]), n, s[1], s[2..]);
      var w := ApplyEvent(ApplyEvent(Untouched, n, s[0]), n, s[1]);
      ReplayCons(w, n, s[2], s[3..]);
      ReplayCons(ApplyEvent(w, n, s[2]), n, s[3], s[4..]);
      ReplayCons(ApplyEvent(ApplyEvent(w, n, s[2]), n, s[3]), n, s[4], []);
      assert s == [s[0]] + s[1..] && s[1..] == [s[1]] + s[2..] && s[2..] == [s[2]] + s[3..]
        && s[3..] == [s[3]] + s[4..] && s[4..] == [s[4]] + [];
    }
  }

  /** While at most the one target is linked, each callback keeps the group
      node shown exactly when the target is gone and the dragon's scale at
      zero before and at the revealed scale after. */
  lemma {:induction false} SingleTargetRun(r: Registry, target: ImageTarget, group: NodeRef, model: NodeRef,
                                           es: seq<AnchorEvent>, vg: NodeView, vm: NodeView)
    requires group != model
    requires r.targetedNodes == map[target.id := Binding(target, group)] || r.targetedNodes == map[]
    requires vg.visible == Some(target.id !in r.targetedNodes)
    requires vm.scale == Some(if target.id in r.targetedNodes then Origin else RevealScale)
    ensures var found := target.id !in RunRegistry(r, es).targetedNodes;
      && Replay(vg, group, RunEffects(r, model, es)).visible == Some(found)
      && Replay(vm, model, RunEffects(r, model, es)).scale == Some(if found then RevealScale else Origin)
    decreases |es|
  {
    if es != [] {
      var e := es[0];
      var fx := HandleEffects(r, model, e);
      var r1 := Handle(r, e);
      ReplayAppend(vg, group, fx, RunEffects(r1, model, es[1..]));
      ReplayAppend(vm, model, fx, RunEffects(r1, model, es[1..]));
      var vg1, vm1 := Replay(vg, group, fx), Replay(vm, model, fx);
      if e.anchor.anchorId !in r.targetedNodes {
        assert fx == [] && r1 == r;
      } else if e.Found? {
        var a := e.anchor;
        FoundView(vg, group, r, model, a);
        FoundView(vm, model, r, model, a);
        PoseView(vg, group, group, a);
        PoseView(vm, model, group, a);
        RevealView(Replay(vg, group, PoseEffects(group, a)), group, model);
        RevealView(Replay(vm, model, PoseEffects(group, a)), model, model);
        assert r1.targetedNodes == map[];
      } else if e.Removed? {
        ReplayCons(vg, group, Immediate(SetVisible(group, false)), []);
        ReplayCons(vm, model, Immediate(SetVisible(group, false)), []);
      } else {
        assert fx == [] && r1 == r;
      }
      SingleTargetRun(r1, target, group, model, es[1..], vg1, vm1);
    }
  }
}
