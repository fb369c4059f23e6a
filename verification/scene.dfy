/**
 * The parts of the Viro engine the activity talks to, reduced to values:
 * vectors, node handles, image targets, animation transactions and sounds.
 *
 * The activity never reads engine state back; it only issues calls. Each call
 * is recorded as an `Event`, and `Replay` folds a record of events into what a
 * node's properties converge to once every animation has run (last write wins).
 */
module Scene {

  datatype Option<T> = None | Some(value: T)

  /** A Viro `Vector`. The activity never computes with vectors: it copies the
      anchor's, keeps one component of it, or names a constant. Components are
      kept as exact reals written with the source's decimal literals. */
  datatype Vec = Vec(x: real, y: real, z: real)

  const Origin: Vec := Vec(0.0, 0.0, 0.0)

  /** Handle of a scene-graph node; the node itself belongs to the engine. */
  datatype NodeRef = NodeRef(handle: nat)

  datatype Orientation = Up | Down | Left | Right

  /** An `ARImageTarget`: the picture to search for, its reference orientation,
      its physical width in metres, and the id the engine gave it. */
  datatype ImageTarget = ImageTarget(id: string, image: string, orientation: Orientation, physicalWidth: real)

  /** The only animation curve the modelled code names. */
  datatype TimingFunction = EaseInEaseOut

  /** A property mutation of one node. */
  datatype Change =
    | SetPosition(node: NodeRef, to: Vec)
    | SetRotation(node: NodeRef, to: Vec)
    | SetScale(node: NodeRef, to: Vec)
    | SetVisible(node: NodeRef, visible: bool)

  /** One `AnimationTransaction` from `begin()` to `commit()`: its duration, the
      timing function if one was set (None leaves the engine's default), the
      changes made inside it, and whether an `onFinish` listener was attached. */
  datatype Transaction = Transaction(durationMs: nat, timing: Option<TimingFunction>, changes: seq<Change>, hasListener: bool)

  /** One call into the engine. */
  datatype Event =
    | Immediate(change: Change)
    | Animated(txn: Transaction)
    | PlaySound(uri: string, volume: real, looping: bool)
    | AddImageTarget(target: ImageTarget)
    | RemoveImageTarget(target: ImageTarget)
    | AddChild(parent: NodeRef, child: NodeRef)

  /** The transaction `animateScale` commits: a timed, curved scale change. */
  function ScaleTransaction(node: NodeRef, durationMs: nat, targetScale: Vec, fcn: TimingFunction, hasListener: bool): Event
  {
    Animated(Transaction(durationMs, Some(fcn), [SetScale(node, targetScale)], hasListener))
  }

  /** The committed transactions of a record, in order. */
  function Transactions(log: seq<Event>): seq<Transaction>
    decreases |log|
  {
    if log == [] then [] else TransactionOf(log[0]) + Transactions(log[1..])
  }

  function TransactionOf(e: Event): seq<Transaction>
  {
    if e.Animated? then [e.txn] else []
  }

  lemma TransactionsCons(e: Event, rest: seq<Event>)
    ensures Transactions([e] + rest) == TransactionOf(e) + Transactions(rest)
  {
    assert ([e] + rest)[1..] == rest;
  }

  lemma {:induction false} TransactionsAppend(a: seq<Event>, b: seq<Event>)
    ensures Transactions(a + b) == Transactions(a) + Transactions(b)
    decreases |a|
  {
    if a == [] {
      assert a + b == b;
    } else {
      assert a + b == [a[0]] + (a[1..] + b);
      TransactionsCons(a[0], a[1..] + b);
      TransactionsAppend(a[1..], b);
    }
  }

  /** What the engine has been told about one node's properties; None where
      nothing was ever set. */
  datatype NodeView = NodeView(position: Option<Vec>, rotation: Option<Vec>, scale: Option<Vec>, visible: Option<bool>)

  const Untouched: NodeView := NodeView(None, None, None, None)

  function ApplyChange(v: NodeView, n: NodeRef, c: Change): NodeView
  {
    if c.node != n then v
    else match c
      case SetPosition(_, p) => v.(position := Some(p))
      case SetRotation(_, r) => v.(rotation := Some(r))
      case SetScale(_, s) => v.(scale := Some(s))
      case SetVisible(_, b) => v.(visible := Some(b))
  }

  function ApplyChanges(v: NodeView, n: NodeRef, cs: seq<Change>): NodeView
    decreases |cs|
  {
    if cs == [] then v else ApplyChanges(ApplyChange(v, n, cs[0]), n, cs[1..])
  }

  /** An animated change ends at its target value, so for the converged view a
      transaction applies its changes like immediate ones. */
  function ApplyEvent(v: NodeView, n: NodeRef, e: Event): NodeView
  {
    match e
    case Immediate(c) => ApplyChange(v, n, c)
    case Animated(t) => ApplyChanges(v, n, t.changes)
    case _ => v
  }

  /** The view of node `n` after the events of `log`, starting from `v`. */
  function Replay(v: NodeView, n: NodeRef, log: seq<Event>): NodeView
    decreases |log|
  {
    if log == [] then v else Replay(ApplyEvent(v, n, log[0]), n, log[1..])
  }

  lemma ReplayCons(v: NodeView, n: NodeRef, e: Event, rest: seq<Event>)
    ensures Replay(v, n, [e] + rest) == Replay(ApplyEvent(v, n, e), n, rest)
  {
    assert ([e] + rest)[1..] == rest;
  }

  function ViewOf(log: seq<Event>, n: NodeRef): NodeView
  {
    Replay(Untouched, n, log)
  }

  /** Replaying a record in two parts is replaying it whole. */
  lemma {:induction false} ReplayAppend(v: NodeView, n: NodeRef, a: seq<Event>, b: seq<Event>)
    ensures Replay(v, n, a + b) == Replay(Replay(v, n, a), n, b)
    decreases |a|
  {
    if a == [] {
      assert a + b == b;
    } else {
      assert (a + b)[1..] == a[1..] + b;
      ReplayAppend(ApplyEvent(v, n, a[0]), n, a[1..], b);
    }
  }
}
