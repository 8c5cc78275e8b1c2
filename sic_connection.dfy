/**
 * A model of the astrocyte-to-neuron link `SICConnection` of the NEST
 * simulator (models/sic_connection.h).
 *
 * The link holds a weight, a delay in simulation steps (owned by the generic
 * connection base) and a target handle made of a node and a receptor port.
 * `check_connection` binds the target, `send` stamps a caller-supplied event
 * with the link's state and dispatches it, and `get_status`/`set_status`
 * expose the weight through the status dictionary.
 *
 * The model has two layers:
 *  - a value layer: `LinkState` and one pure step function per operation,
 *    plus a history `Run` over sequences of operations with the lemmas that
 *    say what a whole lifetime of calls does;
 *  - an object layer: the classes `SicConnection` and `Event`, whose methods
 *    update fields in place, as the C++ does, and are proved to follow the
 *    value layer.
 */
module SicConnectionModel {

  /*************************** Collaborators ***************************/

  /** Nodes are identified by their global node id. */
  type NodeId = nat

  datatype Option<T> = None | Some(value: T)

  /** The exceptions that can leave the operations of this link. */
  datatype Error =
    | SourceSendsNoSIC    // the source node does not emit SICEvent
    | TargetRejectsSIC    // the target does not handle SICEvent at this receptor
    | BadDelay            // the connection base refused the dictionary's delay
    | WeightTypeMismatch  // the `weight` entry does not hold a double

  datatype Result<T> = Ok(value: T) | Err(error: Error)

  /** How an operation that may throw ended. */
  datatype Outcome = Done | Raised(error: Error)

  /**
   * What this link needs to know about a node: whether, as a source, it
   * emits SICEvent, and, as a target, the port it hands out for SICEvent at
   * each receptor type it accepts.
   */
  datatype Node = Node(id: NodeId, sendsSIC: bool, sicPorts: map<nat, nat>)

  /** The source's answer to "do you send SICEvent?". */
  function SendsSecondaryEvent(s: Node): (o: Outcome)
    ensures o == Done <==> s.sendsSIC
  {
    if s.sendsSIC then Done else Raised(SourceSendsNoSIC)
  }

  /** The target's answer to "port for SICEvent at this receptor, or reject". */
  function HandlesTestEvent(t: Node, receptorType: nat): (r: Result<nat>)
    ensures r.Ok? <==> receptorType in t.sicPorts
    ensures r.Ok? ==> r.value == t.sicPorts[receptorType]
  {
    if receptorType in t.sicPorts then Ok(t.sicPorts[receptorType]) else Err(TargetRejectsSIC)
  }

  /*************************** Status dictionary ***************************/

  datatype Key = DelayKey | WeightKey | SizeOfKey | OtherKey(name: string)

  datatype Value = RealValue(r: real) | IntValue(i: int)

  type Dictionary = map<Key, Value>

  /** The `weight` entry is present but not a double. */
  predicate WeightMistyped(d: Dictionary)
  {
    WeightKey in d && !d[WeightKey].RealValue?
  }

  /** The weight an update dictionary writes, if it writes one. */
  function WeightEntry(d: Dictionary): Option<real>
  {
    if WeightKey in d && d[WeightKey].RealValue? then Some(d[WeightKey].r) else None
  }

  /*************************** Value layer ***************************/

  /** The observable state of one link. */
  datatype LinkState = LinkState(weight: real, delaySteps: nat, target: Option<NodeId>, rport: nat)

  /** The result of an operation that may throw: the new state and how it ended. */
  datatype Step = Step(link: LinkState, outcome: Outcome)

  /** One delivered event, as the target receives it. */
  datatype Delivery = Delivery(weight: real, delaySteps: nat, receiver: NodeId, rport: nat, payload: seq<real>)

  /** A default-constructed link: weight 1.0 on top of the base's default delay, no target. */
  function Fresh(baseDelaySteps: nat): (l: LinkState)
    ensures l.weight == 1.0 && l.delaySteps == baseDelaySteps
    ensures l.target == None
  {
    LinkState(1.0, baseDelaySteps, None, 0)
  }

  /**
   * `check_connection`: both capability queries precede both setters, so a
   * rejection leaves the link exactly as it was.
   */
  function Checked(l: LinkState, s: Node, t: Node, receptorType: nat): (st: Step)
    ensures st.outcome == Done <==> s.sendsSIC && receptorType in t.sicPorts
    ensures st.outcome == Done ==>
      st.link == l.(target := Some(t.id), rport := t.sicPorts[receptorType])
    ensures !s.sendsSIC ==> st == Step(l, Raised(SourceSendsNoSIC))
    ensures s.sendsSIC && receptorType !in t.sicPorts ==> st == Step(l, Raised(TargetRejectsSIC))
  {
    match SendsSecondaryEvent(s)
    case Raised(e) => Step(l, Raised(e))
    case Done =>
      match HandlesTestEvent(t, receptorType)
      case Err(e) => Step(l, Raised(e))
      case Ok(port) => Step(l.(rport := port).(target := Some(t.id)), Done)
  }

  /** `set_weight`. */
  function Reweighted(l: LinkState, w: real): (r: LinkState)
    ensures r.weight == w
    ensures r.delaySteps == l.delaySteps && r.target == l.target && r.rport == l.rport
  {
    l.(weight := w)
  }

  /**
   * `set_status`: the base's update runs first; `base` is its verdict on `d`
   * (the delay in steps it leaves, or its error). Then the weight is
   * overwritten only if `d` holds a double under `weight`.
   */
  function StatusSet(l: LinkState, d: Dictionary, base: Result<nat>): (st: Step)
    ensures st.outcome.Raised? <==> base.Err? || WeightMistyped(d)
    ensures base.Err? ==> st == Step(l, Raised(base.error))
    ensures base.Ok? && WeightMistyped(d) ==> st.outcome == Raised(WeightTypeMismatch)
    ensures base.Ok? ==> st.link.delaySteps == base.value
    ensures base.Ok? ==> st.link.weight == (if WeightEntry(d).Some? then WeightEntry(d).value else l.weight)
    ensures st.link.target == l.target && st.link.rport == l.rport
  {
    match base
    case Err(e) => Step(l, Raised(e))
    case Ok(delay) =>
      var afterBase := l.(delaySteps := delay);
      if WeightKey !in d then Step(afterBase, Done)
      else match d[WeightKey]
        case RealValue(w) => Step(afterBase.(weight := w), Done)
        case IntValue(_) => Step(afterBase, Raised(WeightTypeMismatch))
  }

  /**
   * `get_status`: the base's delay, the weight and the size diagnostic are
   * written into `d`; every other entry of `d` is kept.
   */
  function StatusOf(l: LinkState, d: Dictionary, sizeOf: nat): (r: Dictionary)
    ensures r.Keys == d.Keys + {DelayKey, WeightKey, SizeOfKey}
    ensures r[DelayKey] == IntValue(l.delaySteps)
    ensures r[WeightKey] == RealValue(l.weight)
    ensures r[SizeOfKey] == IntValue(sizeOf)
    ensures forall k :: k in d && k.OtherKey? ==> r[k] == d[k]
  {
    d[DelayKey := IntValue(l.delaySteps)][WeightKey := RealValue(l.weight)][SizeOfKey := IntValue(sizeOf)]
  }

  /** `send`: the event as the target receives it from a bound link. */
  function Stamped(l: LinkState, payload: seq<real>): (e: Delivery)
    requires l.target.Some?
    ensures e.weight == l.weight && e.delaySteps == l.delaySteps
    ensures l.target == Some(e.receiver) && e.rport == l.rport
    ensures e.payload == payload
  {
    Delivery(l.weight, l.delaySteps, l.target.value, l.rport, payload)
  }

  /*************************** Histories ***************************/

  /** One call on a link; `SendOp` carries the payload the caller put in the event. */
  datatype Op =
    | CheckOp(source: Node, targetNode: Node, receptorType: nat)
    | SetWeightOp(w: real)
    | SetStatusOp(d: Dictionary, base: Result<nat>)
    | SendOp(payload: seq<real>)

  function Apply(l: LinkState, op: Op): LinkState
  {
    match op
    case CheckOp(s, t, r) => Checked(l, s, t, r).link
    case SetWeightOp(w) => Reweighted(l, w)
    case SetStatusOp(d, base) => StatusSet(l, d, base).link
    case SendOp(_) => l
  }

  /** The state after a sequence of calls, exceptions included. */
  function Run(l: LinkState, ops: seq<Op>): LinkState
    decreases |ops|
  {
    if ops == [] then l else Run(Apply(l, ops[0]), ops[1..])
  }

  /** Every `send` in `ops` happens on a bound link. */
  predicate Admissible(l: LinkState, ops: seq<Op>)
    decreases |ops|
  {
    ops == [] ||
    ((ops[0].SendOp? ==> l.target.Some?) && Admissible(Apply(l, ops[0]), ops[1..]))
  }

  /** What one call dispatches: one event for a `send`, nothing otherwise. */
  function Emitted(l: LinkState, op: Op): seq<Delivery>
    requires op.SendOp? ==> l.target.Some?
  {
    if op.SendOp? then [Stamped(l, op.payload)] else []
  }

  /** All events a sequence of calls dispatches, in order. */
  function Deliveries(l: LinkState, ops: seq<Op>): seq<Delivery>
    requires Admissible(l, ops)
    decreases |ops|
  {
    if ops == [] then [] else Emitted(l, ops[0]) + Deliveries(Apply(l, ops[0]), ops[1..])
  }

  function SendCount(ops: seq<Op>): nat
    decreases |ops|
  {
    if ops == [] then 0 else (if ops[0].SendOp? then 1 else 0) + SendCount(ops[1..])
  }

  /** The weight a call writes whatever the link's state: only `set_weight` and a successful `set_status` do. */
  function WrittenWeight(op: Op): Option<real>
  {
    match op
    case SetWeightOp(w) => Some(w)
    case SetStatusOp(d, base) => if base.Ok? then WeightEntry(d) else None
    case _ => None
  }

  /** Reference definition: the last weight written in `ops`, or `w0` if none is. */
  function LastWeight(w0: real, ops: seq<Op>): real
    decreases |ops|
  {
    if ops == [] then w0
    else match WrittenWeight(ops[|ops| - 1])
      case Some(w) => w
      case None => LastWeight(w0, ops[..|ops| - 1])
  }

  lemma ApplyWeight(l: LinkState, op: Op)
    ensures Apply(l, op).weight == (if WrittenWeight(op).Some? then WrittenWeight(op).value else l.weight)
  {
  }

  lemma {:induction false} RunSnoc(l: LinkState, ops: seq<Op>, op: Op)
    ensures Run(l, ops + [op]) == Apply(Run(l, ops), op)
    decreases |ops|
  {
    if ops != [] {
      assert (ops + [op])[1..] == ops[1..] + [op];
      RunSnoc(Apply(l, ops[0]), ops[1..], op);
    }
  }

  lemma {:induction false} AdmissibleSnoc(l: LinkState, ops: seq<Op>, op: Op)
    ensures Admissible(l, ops + [op]) <==>
      Admissible(l, ops) && (op.SendOp? ==> Run(l, ops).target.Some?)
    decreases |ops|
  {
    if ops == [] {
      assert [op][1..] == [];
    } else {
      assert (ops + [op])[1..] == ops[1..] + [op];
      AdmissibleSnoc(Apply(l, ops[0]), ops[1..], op);
    }
  }

  lemma {:induction false} DeliveriesSnoc(l: LinkState, ops: seq<Op>, op: Op)
    requires Admissible(l, ops + [op])
    ensures Admissible(l, ops) && (op.SendOp? ==> Run(l, ops).target.Some?)
    ensures Deliveries(l, ops + [op]) == Deliveries(l, ops) + Emitted(Run(l, ops), op)
    decreases |ops|
  {
    AdmissibleSnoc(l, ops, op);
    if ops == [] {
      assert [op][1..] == [];
    } else {
      assert (ops + [op])[1..] == ops[1..] + [op];
      DeliveriesSnoc(Apply(l, ops[0]), ops[1..], op);
    }
  }

  /** The target and port change only through `check_connection`. */
  lemma {:induction false} BindingSurvivesWithoutCheck(l: LinkState, ops: seq<Op>)
    requires forall i :: 0 <= i < |ops| ==> !ops[i].CheckOp?
    ensures Run(l, ops).target == l.target && Run(l, ops).rport == l.rport
    decreases |ops|
  {
    if ops != [] {
      assert !ops[0].CheckOp?;
      BindingSurvivesWithoutCheck(Apply(l, ops[0]), ops[1..]);
    }
  }

  /** Once bound, a link stays bound, so it may be sent on any number of times. */
  lemma {:induction false} BoundStaysBound(l: LinkState, ops: seq<Op>)
    requires l.target.Some?
    ensures Run(l, ops).target.Some?
    ensures Admissible(l, ops)
    decreases |ops|
  {
    if ops != [] {
      BoundStaysBound(Apply(l, ops[0]), ops[1..]);
    }
  }

  /** The delay changes only through a `set_status` call that the base accepted. */
  lemma {:induction false} DelayOnlyThroughStatus(l: LinkState, ops: seq<Op>)
    requires forall i :: 0 <= i < |ops| ==> !(ops[i].SetStatusOp? && ops[i].base.Ok?)
    ensures Run(l, ops).delaySteps == l.delaySteps
    decreases |ops|
  {
    if ops != [] {
      assert !(ops[0].SetStatusOp? && ops[0].base.Ok?);
      DelayOnlyThroughStatus(Apply(l, ops[0]), ops[1..]);
    }
  }

  /** The weight is whatever the last `set_weight` or accepted `weight` entry wrote. */
  lemma {:induction false} WeightIsLastWritten(l: LinkState, ops: seq<Op>)
    ensures Run(l, ops).weight == LastWeight(l.weight, ops)
    decreases |ops|
  {
    if ops != [] {
      var init, last := ops[..|ops| - 1], ops[|ops| - 1];
      assert ops == init + [last];
      RunSnoc(l, init, last);
      ApplyWeight(Run(l, init), last);
      WeightIsLastWritten(l, init);
    }
  }

  /** Each `send` dispatches exactly one event; nothing else dispatches. */
  lemma {:induction false} OneDeliveryPerSend(l: LinkState, ops: seq<Op>)
    requires Admissible(l, ops)
    ensures |Deliveries(l, ops)| == SendCount(ops)
    decreases |ops|
  {
    if ops != [] {
      OneDeliveryPerSend(Apply(l, ops[0]), ops[1..]);
    }
  }

  /** Without a rebinding, every event goes to the bound target at the bound port. */
  lemma {:induction false} DeliveriesGoToBoundTarget(l: LinkState, ops: seq<Op>)
    requires Admissible(l, ops)
    requires forall i :: 0 <= i < |ops| ==> !ops[i].CheckOp?
    ensures forall k :: 0 <= k < |Deliveries(l, ops)| ==>
      l.target == Some(Deliveries(l, ops)[k].receiver) && Deliveries(l, ops)[k].rport == l.rport
    decreases |ops|
  {
    if ops != [] {
      assert !ops[0].CheckOp?;
      DeliveriesGoToBoundTarget(Apply(l, ops[0]), ops[1..]);
    }
  }

  /** Without a weight write, every event carries the link's weight. */
  lemma {:induction false} DeliveriesCarryWeight(l: LinkState, ops: seq<Op>)
    requires Admissible(l, ops)
    requires forall i :: 0 <= i < |ops| ==> WrittenWeight(ops[i]).None?
    ensures forall k :: 0 <= k < |Deliveries(l, ops)| ==> Deliveries(l, ops)[k].weight == l.weight
    decreases |ops|
  {
    if ops != [] {
      assert WrittenWeight(ops[0]).None?;
      ApplyWeight(l, ops[0]);
      DeliveriesCarryWeight(Apply(l, ops[0]), ops[1..]);
    }
  }

  /** Without an accepted `set_status`, every event carries the link's delay. */
  lemma {:induction false} DeliveriesCarryDelay(l: LinkState, ops: seq<Op>)
    requires Admissible(l, ops)
    requires forall i :: 0 <= i < |ops| ==> !(ops[i].SetStatusOp? && ops[i].base.Ok?)
    ensures forall k :: 0 <= k < |Deliveries(l, ops)| ==> Deliveries(l, ops)[k].delaySteps == l.delaySteps
    decreases |ops|
  {
    if ops != [] {
      assert !(ops[0].SetStatusOp? && ops[0].base.Ok?);
      DeliveriesCarryDelay(Apply(l, ops[0]), ops[1..]);
    }
  }

  /** Setting `weight` and reading the status back reports the value set. */
  lemma SetThenGetReportsWeight(l: LinkState, d: Dictionary, delay: nat, w: real, probe: Dictionary, sizeOf: nat)
    requires WeightKey in d && d[WeightKey] == RealValue(w)
    ensures StatusSet(l, d, Ok(delay)).outcome == Done
    ensures StatusOf(StatusSet(l, d, Ok(delay)).link, probe, sizeOf)[WeightKey] == RealValue(w)
  {
  }

  /** Writing back an unmodified snapshot changes nothing, provided the base keeps its own delay. */
  lemma GetThenSetIsIdempotent(l: LinkState, d: Dictionary, sizeOf: nat)
    ensures StatusSet(l, StatusOf(l, d, sizeOf), Ok(l.delaySteps)) == Step(l, Done)
  {
  }

  /**
   * With the base's verdict fixed, this layer's outcome does not depend on
   * the `delay` entry: the layer itself never refuses one. The base may
   * still reject a bad delay, through its verdict.
   */
  lemma DelayEntryNeverRefused(l: LinkState, d: Dictionary, v: Value, base: Result<nat>)
    ensures StatusSet(l, d[DelayKey := v], base).outcome == StatusSet(l, d, base).outcome
    ensures base.Ok? ==> StatusSet(l, d[DelayKey := v], base).outcome == StatusSet(l, d - {DelayKey}, base).outcome
  {
  }

  /*************************** Object layer ***************************/

  /** An event object; `dispatched` records every call of its dispatch operator. */
  class Event {
    var weight: real
    var delaySteps: nat
    var receiver: Option<NodeId>
    var rport: nat
    var sender: Option<NodeId>
    var payload: seq<real>
    ghost var dispatched: seq<Delivery>

    /** An empty event: no sender, no receiver, no payload, never dispatched. */
    constructor ()
      ensures sender == None && receiver == None && payload == [] && dispatched == []
    {
      weight, delaySteps, rport := 0.0, 0, 0;
      sender, receiver, payload := None, None, [];
      dispatched := [];
    }

    /** The event operator: hands the event, as it now stands, to its receiver. */
    method Dispatch()
      requires receiver.Some?
      modifies this`dispatched
      ensures dispatched == old(dispatched) + [Delivery(weight, delaySteps, receiver.value, rport, payload)]
    {
      dispatched := dispatched + [Delivery(weight, delaySteps, receiver.value, rport, payload)];
    }
  }

  class SicConnection {
    var weight: real
    var delaySteps: nat
    var target: Option<NodeId>
    var rport: nat

    /** The state at construction, every call made since and every event dispatched. */
    ghost const origin: LinkState
    ghost var history: seq<Op>
    ghost var delivered: seq<Delivery>

    function State(): LinkState
      reads this
    {
      LinkState(weight, delaySteps, target, rport)
    }

    ghost predicate Valid()
      reads this
    {
      origin == Fresh(origin.delaySteps) &&
      State() == Run(origin, history) &&
      Admissible(origin, history) &&
      delivered == Deliveries(origin, history)
    }

    /** Weight 1.0, the base's default delay, not bound to a target. */
    constructor (baseDelaySteps: nat)
      ensures Valid()
      ensures weight == 1.0 && delaySteps == baseDelaySteps && target == None
      ensures State() == Fresh(baseDelaySteps) && history == [] && delivered == []
    {
      weight, delaySteps, target, rport := 1.0, baseDelaySteps, None, 0;
      origin := Fresh(baseDelaySteps);
      history, delivered := [], [];
    }

    /** The weight is the last one written since construction, or 1.0 if none was. */
    lemma WeightFollowsHistory()
      requires Valid()
      ensures weight == LastWeight(1.0, history)
    {
      WeightIsLastWritten(origin, history);
    }

    /** A link on which `check_connection` was never called is unbound, so `Send` cannot be called on it. */
    lemma UncheckedIsUnbound()
      requires Valid()
      requires forall i :: 0 <= i < |history| ==> !history[i].CheckOp?
      ensures target == None
    {
      BindingSurvivesWithoutCheck(origin, history);
    }

    /** Records a call that dispatches nothing and moves the state as `Apply` says. */
    ghost method Record(op: Op)
      requires !op.SendOp?
      requires origin == Fresh(origin.delaySteps)
      requires State() == Apply(Run(origin, history), op)
      requires Admissible(origin, history) && delivered == Deliveries(origin, history)
      modifies this`history
      ensures Valid() && history == old(history) + [op]
    {
      RunSnoc(origin, history, op);
      AdmissibleSnoc(origin, history, op);
      DeliveriesSnoc(origin, history, op);
      history := history + [op];
    }

    method CheckConnection(s: Node, t: Node, receptorType: nat) returns (outcome: Outcome)
      requires Valid()
      modifies this
      ensures Valid() && history == old(history) + [CheckOp(s, t, receptorType)]
      ensures Step(State(), outcome) == Checked(old(State()), s, t, receptorType)
      ensures outcome == Done ==> target == Some(t.id) && rport == t.sicPorts[receptorType]
      ensures outcome.Raised? ==> State() == old(State())
      ensures weight == old(weight) && delaySteps == old(delaySteps) && delivered == old(delivered)
    {
      var probe := new Event();
      outcome := SendsSecondaryEvent(s);
      if outcome == Done {
        probe.sender := Some(s.id);
        var answer := HandlesTestEvent(t, receptorType);
        if answer.Err? {
          outcome := Raised(answer.error);
        } else {
          rport := answer.value;
          target := Some(t.id);
        }
      }
      Record(CheckOp(s, t, receptorType));
    }

    method Send(e: Event, thread: nat)
      requires Valid() && target.Some?
      modifies this`history, this`delivered, e
      ensures Valid() && history == old(history) + [SendOp(e.payload)]
      ensures e.weight == weight && e.delaySteps == delaySteps
      ensures e.receiver == target && e.rport == rport
      ensures e.sender == old(e.sender) && e.payload == old(e.payload)
      ensures e.dispatched == old(e.dispatched) + [Stamped(State(), e.payload)]
      ensures delivered == old(delivered) + [Stamped(State(), e.payload)]
      ensures State() == old(State())
    {
      e.weight := weight;
      e.delaySteps := delaySteps;
      e.receiver := target;
      e.rport := rport;
      e.Dispatch();
      var op := SendOp(e.payload);
      RunSnoc(origin, history, op);
      AdmissibleSnoc(origin, history, op);
      DeliveriesSnoc(origin, history, op);
      history := history + [op];
      delivered := delivered + [Stamped(State(), e.payload)];
    }

    method SetWeight(w: real)
      requires Valid()
      modifies this
      ensures Valid() && history == old(history) + [SetWeightOp(w)]
      ensures weight == w
      ensures delaySteps == old(delaySteps) && target == old(target) && rport == old(rport)
      ensures delivered == old(delivered)
    {
      weight := w;
      Record(SetWeightOp(w));
    }

    method GetStatus(d: Dictionary, sizeOf: nat) returns (r: Dictionary)
      ensures r == StatusOf(State(), d, sizeOf)
      ensures WeightKey in r && r[WeightKey] == RealValue(weight)
      ensures DelayKey in r && r[DelayKey] == IntValue(delaySteps)
    {
      r := d[DelayKey := IntValue(delaySteps)];
      r := r[WeightKey := RealValue(weight)];
      r := r[SizeOfKey := IntValue(sizeOf)];
    }

    method SetStatus(d: Dictionary, base: Result<nat>) returns (outcome: Outcome)
      requires Valid()
      modifies this
      ensures Valid() && history == old(history) + [SetStatusOp(d, base)]
      ensures Step(State(), outcome) == StatusSet(old(State()), d, base)
      ensures outcome.Raised? <==> base.Err? || WeightMistyped(d)
      ensures WeightEntry(d).None? ==> weight == old(weight)
      ensures target == old(target) && rport == old(rport) && delivered == old(delivered)
    {
      outcome := Done;
      match base {
        case Err(e) =>
          outcome := Raised(e);
        case Ok(delay) =>
          delaySteps := delay;
          if WeightKey in d {
            match d[WeightKey] {
              case RealValue(w) => weight := w;
              case IntValue(_) => outcome := Raised(WeightTypeMismatch);
            }
          }
      }
      Record(SetStatusOp(d, base));
    }

    method GetSecondaryEvent() returns (e: Event)
      ensures fresh(e)
      ensures e.payload == [] && e.receiver == None && e.dispatched == []
    {
      e := new Event();
    }
  }
}
