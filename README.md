# SICConnection: a verified model of NEST's astrocyte-to-neuron link

`sic_connection.dfy` models `SICConnection` from the NEST simulator. This link
carries the slow inward current (SIC) from an astrocyte to a neuron. The link
holds a weight (1.0 by default) and a delay in simulation steps, which comes
from the generic `Connection` base. It also holds a target handle: a target
node and a receptor port.

- `check_connection` asks the source whether it sends `SICEvent`. It then asks
  the target for a port at the requested receptor type. Only after both answers
  does it store the port and the target.
- `send` stamps the caller's event with the weight, the delay in steps, the
  receiver and the port, in that order. It then dispatches the event once.
- `set_weight`, `get_status` and `set_status` expose the weight. `set_status`
  applies the base's update first. It then overwrites the weight only when the
  dictionary has a `weight` entry.
- `get_secondary_event` returns a new, empty `SICEvent`.

The model has two layers, both in module `SicConnectionModel`:

- **Value layer.** `LinkState` is a snapshot of the link. There is one pure
  function per operation (`Checked`, `Reweighted`, `StatusSet`, `StatusOf`,
  `Stamped`). A history (`Op`, `Run`, `Deliveries`) replays any sequence of
  calls. Its lemmas state what a link's whole lifetime of calls can and cannot
  do.
- **Object layer.** The class `SicConnection` has the fields `weight`,
  `delaySteps`, `target` and `rport`. Its methods update those fields in place.
  The class `Event` has mutable fields and a ghost log of its dispatches.
  `Valid()` says the replay starts from a default-constructed link (weight 1.0,
  no target). It ties the fields to a replay of the ghost `history` of calls
  made on the link from that start. It also ties the ghost `delivered` log to
  the events that history dispatched. So every history lemma applies to a real
  object. `SicConnection.WeightFollowsHistory` and
  `SicConnection.UncheckedIsUnbound` state two such facts on the object.

Collaborators the source calls but does not define are passed in as values:

- A `Node` is a capability descriptor. It records whether the node sends
  `SICEvent`, and which port it hands out for each receptor type it accepts.
  `SendsSecondaryEvent` and `HandlesTestEvent` read it. They stand for
  `Node::sends_secondary_event` (line 99) and `Node::handles_test_event`
  (line 101). The source raises when the node does not send `SICEvent`. The
  target raises when it does not accept the receptor type, and otherwise
  returns the declared port.
- The base `Connection::set_status` is given as its verdict: the delay in steps
  it leaves, or the error it raises.
- `sizeof(*this)` is given as a parameter.
- `Event::operator()` is an append to the event's ghost `dispatched` log.

Three behaviours of the code are worth noting:

- **Delay.** The code lets the base `set_status` change the delay, because the
  `BadProperty` rejection of a `delay` key (lines 166-170) is commented out. So
  the delay is configurable, and this layer never refuses a `delay` entry
  (`DelayEntryNeverRefused`).
- **Malformed weight.** A `weight` entry that is not a double is rejected only
  after the base update has run. The delay the base wrote therefore stays in
  place even though the call raises (`StatusSet`). The link is not left as it
  was before the call.
- **Second `check_connection`.** A second successful call simply rebinds the
  target and the port. Nothing refuses it.

## Model

| member | source | states |
|---|---|---|
| `SicConnectionModel.Fresh` | models/sic_connection.h:78-82 | a default-constructed link has weight 1.0 and the base's delay, and is bound to no target |
| `SicConnectionModel.Checked` | models/sic_connection.h:94-103 | binding succeeds if and only if the source sends SICEvent and the target accepts the receptor type; on success the target is `t` and the port is exactly the one the target returned; on either rejection the link is left as it was and the matching error is raised |
| `SicConnectionModel.Reweighted` | models/sic_connection.h:124-128 | `set_weight(w)` makes the weight exactly `w` and leaves the delay, target and port unchanged |
| `SicConnectionModel.StatusSet` | models/sic_connection.h:162-174 | `set_status` raises if and only if the base rejects or `weight` holds a non-double; a base rejection leaves the link unchanged; otherwise the delay is the base's, the weight is the `weight` entry if there is one and unchanged if not; the target and port never change |
| `SicConnectionModel.StatusOf` | models/sic_connection.h:143-153 | `get_status` adds exactly the delay, weight and size entries, holding the link's delay, its weight and the size; every other entry of the dictionary is kept |
| `SicConnectionModel.Stamped` | models/sic_connection.h:113-116 | the delivered event carries the link's weight, its delay in steps, the bound target as receiver and the bound port, with the caller's payload |
| `SicConnectionModel.BindingSurvivesWithoutCheck` | models/sic_connection.h:94-103 | across any sequence of calls without `check_connection`, the target and port stay as they were |
| `SicConnectionModel.BoundStaysBound` | models/sic_connection.h:110-118 | once bound, a link stays bound through any sequence of calls, so every later `send` has a receiver |
| `SicConnectionModel.DelayOnlyThroughStatus` | models/sic_connection.h:162-172 | the delay changes only through a `set_status` that the base accepts |
| `SicConnectionModel.WeightIsLastWritten` | models/sic_connection.h:124-173 | after any sequence of calls, the weight is the one written by the last `set_weight` or the last accepted `weight` entry, or the initial weight if neither occurred |
| `SicConnectionModel.OneDeliveryPerSend` | models/sic_connection.h:110-118 | a sequence of calls dispatches exactly as many events as it contains `send` calls |
| `SicConnectionModel.DeliveriesGoToBoundTarget` | models/sic_connection.h:115-116 | without rebinding, every dispatched event goes to the bound target at the bound port |
| `SicConnectionModel.DeliveriesCarryWeight` | models/sic_connection.h:113 | without a weight write, every dispatched event carries the link's weight |
| `SicConnectionModel.DeliveriesCarryDelay` | models/sic_connection.h:114 | without an accepted `set_status`, every dispatched event carries the link's delay |
| `SicConnectionModel.SetThenGetReportsWeight` | models/sic_connection.h:143-174 | after `set_status` with weight `w` is accepted, `get_status` reports weight `w` |
| `SicConnectionModel.GetThenSetIsIdempotent` | models/sic_connection.h:143-174 | writing back an unmodified `get_status` snapshot succeeds and changes nothing, when the base keeps its own delay |
| `SicConnectionModel.DelayEntryNeverRefused` | models/sic_connection.h:166-173 | with the base's verdict fixed, this layer's outcome does not depend on the `delay` entry, or on whether one is present; a bad delay can still be rejected by the base |
| `SicConnectionModel.Event.Dispatch` | models/sic_connection.h:117 | dispatching appends exactly one delivery, the event as it stands, to the event's log |
| `SicConnectionModel.SicConnection.constructor` | models/sic_connection.h:78-82 | a new link has weight 1.0, the base's default delay, no target, and no history |
| `SicConnectionModel.SicConnection.WeightFollowsHistory` | models/sic_connection.h:78-173 | a valid link's weight is the last one written by `set_weight` or an accepted `weight` entry since construction, or 1.0 if none was |
| `SicConnectionModel.SicConnection.UncheckedIsUnbound` | models/sic_connection.h:94-118 | a valid link on which `check_connection` was never called has no target, so `send` cannot be called on it |
| `SicConnectionModel.SicConnection.CheckConnection` | models/sic_connection.h:94-103 | updates the fields in place as `Checked` says: on success the target is `t` and the port is the target's port; on failure nothing changes; the weight and delay never change |
| `SicConnectionModel.SicConnection.Send` | models/sic_connection.h:110-118 | requires a bound link; the event's weight, delay, receiver and port are the link's; its sender and payload are kept; it is dispatched exactly once; the link's own fields are unchanged |
| `SicConnectionModel.SicConnection.SetWeight` | models/sic_connection.h:124-128 | the weight becomes `w`; the delay, target and port are unchanged |
| `SicConnectionModel.SicConnection.GetStatus` | models/sic_connection.h:143-153 | the result is the caller's dictionary with the link's delay, weight and size written in, as `StatusOf` says |
| `SicConnectionModel.SicConnection.SetStatus` | models/sic_connection.h:162-174 | updates the fields in place as `StatusSet` says: raises exactly on a base rejection or a non-double weight; with no `weight` entry the weight is unchanged; the target and port never change |
| `SicConnectionModel.SicConnection.GetSecondaryEvent` | models/sic_connection.h:155-160 | returns a newly allocated, empty event that has never been dispatched |

## Left out

- The internals of the `Connection` base class are not modelled. Its `set_status` is a verdict parameter, and that verdict is assumed to be atomic: the base either leaves a new delay or raises with the link unchanged. The verdict is not tied to the dictionary: the model allows a verdict that changes the delay even when the dictionary has no `delay` entry. So `DelayOnlyThroughStatus` says the delay changes only through an accepted `set_status`, not only through an accepted `delay` entry. Keys the base reads other than the delay are not modelled.
- `SicConnectionModel.StatusOf`: reports the delay as a step count. The base's `get_status` reports it in milliseconds (steps times the resolution), and that conversion is foreign code. Entries the base writes besides the delay are not modelled.
- The `DictionaryDatum` machinery is not modelled. Values are either a real or an integer. The rule that `weight` must hold a double stands for the double-typed lookup of `updateValue`.
- `sizeof(*this)` is a compiler-determined constant. It is a parameter of `get_status`.
- The template parameter `targetidentifierT` is not modelled. Targets are node ids (`nat`), and a target handle is an optional node id plus a port.
- The thread argument of `send` is taken and passed on without effect. The unused `CommonSynapseProperties` arguments are dropped. The `ConnectorModel` argument of `set_status` is passed on to the base's `set_status`; it is dropped here because the base's verdict is a parameter.
- How the target handles a dispatched event is not modelled. This includes the amplitude arithmetic (astrocytic output times weight), which happens at the target. The model only states that the event carries exactly the link's weight and keeps its payload.
- Weights are exact `real` numbers, since the link only copies them. Floating-point rounding does not arise.
- `SicConnectionModel.Event.constructor`: states only that a new event has no sender, no receiver, no payload and an empty dispatch log. The base `Event` constructor's defaults for the weight, delay and port are not modelled.
- `check_connection` stamps a probe event with the sender and hands it to the target's `handles_test_event`. The model's target descriptor ignores the probe: the port depends only on the receptor type.
- Concurrency is not modelled. The link has no locking, and delivery and configuration phases are kept apart by the kernel.
