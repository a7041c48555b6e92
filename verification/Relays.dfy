/**
 * Relays: holds, calls and subscriptions that cross this host from an origin link to a downstream link.
 *
 * The objects are relays and calls; the tables of the two links only find them by id. Tables are keyed by link and id.
 * Everything may close at any time: the origin releases or goes away, its principal is revoked, the downstream hold is
 * gone, the downstream link closes, a call is cancelled or answered.
 */
module Relays {
  import opened Wrappers

  type Key = (nat, nat)

  datatype Outcome = Answered | Failed

  /** `Ready`: the route is known and the call is about to be forwarded. `Sent`: forwarded under `downId`. */
  datatype CallState = Waiting | Ready | Sent(downId: nat) | Settled(outcome: Outcome)

  datatype Call = Call(relay: nat, originId: nat, state: CallState)

  datatype Relay = Relay(
    origin: nat,
    originId: nat,
    generation: nat,
    down: Option<nat>,
    downId: nat,
    closed: bool,
    calls: map<nat, nat>,
    subs: map<nat, Option<nat>>)

  datatype Served = Local | Relayed(relay: nat)

  datatype Link = Link(open: bool, generation: nat, nextId: nat)

  datatype Frame =
    | HoldFrame(id: nat) | ReleaseFrame(id: nat) | GoneFrame(id: nat)
    | SubFrame(id: nat) | UnsubFrame(id: nat)
    | CallFrame(id: nat) | CancelFrame(id: nat)

  datatype Tables = Tables(
    links: map<nat, Link>,
    relays: map<nat, Relay>,
    calls: map<nat, Call>,
    served: map<Key, Served>,
    incoming: map<Key, nat>,
    relaySubs: map<Key, nat>,
    relayedHolds: map<Key, nat>,
    relayedCalls: map<Key, nat>,
    relayedSubs: map<Key, (nat, nat)>,
    settlements: seq<(nat, Outcome)>,
    sent: seq<(nat, Frame)>)

  const NoTables: Tables :=
    Tables(map[], map[], map[], map[], map[], map[], map[], map[], map[], [], [])

  // ---------------------------------------------------------------- small operations

  function Put(t: Tables, link: nat, frame: Frame): Tables { t.(sent := t.sent + [(link, frame)]) }

  function PutIf(t: Tables, link: Option<nat>, frame: Frame): Tables {
    if link.Some? then Put(t, link.value, frame) else t
  }

  /** A table without the entry under `id` of a link, if there is a link. */
  function Without<V>(table: map<Key, V>, link: Option<nat>, id: nat): map<Key, V> {
    if link.Some? then table - {(link.value, id)} else table
  }

  function Settled1(call: Call, outcome: Outcome): Call { Call(call.relay, call.originId, Settled(outcome)) }

  /** Settles a forwarded call and removes it from both tables; a settled call stays as it is. */
  function Finish(t: Tables, c: nat, outcome: Outcome): Tables
    requires c in t.calls && t.calls[c].relay in t.relays
  {
    var call := t.calls[c];
    var relay := t.relays[call.relay];
    if !call.state.Sent? then t
    else
      t.(calls := t.calls[c := Settled1(call, outcome)],
         settlements := t.settlements + [(c, outcome)],
         relays := t.relays[call.relay := relay.(calls := relay.calls - {call.originId})],
         relayedCalls := Without(t.relayedCalls, relay.down, call.state.downId))
  }

  function CancelCall(t: Tables, c: nat, forward: bool): Tables
    requires c in t.calls && t.calls[c].relay in t.relays
  {
    var call := t.calls[c];
    var down := t.relays[call.relay].down;
    if !call.state.Sent? then t
    else Finish(if forward && down.Some? then Put(t, down.value, CancelFrame(call.state.downId)) else t, c, Failed)
  }

  /** A call that was not forwarded settles with an error: its route failed or its relay is closed. */
  function Fail(t: Tables, c: nat): Tables
    requires c in t.calls
  {
    t.(calls := t.calls[c := Settled1(t.calls[c], Failed)], settlements := t.settlements + [(c, Failed)])
  }

  /** A call that still waits for the route is rejected. */
  function RejectWaiting(t: Tables, c: nat): Tables
    requires c in t.calls
  {
    if t.calls[c].state.Waiting? then Fail(t, c) else t
  }

  function UseId(links: map<nat, Link>, link: nat): map<nat, Link> {
    if link in links then links[link := links[link].(nextId := links[link].nextId + 1)] else links
  }

  /** The next id this host uses on `link`. */
  function NextId(t: Tables, link: nat): nat { if link in t.links then t.links[link].nextId else 0 }

  function ForwardSub(t: Tables, r: nat, s: nat): Tables
    requires r in t.relays && t.relays[r].down.Some?
  {
    var relay := t.relays[r];
    var down := relay.down.value;
    var id := NextId(t, down);
    t.(relays := t.relays[r := relay.(subs := relay.subs[s := Some(id)])],
       links := UseId(t.links, down),
       relayedSubs := t.relayedSubs[(down, id) := (r, s)],
       sent := t.sent + [(down, SubFrame(id))])
  }

  /** A subscription of the origin; it is forwarded at once if the route is known. */
  function Subscribe(t: Tables, r: nat, s: nat): Tables
    requires r in t.relays
  {
    var t1 := Queue(t, r, s);
    if t.relays[r].down.Some? then ForwardSub(t1, r, s) else t1
  }

  function Queue(t: Tables, r: nat, s: nat): (t': Tables)
    requires r in t.relays
    ensures r in t'.relays && t'.relays[r].down == t.relays[r].down
  {
    var relay := t.relays[r];
    t.(relays := t.relays[r := relay.(subs := relay.subs[s := None])],
       relaySubs := t.relaySubs[(relay.origin, s) := r])
  }

  function Unsubscribe(t: Tables, r: nat, s: nat, forward: bool): Tables
    requires r in t.relays
  {
    var relay := t.relays[r];
    if s !in relay.subs then t
    else
      var t1 := DropSub(t, r, s);
      if forward && relay.subs[s].Some? && relay.down.Some? then
        Put(t1, relay.down.value, UnsubFrame(relay.subs[s].value))
      else t1
  }

  function DropSub(t: Tables, r: nat, s: nat): Tables
    requires r in t.relays && s in t.relays[r].subs
  {
    var relay := t.relays[r];
    t.(relays := t.relays[r := relay.(subs := relay.subs - {s})],
       relaySubs := t.relaySubs - {(relay.origin, s)},
       relayedSubs := if relay.subs[s].Some? then Without(t.relayedSubs, relay.down, relay.subs[s].value)
                      else t.relayedSubs)
  }

  // ---------------------------------------------------------------- opening and closing

  /** What the loops below visit, in the order they visit it. */
  datatype Order = Order(calls: seq<nat>, subs: seq<nat>, waiting: seq<nat>)

  ghost predicate Visits(t: Tables, r: nat, order: Order)
    requires r in t.relays
  {
    && (forall c :: c in order.calls <==> c in t.relays[r].calls.Values)
    && (forall s :: s in order.subs <==> s in t.relays[r].subs)
    && (forall c | c in t.calls :: c in order.waiting <==> t.calls[c].relay == r && t.calls[c].state.Waiting?)
  }

  function CancelAll(t: Tables, cs: seq<nat>, forward: bool): (t': Tables)
    requires Found(t) && forall c :: c in cs ==> c in t.calls
    ensures Found(t') && t'.calls.Keys == t.calls.Keys && t'.relays.Keys == t.relays.Keys
  {
    if cs == [] then t
    else
      var t1 := CancelAll(t, cs[..|cs| - 1], forward);
      CancelCall(t1, cs[|cs| - 1], forward)
  }

  function UnsubscribeAll(t: Tables, r: nat, ss: seq<nat>, forward: bool): (t': Tables)
    requires r in t.relays
    ensures t'.relays.Keys == t.relays.Keys && t'.calls == t.calls
  {
    if ss == [] then t
    else Unsubscribe(UnsubscribeAll(t, r, ss[..|ss| - 1], forward), r, ss[|ss| - 1], forward)
  }

  function RejectAll(t: Tables, cs: seq<nat>): (t': Tables)
    requires forall c :: c in cs ==> c in t.calls
    ensures t'.calls.Keys == t.calls.Keys
  {
    if cs == [] then t else RejectWaiting(RejectAll(t, cs[..|cs| - 1]), cs[|cs| - 1])
  }

  function ForwardAll(t: Tables, r: nat, ss: seq<nat>): (t': Tables)
    requires r in t.relays && t.relays[r].down.Some?
    ensures t'.relays.Keys == t.relays.Keys
    ensures t'.relays[r] == t.relays[r].(subs := t'.relays[r].subs)
  {
    if ss == [] then t else ForwardSub(ForwardAll(t, r, ss[..|ss| - 1]), r, ss[|ss| - 1])
  }

  /** The route resolved to link `d`: the hold goes there. */
  function Route(t: Tables, r: nat, d: nat): Tables
    requires r in t.relays
  {
    var id := NextId(t, d);
    t.(relays := t.relays[r := t.relays[r].(down := Some(d), downId := id)],
       links := UseId(t.links, d),
       relayedHolds := t.relayedHolds[(d, id) := r],
       sent := t.sent + [(d, HoldFrame(id))])
  }

  function Awake(call: Call, r: nat): Call {
    if call.relay == r && call.state.Waiting? then call.(state := Ready) else call
  }

  /** Waiting calls learn the route. */
  function Wake(t: Tables, r: nat): Tables { t.(calls := map c | c in t.calls :: Awake(t.calls[c], r)) }

  /** Forwards the hold and what queued meanwhile; `ss` lists the queued subscriptions in their order. */
  function Open(t: Tables, r: nat, d: nat, ss: seq<nat>): Tables
    requires r in t.relays
  {
    if t.relays[r].closed then t else Wake(ForwardAll(Route(t, r, d), r, ss), r)
  }

  /** Neither the relay nor its origin is closed, and no revocation came between. */
  predicate Current(t: Tables, r: nat) {
    && r in t.relays && !t.relays[r].closed && t.relays[r].origin in t.links
    && t.links[t.relays[r].origin].open && t.links[t.relays[r].origin].generation == t.relays[r].generation
  }

  // ---------------------------------------------------------------- what arrives

  function HoldArrives(t: Tables, o: nat, id: nat, r: nat): Tables
    requires o in t.links
  {
    t.(relays := t.relays[r := Relay(o, id, t.links[o].generation, None, 0, false, map[], map[])],
       served := t.served[(o, id) := Relayed(r)])
  }

  /** A call on a relayed hold waits for the route, or goes on if it is known. */
  function CallArrives(t: Tables, o: nat, id: nat, r: nat, c: nat): Tables
    requires r in t.relays
  {
    t.(calls := t.calls[c := Call(r, id, if t.relays[r].down.Some? then Ready else Waiting)],
       incoming := t.incoming[(o, id) := c])
  }

  /** The call goes on: it is forwarded unless its relay closed meanwhile. */
  function ForwardCall(t: Tables, c: nat): Tables
    requires c in t.calls && t.calls[c].relay in t.relays
  {
    var call := t.calls[c];
    var relay := t.relays[call.relay];
    if relay.closed || relay.down.None? then Fail(t, c)
    else
      var d := relay.down.value;
      var id := NextId(t, d);
      t.(calls := t.calls[c := call.(state := Sent(id))],
         relays := t.relays[call.relay := relay.(calls := relay.calls[call.originId := c])],
         links := UseId(t.links, d),
         relayedCalls := t.relayedCalls[(d, id) := c],
         sent := t.sent + [(d, CallFrame(id))])
  }

  /** A cancel between the two (`Ready`) comes too early for the call and too late for the wait. */
  function CancelArrives(t: Tables, c: nat): Tables
    requires c in t.calls && t.calls[c].relay in t.relays
  {
    if t.calls[c].state.Waiting? then Fail(t, c) else CancelCall(t, c, true)
  }

  /** Every call belongs to a relay. */
  predicate Found(t: Tables) { forall c :: c in t.calls ==> t.calls[c].relay in t.relays }

  /** The relay is closed: neither link finds it any more. */
  function Shut(t: Tables, r: nat): (t': Tables)
    requires r in t.relays
    ensures t'.calls == t.calls && t'.relays.Keys == t.relays.Keys
  {
    var relay := t.relays[r];
    t.(relays := t.relays[r := relay.(closed := true)],
       served := Unserved(t.served, (relay.origin, relay.originId)),
       relayedHolds := Without(t.relayedHolds, relay.down, relay.downId))
  }

  /** A served relay is forgotten; a local hold under the same id stays. */
  function Unserved(served: map<Key, Served>, key: Key): map<Key, Served> {
    if key in served && served[key].Relayed? then served - {key} else served
  }

  /**
   * Closes a relay once. `releaseDown`: the downstream hold is still there, so its calls are cancelled, its
   * subscriptions dropped and it is released. `notify`: the origin is told.
   */
  ghost function Close(t: Tables, r: nat, releaseDown: bool, notify: bool, order: Order): Tables
    requires Closable(t, r, order)
  {
    var relay := t.relays[r];
    if relay.closed then t
    else Dismiss(Undo(Shut(t, r), r, releaseDown, order.calls, order.subs), relay, releaseDown, notify, order.waiting)
  }

  /** The downstream hold is released, the waiters are rejected, the origin is told. */
  function Dismiss(t: Tables, relay: Relay, releaseDown: bool, notify: bool, waiting: seq<nat>): Tables
    requires forall c :: c in waiting ==> c in t.calls
  {
    var t1 := PutIf(t, if releaseDown then relay.down else None, ReleaseFrame(relay.downId));
    PutIf(RejectAll(t1, waiting), if notify then Some(relay.origin) else None, GoneFrame(relay.originId))
  }

  ghost predicate Closable(t: Tables, r: nat, order: Order) {
    && Found(t) && r in t.relays && Visits(t, r, order)
    && (forall c :: c in order.calls || c in order.waiting ==> c in t.calls)
  }

  /** Cancels the relay's calls and drops its subscriptions. */
  function Undo(t: Tables, r: nat, releaseDown: bool, calls: seq<nat>, subs: seq<nat>): (t': Tables)
    requires Found(t) && r in t.relays && forall c :: c in calls ==> c in t.calls
    ensures t'.relays.Keys == t.relays.Keys && t'.calls.Keys == t.calls.Keys
  {
    UnsubscribeAll(CancelAll(t, calls, releaseDown), r, subs, releaseDown)
  }
}
