/** What every operation on the relay tables keeps: the tables of both links are inverse to the objects they find. */
module RelayInvariant {
  import opened Wrappers
  import opened Relays

  function OriginKey(relay: Relay): Key { (relay.origin, relay.originId) }

  /** An open relay is found by its origin under its id, and nothing else is found as a relay. */
  ghost predicate ServedOk(t: Tables) {
    && (forall k :: k in t.served && t.served[k].Relayed? ==>
          var r := t.served[k].relay;
          r in t.relays && !t.relays[r].closed && OriginKey(t.relays[r]) == k)
    && (forall r :: r in t.relays && !t.relays[r].closed ==>
          OriginKey(t.relays[r]) in t.served && t.served[OriginKey(t.relays[r])] == Relayed(r))
  }

  ghost predicate HoldsOk(t: Tables) {
    && (forall k :: k in t.relayedHolds ==>
          var r := t.relayedHolds[k];
          r in t.relays && !t.relays[r].closed && t.relays[r].down == Some(k.0) && t.relays[r].downId == k.1)
    && (forall r :: r in t.relays && !t.relays[r].closed && t.relays[r].down.Some? ==>
          (t.relays[r].down.value, t.relays[r].downId) in t.relayedHolds
          && t.relayedHolds[(t.relays[r].down.value, t.relays[r].downId)] == r)
  }

  predicate HasSub(t: Tables, r: nat, s: nat) { r in t.relays && s in t.relays[r].subs }

  ghost predicate SubsOk(t: Tables) {
    && (forall k :: k in t.relaySubs ==>
          HasSub(t, t.relaySubs[k], k.1) && t.relays[t.relaySubs[k]].origin == k.0)
    && (forall r: nat, s: nat :: HasSub(t, r, s) ==>
          (t.relays[r].origin, s) in t.relaySubs && t.relaySubs[(t.relays[r].origin, s)] == r)
  }

  /** The downstream id of a subscription, once forwarded. */
  function SubAt(t: Tables, r: nat, s: nat): Option<nat> { if HasSub(t, r, s) then t.relays[r].subs[s] else None }

  /** A downstream id leads to a subscription forwarded under it. */
  ghost predicate ForwardedLead(t: Tables) {
    forall k :: k in t.relayedSubs ==>
      var (r, s) := t.relayedSubs[k];
      r in t.relays && t.relays[r].down == Some(k.0) && SubAt(t, r, s) == Some(k.1)
  }

  ghost predicate ForwardedFound(t: Tables) {
    forall r: nat, s: nat :: SubAt(t, r, s).Some? ==>
      t.relays[r].down.Some?
      && (t.relays[r].down.value, SubAt(t, r, s).value) in t.relayedSubs
      && t.relayedSubs[(t.relays[r].down.value, SubAt(t, r, s).value)] == (r, s)
  }

  ghost predicate ForwardedOk(t: Tables) { ForwardedLead(t) && ForwardedFound(t) }

  predicate IsSent(t: Tables, c: nat) {
    c in t.calls && t.calls[c].state.Sent? && t.calls[c].relay in t.relays
  }

  ghost predicate CallsOk(t: Tables) {
    && (forall k :: k in t.relayedCalls ==>
          var c := t.relayedCalls[k];
          IsSent(t, c) && t.calls[c].state.downId == k.1 && t.relays[t.calls[c].relay].down == Some(k.0))
    && (forall c :: IsSent(t, c) ==>
          var down := t.relays[t.calls[c].relay].down;
          down.Some? && (down.value, t.calls[c].state.downId) in t.relayedCalls
          && t.relayedCalls[(down.value, t.calls[c].state.downId)] == c)
  }

  predicate HasCall(t: Tables, r: nat, o: nat) { r in t.relays && o in t.relays[r].calls }

  ghost predicate OwnCallsOk(t: Tables) {
    && (forall r: nat, o: nat :: HasCall(t, r, o) ==>
          var c := t.relays[r].calls[o];
          IsSent(t, c) && t.calls[c].relay == r && t.calls[c].originId == o)
    && (forall c :: IsSent(t, c) ==>
          var calls := t.relays[t.calls[c].relay].calls;
          t.calls[c].originId in calls && calls[t.calls[c].originId] == c)
  }

  predicate Used(t: Tables, k: Key) { k.0 in t.links && k.1 < t.links[k.0].nextId }

  /** Ids on a link are handed out once. */
  ghost predicate LinkIdsOk(t: Tables) {
    && (forall k :: k in t.relayedHolds || k in t.relayedSubs ==> Used(t, k))
    && (forall r :: r in t.relays ==> t.relays[r].origin in t.links)
    && (forall r :: r in t.relays && t.relays[r].down.Some? ==> t.relays[r].down.value in t.links)
  }

  ghost predicate CallIdsOk(t: Tables) { forall k :: k in t.relayedCalls ==> Used(t, k) }

  /** The settlements: one for each settled call, with its outcome. */
  ghost predicate LogOk(t: Tables) {
    && (forall i :: 0 <= i < |t.settlements| ==>
          t.settlements[i].0 in t.calls && t.calls[t.settlements[i].0].state == Settled(t.settlements[i].1))
    && (forall c :: c in t.calls && t.calls[c].state.Settled? ==> (c, t.calls[c].state.outcome) in t.settlements)
    && (forall i, j :: 0 <= i < j < |t.settlements| ==> t.settlements[i].0 != t.settlements[j].0)
  }

  function CallKey(t: Tables, c: nat): Key
    requires Found(t) && c in t.calls
  {
    (t.relays[t.calls[c].relay].origin, t.calls[c].originId)
  }

  predicate Unsettled(t: Tables, c: nat) { c in t.calls && !t.calls[c].state.Settled? }

  predicate IsOpen(t: Tables, link: nat) { link in t.links && t.links[link].open }

  /** At most one call under an id of an origin link is unsettled, and an open link finds it. */
  ghost predicate IncomingOk(t: Tables) {
    && Found(t)
    && (forall k :: k in t.incoming ==> t.incoming[k] in t.calls && CallKey(t, t.incoming[k]) == k)
    && (forall c, d :: Unsettled(t, c) && Unsettled(t, d) && CallKey(t, c) == CallKey(t, d) ==> c == d)
    && (forall c :: Unsettled(t, c) && IsOpen(t, CallKey(t, c).0) ==>
          CallKey(t, c) in t.incoming && t.incoming[CallKey(t, c)] == c)
  }

  ghost predicate LinkSide(t: Tables) { ServedOk(t) && HoldsOk(t) && SubsOk(t) && ForwardedOk(t) && LinkIdsOk(t) }

  ghost predicate CallSide(t: Tables) { CallsOk(t) && OwnCallsOk(t) && CallIdsOk(t) && LogOk(t) && IncomingOk(t) }

  ghost predicate Inverse(t: Tables) { LinkSide(t) && CallSide(t) }

  /** A closed relay has nothing left; a routed one has nothing queued. */
  ghost predicate Emptied(t: Tables, r: nat)
    requires r in t.relays
  {
    && t.relays[r].calls == map[] && t.relays[r].subs == map[]
    && (forall c :: c in t.calls && t.calls[c].relay == r ==> !t.calls[c].state.Waiting?)
  }

  ghost predicate CaughtUp(t: Tables, r: nat)
    requires r in t.relays
  {
    && (forall s :: s in t.relays[r].subs ==> t.relays[r].subs[s].Some?)
    && (forall c :: c in t.calls && t.calls[c].relay == r ==> !t.calls[c].state.Waiting?)
  }

  ghost predicate Inv(t: Tables) {
    && Inverse(t)
    && (forall r :: r in t.relays && t.relays[r].closed ==> Emptied(t, r))
    && (forall r :: r in t.relays && t.relays[r].down.Some? ==> CaughtUp(t, r))
  }

  // ---------------------------------------------------------------- what a change does not touch

  predicate SameOrigins(t: Tables, t': Tables) {
    && t'.relays.Keys == t.relays.Keys
    && (forall r | r in t.relays ::
          t'.relays[r].origin == t.relays[r].origin && t'.relays[r].originId == t.relays[r].originId)
  }

  predicate SameRoutes(t: Tables, t': Tables) {
    && SameOrigins(t, t')
    && (forall r | r in t.relays :: t'.relays[r].down == t.relays[r].down && t'.relays[r].downId == t.relays[r].downId)
  }

  /** No relay appeared, and none changed but for its calls and subscriptions. */
  predicate SameRelays(t: Tables, t': Tables) {
    SameRoutes(t, t') && forall r | r in t.relays :: t'.relays[r].closed == t.relays[r].closed
  }

  predicate LinksGrow(t: Tables, t': Tables) {
    forall x | x in t.links :: x in t'.links && t.links[x].nextId <= t'.links[x].nextId
  }

  predicate SameSubs(t: Tables, t': Tables) {
    SameOrigins(t, t') && forall r | r in t.relays :: t'.relays[r].subs == t.relays[r].subs
  }

  predicate SameCalls(t: Tables, t': Tables) {
    SameOrigins(t, t') && forall r | r in t.relays :: t'.relays[r].calls == t.relays[r].calls
  }

  lemma ServedKept(t: Tables, t': Tables)
    requires ServedOk(t) && HoldsOk(t) && SameRelays(t, t')
    requires t'.served == t.served && t'.relayedHolds == t.relayedHolds
    ensures ServedOk(t') && HoldsOk(t')
  {
  }

  lemma SubsKept(t: Tables, t': Tables)
    requires SubsOk(t) && SameSubs(t, t') && t'.relaySubs == t.relaySubs
    ensures SubsOk(t')
  {
    assert forall r: nat, s: nat :: HasSub(t', r, s) <==> HasSub(t, r, s);
  }

  lemma ForwardedKept(t: Tables, t': Tables)
    requires ForwardedOk(t) && SameSubs(t, t') && SameRoutes(t, t') && t'.relayedSubs == t.relayedSubs
    ensures ForwardedOk(t')
  {
    assert forall r: nat, s: nat :: SubAt(t', r, s) == SubAt(t, r, s);
    hide SubAt;
  }

  lemma LinkSideKept(t: Tables, t': Tables)
    requires LinkSide(t) && SameRelays(t, t') && SameSubs(t, t') && LinksGrow(t, t')
    requires t'.served == t.served && t'.relayedHolds == t.relayedHolds
    requires t'.relaySubs == t.relaySubs && t'.relayedSubs == t.relayedSubs
    ensures LinkSide(t')
  {
    ServedKept(t, t');
    SubsKept(t, t');
    ForwardedKept(t, t');
    hide ServedOk, HoldsOk, SubsOk, ForwardedOk;
    assert forall k :: Used(t, k) ==> Used(t', k);
  }

  lemma OwnCallsKept(t: Tables, t': Tables)
    requires CallsOk(t) && OwnCallsOk(t) && SameCalls(t, t') && SameRoutes(t, t') && t'.calls == t.calls
    requires t'.relayedCalls == t.relayedCalls
    ensures CallsOk(t') && OwnCallsOk(t')
  {
  }

  lemma IncomingKept(t: Tables, t': Tables)
    requires IncomingOk(t) && SameOrigins(t, t') && t'.calls == t.calls && t'.incoming == t.incoming
    requires forall x :: IsOpen(t', x) ==> IsOpen(t, x)
    ensures IncomingOk(t')
  {
    assert forall c :: c in t.calls ==> CallKey(t', c) == CallKey(t, c);
  }

  lemma CallSideKept(t: Tables, t': Tables)
    requires CallSide(t) && SameCalls(t, t') && SameRoutes(t, t') && LinksGrow(t, t')
    requires t'.calls == t.calls && t'.relayedCalls == t.relayedCalls && t'.incoming == t.incoming
    requires t'.settlements == t.settlements
    requires forall x :: IsOpen(t', x) ==> IsOpen(t, x)
    ensures CallSide(t')
  {
    hide IsSent, SameCalls, OwnCallsOk, Found, SameOrigins, IncomingOk;
    OwnCallsKept(t, t');
    IncomingKept(t, t');
    hide CallsOk, OwnCallsOk, IncomingOk;
    assert forall k :: Used(t, k) ==> Used(t', k);
  }

  lemma PutKeeps(t: Tables, link: nat, frame: Frame)
    requires Inverse(t)
    ensures Inverse(Put(t, link, frame))
  {
    LinkSideKept(t, Put(t, link, frame));
    CallSideKept(t, Put(t, link, frame));
  }

  // ---------------------------------------------------------------- things only go away

  predicate CallShrinks(c: Call, c': Call) {
    c' == c || (c'.relay == c.relay && c'.originId == c.originId && c'.state.Settled?)
  }

  predicate RelayShrinks(r: Relay, r': Relay) {
    && r'.origin == r.origin && r'.originId == r.originId && r'.down == r.down && r'.downId == r.downId
    && r'.closed == r.closed && r'.generation == r.generation
    && (forall o | o in r'.calls :: o in r.calls && r'.calls[o] == r.calls[o])
    && (forall s | s in r'.subs :: s in r.subs && r'.subs[s] == r.subs[s])
  }

  /** Calls settle and entries of relays go; nothing else happens to them. */
  predicate Shrinks(t: Tables, t': Tables) {
    && t'.relays.Keys == t.relays.Keys && (forall r | r in t.relays :: RelayShrinks(t.relays[r], t'.relays[r]))
    && t'.calls.Keys == t.calls.Keys && (forall c | c in t.calls :: CallShrinks(t.calls[c], t'.calls[c]))
  }

  lemma ShrinksTwice(t: Tables, t1: Tables, t2: Tables)
    requires Shrinks(t, t1) && Shrinks(t1, t2)
    ensures Shrinks(t, t2)
  {
  }

  // ---------------------------------------------------------------- calls settle

  /** Call `c` settles and nothing else changes for any call. */
  predicate SettlesOne(t: Tables, t': Tables, c: nat, outcome: Outcome) {
    && c in t.calls && !t.calls[c].state.Settled?
    && t'.calls == t.calls[c := Settled1(t.calls[c], outcome)]
    && t'.settlements == t.settlements + [(c, outcome)]
  }

  lemma SettleLogs(t: Tables, t': Tables, c: nat, outcome: Outcome)
    requires LogOk(t) && SettlesOne(t, t', c, outcome)
    ensures LogOk(t')
  {
  }

  lemma SettleIncoming(t: Tables, t': Tables, c: nat, outcome: Outcome)
    requires IncomingOk(t) && SettlesOne(t, t', c, outcome) && SameOrigins(t, t')
    requires t'.incoming == t.incoming && t'.links == t.links
    ensures IncomingOk(t')
  {
    assert forall d :: d in t.calls ==> CallKey(t', d) == CallKey(t, d);
    assert forall d :: Unsettled(t', d) ==> Unsettled(t, d);
  }

  lemma FinishSent(t: Tables, c: nat, outcome: Outcome)
    requires IsSent(t, c)
    ensures forall d: nat :: IsSent(Finish(t, c, outcome), d) <==> IsSent(t, d) && d != c
    ensures SettlesOne(t, Finish(t, c, outcome), c, outcome)
    ensures SameRelays(t, Finish(t, c, outcome)) && SameSubs(t, Finish(t, c, outcome))
    ensures LinksGrow(t, Finish(t, c, outcome))
  {
  }

  lemma FinishCallsOk(t: Tables, c: nat, outcome: Outcome)
    requires CallsOk(t) && CallIdsOk(t) && IsSent(t, c)
    ensures CallsOk(Finish(t, c, outcome)) && CallIdsOk(Finish(t, c, outcome))
  {
    FinishIds(t, c, outcome);
    FinishSent(t, c, outcome);
    hide SameSubs, SameRelays, LinksGrow, CallIdsOk;
  }

  lemma FinishIds(t: Tables, c: nat, outcome: Outcome)
    requires CallIdsOk(t) && IsSent(t, c)
    ensures CallIdsOk(Finish(t, c, outcome))
  {
  }

  /** Call `c` leaves the calls of its relay, and nothing else changes for forwarded calls. */
  lemma OneCallLeaves(t: Tables, t': Tables, r: nat, o: nat, c: nat)
    requires OwnCallsOk(t) && IsSent(t, c) && t.calls[c].relay == r && t.calls[c].originId == o
    requires forall q: nat, x: nat :: HasCall(t', q, x) <==> HasCall(t, q, x) && !(q == r && x == o)
    requires forall q: nat, x: nat :: HasCall(t', q, x) ==> t'.relays[q].calls[x] == t.relays[q].calls[x]
    requires forall d: nat :: IsSent(t', d) <==> IsSent(t, d) && d != c
    requires forall d: nat :: IsSent(t', d) ==> t'.calls[d] == t.calls[d]
    ensures OwnCallsOk(t')
  {
    forall q: nat, x: nat | HasCall(t', q, x)
      ensures var d := t'.relays[q].calls[x]; IsSent(t', d) && t'.calls[d].relay == q && t'.calls[d].originId == x
    {
      assert HasCall(t, q, x);
    }
    forall d: nat | IsSent(t', d)
      ensures HasCall(t', t'.calls[d].relay, t'.calls[d].originId)
      ensures t'.relays[t'.calls[d].relay].calls[t'.calls[d].originId] == d
    {
      assert IsSent(t, d) && HasCall(t, t.calls[d].relay, t.calls[d].originId);
    }
  }

  lemma FinishOwnCallsOk(t: Tables, c: nat, outcome: Outcome)
    requires OwnCallsOk(t) && IsSent(t, c)
    ensures OwnCallsOk(Finish(t, c, outcome))
  {
    hide OwnCallsOk;
    var t', r, o := Finish(t, c, outcome), t.calls[c].relay, t.calls[c].originId;
    FinishSent(t, c, outcome);
    hide SameSubs, SameRelays, LinksGrow, SettlesOne;
    assert forall q: nat, x: nat :: HasCall(t', q, x) <==> HasCall(t, q, x) && !(q == r && x == o);
    OneCallLeaves(t, t', r, o, c);
  }

  lemma FinishKeeps(t: Tables, c: nat, outcome: Outcome)
    requires Inverse(t) && c in t.calls
    ensures Inverse(Finish(t, c, outcome))
  {
    if t.calls[c].state.Sent? {
      var t' := Finish(t, c, outcome);
      FinishSent(t, c, outcome);
      hide SettlesOne, SameRelays, SameSubs, LinksGrow, SameRoutes;
      assert LinkSide(t') by {
        hide CallSide, LinkSide;
        LinkSideKept(t, t');
      }
      hide LinkSide;
      FinishCallsOk(t, c, outcome);
      FinishOwnCallsOk(t, c, outcome);
      SettleLogs(t, t', c, outcome);
      SettleIncoming(t, t', c, outcome);
      hide CallsOk, OwnCallsOk, LogOk, IncomingOk;
    }
  }

  lemma FailChanges(t: Tables, c: nat)
    requires Unsettled(t, c) && !t.calls[c].state.Sent?
    ensures forall d: nat :: IsSent(Fail(t, c), d) <==> IsSent(t, d)
    ensures SettlesOne(t, Fail(t, c), c, Failed)
    ensures SameRelays(t, Fail(t, c)) && SameSubs(t, Fail(t, c)) && LinksGrow(t, Fail(t, c))
  {
  }

  lemma FailCallsOk(t: Tables, c: nat)
    requires CallsOk(t) && CallIdsOk(t) && Unsettled(t, c) && !t.calls[c].state.Sent?
    ensures CallsOk(Fail(t, c)) && CallIdsOk(Fail(t, c))
  {
    FailChanges(t, c);
    hide SameRelays, SameSubs, LinksGrow;
  }

  lemma FailOwnCallsOk(t: Tables, c: nat)
    requires OwnCallsOk(t) && Unsettled(t, c) && !t.calls[c].state.Sent?
    ensures OwnCallsOk(Fail(t, c))
  {
    FailChanges(t, c);
    hide SameRelays, SameSubs, LinksGrow;
    assert forall r: nat, o: nat :: HasCall(Fail(t, c), r, o) <==> HasCall(t, r, o);
  }

  lemma FailKeeps(t: Tables, c: nat)
    requires Inverse(t) && Unsettled(t, c) && !t.calls[c].state.Sent?
    ensures Inverse(Fail(t, c))
  {
    var t' := Fail(t, c);
    FailChanges(t, c);
    assert LinkSide(t') by {
      hide LinkSide, CallSide, SameRelays, SameSubs, LinksGrow;
      LinkSideKept(t, t');
    }
    hide LinkSide, SameRelays, SameSubs, LinksGrow, CallsOk, OwnCallsOk, CallIdsOk, LogOk, IncomingOk;
    FailCallsOk(t, c);
    FailOwnCallsOk(t, c);
    SettleLogs(t, t', c, Failed);
    SettleIncoming(t, t', c, Failed);
  }

  lemma RejectWaitingKeeps(t: Tables, c: nat)
    requires Inverse(t) && c in t.calls
    ensures Inverse(RejectWaiting(t, c)) && Shrinks(t, RejectWaiting(t, c))
    ensures !RejectWaiting(t, c).calls[c].state.Waiting?
  {
    FailShrinks(t, c);
    if t.calls[c].state.Waiting? {
      FailKeeps(t, c);
    }
    hide Inverse, Fail;
  }

  lemma FailShrinks(t: Tables, c: nat)
    requires c in t.calls
    ensures Shrinks(t, Fail(t, c)) && Shrinks(t, t) && Fail(t, c).calls[c].state.Settled?
  {
  }

  lemma CancelShrinks(t: Tables, c: nat, forward: bool)
    requires c in t.calls && t.calls[c].relay in t.relays
    ensures Shrinks(t, CancelCall(t, c, forward)) && !CancelCall(t, c, forward).calls[c].state.Sent?
  {
    FinishShrinks(t, c, Failed);
    var down := t.relays[t.calls[c].relay].down;
    if down.Some? && t.calls[c].state.Sent? {
      FinishShrinks(Put(t, down.value, CancelFrame(t.calls[c].state.downId)), c, Failed);
    }
    hide Finish, CallShrinks, RelayShrinks;
  }

  lemma FinishShrinks(t: Tables, c: nat, outcome: Outcome)
    requires c in t.calls && t.calls[c].relay in t.relays
    ensures Shrinks(t, Finish(t, c, outcome)) && !Finish(t, c, outcome).calls[c].state.Sent?
  {
    var call, relay := t.calls[c], t.relays[t.calls[c].relay];
    if call.state.Sent? {
      var relay' := relay.(calls := relay.calls - {call.originId});
      assert RelayShrinks(relay, relay');
      ShrinksByOne(t, Finish(t, c, outcome), call.relay, relay', c, Settled1(call, outcome));
    }
  }

  lemma ShrinksByOne(t: Tables, t': Tables, r: nat, relay: Relay, c: nat, call: Call)
    requires r in t.relays && t'.relays == t.relays[r := relay] && RelayShrinks(t.relays[r], relay)
    requires c in t.calls && t'.calls == t.calls[c := call] && CallShrinks(t.calls[c], call)
    ensures Shrinks(t, t')
  {
  }

  lemma CancelKeeps(t: Tables, c: nat, forward: bool)
    requires Inverse(t) && c in t.calls
    ensures Inverse(CancelCall(t, c, forward)) && Shrinks(t, CancelCall(t, c, forward))
    ensures !CancelCall(t, c, forward).calls[c].state.Sent?
  {
    CancelShrinks(t, c, forward);
    hide Shrinks;
    var down := t.relays[t.calls[c].relay].down;
    if t.calls[c].state.Sent? && forward && down.Some? {
      PutKeeps(t, down.value, CancelFrame(t.calls[c].state.downId));
      FinishKeeps(Put(t, down.value, CancelFrame(t.calls[c].state.downId)), c, Failed);
    } else {
      FinishKeeps(t, c, Failed);
    }
    hide Inverse, Finish;
  }

  // ---------------------------------------------------------------- a relay closes

  lemma ShutChanges(t: Tables, r: nat)
    requires r in t.relays
    ensures SameSubs(t, Shut(t, r)) && SameCalls(t, Shut(t, r)) && SameRoutes(t, Shut(t, r)) && LinksGrow(t, Shut(t, r))
  {
  }

  lemma ShutServed(t: Tables, r: nat)
    requires ServedOk(t) && r in t.relays && !t.relays[r].closed
    ensures ServedOk(Shut(t, r))
  {
    hide Without;
  }

  lemma ShutHolds(t: Tables, r: nat)
    requires HoldsOk(t) && r in t.relays && !t.relays[r].closed
    ensures HoldsOk(Shut(t, r))
  {
    hide Unserved;
  }

  lemma ShutKeeps(t: Tables, r: nat)
    requires Inverse(t) && r in t.relays && !t.relays[r].closed
    ensures Inverse(Shut(t, r))
  {
    var t' := Shut(t, r);
    ShutChanges(t, r);
    hide SameSubs, SameCalls, LinksGrow;
    assert CallSide(t') by {
      hide LinkSide, CallSide;
      CallSideKept(t, t');
    }
    hide CallSide;
    ShutServed(t, r);
    ShutHolds(t, r);
    SubsKept(t, t');
    ForwardedKept(t, t');
    hide SubsOk, ForwardedOk, ServedOk, HoldsOk;
  }

  // ---------------------------------------------------------------- subscriptions

  lemma DropSubChanges(t: Tables, r: nat, s: nat)
    requires HasSub(t, r, s)
    ensures SameRelays(t, DropSub(t, r, s)) && SameCalls(t, DropSub(t, r, s)) && LinksGrow(t, DropSub(t, r, s))
    ensures forall q: nat, x: nat :: HasSub(DropSub(t, r, s), q, x) <==> HasSub(t, q, x) && !(q == r && x == s)
    ensures forall q: nat, x: nat :: SubAt(DropSub(t, r, s), q, x) == if q == r && x == s then None else SubAt(t, q, x)
  {
  }

  lemma DropSubSubsOk(t: Tables, r: nat, s: nat)
    requires SubsOk(t) && HasSub(t, r, s)
    ensures SubsOk(DropSub(t, r, s))
  {
    DropSubChanges(t, r, s);
    hide SameCalls, LinksGrow;
  }

  lemma DropSubForwardedOk(t: Tables, r: nat, s: nat)
    requires ForwardedOk(t) && HasSub(t, r, s)
    ensures ForwardedOk(DropSub(t, r, s))
  {
    var t' := DropSub(t, r, s);
    DropSubChanges(t, r, s);
    assert SubAt(t, r, s) == t.relays[r].subs[s];
    hide SameCalls, LinksGrow;
    assert ForwardedLead(t') by { hide SameRelays; }
    hide ForwardedLead, HasSub, SubAt;
    forall q: nat, x: nat | SubAt(t', q, x).Some?
      ensures q in t'.relays && t'.relays[q].down.Some?
      ensures (t'.relays[q].down.value, SubAt(t', q, x).value) in t'.relayedSubs
      ensures t'.relayedSubs[(t'.relays[q].down.value, SubAt(t', q, x).value)] == (q, x)
    {
      assert SubAt(t, q, x).Some?;
    }
  }

  lemma DropSubLinkSide(t: Tables, r: nat, s: nat)
    requires LinkSide(t) && HasSub(t, r, s)
    ensures LinkSide(DropSub(t, r, s))
  {
    var t' := DropSub(t, r, s);
    DropSubChanges(t, r, s);
    hide SameCalls, LinksGrow;
    hide HasSub, SameRelays, ServedOk, HoldsOk, SubsOk, ForwardedOk, LinkIdsOk;
    DropSubIds(t, r, s);
    ServedKept(t, t');
    DropSubSubsOk(t, r, s);
    DropSubForwardedOk(t, r, s);
  }

  lemma DropSubIds(t: Tables, r: nat, s: nat)
    requires LinkIdsOk(t) && HasSub(t, r, s)
    ensures LinkIdsOk(DropSub(t, r, s))
  {
  }

  lemma DropSubKeeps(t: Tables, r: nat, s: nat)
    requires Inverse(t) && HasSub(t, r, s)
    ensures Inverse(DropSub(t, r, s))
  {
    var t' := DropSub(t, r, s);
    DropSubChanges(t, r, s);
    hide LinkSide, CallSide, HasSub, SameCalls, LinksGrow;
    DropSubLinkSide(t, r, s);
    CallSideKept(t, t');
  }

  lemma UnsubscribeShrinks(t: Tables, r: nat, s: nat, forward: bool)
    requires r in t.relays
    ensures Shrinks(t, Unsubscribe(t, r, s, forward)) && s !in Unsubscribe(t, r, s, forward).relays[r].subs
    ensures Unsubscribe(t, r, s, forward).calls == t.calls
  {
    if s in t.relays[r].subs {
      var t1 := DropSub(t, r, s);
      assert RelayShrinks(t.relays[r], t1.relays[r]);
      assert t1.relays == t.relays[r := t1.relays[r]];
      hide DropSub;
      assert Unsubscribe(t, r, s, forward).relays == t1.relays;
    }
  }

  lemma UnsubscribeKeeps(t: Tables, r: nat, s: nat, forward: bool)
    requires Inverse(t) && r in t.relays
    ensures Inverse(Unsubscribe(t, r, s, forward))
  {
    var relay := t.relays[r];
    if s in relay.subs {
      DropSubKeeps(t, r, s);
      hide DropSub, Inverse;
      if relay.subs[s].Some? && relay.down.Some? {
        PutKeeps(DropSub(t, r, s), relay.down.value, UnsubFrame(relay.subs[s].value));
      }
    }
    hide Inverse;
  }
}
