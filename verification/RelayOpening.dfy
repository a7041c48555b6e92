/** Opening a relay, and what goes through it, keeps the tables of both links inverse to the objects. */
module RelayOpening {
  import opened Wrappers
  import opened Relays
  import opened RelayInvariant

  // ---------------------------------------------------------------- subscriptions

  lemma QueueChanges(t: Tables, r: nat, s: nat)
    requires r in t.relays
    ensures SameRelays(t, Queue(t, r, s)) && SameCalls(t, Queue(t, r, s)) && LinksGrow(t, Queue(t, r, s))
    ensures forall q: nat, x: nat :: HasSub(Queue(t, r, s), q, x) <==> HasSub(t, q, x) || (q == r && x == s)
    ensures forall q: nat, x: nat :: SubAt(Queue(t, r, s), q, x) == if q == r && x == s then None else SubAt(t, q, x)
  {
  }

  lemma QueueSubsOk(t: Tables, r: nat, s: nat)
    requires SubsOk(t) && r in t.relays && (t.relays[r].origin, s) !in t.relaySubs
    ensures SubsOk(Queue(t, r, s))
  {
    QueueChanges(t, r, s);
    hide SameCalls, LinksGrow;
  }

  lemma QueueForwardedOk(t: Tables, r: nat, s: nat)
    requires ForwardedOk(t) && r in t.relays && !HasSub(t, r, s)
    ensures ForwardedOk(Queue(t, r, s))
  {
    QueueChanges(t, r, s);
    hide SameCalls, LinksGrow;
  }

  lemma QueueLinkSide(t: Tables, r: nat, s: nat)
    requires LinkSide(t) && r in t.relays && (t.relays[r].origin, s) !in t.relaySubs
    ensures LinkSide(Queue(t, r, s))
  {
    var t' := Queue(t, r, s);
    QueueChanges(t, r, s);
    assert !HasSub(t, r, s);
    hide SameCalls, LinksGrow;
    assert LinkIdsOk(t') by { hide ServedOk, HoldsOk, SubsOk, ForwardedOk, HasSub; }
    hide HasSub, SameRelays, ServedOk, HoldsOk, SubsOk, ForwardedOk, LinkIdsOk;
    ServedKept(t, t');
    QueueSubsOk(t, r, s);
    QueueForwardedOk(t, r, s);
  }

  lemma QueueKeeps(t: Tables, r: nat, s: nat)
    requires Inverse(t) && r in t.relays && (t.relays[r].origin, s) !in t.relaySubs
    ensures Inverse(Queue(t, r, s))
  {
    QueueLinkSide(t, r, s);
    QueueChanges(t, r, s);
    hide LinkSide, CallSide, HasSub, SameCalls, LinksGrow;
    CallSideKept(t, Queue(t, r, s));
  }

  lemma ForwardSubChanges(t: Tables, r: nat, s: nat)
    requires HasSub(t, r, s) && t.relays[r].down.Some?
    ensures SameRelays(t, ForwardSub(t, r, s)) && SameCalls(t, ForwardSub(t, r, s)) && LinksGrow(t, ForwardSub(t, r, s))
    ensures forall q: nat, x: nat :: HasSub(ForwardSub(t, r, s), q, x) <==> HasSub(t, q, x)
    ensures forall q: nat, x: nat ::
              SubAt(ForwardSub(t, r, s), q, x)
              == if q == r && x == s then Some(NextId(t, t.relays[r].down.value)) else SubAt(t, q, x)
  {
  }

  lemma ForwardSubSubsOk(t: Tables, r: nat, s: nat)
    requires SubsOk(t) && HasSub(t, r, s) && t.relays[r].down.Some?
    ensures SubsOk(ForwardSub(t, r, s))
  {
    ForwardSubChanges(t, r, s);
    hide SameCalls, LinksGrow;
  }

  lemma OneMoreForwarded(t: Tables, t': Tables, r: nat, s: nat, k: Key)
    requires ForwardedOk(t) && SameRoutes(t, t') && HasSub(t, r, s) && t.relays[r].subs[s].None?
    requires t.relays[r].down == Some(k.0) && k !in t.relayedSubs && t'.relayedSubs == t.relayedSubs[k := (r, s)]
    requires forall q: nat, x: nat :: SubAt(t', q, x) == if q == r && x == s then Some(k.1) else SubAt(t, q, x)
    ensures ForwardedOk(t')
  {
    assert SubAt(t, r, s).None?;
    assert forall q: nat, x: nat :: SubAt(t', q, x).Some? ==> q in t.relays;
    hide ForwardedLead, ForwardedFound, HasSub, SubAt;
    OneMoreLeads(t, t', r, s, k);
    OneMoreFound(t, t', r, s, k);
  }

  lemma OneMoreLeads(t: Tables, t': Tables, r: nat, s: nat, k: Key)
    requires ForwardedLead(t) && SameRoutes(t, t') && r in t.relays && SubAt(t, r, s).None?
    requires t.relays[r].down == Some(k.0) && k !in t.relayedSubs && t'.relayedSubs == t.relayedSubs[k := (r, s)]
    requires forall q: nat, x: nat :: SubAt(t', q, x) == if q == r && x == s then Some(k.1) else SubAt(t, q, x)
    ensures ForwardedLead(t')
  {
    hide SubAt;
    forall key | key in t'.relayedSubs
      ensures var (q, x) := t'.relayedSubs[key];
              q in t'.relays && t'.relays[q].down == Some(key.0) && SubAt(t', q, x) == Some(key.1)
    {
      var (q, x) := t'.relayedSubs[key];
      assert SubAt(t', q, x) == if q == r && x == s then Some(k.1) else SubAt(t, q, x);
    }
  }

  lemma OneMoreFound(t: Tables, t': Tables, r: nat, s: nat, k: Key)
    requires ForwardedFound(t) && SameRoutes(t, t') && r in t.relays
    requires t.relays[r].down == Some(k.0) && k !in t.relayedSubs && t'.relayedSubs == t.relayedSubs[k := (r, s)]
    requires forall q: nat, x: nat :: SubAt(t', q, x) == if q == r && x == s then Some(k.1) else SubAt(t, q, x)
    requires forall q: nat, x: nat :: SubAt(t', q, x).Some? ==> q in t.relays
    ensures ForwardedFound(t')
  {
    hide SubAt;
    forall q: nat, x: nat | SubAt(t', q, x).Some?
      ensures t'.relays[q].down.Some? && (t'.relays[q].down.value, SubAt(t', q, x).value) in t'.relayedSubs
      ensures t'.relayedSubs[(t'.relays[q].down.value, SubAt(t', q, x).value)] == (q, x)
    {
      if !(q == r && x == s) {
        assert SubAt(t, q, x).Some?;
      }
    }
  }

  lemma ForwardSubForwardedOk(t: Tables, r: nat, s: nat)
    requires ForwardedOk(t) && LinkIdsOk(t)
    requires HasSub(t, r, s) && t.relays[r].down.Some? && t.relays[r].subs[s].None?
    ensures ForwardedOk(ForwardSub(t, r, s))
  {
    var k := (t.relays[r].down.value, NextId(t, t.relays[r].down.value));
    assert !Used(t, k);
    ForwardSubChanges(t, r, s);
    hide ForwardedOk, SameRelays, SameCalls, LinksGrow;
    assert SameRoutes(t, ForwardSub(t, r, s));
    hide SameRoutes;
    OneMoreForwarded(t, ForwardSub(t, r, s), r, s, k);
  }

  lemma ForwardSubIdsOk(t: Tables, r: nat, s: nat)
    requires LinkIdsOk(t) && HasSub(t, r, s) && t.relays[r].down.Some?
    ensures LinkIdsOk(ForwardSub(t, r, s))
  {
    assert forall k :: Used(t, k) ==> Used(ForwardSub(t, r, s), k);
  }

  lemma ForwardSubKeeps(t: Tables, r: nat, s: nat)
    requires Inverse(t) && HasSub(t, r, s) && t.relays[r].down.Some? && t.relays[r].subs[s].None?
    ensures Inverse(ForwardSub(t, r, s))
  {
    var t' := ForwardSub(t, r, s);
    ForwardSubChanges(t, r, s);
    hide HasSub, SameRelays, SameCalls, ServedOk, HoldsOk, SubsOk, ForwardedOk, LinkIdsOk, LinksGrow;
    assert CallSide(t') by {
      hide LinkSide, CallSide;
      UseIdKeepsOpen(t, t', t.relays[r].down.value);
      CallSideKept(t, t');
    }
    hide CallSide;
    ServedKept(t, t');
    ForwardSubSubsOk(t, r, s);
    ForwardSubForwardedOk(t, r, s);
    ForwardSubIdsOk(t, r, s);
  }

  lemma UseIdKeepsOpen(t: Tables, t': Tables, d: nat)
    requires t'.links == UseId(t.links, d)
    ensures forall x :: IsOpen(t', x) <==> IsOpen(t, x)
  {
  }

  lemma {:induction false} ForwardAllChanges(t: Tables, r: nat, ss: seq<nat>)
    requires r in t.relays && t.relays[r].down.Some? && forall s :: s in ss ==> s in t.relays[r].subs
    ensures var t' := ForwardAll(t, r, ss);
            t'.calls == t.calls && t'.relays == t.relays[r := t.relays[r].(subs := t'.relays[r].subs)]
    ensures ForwardAll(t, r, ss).relays[r].subs.Keys == t.relays[r].subs.Keys
    ensures forall s | s in t.relays[r].subs :: s in ss ==> ForwardAll(t, r, ss).relays[r].subs[s].Some?
    ensures forall s | s in t.relays[r].subs ::
      s !in ss ==> ForwardAll(t, r, ss).relays[r].subs[s] == t.relays[r].subs[s]
  {
    if ss == [] {
      assert t.relays[r].(subs := t.relays[r].subs) == t.relays[r];
    } else {
      ForwardAllChanges(t, r, ss[..|ss| - 1]);
    }
  }

  lemma {:induction false} ForwardAllKeeps(t: Tables, r: nat, ss: seq<nat>)
    requires Inverse(t) && r in t.relays && t.relays[r].down.Some?
    requires forall s :: s in ss ==> HasSub(t, r, s) && t.relays[r].subs[s].None?
    requires forall i, j :: 0 <= i < j < |ss| ==> ss[i] != ss[j]
    ensures Inverse(ForwardAll(t, r, ss))
  {
    hide Inverse;
    if ss == [] {
    } else {
      var rest, s := ss[..|ss| - 1], ss[|ss| - 1];
      ForwardAllKeeps(t, r, rest);
      ForwardAllChanges(t, r, rest);
      assert s !in rest && HasSub(t, r, s);
      assert HasSub(ForwardAll(t, r, rest), r, s);
      ForwardSubKeeps(ForwardAll(t, r, rest), r, s);
    }
  }

  // ---------------------------------------------------------------- the route

  lemma RouteChanges(t: Tables, r: nat, d: nat)
    requires r in t.relays
    ensures SameSubs(t, Route(t, r, d)) && SameCalls(t, Route(t, r, d)) && LinksGrow(t, Route(t, r, d))
    ensures forall q | q in t.relays && q != r :: Route(t, r, d).relays[q] == t.relays[q]
  {
  }

  lemma RouteForwarded(t: Tables, r: nat, d: nat)
    requires ForwardedOk(t) && r in t.relays && t.relays[r].down.None?
    ensures ForwardedOk(Route(t, r, d))
  {
    var t' := Route(t, r, d);
    RouteChanges(t, r, d);
    assert forall q: nat, s: nat :: SubAt(t', q, s) == SubAt(t, q, s);
    assert forall q: nat, s: nat :: SubAt(t, q, s).Some? ==> q in t.relays && q != r;
    hide SameSubs, SameCalls, LinksGrow, SubAt;
  }

  lemma RouteHolds(t: Tables, r: nat, d: nat)
    requires HoldsOk(t) && LinkIdsOk(t) && r in t.relays && !t.relays[r].closed && t.relays[r].down.None?
             && d in t.links
    ensures HoldsOk(Route(t, r, d))
  {
    assert !Used(t, (d, NextId(t, d)));
  }

  lemma RouteServed(t: Tables, r: nat, d: nat)
    requires ServedOk(t) && r in t.relays
    ensures ServedOk(Route(t, r, d))
  {
    RouteChanges(t, r, d);
    assert SameOrigins(t, Route(t, r, d));
    hide SameSubs, SameCalls, LinksGrow, SameOrigins;
  }

  lemma RouteIds(t: Tables, r: nat, d: nat)
    requires LinkIdsOk(t) && r in t.relays && d in t.links
    ensures LinkIdsOk(Route(t, r, d))
  {
    assert forall k :: Used(t, k) ==> Used(Route(t, r, d), k);
  }

  lemma RouteCallsOk(t: Tables, r: nat, d: nat)
    requires CallsOk(t) && r in t.relays && t.relays[r].down.None?
    ensures CallsOk(Route(t, r, d))
  {
    assert forall c: nat :: IsSent(Route(t, r, d), c) <==> IsSent(t, c);
  }

  lemma RouteOwnCalls(t: Tables, r: nat, d: nat)
    requires OwnCallsOk(t) && CallIdsOk(t) && r in t.relays
    ensures OwnCallsOk(Route(t, r, d)) && CallIdsOk(Route(t, r, d))
  {
    var t' := Route(t, r, d);
    assert forall c: nat :: IsSent(t', c) <==> IsSent(t, c);
    assert forall q: nat, o: nat :: HasCall(t', q, o) <==> HasCall(t, q, o);
    assert forall k :: Used(t, k) ==> Used(t', k);
  }

  lemma RouteLinkSide(t: Tables, r: nat, d: nat)
    requires LinkSide(t) && r in t.relays && !t.relays[r].closed && t.relays[r].down.None? && d in t.links
    ensures LinkSide(Route(t, r, d))
  {
    RouteChanges(t, r, d);
    hide SameSubs, SameCalls, LinksGrow, ServedOk, HoldsOk, SubsOk, ForwardedOk, LinkIdsOk;
    SubsKept(t, Route(t, r, d));
    RouteForwarded(t, r, d);
    RouteHolds(t, r, d);
    RouteServed(t, r, d);
    RouteIds(t, r, d);
  }

  lemma RouteKeeps(t: Tables, r: nat, d: nat)
    requires Inverse(t) && r in t.relays && !t.relays[r].closed && t.relays[r].down.None? && d in t.links
    ensures Inverse(Route(t, r, d))
  {
    var t' := Route(t, r, d);
    RouteLinkSide(t, r, d);
    RouteChanges(t, r, d);
    assert SameOrigins(t, t');
    hide SameSubs, SameCalls, SameOrigins, LinksGrow, LinkSide, CallsOk, OwnCallsOk, CallIdsOk, IncomingOk;
    RouteCallsOk(t, r, d);
    RouteOwnCalls(t, r, d);
    UseIdKeepsOpen(t, t', d);
    IncomingKept(t, t');
  }

  /** Nothing but waiting calls changes, and they become ready. */
  lemma WakeSent(t: Tables, r: nat)
    ensures forall c: nat :: IsSent(Wake(t, r), c) <==> IsSent(t, c)
    ensures forall c: nat | IsSent(t, c) :: Wake(t, r).calls[c] == t.calls[c]
    ensures forall c | c in t.calls && t.calls[c].state.Settled? :: Wake(t, r).calls[c] == t.calls[c]
    ensures forall c | c in t.calls && Wake(t, r).calls[c].state.Settled? :: t.calls[c].state.Settled?
  {
  }

  lemma WakeCallsOk(t: Tables, r: nat)
    requires CallsOk(t) && CallIdsOk(t)
    ensures CallsOk(Wake(t, r)) && CallIdsOk(Wake(t, r))
  {
    WakeSent(t, r);
  }

  lemma WakeOwnCallsOk(t: Tables, r: nat)
    requires OwnCallsOk(t)
    ensures OwnCallsOk(Wake(t, r))
  {
    WakeSent(t, r);
    assert forall q: nat, o: nat :: HasCall(Wake(t, r), q, o) <==> HasCall(t, q, o);
  }

  lemma WakeLogOk(t: Tables, r: nat)
    requires LogOk(t)
    ensures LogOk(Wake(t, r))
  {
    WakeSent(t, r);
    hide IsSent;
  }

  lemma WakeIncoming(t: Tables, r: nat)
    requires IncomingOk(t)
    ensures IncomingOk(Wake(t, r))
  {
    var t' := Wake(t, r);
    assert forall c | c in t.calls ::
           t'.calls[c].relay == t.calls[c].relay && t'.calls[c].originId == t.calls[c].originId;
    assert forall c :: Unsettled(t', c) <==> Unsettled(t, c);
    assert forall c :: c in t.calls ==> CallKey(t', c) == CallKey(t, c);
    assert forall x :: IsOpen(t', x) <==> IsOpen(t, x);
    hide Wake, Unsettled, IsOpen, CallKey;
  }

  lemma WakeKeeps(t: Tables, r: nat)
    requires Inverse(t)
    ensures Inverse(Wake(t, r))
  {
    LinkSideKept(t, Wake(t, r));
    hide LinkSide;
    WakeCallsOk(t, r);
    WakeOwnCallsOk(t, r);
    WakeLogOk(t, r);
    WakeIncoming(t, r);
    hide CallsOk, OwnCallsOk, CallIdsOk, LogOk, IncomingOk;
  }

  // ---------------------------------------------------------------- a hold arrives

  predicate NewRelay(t: Tables, t': Tables, r: nat) {
    && r !in t.relays && t'.relays.Keys == t.relays.Keys + {r}
    && (forall q | q in t.relays :: t'.relays[q] == t.relays[q])
    && t'.relays[r].calls == map[] && t'.relays[r].subs == map[] && t'.relays[r].down == None && !t'.relays[r].closed
  }

  lemma NewRelayHolds(t: Tables, t': Tables, r: nat)
    requires HoldsOk(t) && LinkIdsOk(t) && NewRelay(t, t', r) && t'.links == t.links && t'.relays[r].origin in t.links
    requires t'.relayedHolds == t.relayedHolds && t'.relayedSubs == t.relayedSubs
    ensures HoldsOk(t') && LinkIdsOk(t')
  {
  }

  lemma NewRelaySubs(t: Tables, t': Tables, r: nat)
    requires SubsOk(t) && NewRelay(t, t', r) && t'.relaySubs == t.relaySubs
    ensures SubsOk(t')
  {
    assert forall q: nat, s: nat :: HasSub(t', q, s) <==> HasSub(t, q, s);
  }

  lemma NewRelayForwarded(t: Tables, t': Tables, r: nat)
    requires ForwardedOk(t) && NewRelay(t, t', r) && t'.relayedSubs == t.relayedSubs
    ensures ForwardedOk(t')
  {
    assert forall q: nat, s: nat :: SubAt(t', q, s) == SubAt(t, q, s);
    assert forall q: nat, s: nat :: SubAt(t, q, s).Some? ==> q in t.relays;
    hide HasSub, SubAt;
  }

  lemma NewRelayCallsOk(t: Tables, t': Tables, r: nat)
    requires CallsOk(t) && IncomingOk(t) && NewRelay(t, t', r)
    requires t'.calls == t.calls && t'.relayedCalls == t.relayedCalls
    ensures CallsOk(t')
  {
    assert forall c: nat :: IsSent(t', c) <==> IsSent(t, c);
    hide IncomingOk;
  }

  lemma NewRelayOwnCallsOk(t: Tables, t': Tables, r: nat)
    requires OwnCallsOk(t) && Found(t) && NewRelay(t, t', r) && t'.calls == t.calls
    ensures OwnCallsOk(t')
  {
    assert forall c: nat :: IsSent(t', c) <==> IsSent(t, c);
    assert forall q: nat, x: nat :: HasCall(t', q, x) <==> HasCall(t, q, x);
  }

  lemma NewRelayIncomingOk(t: Tables, t': Tables, r: nat)
    requires IncomingOk(t) && NewRelay(t, t', r)
    requires t'.calls == t.calls && t'.incoming == t.incoming && t'.links == t.links
    ensures IncomingOk(t')
  {
    assert forall c :: c in t.calls ==> CallKey(t', c) == CallKey(t, c);
  }

  lemma HoldArrivesServed(t: Tables, o: nat, id: nat, r: nat)
    requires ServedOk(t) && o in t.links && r !in t.relays && (o, id) !in t.served
    ensures ServedOk(HoldArrives(t, o, id, r))
  {
  }

  lemma HoldArrivesChanges(t: Tables, o: nat, id: nat, r: nat)
    requires o in t.links && r !in t.relays
    ensures NewRelay(t, HoldArrives(t, o, id, r), r) && HoldArrives(t, o, id, r).relays[r].origin in t.links
    ensures HoldArrives(t, o, id, r)
            == t.(relays := HoldArrives(t, o, id, r).relays, served := HoldArrives(t, o, id, r).served)
  {
  }

  lemma HoldArrivesKeeps(t: Tables, o: nat, id: nat, r: nat)
    requires Inverse(t) && o in t.links && r !in t.relays && (o, id) !in t.served
    ensures Inverse(HoldArrives(t, o, id, r))
  {
    var t' := HoldArrives(t, o, id, r);
    assert Found(t);
    HoldArrivesChanges(t, o, id, r);
    HoldArrivesServed(t, o, id, r);
    hide Found, ServedOk, HoldsOk, SubsOk, ForwardedOk, LinkIdsOk, CallsOk, OwnCallsOk, IncomingOk, NewRelay,
      HoldArrives;
    NewRelayHolds(t, t', r);
    NewRelaySubs(t, t', r);
    NewRelayForwarded(t, t', r);
    NewRelayCallsOk(t, t', r);
    NewRelayOwnCallsOk(t, t', r);
    NewRelayIncomingOk(t, t', r);
    assert LogOk(t') && CallIdsOk(t');
  }

  // ---------------------------------------------------------------- a call arrives

  lemma CallArrivesSent(t: Tables, o: nat, id: nat, r: nat, c: nat)
    requires c !in t.calls && r in t.relays
    ensures forall d: nat :: IsSent(CallArrives(t, o, id, r, c), d) <==> IsSent(t, d)
    ensures forall d | d in t.calls :: CallArrives(t, o, id, r, c).calls[d] == t.calls[d]
  {
  }

  lemma CallArrivesCallsOk(t: Tables, o: nat, id: nat, r: nat, c: nat)
    requires CallsOk(t) && c !in t.calls && r in t.relays
    ensures CallsOk(CallArrives(t, o, id, r, c))
  {
    CallArrivesSent(t, o, id, r, c);
  }

  lemma CallArrivesOwnCallsOk(t: Tables, o: nat, id: nat, r: nat, c: nat)
    requires OwnCallsOk(t) && c !in t.calls && r in t.relays
    ensures OwnCallsOk(CallArrives(t, o, id, r, c))
  {
    CallArrivesSent(t, o, id, r, c);
    assert forall q: nat, x: nat :: HasCall(CallArrives(t, o, id, r, c), q, x) <==> HasCall(t, q, x);
  }

  lemma CallArrivesLog(t: Tables, o: nat, id: nat, r: nat, c: nat)
    requires LogOk(t) && c !in t.calls && r in t.relays
    ensures LogOk(CallArrives(t, o, id, r, c))
  {
  }

  lemma CallArrivesIncoming(t: Tables, o: nat, id: nat, r: nat, c: nat)
    requires IncomingOk(t) && IsOpen(t, o) && c !in t.calls && (o, id) !in t.incoming
    requires r in t.relays && t.relays[r].origin == o
    ensures IncomingOk(CallArrives(t, o, id, r, c))
  {
    var t' := CallArrives(t, o, id, r, c);
    assert forall d :: d in t.calls ==> CallKey(t', d) == CallKey(t, d);
    assert forall d :: Unsettled(t', d) <==> d == c || Unsettled(t, d);
    assert CallKey(t', c) == (o, id);
    assert forall x :: IsOpen(t', x) <==> IsOpen(t, x);
    hide IsOpen, Unsettled;
  }

  lemma CallArrivesKeeps(t: Tables, o: nat, id: nat, r: nat, c: nat)
    requires Inverse(t) && IsOpen(t, o) && c !in t.calls && (o, id) !in t.incoming
    requires r in t.relays && t.relays[r].origin == o
    ensures Inverse(CallArrives(t, o, id, r, c))
  {
    LinkSideKept(t, CallArrives(t, o, id, r, c));
    hide LinkSide, CallsOk, OwnCallsOk, LogOk, IncomingOk;
    CallArrivesCallsOk(t, o, id, r, c);
    CallArrivesOwnCallsOk(t, o, id, r, c);
    CallArrivesLog(t, o, id, r, c);
    CallArrivesIncoming(t, o, id, r, c);
  }

  // ---------------------------------------------------------------- a call goes on

  predicate Forwardable(t: Tables, c: nat) {
    && c in t.calls && t.calls[c].state.Ready? && t.calls[c].relay in t.relays
    && !t.relays[t.calls[c].relay].closed && t.relays[t.calls[c].relay].down.Some?
  }

  lemma ForwardCallChanges(t: Tables, c: nat)
    requires Forwardable(t, c)
    ensures SameRelays(t, ForwardCall(t, c)) && SameSubs(t, ForwardCall(t, c)) && LinksGrow(t, ForwardCall(t, c))
  {
  }

  lemma ForwardCallSent(t: Tables, c: nat)
    requires Forwardable(t, c)
    ensures forall d: nat :: IsSent(ForwardCall(t, c), d) <==> IsSent(t, d) || d == c
    ensures forall d: nat | IsSent(t, d) :: ForwardCall(t, c).calls[d] == t.calls[d]
    ensures SameRelays(t, ForwardCall(t, c)) && SameSubs(t, ForwardCall(t, c)) && LinksGrow(t, ForwardCall(t, c))
  {
    ForwardCallChanges(t, c);
    hide SameRelays, SameSubs, LinksGrow;
  }

  lemma ForwardCallsOk(t: Tables, c: nat)
    requires CallsOk(t) && CallIdsOk(t) && Forwardable(t, c)
    ensures CallsOk(ForwardCall(t, c))
    requires t.relays[t.calls[c].relay].down.value in t.links
  {
    hide CallsOk;
    var d := t.relays[t.calls[c].relay].down.value;
    assert !Used(t, (d, NextId(t, d)));
    ForwardCallSent(t, c);
    hide SameSubs, LinksGrow, CallIdsOk;
    assert SameRoutes(t, ForwardCall(t, c));
    hide SameRelays, SameRoutes;
    OneCallJoins(t, ForwardCall(t, c), c, (d, NextId(t, d)));
  }

  /** Call `c` joins the calls forwarded on a link, under an id that was free. */
  lemma OneCallJoins(t: Tables, t': Tables, c: nat, k: Key)
    requires CallsOk(t) && SameRoutes(t, t') && k !in t.relayedCalls && t'.relayedCalls == t.relayedCalls[k := c]
    requires !IsSent(t, c) && IsSent(t', c) && t'.calls[c].state == Sent(k.1)
    requires t'.relays[t'.calls[c].relay].down == Some(k.0)
    requires forall d: nat :: IsSent(t', d) <==> IsSent(t, d) || d == c
    requires forall d: nat | IsSent(t, d) :: d in t'.calls && t'.calls[d] == t.calls[d]
    ensures CallsOk(t')
  {
  }

  lemma ForwardCallIdsOk(t: Tables, c: nat)
    requires CallIdsOk(t) && Forwardable(t, c) && t.relays[t.calls[c].relay].down.value in t.links
    ensures CallIdsOk(ForwardCall(t, c))
  {
    assert forall k :: Used(t, k) ==> Used(ForwardCall(t, c), k);
  }

  lemma ForwardOwnCallsOk(t: Tables, c: nat)
    requires OwnCallsOk(t) && Forwardable(t, c) && !HasCall(t, t.calls[c].relay, t.calls[c].originId)
    ensures OwnCallsOk(ForwardCall(t, c))
  {
    ForwardCallSent(t, c);
    hide SameSubs, LinksGrow, SameRelays;
  }

  lemma OwnCallKey(t: Tables, r: nat, x: nat)
    requires OwnCallsOk(t) && Found(t) && HasCall(t, r, x)
    ensures IsSent(t, t.relays[r].calls[x]) && CallKey(t, t.relays[r].calls[x]) == (t.relays[r].origin, x)
  {
  }

  lemma OriginIdIsFree(t: Tables, c: nat)
    requires OwnCallsOk(t) && IncomingOk(t) && Forwardable(t, c)
    ensures !HasCall(t, t.calls[c].relay, t.calls[c].originId)
  {
    assert Unsettled(t, c);
    if HasCall(t, t.calls[c].relay, t.calls[c].originId) {
      OwnCallKey(t, t.calls[c].relay, t.calls[c].originId);
    }
  }

  lemma ForwardLogOk(t: Tables, c: nat)
    requires LogOk(t) && Forwardable(t, c)
    ensures LogOk(ForwardCall(t, c))
  {
  }

  lemma ForwardIncomingOk(t: Tables, c: nat)
    requires IncomingOk(t) && Forwardable(t, c)
    ensures IncomingOk(ForwardCall(t, c))
  {
    var t' := ForwardCall(t, c);
    assert forall d :: d in t.calls ==> CallKey(t', d) == CallKey(t, d);
    assert forall d :: Unsettled(t', d) <==> Unsettled(t, d);
    UseIdKeepsOpen(t, t', t.relays[t.calls[c].relay].down.value);
    hide IsOpen, Unsettled;
  }

  lemma ForwardCallKeeps(t: Tables, c: nat)
    requires Inverse(t) && c in t.calls && t.calls[c].state.Ready?
    ensures Inverse(ForwardCall(t, c))
  {
    var t', relay := ForwardCall(t, c), t.relays[t.calls[c].relay];
    if relay.closed || relay.down.None? {
      FailKeeps(t, c);
    } else {
      assert relay.down.value in t.links;
      ForwardCallSent(t, c);
      hide SameRelays, SameSubs, LinksGrow, CallsOk, OwnCallsOk, CallIdsOk, LogOk, IncomingOk;
      assert LinkSide(t') by {
        hide LinkSide, CallSide;
        LinkSideKept(t, t');
      }
      hide LinkSide;
      ForwardCallsOk(t, c);
      ForwardCallIdsOk(t, c);
      OriginIdIsFree(t, c);
      ForwardOwnCallsOk(t, c);
      ForwardLogOk(t, c);
      ForwardIncomingOk(t, c);
    }
  }
}
