/** The relay tables as the source changes them: in place, table by table, with its loops. */
module RelayHost {
  import opened Wrappers
  import opened Relays
  import opened RelayInvariant
  import opened RelayClosing
  import opened RelaySafety
  import opened RelayFrames

  class RelayTables {
    var links: map<nat, Link>
    var relays: map<nat, Relay>
    var calls: map<nat, Call>
    var served: map<Key, Served>
    var incoming: map<Key, nat>
    var relaySubs: map<Key, nat>
    var relayedHolds: map<Key, nat>
    var relayedCalls: map<Key, nat>
    var relayedSubs: map<Key, (nat, nat)>
    var settlements: seq<(nat, Outcome)>
    var sent: seq<(nat, Frame)>

    ghost function Model(): Tables
      reads this
    {
      Tables(links, relays, calls, served, incoming, relaySubs, relayedHolds, relayedCalls, relayedSubs, settlements,
             sent)
    }

    constructor ()
      ensures Model() == NoTables
    {
      links, relays, calls, served, incoming := map[], map[], map[], map[], map[];
      relaySubs, relayedHolds, relayedCalls, relayedSubs := map[], map[], map[], map[];
      settlements, sent := [], [];
    }

    method Send(link: nat, frame: Frame)
      modifies this`sent
      ensures Model() == Put(old(Model()), link, frame)
    {
      sent := sent + [(link, frame)];
    }

    method NextIdOn(link: nat) returns (id: nat)
      modifies this`links
      ensures id == NextId(old(Model()), link) && links == UseId(old(links), link)
    {
      id := 0;
      if link in links {
        id := links[link].nextId;
        links := links[link := links[link].(nextId := id + 1)];
      }
    }

    /** A result or an error for a forwarded call. */
    method FinishCall(c: nat, outcome: Outcome)
      requires c in calls && calls[c].relay in relays
      modifies this
      ensures Model() == Finish(old(Model()), c, outcome)
      ensures sent == old(sent)
      ensures old(calls)[c].state.Sent? ==>
                && calls == old(calls)[c := old(calls)[c].(state := Settled(outcome))]
                && settlements == old(settlements) + [(c, outcome)]
                && (old(relays)[old(calls)[c].relay].down.Some? ==>
                      relayedCalls == old(relayedCalls)
                                      - {(old(relays)[old(calls)[c].relay].down.value, old(calls)[c].state.downId)})
      ensures !old(calls)[c].state.Sent? ==> Model() == old(Model())
    {
      var call := calls[c];
      if !call.state.Sent? {
        return;
      }
      calls := calls[c := call.(state := Settled(outcome))];
      var relay := relays[call.relay];
      relays := relays[call.relay := relay.(calls := relay.calls - {call.originId})];
      if relay.down.Some? {
        relayedCalls := relayedCalls - {(relay.down.value, call.state.downId)};
      }
      settlements := settlements + [(c, outcome)];
    }

    method Cancel(c: nat, forward: bool)
      requires c in calls && calls[c].relay in relays
      modifies this
      ensures Model() == CancelCall(old(Model()), c, forward)
      ensures !old(calls)[c].state.Sent? ==> Model() == old(Model())
      ensures old(calls)[c].state.Sent? ==>
                var down := old(relays)[old(calls)[c].relay].down;
                && calls[c].state == Settled(Failed)
                && sent == (if forward && down.Some? then
                              old(sent) + [(down.value, CancelFrame(old(calls)[c].state.downId))]
                            else old(sent))
                && (down.Some? ==> (down.value, old(calls)[c].state.downId) !in relayedCalls)
    {
      if !calls[c].state.Sent? {
        return;
      }
      var down := relays[calls[c].relay].down;
      if forward && down.Some? {
        Send(down.value, CancelFrame(calls[c].state.downId));
      }
      FinishCall(c, Failed);
    }

    /** Subscription `s` went down under the id it is found by there. */
    predicate GoesDown(found: map<Key, (nat, nat)>, said: seq<(nat, Frame)>, r: nat, s: nat)
      reads this
    {
      && r in relays && relays[r].down.Some? && s in relays[r].subs && relays[r].subs[s].Some?
      && var k := (relays[r].down.value, relays[r].subs[s].value);
      relayedSubs == found[k := (r, s)] && sent == said + [(k.0, SubFrame(k.1))]
    }

    method Forward(r: nat, s: nat)
      requires r in relays && relays[r].down.Some?
      modifies this
      ensures Model() == ForwardSub(old(Model()), r, s)
      ensures GoesDown(old(relayedSubs), old(sent), r, s)
    {
      var down := relays[r].down.value;
      var id := NextIdOn(down);
      relays := relays[r := relays[r].(subs := relays[r].subs[s := Some(id)])];
      relayedSubs := relayedSubs[(down, id) := (r, s)];
      Send(down, SubFrame(id));
    }

    method SubscribeTo(r: nat, s: nat)
      requires r in relays
      modifies this
      ensures Model() == Subscribe(old(Model()), r, s)
      ensures relaySubs == old(relaySubs)[(old(relays)[r].origin, s) := r]
      ensures old(relays)[r].down.Some? ==> GoesDown(old(relayedSubs), old(sent), r, s)
      ensures old(relays)[r].down.None? ==>
                sent == old(sent) && relayedSubs == old(relayedSubs) && r in relays && s in relays[r].subs
                && relays[r].subs[s].None?
    {
      relays := relays[r := relays[r].(subs := relays[r].subs[s := None])];
      relaySubs := relaySubs[(relays[r].origin, s) := r];
      if relays[r].down.Some? {
        Forward(r, s);
      }
    }

    method UnsubscribeFrom(r: nat, s: nat, forward: bool)
      requires r in relays
      modifies this
      ensures Model() == Unsubscribe(old(Model()), r, s, forward)
      ensures s !in old(relays)[r].subs ==> Model() == old(Model())
      ensures s in old(relays)[r].subs ==>
                var down, entry := old(relays)[r].down, old(relays)[r].subs[s];
                && r in relays && s !in relays[r].subs && relaySubs == old(relaySubs) - {(old(relays)[r].origin, s)}
                && (down.Some? && entry.Some? ==>
                      relayedSubs == old(relayedSubs) - {(down.value, entry.value)}
                      && sent == (if forward then old(sent) + [(down.value, UnsubFrame(entry.value))] else old(sent)))
                && (down.None? || entry.None? ==> sent == old(sent) && relayedSubs == old(relayedSubs))
    {
      var relay := relays[r];
      if s !in relay.subs {
        return;
      }
      var entry := relay.subs[s];
      relays := relays[r := relay.(subs := relay.subs - {s})];
      relaySubs := relaySubs - {(relay.origin, s)};
      if entry.Some? && relay.down.Some? {
        relayedSubs := relayedSubs - {(relay.down.value, entry.value)};
        if forward {
          Send(relay.down.value, UnsubFrame(entry.value));
        }
      }
    }

    method Reject(c: nat)
      requires c in calls
      modifies this`calls, this`settlements
      ensures Model() == RejectWaiting(old(Model()), c)
    {
      if calls[c].state.Waiting? {
        calls := calls[c := calls[c].(state := Settled(Failed))];
        settlements := settlements + [(c, Failed)];
      }
    }

    method CancelCalls(r: nat, releaseDown: bool) returns (ghost done: seq<nat>)
      requires Found(Model()) && r in relays && forall c :: c in relays[r].calls.Values ==> c in calls
      modifies this
      ensures forall c :: c in done <==> c in old(relays)[r].calls.Values
      ensures Found(old(Model())) && forall c :: c in done ==> c in old(Model()).calls
      ensures Model() == CancelAll(old(Model()), done, releaseDown)
    {
      ghost var t := Model();
      var todo := relays[r].calls.Values;
      ghost var all := todo;
      done := [];
      while todo != {}
        invariant todo <= all && forall c :: c in done <==> c in all - todo
        invariant forall c :: c in all ==> c in t.calls
        invariant Found(t) && Model() == CancelAll(t, done, releaseDown)
        decreases todo
      {
        var c :| c in todo;
        todo := todo - {c};
        Cancel(c, releaseDown);
        done := done + [c];
        assert done[..|done| - 1] + [c] == done;
      }
    }

    method DropSubscriptions(r: nat, releaseDown: bool) returns (ghost done: seq<nat>)
      requires r in relays
      modifies this
      ensures forall s :: s in done <==> s in old(relays)[r].subs
      ensures Model() == UnsubscribeAll(old(Model()), r, done, releaseDown)
    {
      hide Unsubscribe;
      ghost var t := Model();
      var todo := relays[r].subs.Keys;
      ghost var all := todo;
      done := [];
      while todo != {}
        invariant todo <= all && forall s :: s in done <==> s in all - todo
        invariant Model() == UnsubscribeAll(t, r, done, releaseDown)
        invariant r in relays
        decreases todo
      {
        var s :| s in todo;
        todo := todo - {s};
        UnsubscribeFrom(r, s, releaseDown);
        done := done + [s];
        assert done[..|done| - 1] + [s] == done;
      }
    }

    method RejectWaiters(waiting: set<nat>) returns (ghost done: seq<nat>)
      requires forall c :: c in waiting ==> c in calls
      modifies this`calls, this`settlements
      ensures forall c :: c in done <==> c in waiting
      ensures Model() == RejectAll(old(Model()), done)
    {
      ghost var t := Model();
      var todo := waiting;
      done := [];
      while todo != {}
        invariant todo <= waiting && forall c :: c in done <==> c in waiting - todo
        invariant forall c :: c in waiting ==> c in t.calls
        invariant Model() == RejectAll(t, done)
        decreases todo
      {
        var c :| c in todo;
        todo := todo - {c};
        Reject(c);
        done := done + [c];
        assert done[..|done| - 1] + [c] == done;
      }
    }

    method ShutRelay(r: nat)
      requires r in relays
      modifies this`relays, this`served, this`relayedHolds
      ensures Model() == Shut(old(Model()), r)
      ensures served.Keys <= old(served).Keys && relayedHolds.Keys <= old(relayedHolds).Keys
    {
      var relay := relays[r];
      relays := relays[r := relay.(closed := true)];
      if (relay.origin, relay.originId) in served && served[(relay.origin, relay.originId)].Relayed? {
        served := served - {(relay.origin, relay.originId)};
      }
      if relay.down.Some? {
        relayedHolds := relayedHolds - {(relay.down.value, relay.downId)};
      }
    }

    method UndoRelay(r: nat, releaseDown: bool) returns (ghost cancelled: seq<nat>, ghost dropped: seq<nat>)
      requires Found(Model()) && r in relays && forall c :: c in relays[r].calls.Values ==> c in calls
      modifies this
      ensures forall c :: c in cancelled <==> c in old(relays)[r].calls.Values
      ensures forall s :: s in dropped <==> s in old(relays)[r].subs
      ensures Found(old(Model())) && forall c :: c in cancelled ==> c in old(Model()).calls
      ensures Model() == Undo(old(Model()), r, releaseDown, cancelled, dropped)
    {
      ghost var t := Model();
      hide UnsubscribeAll, Found;
      cancelled := CancelCalls(r, releaseDown);
      SubsAreKept(t, cancelled, releaseDown, r);
      hide CancelAll;
      dropped := DropSubscriptions(r, releaseDown);
    }

    /** The entries by which the links find the relay go first, then what went through it. */
    method CloseOpen(r: nat, releaseDown: bool, notify: bool) returns (ghost order: Order)
      requires Found(Model()) && r in relays && !relays[r].closed
      requires forall c :: c in relays[r].calls.Values ==> c in calls
      modifies this
      ensures Closable(old(Model()), r, order)
      ensures Model() == Close(old(Model()), r, releaseDown, notify, order)
    {
      hide Found, Shut, Undo, RejectAll, Closable, Visits;
      ghost var t := Model();
      var relay := relays[r];
      var waiting := set c | c in calls && calls[c].relay == r && calls[c].state.Waiting?;
      ShutRelay(r);
      ShutKeepsTheRest(t, r);
      ghost var cancelled, dropped := UndoRelay(r, releaseDown);
      if relay.down.Some? && releaseDown {
        Send(relay.down.value, ReleaseFrame(relay.downId));
      }
      ghost var rejected := RejectWaiters(waiting);
      if notify {
        Send(relay.origin, GoneFrame(relay.originId));
      }
      order := Order(cancelled, dropped, rejected);
      ListsAll(t, r, order);
    }

    /** Whatever closes the relay; it closes once. */
    method CloseRelay(r: nat, releaseDown: bool, notify: bool)
      requires Safe(Model()) && r in relays
      modifies this
      ensures ClosesRelay(old(Model()), Model(), r)
      ensures Exact(old(Model()), Model(), releaseDown, notify)
    {
      ghost var t := Model();
      hide Exact;
      if !relays[r].closed {
        OwnCallsExist(t, r);
        assert Inverse(t);
        hide Safe, ClosesRelay, Inverse;
        ghost var order := CloseOpen(r, releaseDown, notify);
        ClosedWell(t, r, releaseDown, notify, order);
        CloseTells(t, r, releaseDown, notify, order);
      } else {
        AlreadyClosed(t, r);
        NothingSaid(t, releaseDown, notify);
      }
    }

    /**
     * A link closed. As origin it released everything it held here; as downstream of relays, their origins lose the
     * hold. Afterwards no table has an entry under it.
     */
    method ConnectionClosed(x: nat)
      requires Safe(Model()) && x in links
      modifies this
      ensures Safe(Model()) && x in links && !links[x].open
      ensures forall k :: k in served || k in incoming || k in relaySubs ==> k.0 != x
      ensures forall k :: k in relayedHolds || k in relayedCalls || k in relayedSubs ==> k.0 != x
    {
      hide Safe;
      CloseLink(x);
      DropServedOf(x);
      LoseHoldsOf(x);
      NothingUnder(Model(), x);
    }

    method CloseLink(x: nat)
      requires Safe(Model()) && x in links
      modifies this`links, this`incoming
      ensures Safe(Model()) && x in links && !links[x].open && forall k :: k in incoming ==> k.0 != x
    {
      hide Safe;
      DownKeeps(Model(), x);
      MarkDown(x);
    }

    method MarkDown(x: nat)
      requires x in links
      modifies this`links, this`incoming
      ensures Model() == Down(old(Model()), x)
    {
      links := links[x := links[x].(open := false)];
      incoming := map k | k in incoming && k.0 != x :: incoming[k];
    }

    method DropServedOf(x: nat)
      requires Safe(Model())
      modifies this
      ensures Safe(Model()) && incoming == old(incoming) && links == old(links)
      ensures served.Keys <= old(served).Keys && forall k :: k in served ==> k.0 != x
    {
      hide Safe;
      var todo := set k | k in served && k.0 == x;
      while todo != {}
        invariant Safe(Model()) && incoming == old(incoming) && links == old(links)
        invariant served.Keys <= old(served).Keys && forall k :: k in served && k.0 == x ==> k in todo
        decreases todo
      {
        var k :| k in todo;
        todo := todo - {k};
        if k in served {
          match served[k]
          case Local =>
            LocalStepsKeep(Model(), LocalDrop(k.0, k.1));
            served := served - {k};
          case Relayed(r) =>
            ServedRelayExists(Model(), k);
            CloseRelay(r, true, false);
        }
      }
    }

    method LoseHoldsOf(x: nat)
      requires Safe(Model())
      modifies this
      ensures Safe(Model()) && incoming == old(incoming) && links == old(links)
      ensures served.Keys <= old(served).Keys && forall k :: k in relayedHolds ==> k.0 != x
    {
      hide Safe;
      var todo := set k | k in relayedHolds && k.0 == x;
      while todo != {}
        invariant Safe(Model()) && incoming == old(incoming) && links == old(links)
        invariant served.Keys <= old(served).Keys && forall k :: k in relayedHolds && k.0 == x ==> k in todo
        decreases todo
      {
        var k :| k in todo;
        todo := todo - {k};
        if k in relayedHolds {
          HeldRelayExists(Model(), k);
          CloseRelay(relayedHolds[k], false, true);
        }
      }
    }
  }

  lemma ServedRelayExists(t: Tables, k: Key)
    requires Safe(t) && k in t.served && t.served[k].Relayed?
    ensures t.served[k].relay in t.relays
  {
  }

  lemma HeldRelayExists(t: Tables, k: Key)
    requires Safe(t) && k in t.relayedHolds
    ensures t.relayedHolds[k] in t.relays
  {
  }

  predicate NoHoldUnder(t: Tables, x: nat) {
    (forall k | k in t.served :: k.0 != x) && (forall k | k in t.relayedHolds :: k.0 != x)
  }

  lemma OpenRelayIsElsewhere(t: Tables, r: nat, x: nat)
    requires ServedOk(t) && HoldsOk(t) && NoHoldUnder(t, x) && r in t.relays && !t.relays[r].closed
    ensures t.relays[r].origin != x && t.relays[r].down != Some(x)
  {
  }

  /** The relays of a link went through nothing any more. */
  ghost predicate Idle(t: Tables, x: nat) {
    forall r | r in t.relays && (t.relays[r].origin == x || t.relays[r].down == Some(x)) ::
      t.relays[r].calls == map[] && t.relays[r].subs == map[]
  }

  lemma NoHoldIsIdle(t: Tables, x: nat)
    requires ServedOk(t) && HoldsOk(t) && Flags(t) && NoHoldUnder(t, x)
    ensures Idle(t, x)
  {
    forall r | r in t.relays && (t.relays[r].origin == x || t.relays[r].down == Some(x))
      ensures t.relays[r].calls == map[] && t.relays[r].subs == map[]
    {
      assert RelayFlags(t, r);
      if !t.relays[r].closed {
        OpenRelayIsElsewhere(t, r, x);
      }
    }
  }

  lemma IdleSubs(t: Tables, x: nat)
    requires SubsOk(t) && ForwardedOk(t) && Idle(t, x)
    ensures forall k :: k in t.relaySubs || k in t.relayedSubs ==> k.0 != x
  {
  }

  lemma IdleCalls(t: Tables, x: nat)
    requires CallsOk(t) && OwnCallsOk(t) && Idle(t, x)
    ensures forall k :: k in t.relayedCalls ==> k.0 != x
  {
  }

  /** With no hold left on either side of a link, nothing that went through one is left. */
  lemma NothingUnder(t: Tables, x: nat)
    requires Safe(t) && NoHoldUnder(t, x)
    ensures forall k :: k in t.relaySubs || k in t.relayedCalls || k in t.relayedSubs ==> k.0 != x
  {
    hide ServedOk, HoldsOk, SubsOk, ForwardedOk, CallsOk, OwnCallsOk, Flags, Idle, LogOk, IncomingOk, CallIdsOk,
      LinkIdsOk;
    NoHoldIsIdle(t, x);
    IdleSubs(t, x);
    IdleCalls(t, x);
  }

  /** The relay is closed and neither link finds it; what else they find, and their calls, are as they were. */
  ghost predicate ClosesRelay(t: Tables, t': Tables, r: nat) {
    && Safe(t') && r in t'.relays && t'.relays[r].closed && t'.relays.Keys == t.relays.Keys
    && t'.served.Keys <= t.served.Keys && t'.relayedHolds.Keys <= t.relayedHolds.Keys
    && (forall k :: k in t'.served ==> t'.served[k] == t.served[k] && t'.served[k] != Relayed(r))
    && (forall k :: k in t'.relayedHolds ==> t'.relayedHolds[k] == t.relayedHolds[k] != r)
    && t'.incoming == t.incoming && t'.links == t.links
  }

  lemma ClosedWell(t: Tables, r: nat, releaseDown: bool, notify: bool, order: Order)
    requires Safe(t) && Closable(t, r, order) && !t.relays[r].closed
    ensures ClosesRelay(t, Close(t, r, releaseDown, notify, order), r)
  {
    ClosedSafely(t, r, releaseDown, notify, order);
    ClosedDoors(t, r, releaseDown, notify, order);
    hide Close, Safe, Closable;
    NothingFindsIt(Close(t, r, releaseDown, notify, order), r);
  }

  lemma ClosedSafely(t: Tables, r: nat, releaseDown: bool, notify: bool, order: Order)
    requires Safe(t) && Closable(t, r, order) && !t.relays[r].closed
    ensures var t' := Close(t, r, releaseDown, notify, order);
            Safe(t') && r in t'.relays && t'.relays[r].closed && t'.relays.Keys == t.relays.Keys
  {
    CloseStepKeeps(t, r, releaseDown, notify, order);
    assert Inverse(t);
    hide Inverse, Flags, Close;
    CloseKeepsInverse(t, r, releaseDown, notify, order);
    ShutKeepsTheRest(t, r);
    hide Shut, Emptied, Closable;
    assert RelayShrinks(Shut(t, r).relays[r], Close(t, r, releaseDown, notify, order).relays[r]);
  }

  lemma ClosedDoors(t: Tables, r: nat, releaseDown: bool, notify: bool, order: Order)
    requires Closable(t, r, order) && !t.relays[r].closed
    ensures var t' := Close(t, r, releaseDown, notify, order);
            && t'.served.Keys <= t.served.Keys && t'.relayedHolds.Keys <= t.relayedHolds.Keys
            && (forall k :: k in t'.served ==> t'.served[k] == t.served[k])
            && (forall k :: k in t'.relayedHolds ==> t'.relayedHolds[k] == t.relayedHolds[k])
            && t'.incoming == t.incoming && t'.links == t.links
  {
    hide Close, Closable;
    CloseDoors(t, r, releaseDown, notify, order);
  }

  lemma AlreadyClosed(t: Tables, r: nat)
    requires Safe(t) && r in t.relays && t.relays[r].closed
    ensures ClosesRelay(t, t, r)
  {
    NothingFindsIt(t, r);
    hide Safe;
  }

  lemma NothingFindsIt(t: Tables, r: nat)
    requires Safe(t) && r in t.relays && t.relays[r].closed
    ensures forall k :: k in t.served ==> t.served[k] != Relayed(r)
    ensures forall k :: k in t.relayedHolds ==> t.relayedHolds[k] != r
  {
    hide Flags, CallSide, SubsOk, ForwardedOk, LinkIdsOk;
  }

  lemma ListsAll(t: Tables, r: nat, order: Order)
    requires Found(t) && r in t.relays && forall c :: c in t.relays[r].calls.Values ==> c in t.calls
    requires forall c :: c in order.calls <==> c in t.relays[r].calls.Values
    requires forall s :: s in order.subs <==> s in t.relays[r].subs
    requires forall c :: c in order.waiting <==> c in t.calls && t.calls[c].relay == r && t.calls[c].state.Waiting?
    ensures Closable(t, r, order)
  {
  }

  lemma SubsAreKept(t: Tables, cs: seq<nat>, forward: bool, r: nat)
    requires Found(t) && r in t.relays && forall c :: c in cs ==> c in t.calls
    ensures r in CancelAll(t, cs, forward).relays && CancelAll(t, cs, forward).relays[r].subs == t.relays[r].subs
  {
    if cs == [] {
    } else {
      SubsAreKept(t, cs[..|cs| - 1], forward, r);
    }
  }

  lemma OwnCallsExist(t: Tables, r: nat)
    requires Inverse(t) && r in t.relays
    ensures Found(t) && forall c :: c in t.relays[r].calls.Values ==> c in t.calls
  {
    forall c | c in t.relays[r].calls.Values ensures c in t.calls {
      var o :| o in t.relays[r].calls && t.relays[r].calls[o] == c;
      assert HasCall(t, r, o);
    }
  }

  lemma ShutKeepsTheRest(t: Tables, r: nat)
    requires r in t.relays && Found(t)
    ensures Found(Shut(t, r)) && Shut(t, r).relays[r] == t.relays[r].(closed := true)
  {
  }
}
