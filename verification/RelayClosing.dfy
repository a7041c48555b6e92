/** Closing a relay undoes everything done through it, once. */
module RelayClosing {
  import opened Wrappers
  import opened Relays
  import opened RelayInvariant

  lemma CallsShrink(t: Tables, t': Tables, c: nat)
    requires Shrinks(t, t') && c in t.calls
    ensures c in t'.calls && CallShrinks(t.calls[c], t'.calls[c])
  {
  }

  lemma {:induction false} CancelAllKeeps(t: Tables, cs: seq<nat>, forward: bool)
    requires Inverse(t) && forall c :: c in cs ==> c in t.calls
    ensures Inverse(CancelAll(t, cs, forward)) && Shrinks(t, CancelAll(t, cs, forward))
    ensures forall c | c in cs :: !CancelAll(t, cs, forward).calls[c].state.Sent?
  {
    if cs == [] {
    } else {
      assert Found(t);
      hide Inverse, CancelCall, RelayShrinks, Found, Shrinks;
      var rest, c := cs[..|cs| - 1], cs[|cs| - 1];
      var t1 := CancelAll(t, rest, forward);
      CancelAllKeeps(t, rest, forward);
      CancelKeeps(t1, c, forward);
      ShrinksTwice(t, t1, CancelCall(t1, c, forward));
      forall d | d in rest ensures !CancelCall(t1, c, forward).calls[d].state.Sent? {
        CallsShrink(t1, CancelCall(t1, c, forward), d);
      }
    }
  }

  lemma {:induction false} UnsubscribeAllKeeps(t: Tables, r: nat, ss: seq<nat>, forward: bool)
    requires Inverse(t) && r in t.relays
    ensures Inverse(UnsubscribeAll(t, r, ss, forward)) && Shrinks(t, UnsubscribeAll(t, r, ss, forward))
    ensures forall s | s in ss :: s !in UnsubscribeAll(t, r, ss, forward).relays[r].subs
  {
    if ss == [] {
    } else {
      var rest, s := ss[..|ss| - 1], ss[|ss| - 1];
      var t1 := UnsubscribeAll(t, r, rest, forward);
      UnsubscribeAllKeeps(t, r, rest, forward);
      UnsubscribeKeeps(t1, r, s, forward);
      UnsubscribeShrinks(t1, r, s, forward);
      hide Inverse, Unsubscribe, CallShrinks;
      ShrinksTwice(t, t1, Unsubscribe(t1, r, s, forward));
    }
  }

  lemma {:induction false} RejectAllKeeps(t: Tables, cs: seq<nat>)
    requires Inverse(t) && forall c :: c in cs ==> c in t.calls
    ensures Inverse(RejectAll(t, cs)) && Shrinks(t, RejectAll(t, cs))
    ensures forall c | c in cs :: !RejectAll(t, cs).calls[c].state.Waiting?
  {
    if cs == [] {
    } else {
      hide Inverse, RejectWaiting, CallShrinks, Shrinks;
      var rest, c := cs[..|cs| - 1], cs[|cs| - 1];
      var t1 := RejectAll(t, rest);
      RejectAllKeeps(t, rest);
      RejectWaitingKeeps(t1, c);
      var t' := RejectWaiting(t1, c);
      ShrinksTwice(t, t1, t');
      forall d | d in rest ensures !t'.calls[d].state.Waiting? {
        NotWaitingAgain(t1, t', d);
      }
    }
  }

  lemma NotWaitingAgain(t: Tables, t': Tables, c: nat)
    requires Shrinks(t, t') && c in t.calls && !t.calls[c].state.Waiting?
    ensures c in t'.calls && !t'.calls[c].state.Waiting?
  {
  }

  /** Cancelling and dropping everything of a relay keeps the tables inverse. */
  lemma UndoKeeps(t: Tables, r: nat, releaseDown: bool, calls: seq<nat>, subs: seq<nat>)
    requires Inverse(t) && r in t.relays && forall c :: c in calls ==> c in t.calls
    requires forall c :: c in t.relays[r].calls.Values ==> c in calls
    requires forall s :: s in t.relays[r].subs ==> s in subs
    ensures Inverse(Undo(t, r, releaseDown, calls, subs)) && Shrinks(t, Undo(t, r, releaseDown, calls, subs))
    ensures Undo(t, r, releaseDown, calls, subs).relays[r].calls == map[]
    ensures Undo(t, r, releaseDown, calls, subs).relays[r].subs == map[]
  {
    assert Found(t);
    hide Inverse, Found, CallShrinks, CancelAll, UnsubscribeAll;
    var t1 := CancelAll(t, calls, releaseDown);
    var t2 := UnsubscribeAll(t1, r, subs, releaseDown);
    CancelAllKeeps(t, calls, releaseDown);
    UnsubscribeAllKeeps(t1, r, subs, releaseDown);
    ShrinksTwice(t, t1, t2);
    NoCallsLeft(t, t1, r, calls);
    SubsGo(t, t1, t2, r, subs);
  }

  lemma SubsGo(t: Tables, t1: Tables, t2: Tables, r: nat, subs: seq<nat>)
    requires Shrinks(t, t2) && Shrinks(t1, t2) && r in t.relays && t1.relays[r].calls == map[]
    requires forall s :: s in t.relays[r].subs ==> s in subs
    requires forall s | s in subs :: s !in t2.relays[r].subs
    ensures t2.relays[r].calls == map[] && t2.relays[r].subs == map[]
  {
    assert RelayShrinks(t1.relays[r], t2.relays[r]) && RelayShrinks(t.relays[r], t2.relays[r]);
    hide Shrinks;
  }

  lemma NoCallsLeft(t: Tables, t1: Tables, r: nat, cs: seq<nat>)
    requires OwnCallsOk(t1) && Shrinks(t, t1) && r in t.relays
    requires forall c :: c in t.relays[r].calls.Values ==> c in cs
    requires forall c | c in cs :: c in t1.calls && !t1.calls[c].state.Sent?
    ensures t1.relays[r].calls == map[]
  {
    forall o: nat ensures o !in t1.relays[r].calls {
      if HasCall(t1, r, o) {
        KeptCallIsListed(t, t1, r, o);
      }
    }
  }

  lemma KeptCallIsListed(t: Tables, t1: Tables, r: nat, o: nat)
    requires OwnCallsOk(t1) && Shrinks(t, t1) && HasCall(t1, r, o)
    ensures IsSent(t1, t1.relays[r].calls[o]) && t1.relays[r].calls[o] in t.relays[r].calls.Values
  {
    assert RelayShrinks(t.relays[r], t1.relays[r]);
  }

  /** Closing keeps the tables inverse, and leaves the relay nothing. */
  lemma CloseKeepsInverse(t: Tables, r: nat, releaseDown: bool, notify: bool, order: Order)
    requires Inverse(t) && Closable(t, r, order) && !t.relays[r].closed
    ensures Inverse(Close(t, r, releaseDown, notify, order))
    ensures Shrinks(Shut(t, r), Close(t, r, releaseDown, notify, order))
    ensures Emptied(Close(t, r, releaseDown, notify, order), r)
  {
    ShutUndone(t, r, releaseDown, order);
    assert forall c | c in t.calls && t.calls[c].relay == r && t.calls[c].state.Waiting? :: c in order.waiting;
    hide Inverse, Shut, Undo, Shrinks, Emptied, Dismiss, Visits;
    var t0 := Shut(t, r);
    var t1 := Undo(t0, r, releaseDown, order.calls, order.subs);
    DismissKeeps(t0, t1, r, t.relays[r], releaseDown, notify, order.waiting);
  }

  lemma ShutUndone(t: Tables, r: nat, releaseDown: bool, order: Order)
    requires Inverse(t) && Closable(t, r, order) && !t.relays[r].closed
    ensures var t0, t1 := Shut(t, r), Undo(Shut(t, r), r, releaseDown, order.calls, order.subs);
            Inverse(t1) && Shrinks(t0, t1) && t1.relays[r].calls == map[] && t1.relays[r].subs == map[]
  {
    var t0 := Shut(t, r);
    ShutKeeps(t, r);
    assert t0.relays[r].calls == t.relays[r].calls && t0.relays[r].subs == t.relays[r].subs;
    hide Inverse, Shut, Undo, Shrinks;
    UndoKeeps(t0, r, releaseDown, order.calls, order.subs);
  }

  lemma DismissKeeps(t0: Tables, t1: Tables, r: nat, relay: Relay, releaseDown: bool, notify: bool, waiting: seq<nat>)
    requires Inverse(t1) && Shrinks(t0, t1) && r in t0.relays
    requires t1.relays[r].calls == map[] && t1.relays[r].subs == map[]
    requires forall c :: c in waiting ==> c in t0.calls
    requires forall c | c in t0.calls && t0.calls[c].relay == r && t0.calls[c].state.Waiting? :: c in waiting
    ensures var t' := Dismiss(t1, relay, releaseDown, notify, waiting);
            Inverse(t') && Shrinks(t0, t') && Emptied(t', r)
  {
    var t2 := PutIf(t1, if releaseDown then relay.down else None, ReleaseFrame(relay.downId));
    PutIfKeeps(t0, t1, if releaseDown then relay.down else None, ReleaseFrame(relay.downId));
    hide Inverse, Shrinks, Emptied, RejectAll;
    RelayGoes(t0, t2, r, waiting);
    var t3 := RejectAll(t2, waiting);
    PutIfKeeps(t0, t3, if notify then Some(relay.origin) else None, GoneFrame(relay.originId));
    StaysEmptied(t3, Dismiss(t1, relay, releaseDown, notify, waiting), r);
  }

  lemma PutIfKeeps(t0: Tables, t: Tables, link: Option<nat>, frame: Frame)
    requires Inverse(t) && Shrinks(t0, t)
    ensures var t' := PutIf(t, link, frame);
            Inverse(t') && Shrinks(t0, t') && t'.relays == t.relays && t'.calls == t.calls
  {
    if link.Some? {
      PutKeeps(t, link.value, frame);
    }
    hide Inverse;
  }

  lemma StaysEmptied(t: Tables, t': Tables, r: nat)
    requires r in t.relays && Emptied(t, r) && t'.relays == t.relays && t'.calls == t.calls
    ensures Emptied(t', r)
  {
  }

  /** The waiters are rejected last. */
  lemma RelayGoes(t0: Tables, t: Tables, r: nat, waiting: seq<nat>)
    requires Shrinks(t0, t) && Inverse(t) && r in t0.relays && t.relays[r].calls == map[] && t.relays[r].subs == map[]
    requires forall c :: c in waiting ==> c in t0.calls
    requires forall c | c in t0.calls && t0.calls[c].relay == r && t0.calls[c].state.Waiting? :: c in waiting
    ensures Inverse(RejectAll(t, waiting)) && Shrinks(t0, RejectAll(t, waiting))
    ensures Emptied(RejectAll(t, waiting), r)
  {
    RejectAllKeeps(t, waiting);
    hide Inverse, RejectAll;
    ShrinksTwice(t0, t, RejectAll(t, waiting));
    NobodyWaits(t0, t, RejectAll(t, waiting), r, waiting);
  }

  lemma NobodyWaits(t0: Tables, t: Tables, t': Tables, r: nat, waiting: seq<nat>)
    requires Shrinks(t0, t') && Shrinks(t, t') && r in t.relays
    requires t.relays[r].calls == map[] && t.relays[r].subs == map[]
    requires forall c | c in t0.calls && t0.calls[c].relay == r && t0.calls[c].state.Waiting? :: c in waiting
    requires forall c | c in waiting && c in t'.calls :: !t'.calls[c].state.Waiting?
    ensures Emptied(t', r)
  {
    assert RelayShrinks(t.relays[r], t'.relays[r]);
    forall c | c in t'.calls && t'.calls[c].relay == r ensures !t'.calls[c].state.Waiting? {
      CallsShrink(t0, t', c);
    }
  }

  // ---------------------------------------------------------------- what closing leaves alone

  predicate SameDoors(t: Tables, t': Tables) {
    t'.served == t.served && t'.relayedHolds == t.relayedHolds && t'.incoming == t.incoming && t'.links == t.links
  }

  lemma CancelDoors(t: Tables, c: nat, forward: bool)
    requires c in t.calls && t.calls[c].relay in t.relays
    ensures SameDoors(t, CancelCall(t, c, forward))
  {
    var down := t.relays[t.calls[c].relay].down;
    if t.calls[c].state.Sent? {
      var t1 := if forward && down.Some? then Put(t, down.value, CancelFrame(t.calls[c].state.downId)) else t;
      FinishDoors(t1, c, Failed);
      hide Finish;
    }
  }

  lemma FinishDoors(t: Tables, c: nat, outcome: Outcome)
    requires c in t.calls && t.calls[c].relay in t.relays
    ensures SameDoors(t, Finish(t, c, outcome))
  {
    hide Without;
  }

  lemma {:induction false} CancelAllDoors(t: Tables, cs: seq<nat>, forward: bool)
    requires Found(t) && forall c :: c in cs ==> c in t.calls
    ensures SameDoors(t, CancelAll(t, cs, forward))
  {
    if cs == [] {
    } else {
      CancelAllDoors(t, cs[..|cs| - 1], forward);
      CancelDoors(CancelAll(t, cs[..|cs| - 1], forward), cs[|cs| - 1], forward);
      hide CancelCall;
    }
  }

  lemma UnsubscribeDoors(t: Tables, r: nat, s: nat, forward: bool)
    requires r in t.relays
    ensures SameDoors(t, Unsubscribe(t, r, s, forward))
  {
    if s in t.relays[r].subs {
      assert SameDoors(t, DropSub(t, r, s)) by {
        hide Without;
      }
      hide DropSub;
    }
  }

  lemma {:induction false} UnsubscribeAllDoors(t: Tables, r: nat, ss: seq<nat>, forward: bool)
    requires r in t.relays
    ensures SameDoors(t, UnsubscribeAll(t, r, ss, forward))
  {
    if ss == [] {
    } else {
      UnsubscribeAllDoors(t, r, ss[..|ss| - 1], forward);
      UnsubscribeDoors(UnsubscribeAll(t, r, ss[..|ss| - 1], forward), r, ss[|ss| - 1], forward);
      hide Unsubscribe;
    }
  }

  lemma {:induction false} RejectAllDoors(t: Tables, cs: seq<nat>)
    requires forall c :: c in cs ==> c in t.calls
    ensures SameDoors(t, RejectAll(t, cs))
  {
    if cs == [] {
    } else {
      RejectAllDoors(t, cs[..|cs| - 1]);
    }
  }

  lemma CloseDoors(t: Tables, r: nat, releaseDown: bool, notify: bool, order: Order)
    requires Closable(t, r, order) && !t.relays[r].closed
    ensures SameDoors(Shut(t, r), Close(t, r, releaseDown, notify, order))
  {
    var relay, t0 := t.relays[r], Shut(t, r);
    CancelAllDoors(t0, order.calls, releaseDown);
    UnsubscribeAllDoors(CancelAll(t0, order.calls, releaseDown), r, order.subs, releaseDown);
    var t1 := Undo(t0, r, releaseDown, order.calls, order.subs);
    assert SameDoors(t0, t1);
    hide Undo, Shut, RejectAll, Visits, Found;
    RejectAllDoors(if relay.down.Some? && releaseDown then Put(t1, relay.down.value, ReleaseFrame(relay.downId))
                   else t1,
                   order.waiting);
  }
}
