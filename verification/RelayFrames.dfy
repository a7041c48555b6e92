/** What a relaying host sends: exactly what changed in its tables, under the ids the tables find it by. */
module RelayFrames {
  import opened Wrappers
  import opened Relays
  import opened RelayInvariant
  import opened RelayOpening
  import opened RelayClosing
  import opened RelaySafety
  import opened RelayTheorems

  /** What is forwarded over a link under an id of this host. */
  datatype Kind = Holding | Subscribing | Calling

  /** The ids of a link under which something is forwarded. */
  function Entries(t: Tables, kind: Kind): set<Key> {
    match kind
    case Holding => t.relayedHolds.Keys
    case Subscribing => t.relayedSubs.Keys
    case Calling => t.relayedCalls.Keys
  }

  function Opening(kind: Kind, k: Key): (nat, Frame) {
    (k.0, match kind case Holding => HoldFrame(k.1) case Subscribing => SubFrame(k.1) case Calling => CallFrame(k.1))
  }

  function Closing(kind: Kind, k: Key): (nat, Frame) {
    (k.0,
     match kind
     case Holding => ReleaseFrame(k.1)
     case Subscribing => UnsubFrame(k.1)
     case Calling => CancelFrame(k.1))
  }

  function Gone(k: Key): (nat, Frame) { (k.0, GoneFrame(k.1)) }

  function KeyOf(message: (nat, Frame)): Key { (message.0, message.1.id) }

  /** The origin of `k` holds a relay under it. */
  predicate Relaying(t: Tables, k: Key) { k in t.served && t.served[k].Relayed? }

  /** What was sent on the way from `t` to `t'`. */
  function News(t: Tables, t': Tables): seq<(nat, Frame)>
    requires t.sent <= t'.sent
  {
    t'.sent[|t.sent|..]
  }

  predicate Once(messages: seq<(nat, Frame)>) {
    forall i, j :: 0 <= i < j < |messages| ==> messages[i] != messages[j]
  }

  predicate KeysOnce(messages: seq<(nat, Frame)>) {
    forall i, j :: 0 <= i < j < |messages| ==> KeyOf(messages[i]) != KeyOf(messages[j])
  }

  /**
   * An id is announced if and only if it was entered. If `loud`, it is withdrawn if and only if its entry went;
   * otherwise nothing is withdrawn. If `notify`, an origin loses a hold under its own id if and only if it held a relay
   * under it. Each is said once.
   */
  ghost predicate Exact(t: Tables, t': Tables, loud: bool, notify: bool) {
    && t.sent <= t'.sent && Once(News(t, t')) && Fresh(t, t')
    && (forall kind, k :: Opening(kind, k) in News(t, t') <==> k in Entries(t', kind) && k !in Entries(t, kind))
    && (forall kind, k ::
          Closing(kind, k) in News(t, t') <==> loud && k in Entries(t, kind) && k !in Entries(t', kind))
    && (forall k :: Gone(k) in News(t, t') <==> notify && Relaying(t, k) && !Relaying(t', k))
  }

  /** Ids are announced that were never used, each for one thing. */
  ghost predicate Fresh(t: Tables, t': Tables)
    requires t.sent <= t'.sent
  {
    && LinksGrow(t, t')
    && (forall kind, k :: Opening(kind, k) in News(t, t') ==> !Used(t, k) && Used(t', k))
    && (forall a, b, k :: Opening(a, k) in News(t, t') && Opening(b, k) in News(t, t') ==> a == b)
  }

  // ---------------------------------------------------------------- opening

  /** Entries are added under ids that were free, and each is announced. */
  ghost predicate Opens(t: Tables, t': Tables) {
    && t.sent <= t'.sent && LinksGrow(t, t') && t'.served == t.served && KeysOnce(News(t, t'))
    && (forall kind :: Entries(t, kind) <= Entries(t', kind))
    && (forall kind, k :: Opening(kind, k) in News(t, t') <==> k in Entries(t', kind) && k !in Entries(t, kind))
    && (forall m :: m in News(t, t') ==> Announces(t, t', m))
  }

  predicate Announces(t: Tables, t': Tables, m: (nat, Frame)) {
    && (m == Opening(Holding, KeyOf(m)) || m == Opening(Subscribing, KeyOf(m)) || m == Opening(Calling, KeyOf(m)))
    && !Used(t, KeyOf(m)) && Used(t', KeyOf(m))
  }

  lemma OpensIsExact(t: Tables, t': Tables, loud: bool, notify: bool)
    requires Opens(t, t')
    ensures Exact(t, t', loud, notify)
  {
    assert forall kind, k :: !Announces(t, t', Closing(kind, k));
    assert forall k :: !Announces(t, t', Gone(k));
    OpensFresh(t, t');
    hide Fresh, Entries, Announces;
  }

  lemma OpensFresh(t: Tables, t': Tables)
    requires Opens(t, t')
    ensures Fresh(t, t')
  {
    hide LinksGrow, Entries, Used;
    assert forall kind, k :: KeyOf(Opening(kind, k)) == k;
    forall a, b, k | Opening(a, k) in News(t, t') && Opening(b, k) in News(t, t') ensures a == b {
      assert KeyOf(Opening(a, k)) == KeyOf(Opening(b, k));
    }
  }

  lemma NewsJoin(t: Tables, t1: Tables, t2: Tables)
    requires t.sent <= t1.sent <= t2.sent
    ensures t.sent <= t2.sent && News(t, t2) == News(t, t1) + News(t1, t2)
  {
  }

  lemma OpensTwice(t: Tables, t1: Tables, t2: Tables)
    requires Opens(t, t1) && Opens(t1, t2)
    ensures Opens(t, t2)
  {
    NewsJoin(t, t1, t2);
    var early, late := News(t, t1), News(t1, t2);
    assert forall k :: (Used(t, k) ==> Used(t1, k)) && (Used(t1, k) ==> Used(t2, k));
    assert forall m :: m in early ==> Announces(t, t1, m);
    assert forall m :: m in late ==> Announces(t1, t2, m);
    assert LinksGrow(t, t2);
    assert forall m :: m in early ==> Used(t1, KeyOf(m));
    hide Entries, Used, LinksGrow;
    KeysOnceJoined(early, late);
  }

  lemma KeysOnceJoined(a: seq<(nat, Frame)>, b: seq<(nat, Frame)>)
    requires KeysOnce(a) && KeysOnce(b) && forall m, n :: m in a && n in b ==> KeyOf(m) != KeyOf(n)
    ensures KeysOnce(a + b)
  {
    forall i, j | 0 <= i < j < |a + b| ensures KeyOf((a + b)[i]) != KeyOf((a + b)[j]) {
      assert i < |a| ==> a[i] in a;
      assert j >= |a| ==> b[j - |a|] in b;
    }
  }

  lemma OnceJoined(a: seq<(nat, Frame)>, b: seq<(nat, Frame)>)
    requires Once(a) && Once(b) && forall m :: m in a ==> m !in b
    ensures Once(a + b)
  {
    forall i, j | 0 <= i < j < |a + b| ensures (a + b)[i] != (a + b)[j] {
      assert i < |a| ==> a[i] in a;
      assert j >= |a| ==> b[j - |a|] in b;
    }
  }

  lemma OneOpening(t: Tables, t': Tables, kind: Kind, k: Key)
    requires LinksGrow(t, t') && t'.served == t.served && t'.sent == t.sent + [Opening(kind, k)]
    requires !Used(t, k) && Used(t', k) && k !in Entries(t, kind)
    requires forall other :: Entries(t', other) == if other == kind then Entries(t, other) + {k} else Entries(t, other)
    ensures Opens(t, t')
  {
    assert News(t, t') == [Opening(kind, k)];
    hide LinksGrow, Entries, Used;
  }

  lemma NothingOpened(t: Tables, t': Tables)
    requires LinksGrow(t, t') && t'.served == t.served && t'.sent == t.sent
    requires forall kind :: Entries(t', kind) == Entries(t, kind)
    ensures Opens(t, t')
  {
    assert News(t, t') == [];
  }

  lemma EntriesAreUsed(t: Tables, kind: Kind, k: Key)
    requires LinkIdsOk(t) && CallIdsOk(t) && k in Entries(t, kind)
    ensures Used(t, k)
  {
  }

  lemma NextIsFree(t: Tables, d: nat, kind: Kind)
    requires LinkIdsOk(t) && CallIdsOk(t)
    ensures !Used(t, (d, NextId(t, d))) && (d, NextId(t, d)) !in Entries(t, kind)
  {
    if (d, NextId(t, d)) in Entries(t, kind) {
      EntriesAreUsed(t, kind, (d, NextId(t, d)));
    }
  }

  lemma RouteTells(t: Tables, r: nat, d: nat)
    requires LinkIdsOk(t) && CallIdsOk(t) && r in t.relays && d in t.links
    ensures Opens(t, Route(t, r, d))
  {
    NextIsFree(t, d, Holding);
    OneOpening(t, Route(t, r, d), Holding, (d, NextId(t, d)));
  }

  lemma ForwardSubTells(t: Tables, r: nat, s: nat)
    requires LinkIdsOk(t) && CallIdsOk(t) && r in t.relays && t.relays[r].down.Some?
    ensures Opens(t, ForwardSub(t, r, s))
  {
    var d := t.relays[r].down.value;
    NextIsFree(t, d, Subscribing);
    OneOpening(t, ForwardSub(t, r, s), Subscribing, (d, NextId(t, d)));
  }

  lemma ForwardCallTells(t: Tables, c: nat)
    requires LinkIdsOk(t) && CallIdsOk(t) && c in t.calls && t.calls[c].relay in t.relays
    ensures Opens(t, ForwardCall(t, c))
  {
    var relay := t.relays[t.calls[c].relay];
    if relay.closed || relay.down.None? {
      NothingOpened(t, ForwardCall(t, c));
    } else {
      GoesUnder(t, c);
      var d := relay.down.value;
      NextIsFree(t, d, Calling);
      hide ForwardCall, LinkIdsOk, CallIdsOk;
      OneOpening(t, ForwardCall(t, c), Calling, (d, NextId(t, d)));
    }
  }

  lemma GoesUnder(t: Tables, c: nat)
    requires c in t.calls && t.calls[c].relay in t.relays
    requires !t.relays[t.calls[c].relay].closed && t.relays[t.calls[c].relay].down.Some?
    ensures var t', d := ForwardCall(t, c), t.relays[t.calls[c].relay].down.value;
            && t'.links == UseId(t.links, d) && t'.sent == t.sent + [Opening(Calling, (d, NextId(t, d)))]
            && t'.relayedCalls == t.relayedCalls[(d, NextId(t, d)) := c] && t'.served == t.served
            && t'.relayedHolds == t.relayedHolds && t'.relayedSubs == t.relayedSubs
  {
  }

  lemma {:induction false} ForwardAllTells(t: Tables, r: nat, ss: seq<nat>)
    requires Inverse(t) && r in t.relays && t.relays[r].down.Some?
    requires forall s :: s in ss ==> HasSub(t, r, s) && t.relays[r].subs[s].None?
    requires forall i, j :: 0 <= i < j < |ss| ==> ss[i] != ss[j]
    ensures Opens(t, ForwardAll(t, r, ss))
  {
    hide Inverse, Opens;
    if ss == [] {
      NothingOpened(t, t);
    } else {
      var rest, s := ss[..|ss| - 1], ss[|ss| - 1];
      var t1 := ForwardAll(t, r, rest);
      ForwardAllTells(t, r, rest);
      ForwardAllKeeps(t, r, rest);
      IdsAreOk(t1);
      ForwardSubTells(t1, r, s);
      OpensTwice(t, t1, ForwardSub(t1, r, s));
    }
  }

  lemma IdsAreOk(t: Tables)
    requires Inverse(t)
    ensures LinkIdsOk(t) && CallIdsOk(t)
  {
  }

  lemma OpenTells(t: Tables, r: nat, d: nat, ss: seq<nat>)
    requires Safe(t) && Legal(t, OpenStep(r, d, ss))
    ensures Opens(t, Open(t, r, d, ss))
  {
    Routes(t, r, d, ss);
    ForwardsQueue(t, r, d, ss);
    hide Safe, Opens, ForwardAll, Route, ListsQueue, Wake;
    var t2 := ForwardAll(Route(t, r, d), r, ss);
    WakeTells(t2, r);
    OpensTwice(t, t2, Wake(t2, r));
  }

  lemma WakeTells(t: Tables, r: nat)
    ensures Opens(t, Wake(t, r))
  {
    NothingOpened(t, Wake(t, r));
    hide Opens;
  }

  lemma ForwardsQueue(t: Tables, r: nat, d: nat, ss: seq<nat>)
    requires r in t.relays && ListsQueue(t, r, ss) && Inverse(Route(t, r, d)) && Opens(t, Route(t, r, d))
    requires forall s :: s in ss ==> HasSub(Route(t, r, d), r, s) && Route(t, r, d).relays[r].subs[s].None?
    ensures Opens(t, ForwardAll(Route(t, r, d), r, ss))
  {
    hide Inverse, Opens, HasSub, ForwardAll;
    ForwardAllTells(Route(t, r, d), r, ss);
    OpensTwice(t, Route(t, r, d), ForwardAll(Route(t, r, d), r, ss));
  }

  lemma Routes(t: Tables, r: nat, d: nat, ss: seq<nat>)
    requires Safe(t) && Legal(t, OpenStep(r, d, ss))
    ensures Inverse(Route(t, r, d)) && Opens(t, Route(t, r, d))
    ensures forall s :: s in ss ==> HasSub(Route(t, r, d), r, s) && Route(t, r, d).relays[r].subs[s].None?
  {
    IdsAreOk(t);
    assert forall s | s in t.relays[r].subs :: t.relays[r].subs[s].None? by { QueueIsUnsent(t, r); }
    hide Inverse, Opens, Flags, LinkIdsOk, CallIdsOk;
    RouteTells(t, r, d);
    RouteKeeps(t, r, d);
  }

  lemma SubTells(t: Tables, r: nat, s: nat)
    requires LinkIdsOk(t) && CallIdsOk(t) && r in t.relays
    ensures Opens(t, Subscribe(t, r, s))
  {
    var t1 := Queue(t, r, s);
    NothingOpened(t, t1);
    if t.relays[r].down.Some? {
      ForwardSubTells(t1, r, s);
      hide Opens;
      OpensTwice(t, t1, ForwardSub(t1, r, s));
    }
  }

  // ---------------------------------------------------------------- closing

  /** Entries go, and each is withdrawn if `loud`. */
  ghost predicate Closes(t: Tables, t': Tables, loud: bool) {
    && t.sent <= t'.sent && t'.served == t.served && t'.relayedHolds == t.relayedHolds && t'.links == t.links
    && Once(News(t, t'))
    && (forall kind :: Entries(t', kind) <= Entries(t, kind))
    && (forall m :: m in News(t, t') ==> Withdraws(m))
    && (forall kind, k ::
          Closing(kind, k) in News(t, t') <==> loud && k in Entries(t, kind) && k !in Entries(t', kind))
  }

  predicate Withdraws(m: (nat, Frame)) { m == Closing(Subscribing, KeyOf(m)) || m == Closing(Calling, KeyOf(m)) }

  lemma ClosesTwice(t: Tables, t1: Tables, t2: Tables, loud: bool)
    requires Closes(t, t1, loud) && Closes(t1, t2, loud)
    ensures Closes(t, t2, loud)
  {
    NewsJoin(t, t1, t2);
    var early, late := News(t, t1), News(t1, t2);
    forall m | m in early ensures m !in late {
      assert m == Closing(Subscribing, KeyOf(m)) || m == Closing(Calling, KeyOf(m));
    }
    hide Entries, Withdraws;
    OnceJoined(early, late);
  }

  lemma OneClosing(t: Tables, t': Tables, kind: Kind, k: Key, loud: bool)
    requires kind != Holding && t'.served == t.served && t'.relayedHolds == t.relayedHolds && t'.links == t.links
    requires t'.sent == if loud then t.sent + [Closing(kind, k)] else t.sent
    requires k in Entries(t, kind)
    requires forall other :: Entries(t', other) == if other == kind then Entries(t, other) - {k} else Entries(t, other)
    ensures Closes(t, t', loud)
  {
    assert News(t, t') == if loud then [Closing(kind, k)] else [];
    hide Entries;
  }

  lemma NothingClosed(t: Tables, t': Tables, loud: bool)
    requires t'.served == t.served && t'.sent == t.sent && t'.relayedHolds == t.relayedHolds && t'.links == t.links
    requires forall kind :: Entries(t', kind) == Entries(t, kind)
    ensures Closes(t, t', loud)
  {
    assert News(t, t') == [];
  }

  lemma FinishTells(t: Tables, c: nat, outcome: Outcome)
    requires CallsOk(t) && c in t.calls && t.calls[c].relay in t.relays
    ensures Closes(t, Finish(t, c, outcome), false)
  {
    var t', call := Finish(t, c, outcome), t.calls[c];
    if call.state.Sent? {
      assert IsSent(t, c);
      OneClosing(t, t', Calling, (t.relays[call.relay].down.value, call.state.downId), false);
    } else {
      NothingClosed(t, t', false);
    }
  }

  lemma CancelTells(t: Tables, c: nat, forward: bool)
    requires CallsOk(t) && c in t.calls && t.calls[c].relay in t.relays
    ensures Closes(t, CancelCall(t, c, forward), forward)
  {
    var t', call := CancelCall(t, c, forward), t.calls[c];
    if call.state.Sent? {
      assert IsSent(t, c);
      OneClosing(t, t', Calling, (t.relays[call.relay].down.value, call.state.downId), forward);
    } else {
      NothingClosed(t, t', forward);
    }
  }

  lemma UnsubscribeTells(t: Tables, r: nat, s: nat, forward: bool)
    requires ForwardedOk(t) && r in t.relays
    ensures Closes(t, Unsubscribe(t, r, s, forward), forward)
  {
    var t', relay := Unsubscribe(t, r, s, forward), t.relays[r];
    if HasSub(t, r, s) && relay.subs[s].Some? {
      assert SubAt(t, r, s) == relay.subs[s];
      OneClosing(t, t', Subscribing, (relay.down.value, relay.subs[s].value), forward);
    } else {
      NothingClosed(t, t', forward);
    }
  }

  lemma {:induction false} CancelAllTells(t: Tables, cs: seq<nat>, forward: bool)
    requires Inverse(t) && Found(t) && forall c :: c in cs ==> c in t.calls
    ensures Closes(t, CancelAll(t, cs, forward), forward)
  {
    hide Inverse, Closes, Shrinks;
    if cs == [] {
      NothingClosed(t, t, forward);
    } else {
      var rest, c := cs[..|cs| - 1], cs[|cs| - 1];
      var t1 := CancelAll(t, rest, forward);
      CancelAllTells(t, rest, forward);
      CancelAllKeeps(t, rest, forward);
      CallSideIs(t1);
      CancelTells(t1, c, forward);
      ClosesTwice(t, t1, CancelCall(t1, c, forward), forward);
    }
  }

  lemma CallSideIs(t: Tables)
    requires Inverse(t)
    ensures CallsOk(t) && ForwardedOk(t)
  {
  }

  lemma {:induction false} UnsubscribeAllTells(t: Tables, r: nat, ss: seq<nat>, forward: bool)
    requires Inverse(t) && r in t.relays
    ensures Closes(t, UnsubscribeAll(t, r, ss, forward), forward)
  {
    hide Inverse, Closes, Shrinks;
    if ss == [] {
      NothingClosed(t, t, forward);
    } else {
      var rest, s := ss[..|ss| - 1], ss[|ss| - 1];
      var t1 := UnsubscribeAll(t, r, rest, forward);
      UnsubscribeAllTells(t, r, rest, forward);
      UnsubscribeAllKeeps(t, r, rest, forward);
      CallSideIs(t1);
      UnsubscribeTells(t1, r, s, forward);
      ClosesTwice(t, t1, Unsubscribe(t1, r, s, forward), forward);
    }
  }

  lemma UndoTells(t: Tables, r: nat, loud: bool, calls: seq<nat>, subs: seq<nat>)
    requires Inverse(t) && Found(t) && r in t.relays && forall c :: c in calls ==> c in t.calls
    ensures Closes(t, Undo(t, r, loud, calls, subs), loud)
  {
    hide Inverse, Closes, Shrinks;
    var t1 := CancelAll(t, calls, loud);
    CancelAllTells(t, calls, loud);
    CancelAllKeeps(t, calls, loud);
    UnsubscribeAllTells(t1, r, subs, loud);
    ClosesTwice(t, t1, UnsubscribeAll(t1, r, subs, loud), loud);
  }

  lemma {:induction false} RejectAllTells(t: Tables, cs: seq<nat>)
    requires forall c :: c in cs ==> c in t.calls
    ensures RejectAll(t, cs) == t.(calls := RejectAll(t, cs).calls, settlements := RejectAll(t, cs).settlements)
  {
    if cs == [] {
    } else {
      RejectAllTells(t, cs[..|cs| - 1]);
    }
  }

  function SentIf(link: Option<nat>, frame: Frame): seq<(nat, Frame)> {
    if link.Some? then [(link.value, frame)] else []
  }

  /** What a closing relay says last. */
  function Farewell(relay: Relay, releaseDown: bool, notify: bool): seq<(nat, Frame)> {
    SentIf(if releaseDown then relay.down else None, ReleaseFrame(relay.downId))
    + SentIf(if notify then Some(relay.origin) else None, GoneFrame(relay.originId))
  }

  lemma DismissSends(t: Tables, relay: Relay, releaseDown: bool, notify: bool, waiting: seq<nat>)
    requires forall c :: c in waiting ==> c in t.calls
    ensures var t' := Dismiss(t, relay, releaseDown, notify, waiting);
            && t'.sent == t.sent + Farewell(relay, releaseDown, notify) && t'.served == t.served && t'.links == t.links
            && t'.relayedHolds == t.relayedHolds && t'.relayedSubs == t.relayedSubs && t'.relayedCalls == t.relayedCalls
  {
    var release := SentIf(if releaseDown then relay.down else None, ReleaseFrame(relay.downId));
    var t1 := t.(sent := t.sent + release);
    assert PutIf(t, if releaseDown then relay.down else None, ReleaseFrame(relay.downId)) == t1;
    RejectAllTells(t1, waiting);
    hide RejectAll;
  }

  lemma ShutLeaves(t: Tables, r: nat)
    requires ServedOk(t) && HoldsOk(t) && r in t.relays && !t.relays[r].closed
    ensures var t0, relay := Shut(t, r), t.relays[r];
            && t0.sent == t.sent && t0.links == t.links
            && (forall kind | kind != Holding :: Entries(t0, kind) == Entries(t, kind))
            && (forall k :: k in Entries(t, Holding) && k !in Entries(t0, Holding)
                            <==> relay.down == Some(k.0) && relay.downId == k.1)
            && (forall k :: Relaying(t, k) && !Relaying(t0, k) <==> k == OriginKey(relay))
            && Entries(t0, Holding) <= Entries(t, Holding)
  {
  }

  lemma CloseTells(t: Tables, r: nat, releaseDown: bool, notify: bool, order: Order)
    requires Inverse(t) && Closable(t, r, order) && !t.relays[r].closed
    ensures Exact(t, Close(t, r, releaseDown, notify, order), releaseDown, notify)
  {
    var t0, relay := Shut(t, r), t.relays[r];
    ShutKeeps(t, r);
    ShutLeaves(t, r);
    hide Inverse, Shut, Closes, Exact;
    UndoTells(t0, r, releaseDown, order.calls, order.subs);
    var t1 := Undo(t0, r, releaseDown, order.calls, order.subs);
    DismissSends(t1, relay, releaseDown, notify, order.waiting);
    hide Dismiss;
    Dismissed(t, t0, t1, Close(t, r, releaseDown, notify, order), relay, releaseDown, notify);
  }

  lemma Dismissed(t: Tables, t0: Tables, t1: Tables, t': Tables, relay: Relay, loud: bool, notify: bool)
    requires Closes(t0, t1, loud) && t0.sent == t.sent && t0.links == t.links && t'.links == t1.links
    requires forall kind | kind != Holding :: Entries(t0, kind) == Entries(t, kind)
    requires forall k :: k in Entries(t, Holding) && k !in Entries(t0, Holding)
                         <==> relay.down == Some(k.0) && relay.downId == k.1
    requires Entries(t0, Holding) <= Entries(t, Holding)
    requires forall k :: Relaying(t, k) && !Relaying(t0, k) <==> k == OriginKey(relay)
    requires t'.served == t1.served && t'.sent == t1.sent + Farewell(relay, loud, notify)
    requires t'.relayedHolds == t1.relayedHolds && t'.relayedSubs == t1.relayedSubs
             && t'.relayedCalls == t1.relayedCalls
    ensures Exact(t, t', loud, notify)
  {
    hide LinksGrow, Farewell, Used;
    var end := Farewell(relay, loud, notify);
    assert News(t, t') == News(t0, t1) + end;
    assert forall k :: Relaying(t', k) <==> Relaying(t0, k);
    assert Undoes(News(t0, t1));
    assert forall kind :: Entries(t', kind) <= Entries(t, kind) by { StaysSmaller(t, t0, t1, t', loud); }
    FarewellIs(relay, loud, notify);
    LastWords(News(t0, t1), end);
    Withdrawn(t, t0, t1, t', relay, loud, News(t0, t1) + end);
    hide Closes, Undoes, Entries, Relaying, Once;
    NothingFresh(t, t');
    hide Fresh;
  }

  lemma StaysSmaller(t: Tables, t0: Tables, t1: Tables, t': Tables, loud: bool)
    requires Closes(t0, t1, loud) && forall kind :: Entries(t0, kind) <= Entries(t, kind)
    requires t'.relayedHolds == t1.relayedHolds && t'.relayedSubs == t1.relayedSubs
             && t'.relayedCalls == t1.relayedCalls
    ensures forall kind :: Entries(t', kind) == Entries(t1, kind) && Entries(t', kind) <= Entries(t, kind)
  {
    assert forall kind :: Entries(t', kind) == Entries(t1, kind);
    hide Entries, Once, LinksGrow;
  }

  lemma Withdrawn(t: Tables, t0: Tables, t1: Tables, t': Tables, relay: Relay, loud: bool, news: seq<(nat, Frame)>)
    requires Closes(t0, t1, loud)
    requires t'.relayedHolds == t1.relayedHolds && t'.relayedSubs == t1.relayedSubs
             && t'.relayedCalls == t1.relayedCalls
    requires forall kind | kind != Holding :: Entries(t0, kind) == Entries(t, kind)
    requires forall k :: k in Entries(t, Holding) && k !in Entries(t0, Holding)
                         <==> relay.down == Some(k.0) && relay.downId == k.1
    requires forall k :: Closing(Holding, k) in news <==> loud && relay.down == Some(k.0) && relay.downId == k.1
    requires forall k, kind | kind != Holding :: Closing(kind, k) in news <==> Closing(kind, k) in News(t0, t1)
    ensures forall kind, k :: Closing(kind, k) in news <==> loud && k in Entries(t, kind) && k !in Entries(t', kind)
  {
    assert forall kind :: Entries(t', kind) == Entries(t1, kind);
    assert Entries(t', Holding) == Entries(t0, Holding);
    hide Entries, Once, Withdraws;
  }

  predicate Undoes(news: seq<(nat, Frame)>) { Once(news) && forall m :: m in news ==> Withdraws(m) }

  lemma LastWords(news: seq<(nat, Frame)>, end: seq<(nat, Frame)>)
    requires Undoes(news) && Once(end) && forall m :: m in end ==> !Withdraws(m)
    ensures Once(news + end)
    ensures forall kind, k :: Opening(kind, k) in news + end <==> Opening(kind, k) in end
    ensures forall k :: Closing(Holding, k) in news + end <==> Closing(Holding, k) in end
    ensures forall k, kind | kind != Holding :: Closing(kind, k) in news + end <==> Closing(kind, k) in news
    ensures forall k :: Gone(k) in news + end <==> Gone(k) in end
  {
    assert forall kind, k :: !Withdraws(Opening(kind, k));
    assert forall k :: !Withdraws(Closing(Holding, k)) && !Withdraws(Gone(k));
    assert forall k, kind | kind != Holding :: Withdraws(Closing(kind, k));
    hide Withdraws;
    OnceJoined(news, end);
    hide Once;
  }

  lemma NothingFresh(t: Tables, t': Tables)
    requires t.sent <= t'.sent && t'.links == t.links && forall kind, k :: Opening(kind, k) !in News(t, t')
    ensures Fresh(t, t')
  {
  }

  lemma FarewellIs(relay: Relay, loud: bool, notify: bool)
    ensures var end := Farewell(relay, loud, notify);
            && Once(end) && (forall m :: m in end ==> !Withdraws(m))
            && (forall kind, k :: Opening(kind, k) !in end)
            && (forall k :: Closing(Holding, k) in end <==> loud && relay.down == Some(k.0) && relay.downId == k.1)
            && (forall k :: Gone(k) in end <==> notify && k == OriginKey(relay))
  {
  }

  // ---------------------------------------------------------------- every step

  /** The other side is told what goes; a result or a lost hold it knows of itself. */
  predicate Loud(step: Step) {
    step.CancelStep? || step.UnsubStep? || (step.CloseStep? && step.releaseDown)
  }

  predicate Notifies(step: Step) { step.CloseStep? && step.notify }

  lemma ClosesIsExact(t: Tables, t': Tables, loud: bool, notify: bool)
    requires Closes(t, t', loud)
    ensures Exact(t, t', loud, notify)
  {
    assert forall kind, k :: !Withdraws(Opening(kind, k));
    assert forall k :: !Withdraws(Gone(k));
    hide Entries, Withdraws, Used;
    assert LinksGrow(t, t');
  }

  lemma SilentIsExact(t: Tables, t': Tables, loud: bool)
    requires t'.sent == t.sent && LinksGrow(t, t') && forall kind :: Entries(t', kind) == Entries(t, kind)
    ensures Exact(t, t', loud, false)
  {
    assert News(t, t') == [];
    hide LinksGrow, Used;
    hide Entries;
  }

  /**
   * Whatever happens on a relaying host, it sends exactly what the step changed: a hold, subscription or call goes out
   * under the id it is entered under, a release, unsub or cancel under the id its entry had, and an origin hears of a
   * lost hold under its own id.
   */
  lemma StepIsExact(t: Tables, step: Step)
    requires Safe(t) && Legal(t, step) && Possible(t, step)
    ensures Exact(t, Apply(t, step), Loud(step), Notifies(step))
  {
    hide *;
    match step
    case OpenStep(_, _, _) => OpeningIsExact(t, step);
    case SubStep(_, _, _) => OpeningIsExact(t, step);
    case GoOn(_) => OpeningIsExact(t, step);
    case UnsubStep(_, _) => ClosingIsExact(t, step);
    case ResultStep(_, _, _) => ClosingIsExact(t, step);
    case CancelStep(_, _) => ClosingIsExact(t, step);
    case CloseStep(_, _, _, _) => CloseStepTells(t, step);
    case Connect(x) => ConnectIsSilent(t, x);
    case _ => OtherStepsAreSilent(t, step);
  }

  lemma ConnectIsSilent(t: Tables, x: nat)
    requires Legal(t, Connect(x)) && Possible(t, Connect(x))
    ensures Exact(t, Apply(t, Connect(x)), Loud(Connect(x)), Notifies(Connect(x)))
  {
    hide Exact;
    SilentIsExact(t, Apply(t, Connect(x)), false);
  }

  lemma OtherStepsAreSilent(t: Tables, step: Step)
    requires Possible(t, step)
    requires step.HoldStep? || step.LocalHold? || step.LocalDrop? || step.CallStep? || step.Reap?
             || step.Revoke? || step.LinkDown?
    ensures Exact(t, Apply(t, step), Loud(step), Notifies(step))
  {
    hide Exact;
    SilentIsExact(t, Apply(t, step), Loud(step));
  }

  lemma OpeningIsExact(t: Tables, step: Step)
    requires Safe(t) && Legal(t, step) && Possible(t, step) && (step.OpenStep? || step.SubStep? || step.GoOn?)
    ensures Exact(t, Apply(t, step), Loud(step), Notifies(step))
  {
    assert Opens(t, Apply(t, step)) by {
      hide *;
      match step
      case OpenStep(r, d, ss) => OpenStepTells(t, step);
      case SubStep(_, _, _) => SubStepTells(t, step);
      case GoOn(_) => GoOnTells(t, step);
    }
    hide *;
    OpensIsExact(t, Apply(t, step), Loud(step), Notifies(step));
  }

  lemma OpenStepTells(t: Tables, step: Step)
    requires Safe(t) && Legal(t, step) && Possible(t, step) && step.OpenStep?
    ensures Opens(t, Apply(t, step))
  {
    hide Safe, Opens, Open;
    OpenTells(t, step.r, step.d, step.ss);
  }

  lemma SubStepTells(t: Tables, step: Step)
    requires Safe(t) && Possible(t, step) && step.SubStep?
    ensures Opens(t, Apply(t, step))
  {
    hide Inverse, Flags, Opens, LinkIdsOk, CallIdsOk, Subscribe;
    IdsAreOk(t);
    var r := RelayServed(t, step.o, step.hold).value;
    assert r in t.relays && Apply(t, step) == Subscribe(t, r, step.s);
    hide *;
    SubTells(t, r, step.s);
  }

  lemma GoOnTells(t: Tables, step: Step)
    requires Safe(t) && Possible(t, step) && step.GoOn?
    ensures Opens(t, Apply(t, step))
  {
    hide Inverse, Flags, Opens, LinkIdsOk, CallIdsOk, ForwardCall;
    IdsAreOk(t);
    assert step.c in t.calls && t.calls[step.c].relay in t.relays && Apply(t, step) == ForwardCall(t, step.c);
    hide *;
    ForwardCallTells(t, step.c);
  }

  lemma ClosingIsExact(t: Tables, step: Step)
    requires Safe(t) && Legal(t, step) && Possible(t, step)
    requires step.UnsubStep? || step.ResultStep? || step.CancelStep?
    ensures Exact(t, Apply(t, step), Loud(step), Notifies(step))
  {
    assert Closes(t, Apply(t, step), Loud(step)) by {
      hide *;
      match step
      case UnsubStep(_, _) => UnsubStepTells(t, step);
      case ResultStep(_, _, _) => ResultStepTells(t, step);
      case CancelStep(_, _) => CancelStepTells(t, step);
    }
    hide *;
    ClosesIsExact(t, Apply(t, step), Loud(step), Notifies(step));
  }

  lemma UnsubStepTells(t: Tables, step: Step)
    requires Safe(t) && Possible(t, step) && step.UnsubStep?
    ensures Closes(t, Apply(t, step), Loud(step))
  {
    hide Inverse, Flags, Closes, ForwardedOk, CallsOk, Unsubscribe;
    CallSideIs(t);
    var r := t.relaySubs[(step.o, step.s)];
    assert r in t.relays && Loud(step) && Apply(t, step) == Unsubscribe(t, r, step.s, true);
    hide *;
    UnsubscribeTells(t, r, step.s, true);
  }

  lemma ResultStepTells(t: Tables, step: Step)
    requires Safe(t) && Possible(t, step) && step.ResultStep?
    ensures Closes(t, Apply(t, step), Loud(step))
  {
    hide Inverse, Flags, Closes, ForwardedOk, CallsOk, Finish;
    CallSideIs(t);
    var c := t.relayedCalls[(step.d, step.id)];
    assert c in t.calls && t.calls[c].relay in t.relays && !Loud(step) && Apply(t, step) == Finish(t, c, step.outcome);
    hide *;
    FinishTells(t, c, step.outcome);
  }

  lemma CancelStepTells(t: Tables, step: Step)
    requires Safe(t) && Possible(t, step) && step.CancelStep?
    ensures Closes(t, Apply(t, step), Loud(step))
  {
    hide Inverse, Flags, Closes, ForwardedOk, CallsOk, CancelArrives;
    CallSideIs(t);
    var c := t.incoming[(step.o, step.id)];
    assert c in t.calls && t.calls[c].relay in t.relays && Loud(step) && Apply(t, step) == CancelArrives(t, c);
    hide *;
    CancelArrivesTells(t, c);
  }

  lemma CancelArrivesTells(t: Tables, c: nat)
    requires CallsOk(t) && c in t.calls && t.calls[c].relay in t.relays
    ensures Closes(t, CancelArrives(t, c), true)
  {
    CancelTells(t, c, true);
    NothingClosed(t, Fail(t, c), true);
    hide Closes, CancelCall, Fail;
  }

  lemma NothingSaid(t: Tables, loud: bool, notify: bool)
    ensures Exact(t, t, loud, notify)
  {
    assert News(t, t) == [];
  }

  lemma CloseStepTells(t: Tables, step: Step)
    requires Safe(t) && Legal(t, step) && Possible(t, step) && step.CloseStep?
    ensures Exact(t, Apply(t, step), Loud(step), Notifies(step))
  {
    hide Inverse, Flags;
    if t.relays[step.r].closed {
      NothingSaid(t, Loud(step), Notifies(step));
    } else {
      hide Exact, Close;
      CloseTells(t, step.r, step.releaseDown, step.notify, step.order);
    }
  }

  // ---------------------------------------------------------------- every run

  /**
   * What a host has sent, against its tables: every entry was announced and none that was withdrawn is left; an id was
   * announced for one thing; nothing is withdrawn that was not announced before; nothing but a lost hold is said twice.
   */
  ghost predicate Told(t: Tables) {
    && (forall kind, k :: k in Entries(t, kind) ==> Opening(kind, k) in t.sent)
    && (forall kind, k :: Opening(kind, k) in t.sent ==> Used(t, k))
    && (forall a, b, k :: Opening(a, k) in t.sent && Opening(b, k) in t.sent ==> a == b)
    && (forall kind, k :: Closing(kind, k) in t.sent ==> k !in Entries(t, kind) && Opening(kind, k) in t.sent)
    && InOrder(t.sent) && SaidOnce(t.sent)
  }

  /** A withdrawal comes after its announcement. */
  ghost predicate InOrder(sent: seq<(nat, Frame)>) {
    forall i, kind, k :: 0 <= i < |sent| && sent[i] == Closing(kind, k) ==> Opening(kind, k) in sent[..i]
  }

  ghost predicate SaidOnce(sent: seq<(nat, Frame)>) {
    forall i, j :: 0 <= i < j < |sent| && !sent[i].1.GoneFrame? ==> sent[i] != sent[j]
  }

  lemma StepTells(t: Tables, t': Tables, loud: bool, notify: bool)
    requires Told(t) && Exact(t, t', loud, notify)
    ensures Told(t')
  {
    var news := News(t, t');
    assert t'.sent == t.sent + news;
    assert forall k :: Used(t, k) ==> Used(t', k);
    hide Used, LinksGrow, Entries;
    StaysInOrder(t.sent, news);
    SaysOnce(t, t', loud, notify);
    hide InOrder, SaidOnce, Once;
  }

  lemma StaysInOrder(sent: seq<(nat, Frame)>, news: seq<(nat, Frame)>)
    requires InOrder(sent) && forall kind, k :: Closing(kind, k) in news ==> Opening(kind, k) in sent
    ensures InOrder(sent + news)
  {
    forall i, kind, k | 0 <= i < |sent + news| && (sent + news)[i] == Closing(kind, k)
      ensures Opening(kind, k) in (sent + news)[..i]
    {
      if i < |sent| {
        assert (sent + news)[..i] == sent[..i];
      } else {
        assert news[i - |sent|] == Closing(kind, k);
        assert sent <= (sent + news)[..i];
      }
    }
  }

  lemma SaysOnce(t: Tables, t': Tables, loud: bool, notify: bool)
    requires Told(t) && Exact(t, t', loud, notify)
    ensures SaidOnce(t.sent + News(t, t'))
  {
    hide Used, LinksGrow, Entries, InOrder;
    var sent: seq<(nat, Frame)>, news: seq<(nat, Frame)> := t.sent, News(t, t');
    var all: seq<(nat, Frame)> := sent + news;
    forall i, j | 0 <= i < j < |all| && !all[i].1.GoneFrame? ensures all[i] != all[j]
    {
      if i < |sent| <= j && sent[i] == news[j - |sent|] {
        assert sent[i] in sent && sent[i] in news;
        NotAgain(t, t', loud, notify, sent[i]);
      }
    }
  }

  lemma NotAgain(t: Tables, t': Tables, loud: bool, notify: bool, m: (nat, Frame))
    requires Told(t) && Exact(t, t', loud, notify) && m in t.sent && m in News(t, t')
    ensures m.1.GoneFrame?
  {
    var k := KeyOf(m);
    assert m in [Opening(Holding, k), Opening(Subscribing, k), Opening(Calling, k),
                 Closing(Holding, k), Closing(Subscribing, k), Closing(Calling, k), Gone(k)];
    hide Used, LinksGrow, Entries, InOrder, SaidOnce;
  }

  /**
   * In every run of a host: what its links were told agrees with what its tables find.
   */
  lemma {:induction false} SentAgreesWithTables(steps: seq<Step>, t: Tables)
    requires RunsTo(steps, NoTables, t)
    ensures Told(t)
    decreases |steps|
  {
    if steps == [] {
    } else {
      hide Safe, Legal, Possible, Apply, Told, Exact;
      var rest, last := steps[..|steps| - 1], steps[|steps| - 1];
      var t0 :| RunsTo(rest, NoTables, t0) && Follows(t0, last, t);
      SentAgreesWithTables(rest, t0);
      HostsAreSafe(rest, t0);
      StepIsExact(t0, last);
      StepTells(t0, t, Loud(last), Notifies(last));
    }
  }

  /** So a call, subscription or hold that went on did so once, on the link and under the id its tables find it by. */
  lemma ForwardedUnderTheirIds(steps: seq<Step>, t: Tables)
    requires RunsTo(steps, NoTables, t)
    ensures forall c | IsSent(t, c) ::
              t.relays[t.calls[c].relay].down.Some?
              && (t.relays[t.calls[c].relay].down.value, CallFrame(t.calls[c].state.downId)) in t.sent
    ensures forall r: nat, s: nat | SubAt(t, r, s).Some? ::
              t.relays[r].down.Some? && (t.relays[r].down.value, SubFrame(SubAt(t, r, s).value)) in t.sent
    ensures forall r | r in t.relays && !t.relays[r].closed && t.relays[r].down.Some? ::
              (t.relays[r].down.value, HoldFrame(t.relays[r].downId)) in t.sent
    ensures SaidOnce(t.sent)
  {
    SentAgreesWithTables(steps, t);
    HostsAreSafe(steps, t);
    CallSideIs(t);
    assert HoldsOk(t);
    assert SaidOnce(t.sent);
    hide RunsTo, Safe, Told, SaidOnce, CallsOk, ForwardedLead, ForwardedFound, HoldsOk;
    forall c | IsSent(t, c)
      ensures t.relays[t.calls[c].relay].down.Some?
      ensures (t.relays[t.calls[c].relay].down.value, CallFrame(t.calls[c].state.downId)) in t.sent
    {
      CallIsEntered(t, c);
    }
    forall r: nat, s: nat | SubAt(t, r, s).Some?
      ensures t.relays[r].down.Some? && (t.relays[r].down.value, SubFrame(SubAt(t, r, s).value)) in t.sent
    {
      SubIsEntered(t, r, s);
    }
    forall r | r in t.relays && !t.relays[r].closed && t.relays[r].down.Some?
      ensures (t.relays[r].down.value, HoldFrame(t.relays[r].downId)) in t.sent
    {
      HoldIsEntered(t, r);
    }
  }

  lemma EntryWasAnnounced(t: Tables, kind: Kind, k: Key)
    requires Told(t) && k in Entries(t, kind)
    ensures Opening(kind, k) in t.sent
  {
  }

  lemma CallIsEntered(t: Tables, c: nat)
    requires CallsOk(t) && Told(t) && IsSent(t, c)
    ensures t.relays[t.calls[c].relay].down.Some?
    ensures (t.relays[t.calls[c].relay].down.value, CallFrame(t.calls[c].state.downId)) in t.sent
  {
    hide Told;
    var k := (t.relays[t.calls[c].relay].down.value, t.calls[c].state.downId);
    assert k in Entries(t, Calling);
    hide CallsOk, Entries;
    EntryWasAnnounced(t, Calling, k);
  }

  lemma SubIsEntered(t: Tables, r: nat, s: nat)
    requires ForwardedFound(t) && Told(t) && SubAt(t, r, s).Some?
    ensures t.relays[r].down.Some?
    ensures (t.relays[r].down.value, SubFrame(SubAt(t, r, s).value)) in t.sent
  {
    hide Told;
    var k := (t.relays[r].down.value, SubAt(t, r, s).value);
    assert k in Entries(t, Subscribing);
    hide ForwardedFound, Entries;
    EntryWasAnnounced(t, Subscribing, k);
  }

  lemma HoldIsEntered(t: Tables, r: nat)
    requires HoldsOk(t) && Told(t) && r in t.relays && !t.relays[r].closed && t.relays[r].down.Some?
    ensures (t.relays[r].down.value, HoldFrame(t.relays[r].downId)) in t.sent
  {
    hide Told;
    var k := (t.relays[r].down.value, t.relays[r].downId);
    assert k in Entries(t, Holding);
    hide HoldsOk, Entries;
    EntryWasAnnounced(t, Holding, k);
  }
}
