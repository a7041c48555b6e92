/**
 * Roots on one host: how long a root keeps its leases on records.
 *
 * `Host` is what the source keeps (counts per epoch, local and foreign roots, the links a root came over and went out
 * on). `Ledger` is what it is for: calls in flight, links that brought a root and have not let go, and leases that
 * end exactly when both are gone. The first is proved to compute the second.
 */
module Roots {
  import opened Wrappers

  // ---------------------------------------------------------------- what the host keeps

  /** Every epoch ever retained, with its roots and the number of their calls running here. */
  type Counts = map<nat, map<nat, nat>>

  datatype Host = Host(
    counts: Counts,
    retained: set<nat>,
    local: set<nat>,
    foreign: map<nat, set<nat>>,
    /** The records each root leases. */
    touches: map<nat, set<nat>>,
    rootLinks: map<nat, set<nat>>,
    /** The `root_end` frames sent: link and root. */
    told: multiset<(nat, nat)>)

  const NewHost: Host := Host(map[1 := map[]], {1}, {}, map[], map[], map[], multiset{})

  function At(m: map<nat, set<nat>>, r: nat): set<nat> { if r in m then m[r] else {} }

  function Add(m: map<nat, set<nat>>, r: nat, x: nat): map<nat, set<nat>> { m[r := At(m, r) + {x}] }

  predicate In(c: Counts, e: nat, r: nat) { e in c && r in c[e] }

  /** The host looks for running calls in the epochs it retains. */
  predicate Running(h: Host, r: nat) { exists e :: e in h.retained && In(h.counts, e, r) }

  function Entered(c: Counts, e: nat, r: nat): Counts
    requires e in c
  {
    var calls: nat := (if r in c[e] then c[e][r] else 0) + 1;
    var one: map<nat, nat> := c[e][r := calls];
    c[e := one]
  }

  function Left(c: Counts, e: nat, r: nat): Counts
    requires In(c, e, r)
  {
    if c[e][r] > 1 then
      var calls: nat := c[e][r] - 1;
      var one: map<nat, nat> := c[e][r := calls];
      c[e := one]
    else c[e := c[e] - {r}]
  }

  function FramesOn(links: set<nat>, r: nat): set<(nat, nat)> { set l | l in links :: (l, r) }

  function Frames(m: map<nat, set<nat>>, r: nat): set<(nat, nat)> { FramesOn(At(m, r), r) }

  lemma NoFrames(r: nat)
    ensures FramesOn({}, r) == {}
  {
  }

  lemma OneMoreFrame(links: set<nat>, link: nat, r: nat)
    requires link !in links
    ensures multiset(FramesOn(links + {link}, r)) == multiset(FramesOn(links, r)) + multiset{(link, r)}
  {
    var frames := FramesOn(links, r);
    assert FramesOn(links + {link}, r) == frames + {(link, r)};
    assert (link, r) !in frames;
  }

  function EndRoot(h: Host, r: nat): Host {
    h.(local := h.local - {r}, foreign := h.foreign - {r}, touches := h.touches - {r}, rootLinks := h.rootLinks - {r},
       told := h.told + multiset(Frames(h.rootLinks, r)))
  }

  /** A call of root `r` begins here, in epoch `e`; `from` is the link it came over, if any. */
  function Join(h: Host, r: nat, e: nat, from: Option<nat>): Host {
    if e !in h.retained || e !in h.counts then h.(local := h.local - {r})
    else
      h.(counts := Entered(h.counts, e, r),
         foreign := if from.Some? && r !in h.local then Add(h.foreign, r, from.value) else h.foreign)
  }

  function Start(h: Host, r: nat, e: nat): Host { Join(h.(local := h.local + {r}), r, e, None) }

  /** A call of root `r` settles. */
  function Finish(h: Host, r: nat, e: nat): Host
    requires In(h.counts, e, r)
  {
    var rest := h.(counts := Left(h.counts, e, r));
    if h.counts[e][r] > 1 || r in h.foreign then rest else EndRoot(rest, r)
  }

  function Touch(h: Host, r: nat, record: nat): Host { h.(touches := Add(h.touches, r, record)) }

  function SendOn(h: Host, r: nat, link: nat): Host { h.(rootLinks := Add(h.rootLinks, r, link)) }

  /** `link` announced the end of root `r`, or closed. */
  function LinkEnds(h: Host, r: nat, link: nat): Host {
    if link !in At(h.foreign, r) then h
    else if h.foreign[r] != {link} then h.(foreign := h.foreign[r := h.foreign[r] - {link}])
    else if Running(h, r) then h.(foreign := h.foreign - {r})
    else EndRoot(h, r)
  }

  /** Drops an epoch from the retained ones. Its calls, if any still run, go on. */
  function Drop(h: Host, e: nat): Host { h.(retained := h.retained - {e}) }

  function Retain(h: Host, e: nat): Host
    requires e !in h.counts
  {
    h.(counts := h.counts[e := map[]], retained := h.retained + {e})
  }

  /** After its roots ended, a closed link is forgotten. */
  function Forget(h: Host, link: nat): Host {
    h.(rootLinks := map r | r in h.rootLinks :: h.rootLinks[r] - {link})
  }

  // ---------------------------------------------------------------- what it is for

  /**
   * The account the host is meant to keep: calls in flight by root, the links that brought a foreign root and have not
   * let go of it, the leases, the links a root went out on, and the links told of its end.
   */
  datatype Ledger = Ledger(
    epochs: set<nat>,
    started: set<nat>,
    calls: map<nat, nat>,
    carriers: map<nat, set<nat>>,
    leases: map<nat, set<nat>>,
    sentOn: map<nat, set<nat>>,
    told: multiset<(nat, nat)>)

  const NewLedger: Ledger := Ledger({1}, {}, map[], map[], map[], map[], multiset{})

  predicate Alive(g: Ledger, r: nat) { r in g.calls || r in g.carriers }

  /** The announcements due: a root that is no longer alive went out on a link. */
  function Owed(g: Ledger): set<(nat, nat)> {
    set r, l | r in g.sentOn && l in g.sentOn[r] && !Alive(g, r) :: (l, r)
  }

  /** The roots that are not alive: their leases end, and the links they went out on are told once. */
  function Settle(g: Ledger): Ledger {
    g.(leases := map r | r in g.leases && Alive(g, r) :: g.leases[r],
       sentOn := map r | r in g.sentOn && Alive(g, r) :: g.sentOn[r],
       told := g.told + multiset(Owed(g)))
  }

  function CallBegins(g: Ledger, r: nat): Ledger {
    var calls: nat := (if r in g.calls then g.calls[r] else 0) + 1;
    g.(calls := g.calls[r := calls])
  }

  function CallEnds(g: Ledger, r: nat): Ledger
    requires r in g.calls
  {
    if g.calls[r] > 1 then
      var left: nat := g.calls[r] - 1;
      g.(calls := g.calls[r := left])
    else g.(calls := g.calls - {r})
  }

  /** A link brings a root; a root that started here stays a root of this host. */
  function Brought(g: Ledger, r: nat, link: nat): Ledger {
    if r in g.started then g else g.(carriers := Add(g.carriers, r, link))
  }

  function LetGo(g: Ledger, r: nat, link: nat): Ledger {
    if link !in At(g.carriers, r) then g
    else if g.carriers[r] == {link} then g.(carriers := g.carriers - {r})
    else g.(carriers := g.carriers[r := g.carriers[r] - {link}])
  }

  // ---------------------------------------------------------------- steps

  datatype Op =
    | OpStart(r: nat, e: nat)
    | OpJoin(r: nat, e: nat, link: nat)
    | OpFinish(r: nat, e: nat)
    | OpTouch(r: nat, record: nat)
    | OpSend(r: nat, link: nat)
    | OpLinkEnds(r: nat, link: nat)
    | OpForget(link: nat)
    | OpDrop(e: nat)
    | OpRetain(e: nat)

  /**
   * What structured calls give: a root starts once, runs in one epoch, leases and sends only from a running call, and
   * comes back to its own host only while its call there waits. An epoch is dropped when none of its roots runs.
   */
  predicate Legal(h: Host, g: Ledger, op: Op) {
    match op
    case OpStart(r, e) => r !in g.started && !Alive(g, r)
    case OpJoin(r, e, link) => (r in g.calls ==> In(h.counts, e, r)) && (r in g.started ==> r in g.calls)
    case OpFinish(r, e) => In(h.counts, e, r)
    case OpTouch(r, record) => r in g.calls
    case OpSend(r, link) => r in g.calls
    case OpLinkEnds(r, link) => true
    case OpForget(link) => true
    case OpDrop(e) => e in h.counts ==> h.counts[e] == map[]
    case OpRetain(e) => e !in h.counts
  }

  function Do(h: Host, op: Op): Host
    requires op.OpFinish? ==> In(h.counts, op.e, op.r)
    requires op.OpRetain? ==> op.e !in h.counts
  {
    match op
    case OpStart(r, e) => Start(h, r, e)
    case OpJoin(r, e, link) => Join(h, r, e, Some(link))
    case OpFinish(r, e) => Finish(h, r, e)
    case OpTouch(r, record) => Touch(h, r, record)
    case OpSend(r, link) => SendOn(h, r, link)
    case OpLinkEnds(r, link) => LinkEnds(h, r, link)
    case OpForget(link) => Forget(h, link)
    case OpDrop(e) => Drop(h, e)
    case OpRetain(e) => Retain(h, e)
  }

  function Note(g: Ledger, op: Op): Ledger
    requires op.OpFinish? ==> op.r in g.calls
  {
    match op
    case OpStart(r, e) =>
      var begun := g.(started := g.started + {r});
      if e in g.epochs then CallBegins(begun, r) else begun
    case OpJoin(r, e, link) => if e in g.epochs then Brought(CallBegins(g, r), r, link) else g
    case OpFinish(r, e) => Settle(CallEnds(g, r))
    case OpTouch(r, record) => g.(leases := Add(g.leases, r, record))
    case OpSend(r, link) => g.(sentOn := Add(g.sentOn, r, link))
    case OpLinkEnds(r, link) => Settle(LetGo(g, r, link))
    case OpForget(link) => g.(sentOn := map r | r in g.sentOn :: g.sentOn[r] - {link})
    case OpDrop(e) => g.(epochs := g.epochs - {e})
    case OpRetain(e) => g.(epochs := g.epochs + {e})
  }

  // ---------------------------------------------------------------- the host keeps the account

  /** The counts of all epochs, dropped ones included, add up to the calls in flight; a root runs in one epoch. */
  ghost predicate Tallies(c: Counts, calls: map<nat, nat>) {
    && (forall e, r :: In(c, e, r) ==> 0 < c[e][r] && r in calls && calls[r] == c[e][r])
    && (forall e, d, r :: In(c, e, r) && In(c, d, r) ==> e == d)
    && (forall r :: r in calls ==> exists e :: In(c, e, r))
  }

  ghost predicate SameAccount(h: Host, g: Ledger) {
    && h.retained == g.epochs <= h.counts.Keys
    && h.foreign == g.carriers && h.touches == g.leases && h.rootLinks == g.sentOn && h.told == g.told
    && (forall r :: r in h.local <==> r in g.started && r in g.calls)
    && (forall r :: r in h.foreign ==> r !in g.started && h.foreign[r] != {})
    && (forall r :: r in g.leases || r in g.sentOn ==> Alive(g, r))
  }

  /** No call runs in a dropped epoch. */
  ghost predicate NoneLeftBehind(c: Counts, retained: set<nat>) { forall e, r :: In(c, e, r) ==> e in retained }

  ghost predicate Tracks(h: Host, g: Ledger) {
    Tallies(h.counts, g.calls) && SameAccount(h, g) && NoneLeftBehind(h.counts, h.retained)
  }

  lemma NothingToSettle(g: Ledger)
    requires forall r :: r in g.leases || r in g.sentOn ==> Alive(g, r)
    ensures Settle(g) == g
  {
    assert Owed(g) == {};
    assert multiset(Owed(g)) == multiset{};
  }

  lemma OwedByOne(m: map<nat, set<nat>>, g: Ledger, r: nat)
    requires m == g.sentOn && !Alive(g, r)
    requires forall q :: q in g.sentOn ==> q == r || Alive(g, q)
    ensures Owed(g) == Frames(m, r)
  {
    hide Alive;
    forall p | p in Frames(m, r) ensures p in Owed(g) {
      assert p.0 in g.sentOn[r];
    }
  }

  /** When root `r` alone has ended, settling is what ending that root does. */
  lemma SettleOne(h: Host, g: Ledger, r: nat)
    requires h.touches == g.leases && h.rootLinks == g.sentOn && h.told == g.told
    requires forall q :: q in g.leases || q in g.sentOn ==> q == r || Alive(g, q)
    requires !Alive(g, r)
    ensures EndRoot(h, r).touches == Settle(g).leases && EndRoot(h, r).rootLinks == Settle(g).sentOn
    ensures EndRoot(h, r).told == Settle(g).told
  {
    OwedByOne(h.rootLinks, g, r);
    hide Owed, Frames, Alive;
  }

  /** Everything but the end of root `r` is accounted for, and the root is no longer alive: ending it settles. */
  lemma EndRootAccounts(h: Host, g: Ledger, r: nat)
    requires h.retained == g.epochs <= h.counts.Keys
    requires h.touches == g.leases && h.rootLinks == g.sentOn && h.told == g.told
    requires h.foreign - {r} == g.carriers && !Alive(g, r)
    requires forall q | q != r :: q in h.local <==> q in g.started && q in g.calls
    requires forall q :: q in g.carriers ==> q !in g.started && g.carriers[q] != {}
    requires forall q :: q in g.leases || q in g.sentOn ==> q == r || Alive(g, q)
    ensures SameAccount(EndRoot(h, r), Settle(g))
  {
    SettleOne(h, g, r);
    hide Owed, Frames;
    var h', g' := EndRoot(h, r), Settle(g);
    assert forall q :: Alive(g', q) <==> Alive(g, q);
    assert forall q :: q in g'.leases || q in g'.sentOn ==> Alive(g, q);
  }

  lemma EnteredTallies(c: Counts, g: Ledger, e: nat, r: nat)
    requires Tallies(c, g.calls) && e in c
    requires r in g.calls ==> In(c, e, r)
    ensures Tallies(Entered(c, e, r), CallBegins(g, r).calls)
    ensures forall d, q :: In(Entered(c, e, r), d, q) <==> In(c, d, q) || (d == e && q == r)
  {
    var c', calls := Entered(c, e, r), CallBegins(g, r).calls;
    assert forall d, q :: In(c', d, q) <==> In(c, d, q) || (d == e && q == r);
    forall q | q in calls
      ensures exists d :: In(c', d, q)
    {
      if q == r {
        assert In(c', e, r);
      } else {
        var d :| In(c, d, q);
        assert In(c', d, q);
      }
    }
  }

  lemma LeftTallies(c: Counts, g: Ledger, e: nat, r: nat)
    requires Tallies(c, g.calls) && In(c, e, r)
    ensures Tallies(Left(c, e, r), CallEnds(g, r).calls)
    ensures forall d, q :: In(Left(c, e, r), d, q) ==> In(c, d, q)
  {
    var c', calls := Left(c, e, r), CallEnds(g, r).calls;
    assert forall d, q :: In(c', d, q) ==> In(c, d, q) && (q == r ==> d == e && c[e][r] > 1);
    forall q | q in calls
      ensures exists d :: In(c', d, q)
    {
      var d :| In(c, d, q);
      assert In(c', d, q);
    }
  }

  lemma StartTracks(h: Host, g: Ledger, r: nat, e: nat)
    requires Tracks(h, g) && Legal(h, g, OpStart(r, e))
    ensures Tracks(Start(h, r, e), Note(g, OpStart(r, e)))
  {
    if e in h.retained {
      EnteredTallies(h.counts, g, e, r);
    } else {
      assert Start(h, r, e) == h;
    }
  }

  lemma JoinTracks(h: Host, g: Ledger, r: nat, e: nat, link: nat)
    requires Tracks(h, g) && Legal(h, g, OpJoin(r, e, link))
    ensures Tracks(Join(h, r, e, Some(link)), Note(g, OpJoin(r, e, link)))
  {
    if e in h.retained {
      EnteredTallies(h.counts, g, e, r);
    } else {
      assert r !in h.local;
      assert Join(h, r, e, Some(link)) == h;
    }
  }

  lemma FinishTracks(h: Host, g: Ledger, r: nat, e: nat)
    requires Tracks(h, g) && Legal(h, g, OpFinish(r, e))
    ensures r in g.calls
    ensures Tracks(Finish(h, r, e), Note(g, OpFinish(r, e)))
  {
    LeftTallies(h.counts, g, e, r);
    FinishAccounts(h, g, r, e);
    hide *;
  }

  lemma FinishAccounts(h: Host, g: Ledger, r: nat, e: nat)
    requires SameAccount(h, g) && In(h.counts, e, r) && 0 < h.counts[e][r]
    requires r in g.calls && g.calls[r] == h.counts[e][r]
    ensures SameAccount(Finish(h, r, e), Settle(CallEnds(g, r)))
  {
    hide Settle, EndRoot;
    var mid, rest := CallEnds(g, r), h.(counts := Left(h.counts, e, r));
    assert rest.counts.Keys == h.counts.Keys;
    if Alive(mid, r) {
      NothingToSettle(mid);
    } else {
      EndRootAccounts(rest, mid, r);
    }
  }

  lemma RunningIffCalls(h: Host, g: Ledger, r: nat)
    requires Tracks(h, g)
    ensures Running(h, r) <==> r in g.calls
  {
    hide SameAccount;
  }

  lemma LinkEndsTracks(h: Host, g: Ledger, r: nat, link: nat)
    requires Tracks(h, g)
    ensures Tracks(LinkEnds(h, r, link), Note(g, OpLinkEnds(r, link)))
  {
    hide Tallies, SameAccount, NoneLeftBehind, Running, Owed, Alive;
    RunningIffCalls(h, g, r);
    LinkEndsAccounts(h, g, r, link);
    assert LinkEnds(h, r, link).counts == h.counts && LinkEnds(h, r, link).retained == h.retained;
  }

  lemma LinkEndsAccounts(h: Host, g: Ledger, r: nat, link: nat)
    requires SameAccount(h, g)
    requires Running(h, r) <==> r in g.calls
    ensures SameAccount(LinkEnds(h, r, link), Settle(LetGo(g, r, link)))
  {
    hide Settle, EndRoot, Running;
    var mid := LetGo(g, r, link);
    if link !in At(g.carriers, r) || Alive(mid, r) {
      NothingToSettle(mid);
    } else {
      EndRootAccounts(h, mid, r);
    }
  }

  lemma LeaseTracks(h: Host, g: Ledger, r: nat, x: nat)
    requires Tracks(h, g) && r in g.calls
    ensures Tracks(Touch(h, r, x), Note(g, OpTouch(r, x))) && Tracks(SendOn(h, r, x), Note(g, OpSend(r, x)))
  {
    hide Tallies, NoneLeftBehind;
  }

  lemma ForgetTracks(h: Host, g: Ledger, link: nat)
    requires Tracks(h, g)
    ensures Tracks(Forget(h, link), Note(g, OpForget(link)))
  {
    hide Tallies, NoneLeftBehind;
  }

  lemma DropTracks(h: Host, g: Ledger, e: nat)
    requires Tracks(h, g) && Legal(h, g, OpDrop(e))
    ensures Tracks(Drop(h, e), Note(g, OpDrop(e)))
  {
    hide Tallies;
  }

  lemma RetainTracks(h: Host, g: Ledger, e: nat)
    requires Tracks(h, g) && e !in h.counts
    ensures Tracks(Retain(h, e), Note(g, OpRetain(e)))
  {
    var h' := Retain(h, e);
    assert forall d, q :: In(h'.counts, d, q) <==> In(h.counts, d, q);
    assert Tallies(h'.counts, g.calls);
    hide Tallies;
  }

  lemma StepTracks(h: Host, g: Ledger, op: Op)
    requires Tracks(h, g) && Legal(h, g, op)
    ensures op.OpFinish? ==> op.r in g.calls
    ensures Tracks(Do(h, op), Note(g, op))
  {
    hide Tracks, Start, Join, Finish, LinkEnds, Touch, SendOn, Forget, Drop, Retain, Note;
    match op
    case OpStart(r, e) => StartTracks(h, g, r, e);
    case OpJoin(r, e, link) => JoinTracks(h, g, r, e, link);
    case OpFinish(r, e) => FinishTracks(h, g, r, e);
    case OpTouch(r, record) => LeaseTracks(h, g, r, record);
    case OpSend(r, link) => LeaseTracks(h, g, r, link);
    case OpLinkEnds(r, link) => LinkEndsTracks(h, g, r, link);
    case OpForget(link) => ForgetTracks(h, g, link);
    case OpDrop(e) => DropTracks(h, g, e);
    case OpRetain(e) => RetainTracks(h, g, e);
  }

  // ---------------------------------------------------------------- every run

  /** `(h, g)` is where some run of legal steps leads. */
  ghost predicate RunsTo(ops: seq<Op>, h: Host, g: Ledger)
    decreases |ops|
  {
    if ops == [] then h == NewHost && g == NewLedger
    else
      var op := ops[|ops| - 1];
      exists h0, g0 :: RunsTo(ops[..|ops| - 1], h0, g0) && Follows(h0, g0, op, h, g)
  }

  predicate Follows(h0: Host, g0: Ledger, op: Op, h: Host, g: Ledger) {
    && Legal(h0, g0, op)
    && (op.OpFinish? ==> op.r in g0.calls)
    && h == Do(h0, op) && g == Note(g0, op)
  }

  /**
   * In every run of structured calls the leases a host keeps, and the links it still owes an announcement, are those of
   * the roots that are alive: a call runs here, or a link that brought the root has neither announced its end nor
   * closed.
   */
  lemma {:induction false} LeasesAreOfLivingRoots(ops: seq<Op>, h: Host, g: Ledger)
    requires RunsTo(ops, h, g)
    ensures Tracks(h, g)
    ensures h.touches == g.leases && h.told == g.told
    ensures forall r :: r in h.touches || r in h.rootLinks ==> Alive(g, r)
    decreases |ops|
  {
    if ops != [] {
      var op := ops[|ops| - 1];
      var h0, g0 :| RunsTo(ops[..|ops| - 1], h0, g0) && Follows(h0, g0, op, h, g);
      LeasesAreOfLivingRoots(ops[..|ops| - 1], h0, g0);
      StepTracks(h0, g0, op);
    }
  }

  /** A closed link: `order` lists the roots it brought, each of which it now lets go of; then it is forgotten. */
  function EndAll(h: Host, order: seq<nat>, link: nat): Host {
    if order == [] then h else LinkEnds(EndAll(h, order[..|order| - 1], link), order[|order| - 1], link)
  }

  function NoteAll(g: Ledger, order: seq<nat>, link: nat): Ledger {
    if order == [] then g
    else Note(NoteAll(g, order[..|order| - 1], link), OpLinkEnds(order[|order| - 1], link))
  }

  lemma NoteAllLetsGo(g: Ledger, r: nat, link: nat)
    ensures forall q :: link in At(Note(g, OpLinkEnds(r, link)).carriers, q) <==> link in At(g.carriers, q) && q != r
  {
    assert Note(g, OpLinkEnds(r, link)).carriers == LetGo(g, r, link).carriers;
    hide Note;
  }

  lemma {:induction false} EndAllTracks(h: Host, g: Ledger, order: seq<nat>, link: nat)
    requires Tracks(h, g)
    ensures Tracks(EndAll(h, order, link), NoteAll(g, order, link))
    ensures forall r :: link in At(NoteAll(g, order, link).carriers, r) ==> link in At(g.carriers, r) && r !in order
  {
    hide Note, Tracks, At, LinkEnds;
    if order != [] {
      var rest, last := order[..|order| - 1], order[|order| - 1];
      EndAllTracks(h, g, rest, link);
      LinkEndsTracks(EndAll(h, rest, link), NoteAll(g, rest, link), last, link);
      NoteAllLetsGo(NoteAll(g, rest, link), last, link);
      assert order == rest + [last];
    }
  }

  /** After a link closed, whatever the order its roots were visited in, it keeps no root alive and is told of none. */
  lemma ClosedLinkLetsGo(h: Host, g: Ledger, order: seq<nat>, link: nat)
    requires Tracks(h, g)
    requires forall r :: link in At(h.foreign, r) ==> r in order
    ensures Tracks(Forget(EndAll(h, order, link), link), Note(NoteAll(g, order, link), OpForget(link)))
    ensures forall r :: link !in At(Forget(EndAll(h, order, link), link).foreign, r)
    ensures forall r :: link !in At(Forget(EndAll(h, order, link), link).rootLinks, r)
  {
    EndAllTracks(h, g, order, link);
    ForgetTracks(EndAll(h, order, link), NoteAll(g, order, link), link);
    hide EndAll, NoteAll, Tallies, NoneLeftBehind;
  }

  /** A link that never brought the root, or that names a root started here, ends nothing. */
  lemma OnlyACarrierEndsARoot(ops: seq<Op>, h: Host, g: Ledger, r: nat, link: nat)
    requires RunsTo(ops, h, g)
    requires r in g.started || link !in At(g.carriers, r)
    ensures LinkEnds(h, r, link) == h
  {
    LeasesAreOfLivingRoots(ops, h, g);
  }

  /** A root that started here and comes back over a link stays local, and ends with its last call here. */
  lemma ReentryStaysLocal(ops: seq<Op>, h: Host, g: Ledger, r: nat, e: nat, link: nat)
    requires RunsTo(ops, h, g) && r in h.local && In(h.counts, e, r)
    ensures r in Join(h, r, e, Some(link)).local && r !in Join(h, r, e, Some(link)).foreign
    ensures h.counts[e][r] == 1 ==> r !in Finish(h, r, e).touches
  {
    LeasesAreOfLivingRoots(ops, h, g);
  }

  /**
   * Without the premise on dropped epochs: a retirement deadline drops an epoch whose roots still run. When the last
   * link that brought such a root lets go, its leases end although its call is in flight, and exactly then.
   */
  lemma ForcedRetirementEndsLeasesEarly(h: Host, g: Ledger, r: nat, link: nat)
    requires Tallies(h.counts, g.calls) && SameAccount(h, g)
    requires At(g.carriers, r) == {link} && r in g.leases
    ensures LinkEnds(h, r, link).touches != Note(g, OpLinkEnds(r, link)).leases
            <==> r in g.calls && forall e :: In(h.counts, e, r) ==> e !in h.retained
  {
    var mid := LetGo(g, r, link);
    if r in g.calls {
      NothingToSettle(mid);
      var e :| In(h.counts, e, r);
      assert r in Settle(mid).leases;
    } else {
      SettleOne(h, mid, r);
    }
  }

  /** Such a state is reached: epoch 1 is dropped while a call of the root that link 7 brought runs in it. */
  lemma ForcedRetirementReached() returns (h: Host, g: Ledger)
    ensures Tallies(h.counts, g.calls) && SameAccount(h, g) && 5 in g.calls && 5 in h.touches
            && 5 !in LinkEnds(h, 5, 7).touches
  {
    var h4, g4 := LeasedRoot();
    h, g := Drop(h4, 1), Note(g4, OpDrop(1));
    DropLeavesTallies(h4, g4, 1);
    assert !Running(h, 5);
    hide Tallies, SameAccount;
  }

  lemma DropLeavesTallies(h: Host, g: Ledger, e: nat)
    requires Tallies(h.counts, g.calls) && SameAccount(h, g)
    ensures Tallies(Drop(h, e).counts, Note(g, OpDrop(e)).calls) && SameAccount(Drop(h, e), Note(g, OpDrop(e)))
  {
    hide Tallies;
  }

  /** A root that link 7 brought runs in epoch 1 and leases a record. */
  lemma LeasedRoot() returns (h: Host, g: Ledger)
    ensures Tracks(h, g) && 5 in g.calls && 5 in h.touches && h.counts == map[1 := map[5 := 1], 2 := map[]]
    ensures h.foreign == map[5 := {7}]
  {
    NewHostTracks();
    var h2 := NewHost.(counts := map[1 := map[], 2 := map[]], retained := {1, 2});
    var h3 := h2.(counts := map[1 := map[5 := 1], 2 := map[]], foreign := map[5 := {7}]);
    h := h3.(touches := map[5 := {9}]);
    assert Do(NewHost, OpRetain(2)) == h2;
    assert Do(h2, OpJoin(5, 1, 7)) == h3 by { assert {} + {7} == {7}; }
    assert Do(h3, OpTouch(5, 9)) == h by { assert {} + {9} == {9}; }
    var g2 := Note(NewLedger, OpRetain(2));
    var g3 := Note(g2, OpJoin(5, 1, 7));
    g := Note(g3, OpTouch(5, 9));
    assert Legal(h2, g2, OpJoin(5, 1, 7)) && 5 in g3.calls;
    hide Tracks, Do;
    StepTracks(NewHost, NewLedger, OpRetain(2));
    StepTracks(h2, g2, OpJoin(5, 1, 7));
    StepTracks(h3, g3, OpTouch(5, 9));
  }

  lemma NewHostTracks()
    ensures Tracks(NewHost, NewLedger)
  {
  }
}
