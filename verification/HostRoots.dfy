/** The root bookkeeping of a host as the source performs it: field by field, in place. */
module HostRoots {
  import opened Wrappers
  import opened Roots

  class RootTable {
    var counts: Counts
    var retained: set<nat>
    var local: set<nat>
    var foreign: map<nat, set<nat>>
    var touches: map<nat, set<nat>>
    var rootLinks: map<nat, set<nat>>
    var told: multiset<(nat, nat)>

    ghost function Model(): Host
      reads this
    {
      Host(counts, retained, local, foreign, touches, rootLinks, told)
    }

    ghost predicate Valid()
      reads this
    {
      && retained <= counts.Keys
      && (forall r :: r in foreign ==> foreign[r] != {})
    }

    constructor ()
      ensures Valid() && Model() == NewHost
    {
      counts, retained, local, foreign := map[1 := map[]], {1}, {}, map[];
      touches, rootLinks, told := map[], map[], multiset{};
    }

    /** The entry of `joinRoot`: whether the epoch is retained, and if so the root counted in it. */
    method JoinRoot(r: nat, e: nat, from: Option<nat>) returns (joined: bool)
      requires Valid()
      modifies this
      ensures Valid() && Model() == Join(old(Model()), r, e, from)
      ensures joined == (e in old(retained))
    {
      if e !in retained {
        local := local - {r};
        return false;
      }
      if from.Some? && r !in local {
        var links := if r in foreign then foreign[r] else {};
        foreign := foreign[r := links + {from.value}];
      }
      var calls: nat := 1;
      if r in counts[e] {
        calls := counts[e][r] + 1;
      }
      var one: map<nat, nat> := counts[e][r := calls];
      counts := counts[e := one];
      return true;
    }

    method StartRoot(r: nat, e: nat) returns (joined: bool)
      requires Valid()
      modifies this
      ensures Valid() && Model() == Start(old(Model()), r, e)
      ensures joined == (e in old(retained))
    {
      local := local + {r};
      joined := JoinRoot(r, e, None);
    }

    /** The `finally` of `joinRoot`. */
    method CallSettled(r: nat, e: nat)
      requires Valid() && In(counts, e, r) && 0 < counts[e][r]
      modifies this
      ensures Valid() && Model() == Finish(old(Model()), r, e)
    {
      var count := counts[e][r] - 1;
      if count > 0 {
        var left: nat := count;
        var one: map<nat, nat> := counts[e][r := left];
        counts := counts[e := one];
      } else {
        counts := counts[e := counts[e] - {r}];
        if r !in foreign {
          EndRoot(r);
        }
      }
    }

    method EndRoot(r: nat)
      requires Valid()
      modifies this
      ensures Valid() && Model() == Roots.EndRoot(old(Model()), r)
    {
      hide FramesOn;
      local := local - {r};
      foreign := foreign - {r};
      touches := touches - {r};
      Announce(r);
      rootLinks := rootLinks - {r};
    }

    /** Sends `root_end` once on each link the root went out on. */
    method Announce(r: nat)
      modifies this`told
      ensures told == old(told) + multiset(Frames(rootLinks, r))
    {
      hide FramesOn;
      var links := if r in rootLinks then rootLinks[r] else {};
      ghost var sent := {};
      NoFrames(r);
      while links != {}
        invariant sent + links == At(rootLinks, r) && sent !! links
        invariant told == old(told) + multiset(FramesOn(sent, r))
      {
        var link :| link in links;
        OneMoreFrame(sent, link, r);
        told := told + multiset{(link, r)};
        links, sent := links - {link}, sent + {link};
      }
      assert sent == At(rootLinks, r);
    }

    method ForeignRootEnded(r: nat, link: nat)
      requires Valid()
      modifies this
      ensures Valid() && Model() == LinkEnds(old(Model()), r, link)
    {
      if r !in foreign || link !in foreign[r] {
        return;
      }
      var links := foreign[r] - {link};
      if links != {} {
        foreign := foreign[r := links];
        return;
      }
      var epochs, running := retained, false;
      while epochs != {}
        invariant epochs <= retained
        invariant running <==> exists e :: e in retained - epochs && In(counts, e, r)
        modifies {}
      {
        var e :| e in epochs;
        ghost var seen := retained - epochs;
        running := running || (e in counts && r in counts[e]);
        epochs := epochs - {e};
        assert retained - epochs == seen + {e};
      }
      if running {
        foreign := foreign - {r};
      } else {
        EndRoot(r);
      }
    }

    /** The link closed: it lets go of every root it brought, and no root waits to tell it anything. */
    method ConnectionClosed(link: nat) returns (ghost order: seq<nat>)
      requires Valid()
      modifies this
      ensures Valid() && Model() == Forget(EndAll(old(Model()), order, link), link)
      ensures forall r :: link in At(old(foreign), r) ==> r in order
    {
      var visit := foreign.Keys;
      order := [];
      while visit != {}
        invariant Valid() && Model() == EndAll(old(Model()), order, link)
        invariant visit <= old(foreign).Keys
        invariant forall r :: r in old(foreign).Keys - visit && link in old(foreign)[r] ==> r in order
        invariant forall r :: r in visit ==> r in foreign && foreign[r] == old(foreign)[r]
        decreases visit
      {
        var r :| r in visit;
        visit := visit - {r};
        if link in foreign[r] {
          ForeignRootEnded(r, link);
          LinkEndsOne(EndAll(old(Model()), order, link), r, link);
          assert (order + [r])[..|order|] == order;
          order := order + [r];
          hide LinkEnds, EndAll;
        }
      }
      rootLinks := map r | r in rootLinks :: rootLinks[r] - {link};
    }
  }

  /** A link that lets go of one root leaves the others as they were. */
  lemma LinkEndsOne(h: Host, r: nat, link: nat)
    ensures forall q | q in h.foreign && q != r ::
            q in LinkEnds(h, r, link).foreign && LinkEnds(h, r, link).foreign[q] == h.foreign[q]
  {
  }
}
