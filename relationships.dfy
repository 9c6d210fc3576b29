/**
 * The relationship-change tracker.  A slot `k` is a child together with the
 * association it hangs under; `parents` gives the current parent of each
 * slot (absent = no parent) and `changes` holds at most one pending change
 * per slot.  Every structural event is coalesced into the slot's pending
 * change: the oldest parent is kept, the newest parent replaces the previous
 * one, and a change whose old and new parent agree is dropped.
 */
module Relationships {
  import opened Common

  /** "The child's parent moved from `oldParent` to `newParent`." */
  datatype Change<P> = Change(oldParent: Option<P>, newParent: Option<P>)

  datatype Tracker<K, P> = Tracker(parents: map<K, P>, changes: map<K, Change<P>>)

  /** A has-many collection event: `pushObject` or `removeObject` of a child. */
  datatype Event<K, P> = Added(slot: K, parent: P) | Removed(slot: K, parent: P)

  function Lookup<K, P>(m: map<K, P>, k: K): Option<P> {
    if k in m then Some(m[k]) else None
  }

  /** Sets (or clears) the parent of one slot. */
  function Assign<K, P>(parents: map<K, P>, k: K, p: Option<P>): (r: map<K, P>)
    ensures Lookup(r, k) == p
    ensures r.Keys <= parents.Keys + {k}
    ensures forall j :: j in parents.Keys && j != k ==> Lookup(r, j) == Lookup(parents, j)
  {
    match p
    case Some(v) => parents[k := v]
    case None => parents - {k}
  }

  /** Sets the parent of every slot in `ks` to `p`. */
  function AssignAll<K, P>(parents: map<K, P>, ks: set<K>, p: P): (r: map<K, P>)
    ensures r.Keys == parents.Keys + ks
    ensures forall j :: j in r.Keys ==> Lookup(r, j) == if j in ks then Some(p) else Lookup(parents, j)
  {
    map j | j in parents.Keys + ks :: if j in ks then p else parents[j]
  }

  /** Assigning no slot leaves the parents as they are. */
  lemma AssignNothing<K, P>(parents: map<K, P>, p: P)
    ensures AssignAll(parents, {}, p) == parents
  {
  }

  /**
   * Records that slot `k` moved from `before` to `after`, coalescing with the
   * slot's pending change: the change keeps the parent the slot had before its
   * first move and disappears when the slot is back there.
   */
  function Coalesce<K, P(==)>(changes: map<K, Change<P>>, k: K, before: Option<P>, after: Option<P>): (r: map<K, Change<P>>)
    ensures r.Keys <= changes.Keys + {k}
    ensures forall j :: j in changes.Keys && j != k ==> Lookup(r, j) == Lookup(changes, j)
    ensures k in changes ==> Lookup(r, k) == if changes[k].oldParent == after then None
                                            else Some(Change(changes[k].oldParent, after))
    ensures k !in changes ==> Lookup(r, k) == if before == after then None
                                             else Some(Change(before, after))
  {
    var origin := if k in changes then changes[k].oldParent else before;
    if origin == after then changes - {k} else changes[k := Change(origin, after)]
  }

  /**
   * One event.  Pushing a child onto the parent it already has, or removing it
   * from a parent it is not under, changes nothing.
   */
  function Step<K, P(==)>(tr: Tracker<K, P>, e: Event<K, P>): (r: Tracker<K, P>)
    ensures e.Added? ==> Lookup(r.parents, e.slot) == Some(e.parent)
    ensures e.Removed? ==>
      Lookup(r.parents, e.slot) == if Lookup(tr.parents, e.slot) == Some(e.parent) then None else Lookup(tr.parents, e.slot)
  {
    var current := Lookup(tr.parents, e.slot);
    match e
    case Added(k, p) =>
      if current == Some(p) then tr
      else Tracker(Assign(tr.parents, k, Some(p)), Coalesce(tr.changes, k, current, Some(p)))
    case Removed(k, p) =>
      if current != Some(p) then tr
      else Tracker(Assign(tr.parents, k, None), Coalesce(tr.changes, k, current, None))
  }

  /** An event touches no slot but its own. */
  lemma StepFrame<K, P>(tr: Tracker<K, P>, e: Event<K, P>)
    ensures var r := Step(tr, e);
      r.parents.Keys + r.changes.Keys <= tr.parents.Keys + tr.changes.Keys + {e.slot}
    ensures var r := Step(tr, e);
      forall j :: j in tr.parents.Keys + tr.changes.Keys && j != e.slot ==>
        Lookup(r.parents, j) == Lookup(tr.parents, j) && Lookup(r.changes, j) == Lookup(tr.changes, j)
  {
  }

  /** The slots a sequence of events names. */
  function Slots<K, P>(events: seq<Event<K, P>>): set<K> {
    set i | 0 <= i < |events| :: events[i].slot
  }

  /** Events in order; a slot that no event names keeps its parent and its pending change. */
  function Replay<K, P(==)>(tr: Tracker<K, P>, events: seq<Event<K, P>>): (r: Tracker<K, P>)
    ensures r.parents.Keys + r.changes.Keys <= tr.parents.Keys + tr.changes.Keys + Slots(events)
    ensures forall j :: j in tr.parents.Keys + tr.changes.Keys && j !in Slots(events) ==>
      Lookup(r.parents, j) == Lookup(tr.parents, j) && Lookup(r.changes, j) == Lookup(tr.changes, j)
    decreases |events|
  {
    if events == [] then tr
    else
      StepFrame(tr, events[0]);
      assert Slots(events) == {events[0].slot} + Slots(events[1..]);
      Replay(Step(tr, events[0]), events[1..])
  }

  /**
   * The tracker holds exactly the net difference between `base` and the current
   * parents: one change per slot whose parent differs from its parent in `base`,
   * from the base parent to the current one, and nothing for the other slots.
   */
  ghost predicate Tracks<K, P>(base: map<K, P>, tr: Tracker<K, P>) {
    forall k :: k in base.Keys + tr.parents.Keys + tr.changes.Keys ==>
      Lookup(tr.changes, k) == (if Lookup(base, k) == Lookup(tr.parents, k) then None
                                else Some(Change(Lookup(base, k), Lookup(tr.parents, k))))
  }

  /** A tracker that has seen no event tracks its own parents. */
  lemma FreshTracks<K, P>(parents: map<K, P>)
    ensures Tracks(parents, Tracker(parents, map[]))
  {
  }

  /** Every event keeps the tracker equal to the net difference from the base. */
  lemma StepTracks<K, P>(base: map<K, P>, tr: Tracker<K, P>, e: Event<K, P>)
    requires Tracks(base, tr)
    ensures Tracks(base, Step(tr, e))
  {
    var k := e.slot;
    assert Lookup(tr.changes, k) == if Lookup(base, k) == Lookup(tr.parents, k) then None
      else Some(Change(Lookup(base, k), Lookup(tr.parents, k)));
  }

  /** Coalescing is complete: after any sequence of events the changes are the net difference. */
  lemma {:induction false} ReplayTracks<K, P>(base: map<K, P>, tr: Tracker<K, P>, events: seq<Event<K, P>>)
    requires Tracks(base, tr)
    ensures Tracks(base, Replay(tr, events))
    decreases |events|
  {
    if events != [] {
      StepTracks(base, tr, events[0]);
      ReplayTracks(base, Step(tr, events[0]), events[1..]);
    }
  }

  /**
   * Starting from no pending change, a child whose parent ends up where it
   * started has no pending change, and any other child has exactly one, from its
   * first parent to its last.
   */
  lemma NetChange<K, P>(parents: map<K, P>, events: seq<Event<K, P>>, k: K)
    ensures var tr := Replay(Tracker(parents, map[]), events);
      Lookup(tr.changes, k) == if Lookup(parents, k) == Lookup(tr.parents, k) then None
                               else Some(Change(Lookup(parents, k), Lookup(tr.parents, k)))
  {
    FreshTracks(parents);
    ReplayTracks(parents, Tracker(parents, map[]), events);
  }

  /** Sets the parent of every slot in `ks` back to the old parent of its pending change. */
  function Revert<K, P>(parents: map<K, P>, changes: map<K, Change<P>>, ks: set<K>): (r: map<K, P>)
    requires ks <= changes.Keys
    ensures r.Keys <= parents.Keys + ks
    ensures forall j :: j in parents.Keys + ks ==> Lookup(r, j) == if j in ks then changes[j].oldParent else Lookup(parents, j)
  {
    map j | j in (parents.Keys - ks) + (set i | i in ks && changes[i].oldParent.Some?)
      :: if j in ks then changes[j].oldParent.value else parents[j]
  }

  /** The parents of `ks` taken from `from`, the others from `base`. */
  ghost function Settle<K, P>(base: map<K, P>, from: map<K, P>, ks: set<K>): (r: map<K, P>)
    ensures r.Keys <= base.Keys + from.Keys
    ensures forall j :: j in base.Keys + from.Keys ==> Lookup(r, j) == if j in ks then Lookup(from, j) else Lookup(base, j)
  {
    map j | j in (base.Keys - ks) + (from.Keys * ks) :: if j in ks then from[j] else base[j]
  }

  lemma LookupExtensional<K, P>(a: map<K, P>, b: map<K, P>)
    requires forall k :: Lookup(a, k) == Lookup(b, k)
    ensures a == b
  {
    assert a.Keys == b.Keys by {
      forall k ensures k in a <==> k in b {
        assert Lookup(a, k) == Lookup(b, k);
      }
    }
    forall k | k in a ensures a[k] == b[k] {
      assert Lookup(a, k) == Lookup(b, k);
    }
  }

  /**
   * Reverting the pending changes of a group of slots puts each of them back
   * under its base parent, drops their changes and keeps the tracker exact.
   */
  lemma RevertRestoresBase<K, P>(base: map<K, P>, tr: Tracker<K, P>, ks: set<K>)
    requires Tracks(base, tr) && ks <= tr.changes.Keys
    ensures forall k :: k in ks ==> Lookup(Revert(tr.parents, tr.changes, ks), k) == Lookup(base, k)
    ensures Tracks(base, Tracker(Revert(tr.parents, tr.changes, ks), tr.changes - ks))
  {
    var r := Revert(tr.parents, tr.changes, ks);
    forall k ensures Lookup(tr.changes - ks, k) ==
      if Lookup(base, k) == Lookup(r, k) then None else Some(Change(Lookup(base, k), Lookup(r, k)))
    {
      assert Lookup(tr.changes, k) == if Lookup(base, k) == Lookup(tr.parents, k) then None
        else Some(Change(Lookup(base, k), Lookup(tr.parents, k)));
    }
  }

  /** Reverting every pending change gives back exactly the base parents. */
  lemma RevertAllIsBase<K, P>(base: map<K, P>, tr: Tracker<K, P>)
    requires Tracks(base, tr)
    ensures Revert(tr.parents, tr.changes, tr.changes.Keys) == base
  {
    var r := Revert(tr.parents, tr.changes, tr.changes.Keys);
    forall k ensures Lookup(r, k) == Lookup(base, k) {
      assert Lookup(tr.changes, k) == if Lookup(base, k) == Lookup(tr.parents, k) then None
        else Some(Change(Lookup(base, k), Lookup(tr.parents, k)));
    }
    LookupExtensional(r, base);
  }

  /**
   * Accepting the current parents of a group of slots as their new base (what a
   * commit does) and dropping their changes keeps the tracker exact.
   */
  lemma SettleTracks<K, P>(base: map<K, P>, tr: Tracker<K, P>, ks: set<K>)
    requires Tracks(base, tr)
    ensures Tracks(Settle(base, tr.parents, ks), Tracker(tr.parents, tr.changes - ks))
  {
    var b := Settle(base, tr.parents, ks);
    forall k ensures Lookup(tr.changes - ks, k) ==
      if Lookup(b, k) == Lookup(tr.parents, k) then None else Some(Change(Lookup(b, k), Lookup(tr.parents, k)))
    {
      assert Lookup(tr.changes, k) == if Lookup(base, k) == Lookup(tr.parents, k) then None
        else Some(Change(Lookup(base, k), Lookup(tr.parents, k)));
    }
  }

  /** Pushing a child onto a parent when it has none gives one change null -> parent. */
  lemma PushGivesOneChange<K, P>(parents: map<K, P>, k: K, p: P)
    requires k !in parents
    ensures Replay(Tracker(parents, map[]), [Added(k, p)]).changes == map[k := Change(None, Some(p))]
  {
  }

  /** Removing a child from its parent gives one change parent -> null. */
  lemma RemoveGivesOneChange<K, P>(parents: map<K, P>, k: K, p: P)
    requires Lookup(parents, k) == Some(p)
    ensures Replay(Tracker(parents, map[]), [Removed(k, p)]).changes == map[k := Change(Some(p), None)]
  {
  }

  /** Removing a child and pushing it back onto the same parent leaves no change. */
  lemma RemoveThenPushCancels<K, P>(parents: map<K, P>, k: K, p: P)
    requires Lookup(parents, k) == Some(p)
    ensures Replay(Tracker(parents, map[]), [Removed(k, p), Added(k, p)]).changes == map[]
  {
    var t1 := Step(Tracker(parents, map[]), Removed(k, p));
    assert t1.changes == map[k := Change(Some(p), None)];
    var t2 := Step(t1, Added(k, p));
    assert t2.changes == map[];
    assert Replay(t2, []) == t2;
    assert Replay(t1, [Added(k, p)]) == t2;
  }

  /** Moving a child from `a` to `b` and then to `c` coalesces into the single change a -> c. */
  lemma ChainedMovesCoalesce<K, P>(parents: map<K, P>, k: K, a: P, b: P, c: P)
    requires Lookup(parents, k) == Some(a) && a != c && b != a && c != b
    ensures Replay(Tracker(parents, map[]), [Removed(k, a), Added(k, b), Removed(k, b), Added(k, c)]).changes
            == map[k := Change(Some(a), Some(c))]
  {
    var events := [Removed(k, a), Added(k, b), Removed(k, b), Added(k, c)];
    var t0 := Tracker(parents, map[]);
    var t1 := Step(t0, events[0]);
    assert t1.changes == map[k := Change(Some(a), None)];
    var t2 := Step(t1, events[1]);
    assert t2.changes == map[k := Change(Some(a), Some(b))];
    var t3 := Step(t2, events[2]);
    assert t3.changes == map[k := Change(Some(a), None)];
    var t4 := Step(t3, events[3]);
    assert t4.changes == map[k := Change(Some(a), Some(c))];
    assert Replay(t3, events[3..]) == t4 by { assert events[4..] == []; }
    assert Replay(t2, events[2..]) == t4 by { assert events[2..][1..] == events[3..]; }
    assert Replay(t1, events[1..]) == t4 by { assert events[1..][1..] == events[2..]; }
  }

  /**
   * Removing a child from its parent and pushing it onto another one is a
   * single move: the two events coalesce exactly as one reassignment would.
   */
  lemma MoveIsOneChange<K, P>(tr: Tracker<K, P>, k: K, b: P, c: P)
    requires Lookup(tr.parents, k) == Some(b) && b != c
    ensures var t2 := Step(Step(tr, Removed(k, b)), Added(k, c));
      t2.parents == Assign(tr.parents, k, Some(c)) && t2.changes == Coalesce(tr.changes, k, Some(b), Some(c))
  {
    var t1 := Step(tr, Removed(k, b));
    assert Lookup(t1.parents, k) == None;
    assert Assign(t1.parents, k, Some(c)) == Assign(tr.parents, k, Some(c));
  }

  /** A second move of a child that has moved once keeps the parent it had before the first. */
  lemma MoveAgainKeepsOrigin<K, P>(tr: Tracker<K, P>, k: K, a: P, b: P, c: P)
    requires Lookup(tr.changes, k) == Some(Change(Some(a), Some(b))) && Lookup(tr.parents, k) == Some(b)
    requires b != c && a != c
    ensures Step(Step(tr, Removed(k, b)), Added(k, c)).changes == tr.changes[k := Change(Some(a), Some(c))]
  {
    MoveIsOneChange(tr, k, b, c);
  }

  /**
   * Loading parent data for a group of slots makes that data both the current
   * and the base parent of each slot and drops their pending changes, which
   * keeps the tracker exact.
   */
  lemma LoadTracks<K, P>(base: map<K, P>, tr: Tracker<K, P>, ks: set<K>, p: P)
    requires Tracks(base, tr)
    ensures Tracks(AssignAll(base, ks, p), Tracker(AssignAll(tr.parents, ks, p), tr.changes - ks))
  {
    var b := AssignAll(base, ks, p);
    var c := AssignAll(tr.parents, ks, p);
    forall k | k in b.Keys + c.Keys + (tr.changes - ks).Keys ensures Lookup(tr.changes - ks, k) ==
      (if Lookup(b, k) == Lookup(c, k) then None else Some(Change(Lookup(b, k), Lookup(c, k))))
    {
      if k !in ks {
        assert k in base.Keys + tr.parents.Keys + tr.changes.Keys;
      }
    }
  }
}
