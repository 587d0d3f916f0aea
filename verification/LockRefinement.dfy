/** The lock regions of the invite store against its atomic model: every interleaving is a run of
    atomic inserts, closes and lookups, but for one kind of refused insert, and this says exactly
    when that shows. */
module LockRefinement {
  import opened Base
  import opened Protocol
  import opened Memory
  import opened LockRegions

  /** The invite a thread has taken out of the record map but not yet out of the index. */
  function Halfway(th: Thread): Option<Invite> {
    match th
    case Closing(inv) => Some(inv)
    case ExpireClosing(inv, _) => Some(inv)
    case _ => None
  }

  /** Some thread is halfway through a close of an invite of this dog. */
  ghost predicate HalfClosed(threads: map<Tid, Thread>, d: DogId) {
    exists t | t in threads :: Halfway(threads[t]).Some? && Involves(Halfway(threads[t]).value, d)
  }

  /** The invite of an insert whose index entries are written and whose record is not. */
  function Pending(s: Shared): Option<Invite> {
    if s.lock.Some? && At(s, s.lock.value).Inserting? then Some(At(s, s.lock.value).inv) else None
  }

  predicate PendingOf(s: Shared, d: DogId) { Pending(s).Some? && Involves(Pending(s).value, d) }

  /** The atomic store an interleaved state stands for: the records as they are, and the index
      without the entries of half-finished operations. An insert or a close happens when it
      touches the record map. */
  ghost function Atomic(s: Shared): Invites {
    Invites(s.byId, map d | d in s.open && !HalfClosed(s.threads, d) && !PendingOf(s, d) :: s.open[d], map[])
  }

  /** The index is free for an insert. */
  predicate FreeIndex(s: Shared, inv: Invite) { inv.fromDog !in s.open && inv.toDog !in s.open }

  /** What a region does to the atomic store: filing the record is the insert, removing one is the
      close, and every other region does nothing. */
  ghost function Effect(s: Shared, t: Tid, x: Step): Invites
    requires Ready(s, t, x)
  {
    match x
    case InsertRecord => InviteInserted(Atomic(s), At(s, t).inv)
    case CloseRecord(id) => InviteClosed(Atomic(s), id)
    case ExpireRecord(id) => InviteClosed(Atomic(s), id)
    case _ => Atomic(s)
  }

  lemma HalfwayCarried(s: Shared, t: Tid)
    requires Safe(s) && t in s.threads && Halfway(s.threads[t]).Some?
    ensures var inv := Halfway(s.threads[t]).value;
            Indexed(CoreOf(s), inv) && inv.id !in s.byId && t in CarriedBy(s.threads) && CarriedBy(s.threads)[t] == inv
  {
    assert Carried(s.threads[t]) == Halfway(s.threads[t]);
    assert t in CarriedBy(s.threads);
    hide RecordsOk, IndexOk, HandedOk, LockOk;
  }

  lemma HalfClosedIndexed(s: Shared, d: DogId)
    requires Safe(s) && HalfClosed(s.threads, d)
    ensures d in s.open && s.open[d] !in s.byId
  {
    var t :| t in s.threads && Halfway(s.threads[t]).Some? && Involves(Halfway(s.threads[t]).value, d);
    HalfwayCarried(s, t);
    hide Safe;
  }

  /** Moving one thread changes which dogs are half closed only by what it is halfway through. */
  lemma HalfMoves(threads: map<Tid, Thread>, t: Tid, th: Thread, d: DogId)
    requires t in threads ==> Halfway(threads[t]).None?
    ensures HalfClosed(threads[t := th], d) <==>
            HalfClosed(threads, d) || (Halfway(th).Some? && Involves(Halfway(th).value, d))
  {
    var us := threads[t := th];
    if HalfClosed(threads, d) {
      var u :| u in threads && Halfway(threads[u]).Some? && Involves(Halfway(threads[u]).value, d);
      assert u in us && us[u] == threads[u];
    }
    if HalfClosed(us, d) {
      var u :| u in us && Halfway(us[u]).Some? && Involves(Halfway(us[u]).value, d);
      assert u != t ==> u in threads && threads[u] == us[u];
    }
    assert t in us && us[t] == th;
    hide Halfway;
  }

  lemma HalfLeaves(threads: map<Tid, Thread>, t: Tid, th: Thread, d: DogId)
    requires t in threads && Halfway(threads[t]).Some? && Halfway(th).None?
    requires !Involves(Halfway(threads[t]).value, d)
    ensures HalfClosed(threads[t := th], d) <==> HalfClosed(threads, d)
  {
    var us := threads[t := th];
    assert t in us && us[t] == th;
    forall u | u != t ensures u in us <==> u in threads
              ensures u in us ==> us[u] == threads[u]
    {}
    hide Halfway;
  }

  /** A thread that takes no invite halfway moves on, and neither map changes. */
  lemma IdleRefines(s: Shared, r: Shared, t: Tid, th: Thread)
    requires r.threads == s.threads[t := th] && r.open == s.open && r.byId == s.byId
    requires Halfway(th).None? && (t in s.threads ==> Halfway(s.threads[t]).None?) && Pending(r) == Pending(s)
    ensures Atomic(r) == Atomic(s)
  {
    forall d ensures HalfClosed(r.threads, d) <==> HalfClosed(s.threads, d) {
      HalfMoves(s.threads, t, th, d);
    }
    hide HalfClosed, Pending;
    assert Atomic(r).open == Atomic(s).open;
  }

  /** Writing the index of a begun insert is not yet seen. */
  lemma BeginRefines(s: Shared, r: Shared, t: Tid, inv: Invite)
    requires Pending(s).None? && FreeIndex(s, inv) && At(s, t).Idle?
    requires r == Goto(s.(open := s.open[inv.fromDog := inv.id][inv.toDog := inv.id], lock := Some(t),
                          used := s.used + {inv.id}), t, Inserting(inv))
    ensures Atomic(r) == Atomic(s)
  {
    forall d ensures HalfClosed(r.threads, d) <==> HalfClosed(s.threads, d) {
      HalfMoves(s.threads, t, Inserting(inv), d);
    }
    assert Pending(r) == Some(inv);
    hide HalfClosed, Pending, At;
    assert Atomic(r).open == Atomic(s).open;
  }

  /** Filing the record is the insert: both dogs are free in the atomic store until then. */
  lemma FileRefines(s: Shared, r: Shared, t: Tid, inv: Invite)
    requires Safe(s) && At(s, t) == Inserting(inv)
    requires r == Goto(s.(byId := s.byId[inv.id := inv], lock := None), t, Idle)
    ensures Free(Atomic(s), inv) && Atomic(r) == InviteInserted(Atomic(s), inv)
  {
    HolderOnly(s, t);
    InsertingIndexed(s, t);
    hide Safe, HalfClosed, Involves;
    FiledIndex(s, r, t, inv);
    FiledFree(s, inv);
    FiledAtomic(s, r, inv);
    hide *;
  }

  lemma FiledAtomic(s: Shared, r: Shared, inv: Invite)
    requires r.byId == s.byId[inv.id := inv]
    requires Atomic(r).open == Atomic(s).open[inv.fromDog := inv.id][inv.toDog := inv.id]
    ensures Atomic(r) == InviteInserted(Atomic(s), inv)
  {
    hide HalfClosed, PendingOf;
  }

  lemma FiledFree(s: Shared, inv: Invite)
    requires Pending(s) == Some(inv)
    ensures Free(Atomic(s), inv)
  {
    hide HalfClosed, Pending;
  }

  lemma FiledIndex(s: Shared, r: Shared, t: Tid, inv: Invite)
    requires r.threads == s.threads[t := Idle] && r.open == s.open
    requires t in s.threads ==> Halfway(s.threads[t]).None?
    requires Pending(s) == Some(inv) && Pending(r).None?
    requires forall d :: Involves(inv, d) ==> d in s.open && s.open[d] == inv.id && !HalfClosed(s.threads, d)
    ensures Atomic(r).open == Atomic(s).open[inv.fromDog := inv.id][inv.toDog := inv.id]
  {
    forall d ensures HalfClosed(r.threads, d) <==> HalfClosed(s.threads, d) {
      HalfMoves(s.threads, t, Idle, d);
    }
    hide HalfClosed, Pending;
  }

  /** Two threads never carry invites of the same dog. */
  lemma CarriedApart(c: Core, t: Tid, u: Tid, d: DogId)
    requires CarriedOk(c) && t in c.carried && u in c.carried && t != u
    ensures !(Involves(c.carried[t], d) && Involves(c.carried[u], d))
  {
    assert Indexed(c, c.carried[t]) && Indexed(c, c.carried[u]);
  }

  /** An invite being inserted is fully indexed, and no close is halfway through its dogs. */
  lemma InsertingIndexed(s: Shared, t: Tid)
    requires Safe(s) && At(s, t).Inserting?
    ensures forall d :: Involves(At(s, t).inv, d) ==>
                          d in s.open && s.open[d] == At(s, t).inv.id && !HalfClosed(s.threads, d)
  {
    var c, inv := CoreOf(s), At(s, t).inv;
    assert t in s.threads && Carried(s.threads[t]) == Some(inv);
    assert t in c.carried && c.carried[t] == inv && Indexed(c, inv);
    hide RecordsOk, IndexOk, HandedOk, LockOk;
    forall u, d | u in s.threads && Halfway(s.threads[u]).Some? && Involves(Halfway(s.threads[u]).value, d)
      ensures !Involves(inv, d)
    {
      HalfwayCarried(s, u);
      CarriedApart(c, t, u, d);
    }
    hide Safe, Indexed, Halfway;
  }

  /** Removing the record is the close. */
  lemma TakeRefines(s: Shared, r: Shared, t: Tid, id: InviteId, th: Thread)
    requires Safe(s) && id in s.byId && (At(s, t).Idle? || At(s, t).Expiring?)
    requires Halfway(th) == Some(s.byId[id]) && r == Goto(s.(byId := s.byId - {id}), t, th)
    ensures Atomic(r) == InviteClosed(Atomic(s), id)
  {
    HolderOnly(s, t) by { hide CoreOk; }
    assert Pending(r) == Pending(s);
    hide Safe;
    TakenIndex(s, r, t, s.byId[id], th);
    hide HalfClosed, Pending, Halfway, Goto, At;
  }

  lemma TakenIndex(s: Shared, r: Shared, t: Tid, inv: Invite, th: Thread)
    requires t in s.threads ==> Halfway(s.threads[t]).None?
    requires r.threads == s.threads[t := th] && r.open == s.open && Halfway(th) == Some(inv) && Pending(r) == Pending(s)
    ensures Atomic(r).open == Atomic(s).open - {inv.fromDog, inv.toDog}
  {
    forall d ensures HalfClosed(r.threads, d) <==> HalfClosed(s.threads, d) || Involves(inv, d) {
      HalfMoves(s.threads, t, th, d);
    }
    hide HalfClosed, Halfway, Pending;
  }

  /** Dropping the index entries of a close is no longer seen. */
  lemma DropRefines(s: Shared, r: Shared, t: Tid, th: Thread)
    requires t in s.threads && Halfway(s.threads[t]).Some? && Halfway(th).None? && s.lock.None?
    requires r == Goto(Unindexed(s, Halfway(s.threads[t]).value), t, th)
    ensures Atomic(r) == Atomic(s)
  {
    var inv := Halfway(s.threads[t]).value;
    forall d | Involves(inv, d) ensures HalfClosed(s.threads, d) {
      assert t in s.threads;
    }
    forall d | !Involves(inv, d) ensures HalfClosed(r.threads, d) <==> HalfClosed(s.threads, d) {
      HalfLeaves(s.threads, t, th, d);
    }
    hide HalfClosed;
    assert Atomic(r).open == Atomic(s).open;
  }

  lemma StepRefines(s: Shared, t: Tid, x: Step)
    requires Safe(s) && Ready(s, t, x)
    ensures Atomic(Do(s, t, x)) == Effect(s, t, x)
    ensures x.InsertRecord? ==> Free(Atomic(s), At(s, t).inv)
  {
    if x.InsertRecord? {
      FileRefines(s, Do(s, t, x), t, At(s, t).inv);
    } else if x.InsertIndex? && FreeIndex(s, x.inv) {
      BeginRefines(s, Do(s, t, x), t, x.inv) by { hide Safe; }
    } else if (x.CloseRecord? || x.ExpireRecord?) && x.id in s.byId {
      var th := if x.CloseRecord? then Closing(s.byId[x.id]) else ExpireClosing(s.byId[x.id], At(s, t).todo - {x.id});
      TakeRefines(s, Do(s, t, x), t, x.id, th);
    } else if x.CloseIndex? || x.ExpireIndex? {
      DropRefines(s, Do(s, t, x), t, if x.CloseIndex? then Idle else Expiring(At(s, t).todo));
    } else {
      HolderOnly(s, t);
      hide Safe;
      QuietRefines(s, t, x);
    }
    hide Safe, Atomic, Do;
  }

  /** The other regions leave the atomic store alone. */
  lemma QuietRefines(s: Shared, t: Tid, x: Step)
    requires Ready(s, t, x) && (s.lock == Some(t) <==> At(s, t).Inserting? || At(s, t).Looking?)
    requires x.InsertIndex? ==> !FreeIndex(s, x.inv)
    requires x.CloseRecord? || x.ExpireRecord? ==> x.id !in s.byId
    requires !x.CloseIndex? && !x.ExpireIndex? && !x.InsertRecord?
    ensures Atomic(Do(s, t, x)) == Atomic(s)
  {
    var r := Do(s, t, x);
    hide HalfClosed;
    if r != s {
      IdleRefines(s, r, t, At(r, t));
    }
  }

  /** Refinement. In every interleaving of any number of threads, every region is one step of the
      atomic store, or none: filing a record is an insert of two free dogs, removing one is a close
      of that invite, also when there is none to close, and nothing else changes the store. */
  lemma InterleavingRefines(ss: seq<Shared>, xs: seq<(Tid, Step)>, n: nat)
    requires Interleaving(ss, xs) && n < |xs|
    ensures Ready(ss[n], xs[n].0, xs[n].1) && Atomic(ss[n + 1]) == Effect(ss[n], xs[n].0, xs[n].1)
    ensures xs[n].1.InsertRecord? ==> Free(Atomic(ss[n]), At(ss[n], xs[n].0).inv)
  {
    AlwaysSafe(ss, xs, n);
    assert Region(ss, xs, n);
    hide Interleaving, Safe, Do, Ready;
    StepRefines(ss[n], xs[n].0, xs[n].1);
  }

  lemma HolderOnly(s: Shared, t: Tid)
    requires LockOk(s)
    ensures s.lock == Some(t) <==> At(s, t).Inserting? || At(s, t).Looking?
  {}

  /// ---- Answers ----

  /** A lookup between its two regions still holds the entry it read. */
  ghost predicate LookOk(s: Shared) {
    forall t: Tid :: At(s, t).Looking? ==> At(s, t).dog in s.open && s.open[At(s, t).dog] == At(s, t).id
  }

  lemma LookStep(s: Shared, t: Tid, x: Step)
    requires LookOk(s) && LockOk(s) && Ready(s, t, x)
    ensures LookOk(Do(s, t, x))
  {
    var r := Do(s, t, x);
    forall u: Tid | At(r, u).Looking?
      ensures At(r, u).dog in r.open && r.open[At(r, u).dog] == At(r, u).id
    {
      HolderOnly(s, u);
      assert u != t ==> At(r, u) == At(s, u);
      assert At(s, u).Looking? ==> At(s, u).dog in s.open && s.open[At(s, u).dog] == At(s, u).id;
    }
  }

  lemma {:induction false} RunLooks(ss: seq<Shared>, xs: seq<(Tid, Step)>, n: nat)
    requires Interleaving(ss, xs) && n <= |xs|
    ensures LookOk(ss[n])
    decreases n
  {
    if n > 0 {
      hide Do, Ready, LookOk, Safe;
      RunLooks(ss, xs, n - 1);
      AlwaysSafe(ss, xs, n - 1);
      assert Region(ss, xs, n - 1);
      SafeIsLocked(ss[n - 1]);
      LookStep(ss[n - 1], xs[n - 1].0, xs[n - 1].1);
    } else {
      hide Do, Ready;
    }
  }

  lemma SafeIsLocked(s: Shared)
    requires Safe(s)
    ensures LockOk(s)
  {}

  /** While no insert is under way, a dog's entry whose record is gone is half closed. */
  lemma DanglingIffHalfClosed(s: Shared, d: DogId)
    requires Safe(s) && Pending(s).None?
    ensures (d in s.open && s.open[d] !in s.byId) <==> HalfClosed(s.threads, d)
  {
    if HalfClosed(s.threads, d) {
      HalfClosedIndexed(s, d);
    }
    if d in s.open && s.open[d] !in s.byId {
      assert Explained(CoreOf(s), d);
      var t :| t in CarriedBy(s.threads) && CarriedBy(s.threads)[t].id == s.open[d] &&
               Involves(CarriedBy(s.threads)[t], d);
      HolderOnly(s, t);
      hide Safe;
      assert !s.threads[t].Inserting?;
      assert Halfway(s.threads[t]) == Some(CarriedBy(s.threads)[t]);
    }
  }

  /** What a lookup answers in its second region. */
  function LookAnswer(s: Shared, t: Tid): Option<Invite>
    requires At(s, t).Looking?
  {
    if At(s, t).id in s.byId then Some(s.byId[At(s, t).id]) else None
  }

  /** In every interleaving a lookup answers what the atomic store would at that moment. */
  lemma LookupRefines(ss: seq<Shared>, xs: seq<(Tid, Step)>, n: nat, t: Tid)
    requires Interleaving(ss, xs) && n <= |xs| && At(ss[n], t).Looking?
    ensures LookAnswer(ss[n], t) == InviteForDog(Atomic(ss[n]), At(ss[n], t).dog)
  {
    var s := ss[n];
    AlwaysSafe(ss, xs, n);
    RunLooks(ss, xs, n);
    HolderOnly(s, t);
    DanglingIffHalfClosed(s, At(s, t).dog);
    assert At(s, t).dog in s.open && s.open[At(s, t).dog] == At(s, t).id;
    hide Safe, HalfClosed, LookOk, Interleaving;
  }

  /** The only anomaly. An insert is refused exactly when it finds one of its dogs indexed. It is so
      although the atomic store has both dogs free if and only if each dog it finds indexed, and there
      is one, belongs to an invite some thread is halfway through closing. */
  lemma SpuriousBusyIff(ss: seq<Shared>, xs: seq<(Tid, Step)>, n: nat, t: Tid, inv: Invite)
    requires Interleaving(ss, xs) && n <= |xs| && Ready(ss[n], t, InsertIndex(inv))
    ensures Do(ss[n], t, InsertIndex(inv)) == ss[n] <==> !FreeIndex(ss[n], inv)
    ensures !FreeIndex(ss[n], inv) && Free(Atomic(ss[n]), inv) <==>
            && (HalfClosed(ss[n].threads, inv.fromDog) || HalfClosed(ss[n].threads, inv.toDog))
            && (inv.fromDog in ss[n].open ==> HalfClosed(ss[n].threads, inv.fromDog))
            && (inv.toDog in ss[n].open ==> HalfClosed(ss[n].threads, inv.toDog))
  {
    var s := ss[n];
    AlwaysSafe(ss, xs, n);
    RefusedIff(s, t, inv);
    DanglingIffHalfClosed(s, inv.fromDog);
    DanglingIffHalfClosed(s, inv.toDog);
    hide Safe, HalfClosed, Interleaving;
  }

  lemma RefusedIff(s: Shared, t: Tid, inv: Invite)
    requires Ready(s, t, InsertIndex(inv))
    ensures Do(s, t, InsertIndex(inv)) == s <==> !FreeIndex(s, inv)
  {
    assert Do(s, t, InsertIndex(inv)) != s ==> FreeIndex(s, inv);
    assert FreeIndex(s, inv) ==> At(Do(s, t, InsertIndex(inv)), t) == Inserting(inv);
  }

  lemma LooksIff(s: Shared, t: Tid, d: DogId)
    requires Ready(s, t, LookIndex(d))
    ensures Do(s, t, LookIndex(d)) == s <==> d !in s.open
  {
    assert d in s.open ==> At(Do(s, t, LookIndex(d)), t) == Looking(d, s.open[d]);
  }

  /** So, for one dog and with the index lock free: a lookup would answer none and an insert report
      busy if and only if a thread is halfway through a close of that dog's invite. */
  lemma MissingYetBusyIff(ss: seq<Shared>, xs: seq<(Tid, Step)>, n: nat, d: DogId)
    requires Interleaving(ss, xs) && n <= |xs| && ss[n].lock.None?
    ensures InviteForDog(Invites(ss[n].byId, ss[n].open, map[]), d).None? && d in ss[n].open
            <==> HalfClosed(ss[n].threads, d)
    ensures forall t: Tid :: Ready(ss[n], t, LookIndex(d)) ==>
                               (Do(ss[n], t, LookIndex(d)) == ss[n] <==> d !in ss[n].open)
  {
    forall t: Tid | Ready(ss[n], t, LookIndex(d))
      ensures Do(ss[n], t, LookIndex(d)) == ss[n] <==> d !in ss[n].open
    {
      LooksIff(ss[n], t, d);
    }
    AlwaysSafe(ss, xs, n);
    DanglingIffHalfClosed(ss[n], d);
    hide Safe, HalfClosed, Interleaving;
  }

  /** When nothing is in progress the atomic store is the concrete one. */
  lemma QuiescentIsAtomic(ss: seq<Shared>, xs: seq<(Tid, Step)>, n: nat)
    requires Interleaving(ss, xs) && n <= |xs| && forall t: Tid :: At(ss[n], t).Idle?
    ensures Atomic(ss[n]) == Invites(ss[n].byId, ss[n].open, map[])
  {
    var s := ss[n];
    forall t | t in s.threads ensures Halfway(s.threads[t]).None? {
      assert At(s, t).Idle?;
    }
    assert forall d :: !HalfClosed(s.threads, d);
    assert Pending(s).None?;
    hide HalfClosed, Interleaving;
    assert Atomic(s).open == s.open;
  }
}
