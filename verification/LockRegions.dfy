/** The invite store under real concurrency (crates/db/src/memory.rs:114-157). Here every lock
    region of `insert`, `close`, `expire_due` and `for_dog` is its own step, and any number of
    threads interleave. `insert` and `for_dog` take the index lock and, holding it, the record
    lock; `close` releases the record lock before it takes the index lock. */
module LockRegions {
  import opened Base
  import opened Protocol

  datatype Thread =
    | Idle
    | Inserting(inv: Invite)                           // index entries written, index lock held
    | Looking(dog: DogId, id: InviteId)                // entry read, index lock held
    | Closing(inv: Invite)                             // record removed, index not yet
    | Expiring(todo: set<InviteId>)                    // due ids collected, closing them in turn
    | ExpireClosing(inv: Invite, todo: set<InviteId>)  // the same, halfway through one close

  type Tid = nat

  /** The maps, who holds the index lock, where every thread is, which invites `close` has handed
      out, and which identifiers were ever inserted. */
  datatype Shared = Shared(byId: map<InviteId, Invite>, open: map<DogId, InviteId>, lock: Option<Tid>,
                           threads: map<Tid, Thread>, handed: seq<InviteId>, used: set<InviteId>)

  const QUIET := Shared(map[], map[], None, map[], [], {})

  function At(s: Shared, t: Tid): Thread { if t in s.threads then s.threads[t] else Idle }

  function Goto(s: Shared, t: Tid, th: Thread): Shared { s.(threads := s.threads[t := th]) }

  /** One lock region of one thread. */
  datatype Step =
    | InsertIndex(inv: Invite)
    | InsertRecord
    | CloseRecord(id: InviteId)
    | CloseIndex
    | ExpireScan(now: Time)
    | ExpireRecord(id: InviteId)
    | ExpireIndex
    | ExpireDone
    | LookIndex(dog: DogId)
    | LookRecord

  /** A step can run when its thread has reached it and the locks it takes are free. An insert
      draws a fresh identifier. */
  predicate Ready(s: Shared, t: Tid, x: Step) {
    match x
    case InsertIndex(inv) => At(s, t).Idle? && s.lock.None? && inv.id !in s.used
    case InsertRecord => At(s, t).Inserting?
    case CloseRecord(_) => At(s, t).Idle?
    case CloseIndex => At(s, t).Closing? && s.lock.None?
    case ExpireScan(_) => At(s, t).Idle?
    case ExpireRecord(id) => At(s, t).Expiring? && id in At(s, t).todo
    case ExpireIndex => At(s, t).ExpireClosing? && s.lock.None?
    case ExpireDone => At(s, t) == Expiring({})
    case LookIndex(_) => At(s, t).Idle? && s.lock.None?
    case LookRecord => At(s, t).Looking?
  }

  function Unindexed(s: Shared, inv: Invite): Shared {
    s.(open := s.open - {inv.fromDog, inv.toDog}, handed := s.handed + [inv.id])
  }

  function Do(s: Shared, t: Tid, x: Step): Shared
    requires Ready(s, t, x)
  {
    match x
    case InsertIndex(inv) =>
      if inv.fromDog in s.open || inv.toDog in s.open then s
      else
        Goto(s.(open := s.open[inv.fromDog := inv.id][inv.toDog := inv.id], lock := Some(t), used := s.used + {inv.id}),
             t, Inserting(inv))
    case InsertRecord =>
      var inv := At(s, t).inv;
      Goto(s.(byId := s.byId[inv.id := inv], lock := None), t, Idle)
    case CloseRecord(id) =>
      if id in s.byId then Goto(s.(byId := s.byId - {id}), t, Closing(s.byId[id])) else s
    case CloseIndex => Goto(Unindexed(s, At(s, t).inv), t, Idle)
    case ExpireScan(now) => Goto(s, t, Expiring(set id | id in s.byId && now >= s.byId[id].expiresAt))
    case ExpireRecord(id) =>
      var todo := At(s, t).todo - {id};
      if id in s.byId then Goto(s.(byId := s.byId - {id}), t, ExpireClosing(s.byId[id], todo))
      else Goto(s, t, Expiring(todo))
    case ExpireIndex => Goto(Unindexed(s, At(s, t).inv), t, Expiring(At(s, t).todo))
    case ExpireDone => Goto(s, t, Idle)
    case LookIndex(dog) =>
      if dog in s.open then Goto(s.(lock := Some(t)), t, Looking(dog, s.open[dog])) else s
    case LookRecord => Goto(s.(lock := None), t, Idle)
  }

  /// ---- The invariant ----

  /** The invite a half-finished operation of this thread holds: out of the record map, but
      still in the index. */
  function Carried(th: Thread): Option<Invite> {
    match th
    case Inserting(inv) => Some(inv)
    case Closing(inv) => Some(inv)
    case ExpireClosing(inv, _) => Some(inv)
    case _ => None
  }

  /** What the invariant is about: the maps, what threads carry, what was handed out. */
  datatype Core = Core(byId: map<InviteId, Invite>, open: map<DogId, InviteId>, carried: map<Tid, Invite>,
                       handed: seq<InviteId>, used: set<InviteId>)

  function CarriedBy(threads: map<Tid, Thread>): map<Tid, Invite> {
    map t | t in threads && Carried(threads[t]).Some? :: Carried(threads[t]).value
  }

  function CoreOf(s: Shared): Core { Core(s.byId, s.open, CarriedBy(s.threads), s.handed, s.used) }

  /** Both dogs of an invite are indexed under it. */
  predicate Indexed(c: Core, inv: Invite) {
    inv.fromDog in c.open && c.open[inv.fromDog] == inv.id && inv.toDog in c.open && c.open[inv.toDog] == inv.id
  }

  predicate Involves(inv: Invite, d: DogId) { d == inv.fromDog || d == inv.toDog }

  predicate RecordsOk(c: Core) {
    forall id :: id in c.byId ==> c.byId[id].id == id && Indexed(c, c.byId[id]) && id in c.used
  }

  predicate CarriedOk(c: Core) {
    (forall t :: t in c.carried ==>
                   Indexed(c, c.carried[t]) && c.carried[t].id !in c.byId && c.carried[t].id in c.used &&
                   c.carried[t].id !in c.handed) &&
    (forall t, u :: t in c.carried && u in c.carried && c.carried[t].id == c.carried[u].id ==> t == u)
  }

  /** The index entry of `d` is a live record's, or that of an invite some thread carries. */
  predicate Explained(c: Core, d: DogId)
    requires d in c.open
  {
    (c.open[d] in c.byId && Involves(c.byId[c.open[d]], d)) ||
    exists t :: t in c.carried && c.carried[t].id == c.open[d] && Involves(c.carried[t], d)
  }

  predicate IndexOk(c: Core) { forall d :: d in c.open ==> Explained(c, d) }

  predicate HandedOk(c: Core) {
    (forall i :: 0 <= i < |c.handed| ==> c.handed[i] !in c.byId && c.handed[i] in c.used) &&
    (forall i, j :: 0 <= i < j < |c.handed| ==> c.handed[i] != c.handed[j])
  }

  /** Live records and carried invites are fully indexed; no two threads carry one invite; every
      index entry belongs to one of them; invites handed out are gone, and handed out once. */
  predicate CoreOk(c: Core) { RecordsOk(c) && CarriedOk(c) && IndexOk(c) && HandedOk(c) }

  /** The index lock is held exactly by the thread in a region nested in it. */
  ghost predicate LockOk(s: Shared) {
    forall t: Tid :: s.lock == Some(t) <==> At(s, t).Inserting? || At(s, t).Looking?
  }

  ghost predicate Safe(s: Shared) { CoreOk(CoreOf(s)) && LockOk(s) }

  /// ---- The four regions that touch the maps ----

  function Begin(c: Core, t: Tid, inv: Invite): Core {
    c.(open := c.open[inv.fromDog := inv.id][inv.toDog := inv.id], used := c.used + {inv.id},
       carried := c.carried[t := inv])
  }

  function Drop(c: Core, t: Tid): Core
    requires t in c.carried
  {
    var inv := c.carried[t];
    c.(open := c.open - {inv.fromDog, inv.toDog}, carried := c.carried - {t}, handed := c.handed + [inv.id])
  }

  lemma BegunCarried(c: Core, t: Tid, inv: Invite)
    requires CarriedOk(c) && RecordsOk(c) && HandedOk(c)
    requires t !in c.carried && inv.id !in c.used && inv.fromDog !in c.open && inv.toDog !in c.open
    ensures CarriedOk(Begin(c, t, inv)) && RecordsOk(Begin(c, t, inv)) && HandedOk(Begin(c, t, inv))
  {
    var r := Begin(c, t, inv);
    forall u | u in r.carried
      ensures Indexed(r, r.carried[u]) && r.carried[u].id !in r.byId
      ensures r.carried[u].id in r.used && r.carried[u].id !in r.handed
    {
      assert u != t ==> Indexed(c, c.carried[u]);
    }
    forall u, v | u in r.carried && v in r.carried && r.carried[u].id == r.carried[v].id ensures u == v {
      assert u != t ==> c.carried[u].id in c.used;
      assert v != t ==> c.carried[v].id in c.used;
    }
  }

  lemma Begun(c: Core, t: Tid, inv: Invite)
    requires CoreOk(c) && t !in c.carried && inv.id !in c.used && inv.fromDog !in c.open && inv.toDog !in c.open
    ensures CoreOk(Begin(c, t, inv))
  {
    var r := Begin(c, t, inv);
    BegunCarried(c, t, inv);
    assert r.carried[t] == inv;
    forall d | d in r.open ensures Explained(r, d) {
      hide RecordsOk, CarriedOk, HandedOk;
      if d in c.open {
        StillExplained(c, r, d, t);
      }
    }
  }

  lemma StillExplained(c: Core, r: Core, d: DogId, t: Tid)
    requires d in c.open && d in r.open && r.open[d] == c.open[d] && Explained(c, d)
    requires forall u :: u in c.carried && u != t ==> u in r.carried && r.carried[u] == c.carried[u]
    requires c.open[d] in c.byId ==>
               (c.open[d] in r.byId && r.byId[c.open[d]] == c.byId[c.open[d]]) ||
               (t in r.carried && r.carried[t] == c.byId[c.open[d]] && r.carried[t].id == c.open[d])
    requires t in c.carried && c.carried[t].id == c.open[d] ==>
               c.open[d] in r.byId && r.byId[c.open[d]] == c.carried[t]
    ensures Explained(r, d)
  {
    if c.open[d] !in c.byId || !Involves(c.byId[c.open[d]], d) {
      var u :| u in c.carried && c.carried[u].id == c.open[d] && Involves(c.carried[u], d);
      if u != t {
        assert u in r.carried && r.carried[u] == c.carried[u];
      }
    }
  }

  /** The record of a carried invite put into the map, and the thread done with it. */
  function File(c: Core, t: Tid): Core
    requires t in c.carried
  {
    c.(byId := c.byId[c.carried[t].id := c.carried[t]], carried := c.carried - {t})
  }

  lemma FiledParts(c: Core, t: Tid)
    requires RecordsOk(c) && CarriedOk(c) && HandedOk(c) && t in c.carried
    ensures RecordsOk(File(c, t)) && CarriedOk(File(c, t)) && HandedOk(File(c, t))
  {
    var r := File(c, t);
    assert c.carried[t].id !in c.handed;
    assert forall u :: u in r.carried ==> u != t && r.carried[u] == c.carried[u];
    assert CarriedOk(r);
  }

  lemma Filed(c: Core, t: Tid)
    requires CoreOk(c) && t in c.carried
    ensures CoreOk(File(c, t))
  {
    var r := File(c, t);
    FiledParts(c, t);
    assert c.carried[t].id !in c.byId;
    hide RecordsOk, CarriedOk, HandedOk;
    forall d | d in r.open ensures Explained(r, d) {
      assert Explained(c, d);
      hide Explained;
      StillExplained(c, r, d, t);
    }
  }

  /** A record taken out of the map by a closing thread. */
  function Take(c: Core, t: Tid, id: InviteId): Core
    requires id in c.byId
  {
    c.(byId := c.byId - {id}, carried := c.carried[t := c.byId[id]])
  }

  lemma TakenParts(c: Core, t: Tid, id: InviteId)
    requires RecordsOk(c) && CarriedOk(c) && HandedOk(c) && t !in c.carried && id in c.byId
    ensures RecordsOk(Take(c, t, id)) && CarriedOk(Take(c, t, id)) && HandedOk(Take(c, t, id))
  {
    var r := Take(c, t, id);
    assert id !in c.handed && c.byId[id].id == id;
    assert forall u :: u in r.carried ==> r.carried[u] == if u == t then c.byId[id] else c.carried[u];
    assert CarriedOk(r);
  }

  lemma Taken(c: Core, t: Tid, id: InviteId)
    requires CoreOk(c) && t !in c.carried && id in c.byId
    ensures CoreOk(Take(c, t, id))
  {
    var r := Take(c, t, id);
    TakenParts(c, t, id);
    assert c.byId[id].id == id;
    hide RecordsOk, CarriedOk, HandedOk;
    forall d | d in r.open ensures Explained(r, d) {
      assert Explained(c, d);
      hide Explained;
      StillExplained(c, r, d, t);
    }
  }

  /** The entries dropped are exactly the ones of the carried invite: nobody else's. */
  lemma DroppedOwn(c: Core, t: Tid)
    requires CoreOk(c) && t in c.carried
    ensures forall d :: d in c.open ==> (c.open[d] == c.carried[t].id <==> Involves(c.carried[t], d))
  {
    forall d | d in c.open ensures c.open[d] == c.carried[t].id <==> Involves(c.carried[t], d) {
      assert Explained(c, d);
      hide HandedOk;
    }
  }

  lemma DroppedRecords(c: Core, t: Tid)
    requires RecordsOk(c) && CarriedOk(c) && t in c.carried
    ensures RecordsOk(Drop(c, t))
  {
    var r, inv := Drop(c, t), c.carried[t];
    forall id | id in r.byId ensures Indexed(r, r.byId[id]) {
      assert Indexed(c, c.byId[id]) && Indexed(c, inv) && id != inv.id;
    }
  }

  lemma DroppedCarried(c: Core, t: Tid)
    requires CarriedOk(c) && t in c.carried
    ensures CarriedOk(Drop(c, t))
  {
    var r, inv := Drop(c, t), c.carried[t];
    forall u | u in r.carried ensures Indexed(r, r.carried[u]) && r.carried[u].id !in r.handed {
      assert Indexed(c, c.carried[u]) && Indexed(c, inv) && c.carried[u].id != inv.id;
    }
  }

  lemma DroppedHanded(c: Core, t: Tid)
    requires HandedOk(c) && CarriedOk(c) && t in c.carried
    ensures HandedOk(Drop(c, t))
  {
    hide Indexed;
    assert forall i :: 0 <= i < |c.handed| ==> c.handed[i] in c.handed;
  }

  lemma Dropped(c: Core, t: Tid)
    requires CoreOk(c) && t in c.carried
    ensures CoreOk(Drop(c, t))
  {
    var r := Drop(c, t);
    DroppedOwn(c, t);
    DroppedRecords(c, t);
    DroppedCarried(c, t);
    DroppedHanded(c, t);
    forall d | d in r.open ensures Explained(r, d) {
      hide RecordsOk, CarriedOk, HandedOk;
      StillExplained(c, r, d, t);
    }
  }

  /// ---- Every interleaving ----

  lemma CarriedMoves(threads: map<Tid, Thread>, t: Tid, th: Thread)
    ensures CarriedBy(threads[t := th]) ==
            if Carried(th).Some? then CarriedBy(threads)[t := Carried(th).value] else CarriedBy(threads) - {t}
    ensures t in threads && Carried(threads[t]).Some? ==>
              t in CarriedBy(threads) && CarriedBy(threads)[t] == Carried(threads[t]).value
    ensures !(t in threads && Carried(threads[t]).Some?) ==>
              t !in CarriedBy(threads) && CarriedBy(threads) - {t} == CarriedBy(threads)
  {}

  lemma LockStep(s: Shared, t: Tid, x: Step)
    requires LockOk(s) && Ready(s, t, x)
    ensures LockOk(Do(s, t, x))
  {}

  lemma StepSafe(s: Shared, t: Tid, x: Step)
    requires Safe(s) && Ready(s, t, x)
    ensures Safe(Do(s, t, x))
  {
    LockStep(s, t, x);
    hide LockOk, CoreOk, CarriedBy;
    var c := CoreOf(s);
    CarriedMoves(s.threads, t, At(Do(s, t, x), t));
    match x
    case InsertIndex(inv) =>
      if inv.fromDog !in s.open && inv.toDog !in s.open {
        Begun(c, t, inv);
      }
    case InsertRecord => Filed(c, t);
    case CloseRecord(id) =>
      if id in s.byId {
        Taken(c, t, id);
      }
    case ExpireRecord(id) =>
      if id in s.byId {
        Taken(c, t, id);
      }
    case CloseIndex => Dropped(c, t);
    case ExpireIndex => Dropped(c, t);
    case _ =>
  }

  /** A run of the store: any thread takes any region it is ready for. */
  ghost predicate Interleaving(ss: seq<Shared>, xs: seq<(Tid, Step)>) {
    |ss| == |xs| + 1 && ss[0] == QUIET && forall i :: 0 <= i < |xs| ==> Region(ss, xs, i)
  }

  ghost predicate Region(ss: seq<Shared>, xs: seq<(Tid, Step)>, i: nat)
    requires |ss| == |xs| + 1 && i < |xs|
  {
    Ready(ss[i], xs[i].0, xs[i].1) && ss[i + 1] == Do(ss[i], xs[i].0, xs[i].1)
  }

  lemma {:induction false} AlwaysSafe(ss: seq<Shared>, xs: seq<(Tid, Step)>, n: nat)
    requires Interleaving(ss, xs) && n <= |xs|
    ensures Safe(ss[n])
    decreases n
  {
    if n == 0 {
    } else {
      hide Safe, Do, Ready;
      AlwaysSafe(ss, xs, n - 1);
      assert Region(ss, xs, n - 1);
      StepSafe(ss[n - 1], xs[n - 1].0, xs[n - 1].1);
    }
  }

  /** Fine-grained safety, in every state of every interleaving of any number of threads: each
      index entry points to a live invite of that dog, or to one that exactly one thread holds
      halfway through an insert, close or expiry; the dogs of distinct such invites are
      disjoint; and no invite is handed out by `close` twice, or while it is live. */
  lemma StoreSafety(ss: seq<Shared>, xs: seq<(Tid, Step)>, n: nat, d: DogId)
    requires Interleaving(ss, xs) && n <= |xs|
    ensures var c := CoreOf(ss[n]);
            && (d in c.open ==>
                  (c.open[d] in c.byId && Involves(c.byId[c.open[d]], d)) !=
                  (exists t :: t in c.carried && c.carried[t].id == c.open[d] && Involves(c.carried[t], d)))
            && (forall t, u | t in c.carried && u in c.carried :: c.carried[t].id == c.carried[u].id ==> t == u)
            && (forall i, j | i in c.byId && j in c.byId :: Involves(c.byId[i], d) && Involves(c.byId[j], d) ==> i == j)
            && (forall t, u | t in c.carried && u in c.carried ::
                  Involves(c.carried[t], d) && Involves(c.carried[u], d) ==> t == u)
            && (forall i, t | i in c.byId && t in c.carried :: !(Involves(c.byId[i], d) && Involves(c.carried[t], d)))
            && (forall i, j :: 0 <= i < j < |c.handed| ==> c.handed[i] != c.handed[j])
            && (forall i :: i in c.byId ==> i !in c.handed)
  {
    AlwaysSafe(ss, xs, n);
    var c := CoreOf(ss[n]);
    if d in c.open {
      assert Explained(c, d);
    }
    forall i | i in c.byId ensures Involves(c.byId[i], d) ==> d in c.open && c.open[d] == i {
      assert Indexed(c, c.byId[i]);
    }
    forall t | t in c.carried ensures Involves(c.carried[t], d) ==> d in c.open && c.open[d] == c.carried[t].id {
      assert Indexed(c, c.carried[t]);
    }
  }

  /** When no operation is in progress the index and the records agree exactly: the state the
      atomic model of the store starts its steps from. */
  lemma QuiescentIsConsistent(ss: seq<Shared>, xs: seq<(Tid, Step)>, n: nat)
    requires Interleaving(ss, xs) && n <= |xs| && forall t: Tid :: At(ss[n], t).Idle?
    ensures var c := CoreOf(ss[n]);
            && (forall id :: id in c.byId ==> c.byId[id].id == id && Indexed(c, c.byId[id]))
            && (forall d :: d in c.open ==> c.open[d] in c.byId && Involves(c.byId[c.open[d]], d))
            && ss[n].lock.None?
  {
    AlwaysSafe(ss, xs, n);
    var s := ss[n];
    assert CoreOf(s).carried == map[] by {
      forall t | t in s.threads ensures Carried(s.threads[t]).None? {
        assert At(s, t).Idle?;
      }
    }
    forall t: Tid ensures s.lock != Some(t) {
      assert At(s, t).Idle?;
    }
    forall d | d in s.open ensures s.open[d] in s.byId && Involves(s.byId[s.open[d]], d) {
      assert Explained(CoreOf(s), d);
    }
  }
}
