/** What `expire_due` achieves while other threads interleave, and that the two locks never leave
    everybody waiting (crates/db/src/memory.rs:114-157). */
module LockProgress {
  import opened Base
  import opened Protocol
  import opened Memory
  import opened LockRegions
  import opened LockRefinement

  /// ---- Someone can always move ----

  predicate Started(th: Thread) { !th.Idle? }

  /** Whenever some operation is under way, one that is under way can take its next region. */
  lemma NeverStuck(ss: seq<Shared>, xs: seq<(Tid, Step)>, n: nat, t: Tid) returns (u: Tid, x: Step)
    requires Interleaving(ss, xs) && n <= |xs| && Started(At(ss[n], t))
    ensures Started(At(ss[n], u)) && Ready(ss[n], u, x) && Do(ss[n], u, x) != ss[n]
    ensures ss[n].lock == Some(u) || u == t
  {
    AlwaysSafe(ss, xs, n);
    SafeIsLocked(ss[n]);
    hide Interleaving, Safe;
    u, x := NextMove(ss[n], t);
  }

  lemma NextMove(s: Shared, t: Tid) returns (u: Tid, x: Step)
    requires LockOk(s) && Started(At(s, t))
    ensures Started(At(s, u)) && Ready(s, u, x) && Do(s, u, x) != s && (s.lock == Some(u) || u == t)
  {
    u := if s.lock.Some? then s.lock.value else t;
    HolderOnly(s, u);
    match At(s, u)
    case Inserting(_) => x := InsertRecord;
    case Looking(_, _) => x := LookRecord;
    case Closing(_) => x := CloseIndex;
    case ExpireClosing(_, _) => x := ExpireIndex;
    case Expiring(todo) =>
      if todo == {} {
        x := ExpireDone;
      } else {
        var id :| id in todo;
        x := ExpireRecord(id);
      }
    hide LockOk;
    assert At(Do(s, u, x), u) != At(s, u);
  }

  /// ---- Gone for good ----

  /** The invite is out of the record map and no insert is about to put it there. */
  ghost predicate Gone(s: Shared, id: InviteId) {
    id in s.used && id !in s.byId && forall t: Tid :: At(s, t).Inserting? ==> At(s, t).inv.id != id
  }

  lemma GoneStays(s: Shared, t: Tid, x: Step, id: InviteId)
    requires Ready(s, t, x) && Gone(s, id)
    ensures Gone(Do(s, t, x), id)
  {
    var r := Do(s, t, x);
    forall u: Tid | At(r, u).Inserting? ensures At(r, u).inv.id != id {
      assert u != t ==> At(r, u) == At(s, u);
    }
  }

  /** A live invite is nobody's pending insert, so removing its record makes it gone. */
  lemma RemovedIsGone(s: Shared, t: Tid, x: Step, id: InviteId)
    requires Safe(s) && Ready(s, t, x) && id in s.byId && id !in Do(s, t, x).byId
    ensures Gone(Do(s, t, x), id)
  {
    var r := Do(s, t, x);
    LiveNotPending(s, id);
    hide Safe;
    forall u: Tid | At(r, u).Inserting? ensures At(r, u).inv.id != id {
      assert u != t ==> At(r, u) == At(s, u);
    }
  }

  lemma LiveNotPending(s: Shared, id: InviteId)
    requires Safe(s) && id in s.byId
    ensures id in s.used && forall t: Tid :: At(s, t).Inserting? ==> At(s, t).inv.id != id
  {
    forall t: Tid | At(s, t).Inserting? ensures At(s, t).inv.id != id {
      assert t in s.threads && Carried(s.threads[t]) == Some(At(s, t).inv);
      assert t in CarriedBy(s.threads) && CarriedBy(s.threads)[t] == At(s, t).inv;
    }
    assert id in CoreOf(s).used;
    hide IndexOk, HandedOk, LockOk;
  }

  /// ---- A sweep ----

  function Todo(th: Thread): set<InviteId> {
    match th
    case Expiring(todo) => todo
    case ExpireClosing(_, todo) => todo
    case _ => {}
  }

  predicate Sweeping(th: Thread) { th.Expiring? || th.ExpireClosing? }

  /** Of the invites due at its scan, the sweep still has to do only due ones, and those it no
      longer has to do are gone. */
  ghost predicate SweepOk(s: Shared, t: Tid, due: set<InviteId>) {
    Sweeping(At(s, t)) && Todo(At(s, t)) <= due && forall id :: id in due && id !in Todo(At(s, t)) ==> Gone(s, id)
  }

  /** Nothing due at the scan was unknown: it is live until it is gone. */
  ghost predicate DueOk(s: Shared, due: set<InviteId>) { forall id :: id in due ==> id in s.byId || Gone(s, id) }

  lemma DueStep(s: Shared, t: Tid, x: Step, due: set<InviteId>)
    requires Safe(s) && Ready(s, t, x) && DueOk(s, due)
    ensures DueOk(Do(s, t, x), due)
  {
    var r := Do(s, t, x);
    hide Do, Ready, Safe, Gone;
    forall id | id in due ensures id in r.byId || Gone(r, id) {
      if Gone(s, id) {
        GoneStays(s, t, x, id);
      } else if id !in r.byId {
        RemovedIsGone(s, t, x, id);
      }
    }
  }

  lemma OwnSweep(s: Shared, t: Tid, x: Step, due: set<InviteId>)
    requires Ready(s, t, x) && Sweeping(At(s, t)) && x != ExpireDone
    ensures var r := Do(s, t, x);
            Sweeping(At(r, t)) && Todo(At(r, t)) <= Todo(At(s, t)) &&
            forall id :: id in Todo(At(s, t)) && id !in Todo(At(r, t)) ==> id !in r.byId
  {}

  lemma OtherSweep(s: Shared, t: Tid, u: Tid, x: Step)
    requires Ready(s, u, x) && u != t
    ensures At(Do(s, u, x), t) == At(s, t)
  {}

  lemma SweepStep(s: Shared, t: Tid, u: Tid, x: Step, due: set<InviteId>)
    requires Safe(s) && Ready(s, u, x) && SweepOk(s, t, due) && DueOk(s, due) && !(u == t && x == ExpireDone)
    ensures SweepOk(Do(s, u, x), t, due) && DueOk(Do(s, u, x), due)
  {
    var r := Do(s, u, x);
    DueStep(s, u, x, due);
    if u == t {
      OwnSweep(s, t, x, due);
    } else {
      OtherSweep(s, t, u, x);
    }
    hide Do, Ready, Safe, Gone;
    forall id | id in due && id !in Todo(At(r, t)) ensures Gone(r, id) {
      if id !in Todo(At(s, t)) {
        GoneStays(s, u, x, id);
      } else {
        assert id !in r.byId;
      }
    }
  }

  /** Steps `m` to `n`: thread `t` scans for what is due, and has not finished since. */
  ghost predicate Swept(xs: seq<(Tid, Step)>, m: nat, n: nat, t: Tid, now: Time)
    requires m < n <= |xs|
  {
    xs[m] == (t, ExpireScan(now)) && forall k :: m < k < n ==> xs[k] != (t, ExpireDone)
  }

  lemma {:induction false} SweepRuns(ss: seq<Shared>, xs: seq<(Tid, Step)>, m: nat, n: nat, t: Tid, now: Time)
    requires Interleaving(ss, xs) && m < n <= |xs| && Swept(xs, m, n, t, now)
    ensures |ss| == |xs| + 1 && SweepOk(ss[n], t, Due(Atomic(ss[m]), now)) && DueOk(ss[n], Due(Atomic(ss[m]), now))
    decreases n
  {
    AlwaysSafe(ss, xs, n - 1);
    assert Region(ss, xs, n - 1);
    if n == m + 1 {
      hide Interleaving, Safe;
      Scanned(ss[m], t, now);
    } else {
      hide Interleaving, Safe, SweepOk, DueOk, Do, Ready;
      SweepRuns(ss, xs, m, n - 1, t, now);
      SweepStep(ss[n - 1], t, xs[n - 1].0, xs[n - 1].1, Due(Atomic(ss[m]), now));
    }
  }

  lemma Scanned(s: Shared, t: Tid, now: Time)
    requires Ready(s, t, ExpireScan(now))
    ensures var r, due := Do(s, t, ExpireScan(now)), Due(Atomic(s), now);
            SweepOk(r, t, due) && DueOk(r, due) && Todo(At(r, t)) == due
  {}

  lemma {:induction false} StaysGone(ss: seq<Shared>, xs: seq<(Tid, Step)>, n: nat, p: nat, id: InviteId)
    requires Interleaving(ss, xs) && n <= p <= |xs| && Gone(ss[n], id)
    ensures |ss| == |xs| + 1 && Gone(ss[p], id)
    decreases p
  {
    if n < p {
      assert Region(ss, xs, p - 1);
      hide Do, Ready, Gone, Interleaving;
      StaysGone(ss, xs, n, p - 1, id);
      GoneStays(ss[p - 1], xs[p - 1].0, xs[p - 1].1, id);
    }
  }

  /** Expiry completes. Whatever other threads do meanwhile, once a thread ends an `expire_due` every
      invite that was live and due at its scan has left the record map, for good; and it never has
      any other invite to close. */
  lemma ExpiryCompletes(ss: seq<Shared>, xs: seq<(Tid, Step)>, m: nat, n: nat, p: nat, t: Tid,
                        now: Time, id: InviteId)
    requires Interleaving(ss, xs) && m < n < |xs| && n <= p <= |xs| && Swept(xs, m, n, t, now)
    ensures |ss| == |xs| + 1 && Todo(At(ss[n], t)) <= Due(Atomic(ss[m]), now)
    ensures xs[n] == (t, ExpireDone) && id in ss[m].byId && now >= ss[m].byId[id].expiresAt ==> id !in ss[p].byId
  {
    SweepRuns(ss, xs, m, n, t, now);
    assert Region(ss, xs, n);
    if xs[n] == (t, ExpireDone) && id in ss[m].byId && now >= ss[m].byId[id].expiresAt {
      assert id in Due(Atomic(ss[m]), now);
      hide Interleaving;
      assert Gone(ss[n], id);
      StaysGone(ss, xs, n, p, id);
    }
    hide Interleaving;
  }

  /// ---- Nothing is lost ----

  /** Some thread holds the invite halfway. */
  predicate Held(c: Core, id: InviteId) { exists t :: t in c.carried && c.carried[t].id == id }

  predicate Accounted(c: Core) {
    forall id :: id in c.used ==> id in c.byId || id in c.handed || Held(c, id)
  }

  lemma BeginAccounts(c: Core, t: Tid, inv: Invite)
    requires Accounted(c) && t !in c.carried
    ensures Accounted(Begin(c, t, inv))
  {
    var r := Begin(c, t, inv);
    assert t in r.carried && r.carried[t].id == inv.id;
    forall id | Held(c, id) ensures Held(r, id) {
      var u :| u in c.carried && c.carried[u].id == id;
      assert u in r.carried && r.carried[u].id == id;
    }
  }

  lemma FileAccounts(c: Core, t: Tid)
    requires Accounted(c) && t in c.carried
    ensures Accounted(File(c, t))
  {
    var r := File(c, t);
    forall id | Held(c, id) ensures id in r.byId || Held(r, id) {
      var u :| u in c.carried && c.carried[u].id == id;
      assert u != t ==> u in r.carried && r.carried[u].id == id;
    }
  }

  lemma TakeAccounts(c: Core, t: Tid, id: InviteId)
    requires Accounted(c) && RecordsOk(c) && t !in c.carried && id in c.byId
    ensures Accounted(Take(c, t, id))
  {
    var r := Take(c, t, id);
    assert t in r.carried && r.carried[t].id == id;
    forall i | Held(c, i) ensures Held(r, i) {
      var u :| u in c.carried && c.carried[u].id == i;
      assert u in r.carried && r.carried[u].id == i;
    }
  }

  lemma DropAccounts(c: Core, t: Tid)
    requires Accounted(c) && t in c.carried
    ensures Accounted(Drop(c, t))
  {
    var r := Drop(c, t);
    forall id | Held(c, id) ensures id in r.handed || Held(r, id) {
      var u :| u in c.carried && c.carried[u].id == id;
      assert u != t ==> u in r.carried && r.carried[u].id == id;
    }
  }

  /** What a region does to the maps and to what threads hold. */
  lemma CoreMoves(s: Shared, t: Tid, x: Step)
    requires Ready(s, t, x)
    ensures var c, r := CoreOf(s), CoreOf(Do(s, t, x));
            match x
            case InsertIndex(inv) => t !in c.carried && (r == c || r == Begin(c, t, inv))
            case InsertRecord => t in c.carried && r == File(c, t)
            case CloseRecord(id) => t !in c.carried && r == if id in c.byId then Take(c, t, id) else c
            case ExpireRecord(id) => t !in c.carried && r == if id in c.byId then Take(c, t, id) else c
            case CloseIndex => t in c.carried && r == Drop(c, t)
            case ExpireIndex => t in c.carried && r == Drop(c, t)
            case _ => r == c
  {
    CarriedMoves(s.threads, t, At(Do(s, t, x), t));
    hide CarriedBy;
  }

  lemma AccountsStep(s: Shared, t: Tid, x: Step)
    requires Safe(s) && Ready(s, t, x) && Accounted(CoreOf(s))
    ensures Accounted(CoreOf(Do(s, t, x)))
  {
    hide *;
    var c := CoreOf(s);
    RecordsAreOk(s);
    CoreMoves(s, t, x);
    match x
    case InsertIndex(inv) => BeginAccounts(c, t, inv);
    case InsertRecord => FileAccounts(c, t);
    case CloseRecord(id) =>
      if id in c.byId {
        TakeAccounts(c, t, id);
      }
    case ExpireRecord(id) =>
      if id in c.byId {
        TakeAccounts(c, t, id);
      }
    case CloseIndex => DropAccounts(c, t);
    case ExpireIndex => DropAccounts(c, t);
    case _ =>
  }

  lemma RecordsAreOk(s: Shared)
    requires Safe(s)
    ensures RecordsOk(CoreOf(s))
  {
    hide CarriedOk, IndexOk, HandedOk, LockOk, RecordsOk;
  }

  lemma {:induction false} AlwaysAccounted(ss: seq<Shared>, xs: seq<(Tid, Step)>, n: nat)
    requires Interleaving(ss, xs) && n <= |xs|
    ensures Accounted(CoreOf(ss[n]))
    decreases n
  {
    hide *;
    if n == 0 {
      QuietAccounts(ss, xs);
    } else {
      AlwaysAccounted(ss, xs, n - 1);
      AlwaysSafe(ss, xs, n - 1);
      RegionAt(ss, xs, n - 1);
      AccountsStep(ss[n - 1], xs[n - 1].0, xs[n - 1].1);
    }
  }

  lemma QuietAccounts(ss: seq<Shared>, xs: seq<(Tid, Step)>)
    requires Interleaving(ss, xs)
    ensures Accounted(CoreOf(ss[0]))
  {
    hide Region;
  }

  lemma RegionAt(ss: seq<Shared>, xs: seq<(Tid, Step)>, n: nat)
    requires Interleaving(ss, xs) && n < |xs|
    ensures |ss| == |xs| + 1 && Ready(ss[n], xs[n].0, xs[n].1) && ss[n + 1] == Do(ss[n], xs[n].0, xs[n].1)
  {
    assert Region(ss, xs, n);
    hide Ready, Do;
  }

  /** Nothing is lost or doubled: in every state of every interleaving, each invite ever inserted is
      live, held halfway by a thread, or handed out by a close, and only one of these; and nothing
      else is. So when nobody is halfway, all that were ever inserted and are not live have been
      handed out. */
  lemma {:induction false} NothingLost(ss: seq<Shared>, xs: seq<(Tid, Step)>, n: nat, id: InviteId)
    requires Interleaving(ss, xs) && n <= |xs|
    ensures var c := CoreOf(ss[n]);
            && (id in c.used <==> id in c.byId || id in c.handed || Held(c, id))
            && !(id in c.byId && id in c.handed) && !(id in c.byId && Held(c, id))
            && !(id in c.handed && Held(c, id))
  {
    AlwaysSafe(ss, xs, n);
    AlwaysAccounted(ss, xs, n);
    hide Interleaving, IndexOk, LockOk, Indexed;
  }
}
