/** Presence reports may be delayed, reordered or repeated on the network; the store still
    converges (crates/db/src/memory.rs:35-99). */
module Convergence {
  import opened Base
  import opened Protocol
  import opened Memory

  /** The store after a sequence of reports, starting empty. */
  function Delivered(rs: seq<PresenceReport>): Presences {
    if rs == [] then map[] else Upserted(Delivered(rs[..|rs| - 1]), rs[|rs| - 1])
  }

  /** Report `i` has the greatest sequence number of its dog, and is the last with that number. */
  predicate Newest(rs: seq<PresenceReport>, i: nat) {
    i < |rs| &&
    forall j :: 0 <= j < |rs| && rs[j].dogId == rs[i].dogId ==>
                  rs[j].seqNo <= rs[i].seqNo && (j > i ==> rs[j].seqNo < rs[i].seqNo)
  }

  predicate Reported(rs: seq<PresenceReport>, d: DogId) {
    exists i :: 0 <= i < |rs| && rs[i].dogId == d
  }

  /** The stored entry of a dog is the one of its newest report: highest number, and with equal
      numbers the last delivered. A dog is in the store exactly when some report named it. */
  lemma {:induction false} NewestWins(rs: seq<PresenceReport>, d: DogId) returns (i: nat)
    ensures d in Delivered(rs) <==> Reported(rs, d)
    ensures Reported(rs, d) ==> Newest(rs, i) && rs[i].dogId == d && Delivered(rs)[d] == EntryOf(rs[i])
    decreases |rs|
  {
    i := 0;
    if rs != [] {
      var n := |rs| - 1;
      var rest := rs[..n];
      var k := NewestWins(rest, d);
      if rs[n].dogId == d {
        i := if Reported(rest, d) && rs[n].seqNo < rest[k].seqNo then k else n;
      } else {
        i := k;
        if Reported(rs, d) {
          var j :| 0 <= j < |rs| && rs[j].dogId == d;
          assert rest[j].dogId == d;
        }
      }
    }
  }

  /** Reports of one dog that carry the same number are the same report. */
  predicate Consistent(rs: seq<PresenceReport>) {
    forall i, j :: 0 <= i < |rs| && 0 <= j < |rs| && rs[i].dogId == rs[j].dogId && rs[i].seqNo == rs[j].seqNo
                   ==> rs[i] == rs[j]
  }

  /** Convergence: two deliveries of the same reports, in any orders and with any repetitions,
      leave the same store, provided a dog never reuses a number for a different report. */
  lemma DeliveryOrderIrrelevant(rs: seq<PresenceReport>, ss: seq<PresenceReport>)
    requires forall r :: r in rs <==> r in ss
    requires Consistent(rs)
    ensures Delivered(rs) == Delivered(ss)
  {
    assert TopsAgree(rs);
    SameReportsSameStore(rs, ss);
  }

  /** Without that proviso the last delivery decides: two orders of two different reports that
      share a dog and a number leave different stores. */
  lemma SameNumberLastWins(r: PresenceReport, s: PresenceReport)
    requires r.dogId == s.dogId && r.seqNo == s.seqNo
    ensures Delivered([r, s]) == map[r.dogId := EntryOf(s)]
    ensures Delivered([r, s]) == Delivered([s, r]) <==> EntryOf(r) == EntryOf(s)
  {
    assert [r, s][..1] == [r] && [s, r][..1] == [s] && [r][..0] == [] && [s][..0] == [];
    assert Delivered([r]) == map[r.dogId := EntryOf(r)] && Delivered([s]) == map[s.dogId := EntryOf(s)];
    assert Delivered([r, s])[r.dogId] == EntryOf(s) && Delivered([s, r])[r.dogId] == EntryOf(r);
  }

  /** Report `i` carries the greatest number of its dog. */
  predicate Top(rs: seq<PresenceReport>, i: nat) {
    i < |rs| && forall j :: 0 <= j < |rs| && rs[j].dogId == rs[i].dogId ==> rs[j].seqNo <= rs[i].seqNo
  }

  /** For each dog, the reports that share its greatest number say the same. */
  ghost predicate TopsAgree(rs: seq<PresenceReport>) {
    forall i: nat, j: nat :: Top(rs, i) && Top(rs, j) && rs[i].dogId == rs[j].dogId ==> EntryOf(rs[i]) == EntryOf(rs[j])
  }

  lemma SameReportsSameStore(rs: seq<PresenceReport>, ss: seq<PresenceReport>)
    requires (forall r :: r in rs <==> r in ss) && TopsAgree(rs)
    ensures Delivered(rs) == Delivered(ss)
  {
    forall d ensures d in Delivered(rs) <==> d in Delivered(ss)
             ensures d in Delivered(rs) ==> Delivered(rs)[d] == Delivered(ss)[d]
    {
      var i := NewestWins(rs, d);
      var j := NewestWins(ss, d);
      if Reported(rs, d) {
        assert rs[i] in ss;
      }
      if Reported(ss, d) {
        assert ss[j] in rs;
        var k :| 0 <= k < |rs| && rs[k] == ss[j];
        assert rs[k].dogId == d && Reported(rs, d);
        TopTravels(rs, ss, i, j, k);
      }
    }
  }

  /** The newest report of a dog in another order still has its greatest number. */
  lemma TopTravels(rs: seq<PresenceReport>, ss: seq<PresenceReport>, i: nat, j: nat, k: nat)
    requires forall r :: r in rs <==> r in ss
    requires Newest(rs, i) && Newest(ss, j) && rs[i].dogId == ss[j].dogId && k < |rs| && rs[k] == ss[j]
    ensures Top(rs, i) && Top(rs, k)
  {
    assert rs[i] in ss;
    var m :| 0 <= m < |ss| && ss[m] == rs[i];
    assert rs[i].seqNo <= ss[j].seqNo;
  }

  /** The same reports with report `i` delivered last. */
  function Last(rs: seq<PresenceReport>, i: nat): seq<PresenceReport>
    requires i < |rs|
  {
    rs[..i] + rs[i + 1..] + [rs[i]]
  }

  lemma LastReorders(rs: seq<PresenceReport>, i: nat)
    requires i < |rs|
    ensures multiset(Last(rs, i)) == multiset(rs) && |Last(rs, i)| == |rs|
  {
    assert rs == rs[..i] + [rs[i]] + rs[i + 1..];
  }

  lemma InEither(rs: seq<PresenceReport>, ss: seq<PresenceReport>)
    requires multiset(rs) == multiset(ss)
    ensures forall r :: r in rs <==> r in ss
  {
    forall r ensures r in rs <==> r in ss {
      assert r in rs <==> r in multiset(rs);
      assert r in ss <==> r in multiset(ss);
    }
  }

  /** A report with its dog's greatest number, delivered last, is what is stored. */
  lemma TopLastWins(rs: seq<PresenceReport>, i: nat)
    requires Top(rs, i)
    ensures rs[i].dogId in Delivered(Last(rs, i)) && Delivered(Last(rs, i))[rs[i].dogId] == EntryOf(rs[i])
  {
    var ss, n := Last(rs, i), |rs| - 1;
    LastReorders(rs, i);
    InEither(rs, ss);
    forall j | 0 <= j < |ss| && ss[j].dogId == rs[i].dogId ensures ss[j].seqNo <= rs[i].seqNo {
      assert ss[j] in rs;
    }
    assert ss[n] == rs[i];
    var k := NewestWins(ss, rs[i].dogId);
    assert Reported(ss, rs[i].dogId);
    assert k == n;
  }

  /** Exactly when the order of delivery cannot matter, numbers reused or not: every order of these
      reports leaves the same store if and only if, for each dog, the reports that share its
      greatest number say the same. Repetitions then do not matter either. */
  lemma DeliveriesAgreeIff(rs: seq<PresenceReport>)
    ensures (forall ss :: multiset(ss) == multiset(rs) ==> Delivered(ss) == Delivered(rs)) <==> TopsAgree(rs)
    ensures TopsAgree(rs) ==> forall ss :: (forall r :: r in ss <==> r in rs) ==> Delivered(ss) == Delivered(rs)
  {
    if TopsAgree(rs) {
      forall ss | forall r :: r in ss <==> r in rs ensures Delivered(ss) == Delivered(rs) {
        SameReportsSameStore(rs, ss);
      }
      forall ss | multiset(ss) == multiset(rs) ensures Delivered(ss) == Delivered(rs) {
        InEither(rs, ss);
      }
    } else {
      var i: nat, j: nat :| Top(rs, i) && Top(rs, j) && rs[i].dogId == rs[j].dogId && EntryOf(rs[i]) != EntryOf(rs[j]);
      TopLastWins(rs, i);
      TopLastWins(rs, j);
      LastReorders(rs, i);
      LastReorders(rs, j);
      assert Delivered(Last(rs, i)) != Delivered(Last(rs, j));
    }
  }

  /** What a dog's newest report makes others see: the report as it was, if it said present and is no
      older than ten seconds; otherwise its number, terminal and time, but nobody there. An entry
      dated in the future counts as fresh. */
  function SeenAs(r: PresenceReport, now: Time): PresenceView {
    if r.present && now - r.ts <= 10_000 then
      PresenceView(r.dogId, r.terminalId, true, r.confidence, r.forceBand, r.ts, r.seqNo)
    else PresenceView(r.dogId, r.terminalId, false, 0.0, Empty, r.ts, r.seqNo)
  }

  lemma ViewExact(m: Presences, r: PresenceReport, now: Time)
    requires r.dogId in m && m[r.dogId] == EntryOf(r)
    ensures ViewAt(m, r.dogId, now) == Some(SeenAs(r, now))
    ensures PresentAt(m, r.dogId, now) == (r.dogId in PresentDogs(m, now)) == SeenAs(r, now).present
  {}

  lemma UnknownUnseen(m: Presences, d: DogId, now: Time)
    requires d !in m
    ensures ViewAt(m, d, now) == None && !PresentAt(m, d, now) && d !in PresentDogs(m, now)
  {}

  /** After any deliveries a dog is seen as its newest report makes it seen, asked for alone or listed;
      a dog that was never reported is not seen at all. */
  lemma SeenAsNewest(rs: seq<PresenceReport>, d: DogId, now: Time) returns (i: nat)
    ensures var m := Delivered(rs);
            if Reported(rs, d) then
              Newest(rs, i) && rs[i].dogId == d && ViewAt(m, d, now) == Some(SeenAs(rs[i], now)) &&
              PresentAt(m, d, now) == (d in PresentDogs(m, now)) == SeenAs(rs[i], now).present
            else ViewAt(m, d, now) == None && !PresentAt(m, d, now) && d !in PresentDogs(m, now)
  {
    i := NewestWins(rs, d);
    if Reported(rs, d) {
      ViewExact(Delivered(rs), rs[i], now);
    } else {
      UnknownUnseen(Delivered(rs), d, now);
    }
    hide *;
  }

  /** So a dog is listed exactly when its newest report says it is present and is no older than ten
      seconds. */
  lemma ListedIffNewest(rs: seq<PresenceReport>, d: DogId, now: Time)
    ensures d in PresentDogs(Delivered(rs), now) <==>
            exists i: nat :: Newest(rs, i) && rs[i].dogId == d && rs[i].present && now - rs[i].ts <= 10_000
  {
    var i := SeenAsNewest(rs, d, now);
    hide PresentDogs, Delivered, PresentAt, ViewAt;
    forall j: nat | Newest(rs, j) && rs[j].dogId == d ensures Reported(rs, d) && j == i {
      assert Reported(rs, d);
    }
  }
}
