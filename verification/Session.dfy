/** Invite routing and session allocation (crates/session/src/lib.rs). Fresh identifiers and
    clock readings are parameters. */
module Session {
  import opened Base
  import opened Protocol
  import opened Bond

  datatype InviteError = CallerNotPresent | NoEligiblePeer | PeerNotPresent | NotBonded

  datatype AcceptError = NotCallee | NotRinging | NotPresent | Expired

  function FirstPresent(cands: seq<(DogId, real)>, present: set<DogId>): Option<DogId> {
    if cands == [] then None
    else if cands[0].0 in present then Some(cands[0].0)
    else FirstPresent(cands[1..], present)
  }

  function RouteInvite(from: DogId, preferred: Option<DogId>, g: Edges, cands: seq<(DogId, real)>,
                       present: set<DogId>, callerPresent: bool): Result<DogId, InviteError>
  {
    if !callerPresent then Failure(CallerNotPresent)
    else
      match preferred
      case Some(to) =>
        if to == from then Failure(NoEligiblePeer)
        else if !MutualEligible(g, from, to) then Failure(NotBonded)
        else if to !in present then Failure(PeerNotPresent)
        else Success(to)
      case None =>
        match FirstPresent(cands, present)
        case Some(peer) => Success(peer)
        case None => Failure(NoEligiblePeer)
  }

  lemma {:induction false} FirstPresentIsFirst(cands: seq<(DogId, real)>, present: set<DogId>)
    ensures match FirstPresent(cands, present)
            case None => forall i :: 0 <= i < |cands| ==> cands[i].0 !in present
            case Some(d) => exists i :: 0 <= i < |cands| && cands[i].0 == d && d in present &&
                                        forall j :: 0 <= j < i ==> cands[j].0 !in present
    decreases |cands|
  {
    if cands != [] && cands[0].0 !in present {
      FirstPresentIsFirst(cands[1..], present);
      assert forall i :: 0 < i < |cands| ==> cands[i] == cands[1..][i - 1];
      match FirstPresent(cands[1..], present)
      case None =>
      case Some(d) =>
        var i :| 0 <= i < |cands[1..]| && cands[1..][i].0 == d && d in present &&
                 forall j :: 0 <= j < i ==> cands[1..][j].0 !in present;
        assert cands[i + 1].0 == d;
        assert forall j :: 0 <= j < i + 1 ==> cands[j].0 !in present;
    }
  }

  /** Automatic routing is sound, complete and optimal for every order in which the hash map
      may be iterated: it finds a present, mutually eligible peer of greatest outgoing weight,
      and fails only when there is none. */
  lemma RouteOptimal(from: DogId, g: Edges, cands: seq<(DogId, real)>, present: set<DogId>)
    requires IsCandidates(g, from, cands)
    ensures match RouteInvite(from, None, g, cands, present, true)
            case Success(to) =>
              to in present && MutualEligible(g, from, to) &&
              forall p :: p in present && MutualEligible(g, from, p) ==> Weight(g, from, p) <= Weight(g, from, to)
            case Failure(e) =>
              e == NoEligiblePeer && forall p :: p in present ==> !MutualEligible(g, from, p)
  {
    FirstPresentIsFirst(cands, present);
    forall p | MutualEligible(g, from, p) ensures (p, Weight(g, from, p)) in cands {
      assert CandidateEdge(g, from, p, Weight(g, from, p));
    }
    match FirstPresent(cands, present)
    case None =>
    case Some(to) =>
      var i :| 0 <= i < |cands| && cands[i].0 == to && to in present &&
               forall j :: 0 <= j < i ==> cands[j].0 !in present;
      assert cands[i] in cands;
      assert CandidateEdge(g, from, to, cands[i].1);
      forall p | p in present && MutualEligible(g, from, p) ensures Weight(g, from, p) <= Weight(g, from, to) {
        assert (p, Weight(g, from, p)) in cands;
        var j :| 0 <= j < |cands| && cands[j] == (p, Weight(g, from, p));
        assert j >= i;
      }
  }

  /** Where the first present candidate stands. */
  lemma FirstPresentAt(cands: seq<(DogId, real)>, present: set<DogId>, j: nat)
    requires j < |cands| && cands[j].0 in present && forall k :: 0 <= k < j ==> cands[k].0 !in present
    ensures FirstPresent(cands, present) == Some(cands[j].0)
  {
    FirstPresentIsFirst(cands, present);
  }

  /** The list with entry `i` moved up to place `j`. */
  function Moved(cands: seq<(DogId, real)>, j: nat, i: nat): seq<(DogId, real)>
    requires j <= i < |cands|
  {
    cands[..j] + [cands[i]] + cands[j..i] + cands[i + 1..]
  }

  /** Where the entry now at place `k` stood. */
  function Stood(j: nat, i: nat, k: nat): nat { if k == j then i else if j < k <= i then k - 1 else k }

  lemma MovedAt(cands: seq<(DogId, real)>, j: nat, i: nat)
    requires j <= i < |cands|
    ensures var out := Moved(cands, j, i);
            |out| == |cands| &&
            forall k: nat :: k < |out| ==> Stood(j, i, k) < |cands| && out[k] == cands[Stood(j, i, k)]
  {}

  lemma MovedSame(cands: seq<(DogId, real)>, j: nat, i: nat)
    requires j <= i < |cands|
    ensures forall c :: c in Moved(cands, j, i) <==> c in cands
  {
    var out := Moved(cands, j, i);
    MovedAt(cands, j, i);
    forall c | c in cands ensures c in out {
      var k :| 0 <= k < |cands| && cands[k] == c;
      var l := if k == i then j else if j <= k < i then k + 1 else k;
      assert Stood(j, i, l) == k && out[l] == c;
    }
  }

  lemma MovedOrdered(cands: seq<(DogId, real)>, j: nat, i: nat)
    requires j <= i < |cands| && cands[j].1 == cands[i].1 && SortedByWeight(cands) && DistinctPeers(cands)
    ensures SortedByWeight(Moved(cands, j, i)) && DistinctPeers(Moved(cands, j, i))
  {
    var out := Moved(cands, j, i);
    MovedAt(cands, j, i);
    hide Moved;
    forall k, l | 0 <= k < l < |out| ensures out[k].0 != out[l].0 {
      assert Stood(j, i, k) != Stood(j, i, l);
    }
    forall k | 0 <= k < |out| ensures out[k].1 == cands[k].1 {}
  }

  /** Among equal weights any order of the candidates is possible. */
  lemma MovedIsCandidates(g: Edges, from: DogId, cands: seq<(DogId, real)>, j: nat, i: nat)
    requires IsCandidates(g, from, cands) && j <= i < |cands| && cands[j].1 == cands[i].1
    ensures IsCandidates(g, from, Moved(cands, j, i))
  {
    MovedSame(cands, j, i);
    MovedOrdered(cands, j, i);
    hide Moved, CandidateEdge, SortedByWeight, DistinctPeers;
  }

  lemma MovedLeads(cands: seq<(DogId, real)>, present: set<DogId>, j: nat, i: nat)
    requires j <= i < |cands| && cands[i].0 in present && forall k :: 0 <= k < j ==> cands[k].0 !in present
    ensures FirstPresent(Moved(cands, j, i), present) == Some(cands[i].0)
  {
    MovedAt(cands, j, i);
    hide Moved, FirstPresent;
    FirstPresentAt(Moved(cands, j, i), present, j);
  }

  /** The first present candidate weighs as much as any peer of greatest weight. */
  lemma TiePlaces(from: DogId, g: Edges, cands: seq<(DogId, real)>, present: set<DogId>, to: DogId)
    returns (j: nat, i: nat)
    requires IsCandidates(g, from, cands) && to in present && MutualEligible(g, from, to)
    requires forall p :: p in present && MutualEligible(g, from, p) ==> Weight(g, from, p) <= Weight(g, from, to)
    ensures j <= i < |cands| && cands[i].0 == to && cands[j].1 == cands[i].1
    ensures forall k :: 0 <= k < j ==> cands[k].0 !in present
  {
    i := PlaceOf(g, from, cands, to);
    FirstPresentIsFirst(cands, present);
    j :| 0 <= j < |cands| && cands[j].0 in present && forall k :: 0 <= k < j ==> cands[k].0 !in present;
    CandidateAt(g, from, cands, i);
    CandidateAt(g, from, cands, j);
    hide *;
  }

  lemma PlaceOf(g: Edges, from: DogId, cands: seq<(DogId, real)>, to: DogId) returns (i: nat)
    requires IsCandidates(g, from, cands) && MutualEligible(g, from, to)
    ensures i < |cands| && cands[i].0 == to
  {
    assert CandidateEdge(g, from, to, Weight(g, from, to));
    assert (to, Weight(g, from, to)) in cands;
    i :| 0 <= i < |cands| && cands[i] == (to, Weight(g, from, to));
    hide *;
  }

  lemma CandidateAt(g: Edges, from: DogId, cands: seq<(DogId, real)>, i: nat)
    requires IsCandidates(g, from, cands) && i < |cands|
    ensures cands[i].1 == Weight(g, from, cands[i].0) && MutualEligible(g, from, cands[i].0)
    ensures forall k :: 0 <= k < i ==> cands[k].1 >= cands[i].1
  {
    assert cands[i] in cands && CandidateEdge(g, from, cands[i].0, cands[i].1);
    hide DistinctPeers;
  }

  /** Every present, eligible peer of greatest weight is the answer for some order in which the hash
      map may be iterated. */
  lemma TieCanLead(from: DogId, g: Edges, cands: seq<(DogId, real)>, present: set<DogId>, to: DogId)
    returns (out: seq<(DogId, real)>)
    requires IsCandidates(g, from, cands) && to in present && MutualEligible(g, from, to)
    requires forall p :: p in present && MutualEligible(g, from, p) ==> Weight(g, from, p) <= Weight(g, from, to)
    ensures IsCandidates(g, from, out) && FirstPresent(out, present) == Some(to)
  {
    hide *;
    var j, i := TiePlaces(from, g, cands, present, to);
    out := Moved(cands, j, i);
    MovedIsCandidates(g, from, cands, j, i);
    MovedLeads(cands, present, j, i);
  }

  /** Directed routing answers with the preferred peer exactly when it is another dog, bonded
      and present; otherwise the error names the first of these that fails. */
  lemma RoutePreferred(from: DogId, to: DogId, g: Edges, cands: seq<(DogId, real)>,
                         present: set<DogId>)
    ensures var r := RouteInvite(from, Some(to), g, cands, present, true);
            (r.Success? <==> to != from && MutualEligible(g, from, to) && to in present) &&
            (r.Success? ==> r.value == to) &&
            (r == Failure(NoEligiblePeer) <==> to == from) &&
            (r == Failure(NotBonded) <==> to != from && !MutualEligible(g, from, to))
  {}

  /** Only the directed path checks that a dog is not called by itself. Automatic routing
      never answers with the caller if and only if the caller has no strong bond with itself:
      stated over all candidate orders and all sets of present dogs. */
  lemma NeverSelfIffNoSelfBond(from: DogId, g: Edges, cands: seq<(DogId, real)>)
    requires IsCandidates(g, from, cands)
    ensures (forall present: set<DogId> :: RouteInvite(from, None, g, cands, present, true) != Success(from))
            <==> !MutualEligible(g, from, from)
  {
    if MutualEligible(g, from, from) {
      RouteOptimal(from, g, cands, {from});
    } else {
      forall present: set<DogId> ensures RouteInvite(from, None, g, cands, present, true) != Success(from) {
        RouteOptimal(from, g, cands, present);
      }
    }
  }

  function NewInvite(id: InviteId, from: DogId, to: DogId, mode: InviteMode, now: Time): Invite {
    Invite(id, from, to, mode, Ringing, now, now + RING_TIMEOUT_MS)
  }

  predicate IsExpired(inv: Invite, now: Time) { now >= inv.expiresAt }

  function AcceptInvite(inv: Invite, acceptor: DogId, acceptorPresent: bool, id: SessionId, now: Time)
    : Result<SessionRecord, AcceptError>
  {
    if inv.toDog != acceptor then Failure(NotCallee)
    else if inv.state != Ringing then Failure(NotRinging)
    else if IsExpired(inv, now) then Failure(AcceptError.Expired)
    else if !acceptorPresent then Failure(NotPresent)
    else Success(SessionRecord(id, inv.id, inv.fromDog, inv.toDog, inv.mode, Active, now,
                               now + SESSION_MAX_MS, now + SESSION_SEGMENT_MS))
  }

  datatype Role = Offerer | Answerer

  function WebrtcRole(s: SessionRecord, dog: DogId): Role { if dog == s.dogA then Offerer else Answerer }
}
