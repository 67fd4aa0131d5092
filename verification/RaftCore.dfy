/**
 Why replicated logs agree: the argument of section 5.4 of "In Search of an Understandable
 Consensus Algorithm (Extended Version)", over the persistent state of the peers and a record
 of what happened.

 `Core` holds the term and the log of every peer together with history that no peer reads:
 the log every elected leader has built so far, how far each peer stored the log of each
 leader, the log each candidate had when it campaigned, and the ballots cast.  The five
 transitions below are all that happens to this state; RaftCluster.dfy shows that every step
 of the real peers is one of them.
 */
module RaftCore {
  import opened Collections
  import opened RaftServer

  // Term, leader: the peers that elected it, its log at that moment and its log now.
  datatype Lead = Lead(id: nat, voters: set<nat>, start: Log, log: Log)

  datatype Ballot = Ballot(term: nat, voter: nat, candidate: nat)

  datatype Core = Core(
    n: nat,
    terms: seq<nat>,
    logs: seq<Log>,
    leaders: map<nat, Lead>,
    stored: map<(nat, nat), nat>,      // (peer, term): last index of that leader's log it stored
    campaigns: map<(nat, nat), Log>,   // (term, candidate)
    ballots: set<Ballot>)

  // Both logs reach index i and are equal through it.
  ghost predicate Agree(a: Log, b: Log, i: nat) {
    i < |a| && i < |b| && forall k :: 0 <= k <= i ==> a[k] == b[k]
  }

  ghost predicate TermsBelow(log: Log, bound: nat) {
    forall i :: 0 <= i < |log| ==> log[i].term < bound
  }

  // Every entry of the log, with everything before it, is in the log of the leader of its term.
  ghost predicate Genuine(log: Log, leaders: map<nat, Lead>) {
    && 1 <= |log|
    && log[0] == Root
    && forall i :: 1 <= i < |log| ==> log[i].term in leaders && Agree(log, leaders[log[i].term].log, i)
  }

  ghost predicate Majority(q: set<nat>, n: nat) {
    (forall v :: v in q ==> v < n) && 2 * |q| > n
  }

  ghost predicate Stored(k: Core, v: nat, t: nat, i: nat) {
    (v, t) in k.stored && i <= k.stored[(v, t)]
  }

  // Peer v still has what it stored of leader t's log through i, unless a later leader it
  // has heard of does not have that prefix.
  ghost predicate Kept(k: Core, v: nat, t: nat, i: nat)
    requires v < |k.terms| && v < |k.logs| && t in k.leaders
  {
    || Agree(k.logs[v], k.leaders[t].log, i)
    || exists u :: u in k.leaders && t < u <= k.terms[v] && !Agree(k.leaders[u].start, k.leaders[t].log, i)
  }

  // A candidate of term u whose log was `log` when v voted for it has what v stored of an
  // earlier leader t's own entries, unless a leader in between does not.
  ghost predicate Carries(k: Core, log: Log, u: nat, t: nat, i: nat)
    requires t in k.leaders
  {
    || Agree(log, k.leaders[t].log, i)
    || exists w :: w in k.leaders && t < w < u && !Agree(k.leaders[w].start, k.leaders[t].log, i)
  }

  ghost predicate ServersOk(k: Core) {
    && |k.terms| == k.n
    && |k.logs| == k.n
    && forall v :: 0 <= v < k.n ==> Genuine(k.logs[v], k.leaders) && TermsBelow(k.logs[v], k.terms[v] + 1)
  }

  ghost predicate LeadOk(k: Core, t: nat)
    requires t in k.leaders
  {
    var l := k.leaders[t];
    && 1 <= t
    && Majority(l.voters, k.n)
    && l.id < k.n
    && (t, l.id) in k.campaigns && k.campaigns[(t, l.id)] == l.start
    && (forall v :: v in l.voters ==> Ballot(t, v, l.id) in k.ballots)
    && l.start <= l.log
    && Genuine(l.log, k.leaders)
    && TermsBelow(l.log, t + 1)
  }

  ghost predicate LeadersOk(k: Core) {
    forall t :: t in k.leaders ==> LeadOk(k, t)
  }

  ghost predicate StoredOk(k: Core)
    requires |k.terms| == k.n && |k.logs| == k.n
  {
    forall v: nat, t: nat :: (v, t) in k.stored ==>
      && v < k.n && t in k.leaders && t <= k.terms[v] && k.stored[(v, t)] < |k.leaders[t].log|
      && forall i :: 0 <= i <= k.stored[(v, t)] ==> Kept(k, v, t, i)
  }

  ghost predicate CampaignsOk(k: Core)
    requires |k.terms| == k.n
  {
    forall u: nat, c: nat :: (u, c) in k.campaigns ==>
      && c < k.n && u <= k.terms[c]
      && Genuine(k.campaigns[(u, c)], k.leaders) && TermsBelow(k.campaigns[(u, c)], u)
  }

  // Peer v stored leader t's log through i, and the entry there is of t's own term.
  ghost predicate OwnStored(k: Core, v: nat, t: nat, i: nat) {
    Stored(k, v, t, i) && t in k.leaders && i < |k.leaders[t].log| && k.leaders[t].log[i].term == t
  }

  ghost predicate BallotOk(k: Core, b: Ballot) {
    && b.voter < |k.terms| && b.term <= k.terms[b.voter]
    && (b.term, b.candidate) in k.campaigns
    && forall t: nat, i: nat :: t < b.term && OwnStored(k, b.voter, t, i) ==>
         Carries(k, k.campaigns[(b.term, b.candidate)], b.term, t, i)
  }

  ghost predicate BallotsOk(k: Core) {
    forall b :: b in k.ballots ==> BallotOk(k, b)
  }

  ghost predicate CoreInv(k: Core) {
    ServersOk(k) && LeadersOk(k) && StoredOk(k) && CampaignsOk(k) && BallotsOk(k)
  }

  // ---------------------------------------------------------------------------------------
  // Consequences of the invariant
  // ---------------------------------------------------------------------------------------

  lemma GenuineIsSorted(k: Core, log: Log)
    requires LeadersOk(k) && Genuine(log, k.leaders)
    ensures Sorted(log)
  {
    forall i, j | 0 <= i <= j < |log| ensures log[i].term <= log[j].term {
      if 1 <= j {
        var t := log[j].term;
        assert LeadOk(k, t);
        assert log[i] == k.leaders[t].log[i];
      }
    }
  }

  // Log matching: two logs that hold the same term at an index agree through it.
  lemma LogMatching(k: Core, a: Log, b: Log, i: nat)
    requires Genuine(a, k.leaders) && Genuine(b, k.leaders)
    requires i < |a| && i < |b| && a[i].term == b[i].term
    ensures Agree(a, b, i)
  {
    if i > 0 {
      assert Agree(a, k.leaders[a[i].term].log, i);
      assert Agree(b, k.leaders[b[i].term].log, i);
    }
  }

  lemma {:induction false} QuorumsMeet(a: set<nat>, b: set<nat>, n: nat) returns (v: nat)
    requires Majority(a, n) && Majority(b, n)
    ensures v in a && v in b && v < n
  {
    var all := Indices(n);
    if a * b == {} {
      assert |a + b| == |a| + |b|;
      assert a + b <= all;
      SubsetSize(a + b, all);
      assert false;
    }
    v :| v in a * b;
  }

  ghost predicate HeldBy(k: Core, q: set<nat>, t: nat, i: nat) {
    forall v :: v in q ==> Stored(k, v, t, i)
  }

  // A majority stored leader t's log through index i, where it holds an entry of its own term.
  ghost predicate Chosen(k: Core, t: nat, i: nat) {
    && t in k.leaders
    && i < |k.leaders[t].log|
    && k.leaders[t].log[i].term == t
    && exists q :: Majority(q, k.n) && HeldBy(k, q, t, i)
  }

  // Leader completeness: what is chosen in a term is in the log of every later leader.
  lemma {:induction false} LeaderCompleteness(k: Core, t: nat, i: nat, u: nat)
    requires CoreInv(k) && Chosen(k, t, i)
    requires u in k.leaders && t <= u
    ensures Agree(k.leaders[u].log, k.leaders[t].log, i)
    ensures t < u ==> Agree(k.leaders[u].start, k.leaders[t].log, i)
    decreases u
  {
    if t < u {
      var q :| Majority(q, k.n) && HeldBy(k, q, t, i);
      assert LeadOk(k, u);
      var lead := k.leaders[u];
      var v := QuorumsMeet(q, lead.voters, k.n);
      var b := Ballot(u, v, lead.id);
      assert BallotOk(k, b);
      assert OwnStored(k, b.voter, t, i);
      assert Carries(k, lead.start, u, t, i);
      if !Agree(lead.start, k.leaders[t].log, i) {
        var w :| w in k.leaders && t < w < u && !Agree(k.leaders[w].start, k.leaders[t].log, i);
        LeaderCompleteness(k, t, i, w);
      }
    }
  }

  // Any two chosen prefixes agree as far as both reach.
  lemma ChosenAgree(k: Core, t1: nat, i1: nat, t2: nat, i2: nat, j: nat)
    requires CoreInv(k) && Chosen(k, t1, i1) && Chosen(k, t2, i2)
    requires j <= i1 && j <= i2
    ensures Agree(k.leaders[t1].log, k.leaders[t2].log, j)
  {
    if t1 <= t2 {
      LeaderCompleteness(k, t1, i1, t2);
    } else {
      LeaderCompleteness(k, t2, i2, t1);
    }
  }

  // ---------------------------------------------------------------------------------------
  // The transitions
  // ---------------------------------------------------------------------------------------

  // Nothing recorded is ever lost, and leaders only append.
  ghost predicate Extends(k: Core, k': Core) {
    && k'.n == k.n
    && (forall t :: t in k.leaders ==>
          && t in k'.leaders
          && k'.leaders[t].id == k.leaders[t].id
          && k'.leaders[t].start == k.leaders[t].start
          && k'.leaders[t].voters == k.leaders[t].voters
          && k.leaders[t].log <= k'.leaders[t].log)
    && (forall x :: x in k.stored ==> x in k'.stored && k.stored[x] <= k'.stored[x])
    && (forall x :: x in k.campaigns ==> x in k'.campaigns && k'.campaigns[x] == k.campaigns[x])
    && k.ballots <= k'.ballots
  }

  lemma GenuineExtends(k: Core, k': Core, log: Log)
    requires Extends(k, k') && Genuine(log, k.leaders)
    ensures Genuine(log, k'.leaders)
  {
  }

  lemma ChosenExtends(k: Core, k': Core, t: nat, i: nat)
    requires Extends(k, k') && Chosen(k, t, i)
    ensures Chosen(k', t, i)
  {
    var q :| Majority(q, k.n) && HeldBy(k, q, t, i);
    assert Majority(q, k'.n) && HeldBy(k', q, t, i);
  }

  lemma CarriesExtends(k: Core, k': Core, log: Log, u: nat, t: nat, i: nat)
    requires Extends(k, k') && t in k.leaders && i < |k.leaders[t].log|
    requires Carries(k, log, u, t, i)
    ensures Carries(k', log, u, t, i)
  {
    if !Agree(log, k.leaders[t].log, i) {
      var w :| w in k.leaders && t < w < u && !Agree(k.leaders[w].start, k.leaders[t].log, i);
      assert !Agree(k'.leaders[w].start, k'.leaders[t].log, i);
    }
  }

  // A ballot stays good when nothing its voter stored of an earlier leader changes.
  lemma BallotExtends(k: Core, k': Core, b: Ballot)
    requires Extends(k, k') && StoredOkAt(k, b.voter)
    requires BallotOk(k, b)
    requires b.voter < |k'.terms| && k.terms[b.voter] <= k'.terms[b.voter]
    requires forall t: nat :: t < b.term && (b.voter, t) in k'.stored ==>
               (b.voter, t) in k.stored && k'.stored[(b.voter, t)] == k.stored[(b.voter, t)]
    ensures BallotOk(k', b)
  {
    forall t: nat, i: nat | t < b.term && OwnStored(k', b.voter, t, i)
      ensures Carries(k', k'.campaigns[(b.term, b.candidate)], b.term, t, i)
    {
      assert OwnStored(k, b.voter, t, i);
      CarriesExtends(k, k', k.campaigns[(b.term, b.candidate)], b.term, t, i);
    }
  }

  // What a peer stored of a leader's log is a part of it.
  ghost predicate StoredOkAt(k: Core, v: nat) {
    forall t: nat :: (v, t) in k.stored ==> t in k.leaders && k.stored[(v, t)] < |k.leaders[t].log|
  }

  lemma KeptExtends(k: Core, k': Core, v: nat, t: nat, i: nat)
    requires Extends(k, k') && t in k.leaders && i < |k.leaders[t].log|
    requires v < |k.terms| && v < |k.logs| && v < |k'.terms| && v < |k'.logs|
    requires k.terms[v] <= k'.terms[v] && k.logs[v] <= k'.logs[v]
    requires Kept(k, v, t, i)
    ensures Kept(k', v, t, i)
  {
    if !Agree(k.logs[v], k.leaders[t].log, i) {
      var u :| u in k.leaders && t < u <= k.terms[v] && !Agree(k.leaders[u].start, k.leaders[t].log, i);
      assert !Agree(k'.leaders[u].start, k'.leaders[t].log, i);
    }
  }

  lemma LeadExtends(k: Core, k': Core, t: nat)
    requires Extends(k, k') && t in k.leaders && LeadOk(k, t)
    requires k'.leaders[t] == k.leaders[t]
    ensures LeadOk(k', t)
  {
  }

  lemma CampaignsExtend(k: Core, k': Core)
    requires Extends(k, k') && |k.terms| == |k'.terms| == k.n && CampaignsOk(k)
    requires forall v :: 0 <= v < k.n ==> k.terms[v] <= k'.terms[v]
    requires k'.campaigns == k.campaigns
    ensures CampaignsOk(k')
  {
  }

  // Peer v moves to term t.
  ghost function Raise(k: Core, v: nat, t: nat): Core
    requires v < |k.terms|
  {
    k.(terms := k.terms[v := t])
  }

  // A step that changes no log and nothing stored keeps what is already recorded good.
  lemma QuietStep(k: Core, k': Core)
    requires CoreInv(k) && Extends(k, k')
    requires k'.logs == k.logs && k'.stored == k.stored && k'.leaders == k.leaders
    requires |k'.terms| == k.n && forall v :: 0 <= v < k.n ==> k.terms[v] <= k'.terms[v]
    ensures ServersOk(k') && LeadersOk(k') && StoredOk(k')
    ensures forall b :: b in k.ballots ==> BallotOk(k', b)
  {
    forall x: nat, s: nat, i: nat | (x, s) in k'.stored && i <= k'.stored[(x, s)] ensures Kept(k', x, s, i) {
      KeptExtends(k, k', x, s, i);
    }
    forall b | b in k.ballots ensures BallotOk(k', b) {
      BallotExtends(k, k', b);
    }
    forall s | s in k'.leaders ensures LeadOk(k', s) {
      LeadExtends(k, k', s);
    }
  }

  lemma RaiseKeepsInv(k: Core, v: nat, t: nat)
    requires CoreInv(k) && v < k.n && k.terms[v] <= t
    ensures CoreInv(Raise(k, v, t)) && Extends(k, Raise(k, v, t))
  {
    QuietStep(k, Raise(k, v, t));
  }

  // Peer v campaigns for term u, voting for itself.
  ghost function StartCampaign(k: Core, v: nat, u: nat): Core
    requires v < |k.terms| && v < |k.logs|
  {
    Raise(k, v, u).(campaigns := k.campaigns[(u, v) := k.logs[v]], ballots := k.ballots + {Ballot(u, v, v)})
  }

  lemma OwnBallotOk(k: Core, v: nat, u: nat)
    requires CoreInv(k) && v < k.n && k.terms[v] < u
    ensures BallotOk(StartCampaign(k, v, u), Ballot(u, v, v))
  {
    var k' := StartCampaign(k, v, u);
    forall t: nat, i: nat | t < u && OwnStored(k', v, t, i) ensures Carries(k', k.logs[v], u, t, i) {
      assert Kept(k, v, t, i);
      assert Carries(k, k.logs[v], u, t, i);
    }
  }

  lemma StartCampaignKeepsInv(k: Core, v: nat, u: nat)
    requires CoreInv(k) && v < k.n && k.terms[v] < u
    ensures CoreInv(StartCampaign(k, v, u)) && Extends(k, StartCampaign(k, v, u))
  {
    var k' := StartCampaign(k, v, u);
    assert (u, v) !in k.campaigns;
    assert Extends(k, k');
    QuietStep(k, k');
    OwnBallotOk(k, v, u);
  }

  // The voter's check: a log at least as up to date as one that has leader t's own entry at
  // i has it too, or else the leader of its last term started without it.
  lemma UpToDateHas(k: Core, mine: Log, log: Log, t: nat, i: nat)
    requires LeadersOk(k) && Genuine(mine, k.leaders) && Genuine(log, k.leaders)
    requires UpToDate(VoteArgs(0, 0, |log| - 1, log[|log| - 1].term), |mine| - 1, mine[|mine| - 1].term)
    requires t in k.leaders && Agree(mine, k.leaders[t].log, i) && k.leaders[t].log[i].term == t
    ensures
      || Agree(log, k.leaders[t].log, i)
      || var w := log[|log| - 1].term;
         t < w && w in k.leaders && !Agree(k.leaders[w].start, k.leaders[t].log, i)
  {
    var target := k.leaders[t].log;
    assert LeadOk(k, t);
    GenuineIsSorted(k, mine);
    var last, myLast := |log| - 1, |mine| - 1;
    var w := log[last].term;
    assert mine[i].term == t <= mine[myLast].term <= w;
    assert Agree(log, k.leaders[w].log, last);
    assert LeadOk(k, w);
    if w == mine[myLast].term {
      assert Agree(mine, k.leaders[w].log, myLast);
    }
  }

  // Peer v votes for c in term u.
  ghost function CastBallot(k: Core, v: nat, u: nat, c: nat): Core
    requires v < |k.terms|
  {
    Raise(k, v, u).(ballots := k.ballots + {Ballot(u, v, c)})
  }

  // The candidate's log, as its request described it, passed v's check.
  ghost predicate PassesCheck(k: Core, v: nat, u: nat, c: nat)
    requires v < |k.logs| && 1 <= |k.logs[v]|
  {
    && (u, c) in k.campaigns
    && var log, mine := k.campaigns[(u, c)], k.logs[v];
       && 1 <= |log|
       && UpToDate(VoteArgs(0, 0, |log| - 1, log[|log| - 1].term), |mine| - 1, mine[|mine| - 1].term)
  }

  // What v kept is carried by any log that has what v's log has.
  lemma KeptCarries(k: Core, v: nat, log: Log, u: nat, t: nat, i: nat)
    requires t in k.leaders && v < |k.logs| && v < |k.terms| && k.terms[v] <= u && u !in k.leaders
    requires Kept(k, v, t, i)
    requires Agree(k.logs[v], k.leaders[t].log, i) ==> Carries(k, log, u, t, i)
    ensures Carries(k, log, u, t, i)
  {
  }

  lemma CheckedCarries(k: Core, v: nat, u: nat, c: nat, t: nat, i: nat)
    requires ServersOk(k) && LeadersOk(k) && StoredOk(k) && CampaignsOk(k)
    requires v < k.n && k.terms[v] <= u && u !in k.leaders && PassesCheck(k, v, u, c)
    requires OwnStored(k, v, t, i)
    ensures Carries(k, k.campaigns[(u, c)], u, t, i)
  {
    var log := k.campaigns[(u, c)];
    CampaignAt(k, u, c);
    StoredAt(k, v, t, i);
    if Agree(k.logs[v], k.leaders[t].log, i) {
      PassedCarries(k, k.logs[v], log, u, t, i);
    }
    KeptCarries(k, v, log, u, t, i);
  }

  lemma CampaignAt(k: Core, u: nat, c: nat)
    requires |k.terms| == k.n && CampaignsOk(k) && (u, c) in k.campaigns
    ensures Genuine(k.campaigns[(u, c)], k.leaders) && TermsBelow(k.campaigns[(u, c)], u)
  {
  }

  lemma StoredAt(k: Core, v: nat, t: nat, i: nat)
    requires |k.terms| == k.n && |k.logs| == k.n && StoredOk(k) && Stored(k, v, t, i)
    ensures v < k.n && t in k.leaders && Kept(k, v, t, i)
  {
  }

  lemma PassedCarries(k: Core, mine: Log, log: Log, u: nat, t: nat, i: nat)
    requires LeadersOk(k) && Genuine(mine, k.leaders) && Genuine(log, k.leaders) && TermsBelow(log, u)
    requires UpToDate(VoteArgs(0, 0, |log| - 1, log[|log| - 1].term), |mine| - 1, mine[|mine| - 1].term)
    requires t in k.leaders && Agree(mine, k.leaders[t].log, i) && k.leaders[t].log[i].term == t
    ensures Carries(k, log, u, t, i)
  {
    UpToDateHas(k, mine, log, t, i);
  }

  lemma CastBallotOk(k: Core, v: nat, u: nat, c: nat)
    requires CoreInv(k) && v < k.n && k.terms[v] <= u && u !in k.leaders && PassesCheck(k, v, u, c)
    ensures BallotOk(CastBallot(k, v, u, c), Ballot(u, v, c))
  {
    var k' := CastBallot(k, v, u, c);
    var log := k.campaigns[(u, c)];
    assert Extends(k, k');
    forall t: nat, i: nat | t < u && OwnStored(k', v, t, i) ensures Carries(k', log, u, t, i) {
      CheckedCarries(k, v, u, c, t, i);
      CarriesExtends(k, k', log, u, t, i);
    }
  }

  lemma CastBallotKeepsInv(k: Core, v: nat, u: nat, c: nat)
    requires CoreInv(k) && v < k.n && k.terms[v] <= u && u !in k.leaders && PassesCheck(k, v, u, c)
    ensures CoreInv(CastBallot(k, v, u, c)) && Extends(k, CastBallot(k, v, u, c))
  {
    QuietStep(k, CastBallot(k, v, u, c));
    CastBallotOk(k, v, u, c);
  }

  // The candidate c of term u won the votes of `voters`.
  ghost function Elect(k: Core, u: nat, c: nat, voters: set<nat>): Core
    requires (u, c) in k.campaigns && 1 <= |k.campaigns[(u, c)]|
  {
    var log := k.campaigns[(u, c)];
    k.(leaders := k.leaders[u := Lead(c, voters, log, log)], stored := k.stored[(c, u) := |log| - 1])
  }

  ghost predicate Electable(k: Core, u: nat, c: nat, voters: set<nat>) {
    && u !in k.leaders && 1 <= u && (u, c) in k.campaigns && c < |k.terms| && c < |k.logs|
    && k.terms[c] == u && k.logs[c] == k.campaigns[(u, c)] && 1 <= |k.logs[c]|
    && Majority(voters, k.n) && forall v :: v in voters ==> Ballot(u, v, c) in k.ballots
  }

  lemma ElectKeepsStored(k: Core, u: nat, c: nat, voters: set<nat>)
    requires CoreInv(k) && Electable(k, u, c, voters)
    ensures StoredOk(Elect(k, u, c, voters)) && Extends(k, Elect(k, u, c, voters))
  {
    var k' := Elect(k, u, c, voters);
    assert (c, u) !in k.stored;
    assert Extends(k, k');
    forall x: nat, s: nat, i: nat | (x, s) in k'.stored && i <= k'.stored[(x, s)]
      ensures s in k'.leaders && Kept(k', x, s, i)
    {
      if (x, s) != (c, u) {
        KeptExtends(k, k', x, s, i);
      } else {
        assert Agree(k'.logs[c], k'.leaders[u].log, i);
      }
    }
  }

  lemma ElectKeepsBallots(k: Core, u: nat, c: nat, voters: set<nat>)
    requires CoreInv(k) && Electable(k, u, c, voters)
    ensures BallotsOk(Elect(k, u, c, voters))
  {
    var k' := Elect(k, u, c, voters);
    ElectKeepsStored(k, u, c, voters);
    forall b | b in k'.ballots ensures BallotOk(k', b) {
      assert b.voter == c ==> b.term <= u;
      BallotExtends(k, k', b);
    }
  }

  lemma ElectKeepsInv(k: Core, u: nat, c: nat, voters: set<nat>)
    requires CoreInv(k) && Electable(k, u, c, voters)
    ensures CoreInv(Elect(k, u, c, voters)) && Extends(k, Elect(k, u, c, voters))
  {
    var k' := Elect(k, u, c, voters);
    ElectKeepsStored(k, u, c, voters);
    ElectKeepsBallots(k, u, c, voters);
    forall s | s in k.leaders ensures LeadOk(k', s) {
      LeadExtends(k, k', s);
    }
    assert LeadOk(k', u) by { GenuineExtends(k, k', k.logs[c]); }
    CampaignsExtend(k, k');
  }

  // The leader c of term t appends an entry of its term.
  ghost function Append(k: Core, t: nat, c: nat, e: LogEntry): Core
    requires t in k.leaders && c < |k.logs|
  {
    var l := k.leaders[t];
    k.(leaders := k.leaders[t := l.(log := l.log + [e])],
       logs := k.logs[c := k.logs[c] + [e]],
       stored := k.stored[(c, t) := |l.log|])
  }

  lemma AppendExtends(k: Core, t: nat, c: nat, e: LogEntry)
    requires CoreInv(k) && t in k.leaders && c < k.n
    ensures Extends(k, Append(k, t, c, e))
  {
    assert (c, t) in k.stored ==> k.stored[(c, t)] < |k.leaders[t].log|;
  }

  lemma AppendKeepsGenuine(k: Core, t: nat, c: nat, e: LogEntry)
    requires CoreInv(k) && t in k.leaders && c < k.n && e.term == t
    ensures Genuine(k.leaders[t].log + [e], Append(k, t, c, e).leaders)
  {
    var k' := Append(k, t, c, e);
    AppendExtends(k, t, c, e);
    assert LeadOk(k, t);
    GenuineExtends(k, k', k.leaders[t].log);
    var grown := k.leaders[t].log + [e];
    forall i | 1 <= i < |grown| ensures grown[i].term in k'.leaders && Agree(grown, k'.leaders[grown[i].term].log, i) {
      if i < |k.leaders[t].log| {
        assert Agree(k.leaders[t].log, k'.leaders[grown[i].term].log, i);
      }
    }
  }

  lemma AppendKeepsLead(k: Core, t: nat, c: nat, e: LogEntry)
    requires CoreInv(k) && t in k.leaders && c < k.n && e.term == t
    ensures LeadOk(Append(k, t, c, e), t)
  {
    assert LeadOk(k, t);
    AppendKeepsGenuine(k, t, c, e);
  }

  lemma AppendKeepsServers(k: Core, t: nat, c: nat, e: LogEntry)
    requires CoreInv(k) && t in k.leaders && e.term == t
    requires c < k.n && k.terms[c] == t && k.logs[c] == k.leaders[t].log
    ensures ServersOk(Append(k, t, c, e))
  {
    var k' := Append(k, t, c, e);
    AppendExtends(k, t, c, e);
    AppendKeepsGenuine(k, t, c, e);
    forall v | 0 <= v < k.n ensures Genuine(k'.logs[v], k'.leaders) {
      if v != c {
        GenuineExtends(k, k', k.logs[v]);
      }
    }
  }

  lemma AppendKeepsStored(k: Core, t: nat, c: nat, e: LogEntry)
    requires CoreInv(k) && t in k.leaders && e.term == t
    requires c < k.n && k.terms[c] == t && k.logs[c] == k.leaders[t].log
    ensures StoredOk(Append(k, t, c, e))
  {
    var k' := Append(k, t, c, e);
    AppendExtends(k, t, c, e);
    forall x: nat, s: nat, i: nat | (x, s) in k'.stored && i <= k'.stored[(x, s)] ensures Kept(k', x, s, i) {
      if (x, s) != (c, t) {
        KeptExtends(k, k', x, s, i);
      } else {
        assert Agree(k'.logs[c], k'.leaders[t].log, i);
      }
    }
  }

  lemma AppendKeepsInv(k: Core, t: nat, c: nat, e: LogEntry)
    requires CoreInv(k) && t in k.leaders && e.term == t
    requires c < k.n && k.terms[c] == t && k.logs[c] == k.leaders[t].log
    ensures CoreInv(Append(k, t, c, e)) && Extends(k, Append(k, t, c, e))
  {
    var k' := Append(k, t, c, e);
    AppendExtends(k, t, c, e);
    AppendKeepsServers(k, t, c, e);
    AppendKeepsStored(k, t, c, e);
    AppendKeepsLeaders(k, t, c, e);
    AppendKeepsBallots(k, t, c, e);
    CampaignsExtend(k, k');
  }

  lemma AppendKeepsLeaders(k: Core, t: nat, c: nat, e: LogEntry)
    requires CoreInv(k) && t in k.leaders && c < k.n && e.term == t
    ensures LeadersOk(Append(k, t, c, e))
  {
    var k' := Append(k, t, c, e);
    AppendExtends(k, t, c, e);
    AppendKeepsLead(k, t, c, e);
    forall s | s in k.leaders && s != t ensures LeadOk(k', s) {
      LeadExtends(k, k', s);
    }
  }

  lemma AppendKeepsBallots(k: Core, t: nat, c: nat, e: LogEntry)
    requires CoreInv(k) && t in k.leaders && c < k.n && k.terms[c] == t
    ensures BallotsOk(Append(k, t, c, e))
  {
    var k' := Append(k, t, c, e);
    AppendExtends(k, t, c, e);
    forall b | b in k'.ballots ensures BallotOk(k', b) {
      assert b.voter == c ==> b.term <= t;
      BallotExtends(k, k', b);
    }
  }

  // Peer v stored leader t's log up to length m, unless its log already had all of that.
  ghost function Store(k: Core, v: nat, t: nat, m: nat): Core
    requires t in k.leaders && v < |k.terms| && v < |k.logs| && 1 <= m <= |k.leaders[t].log|
  {
    var theirs := k.leaders[t].log;
    k.(terms := k.terms[v := t],
       logs := k.logs[v := if Agree(k.logs[v], theirs, m - 1) then k.logs[v] else theirs[..m]],
       stored := k.stored[(v, t) := if Stored(k, v, t, m - 1) then k.stored[(v, t)] else m - 1])
  }

  lemma StoreKeepsKept(k: Core, v: nat, t: nat, m: nat, s: nat, i: nat)
    requires CoreInv(k) && v < k.n && t in k.leaders && k.terms[v] <= t && 1 <= m <= |k.leaders[t].log|
    requires Stored(k, v, s, i)
    ensures Kept(Store(k, v, t, m), v, s, i)
  {
    var k' := Store(k, v, t, m);
    assert Kept(k, v, s, i);
    var mine, theirs, target := k.logs[v], k.leaders[t].log, k.leaders[s].log;
    if Agree(mine, target, i) {
      if !Agree(mine, theirs, m - 1) {
        assert LeadOk(k, t);
        if Agree(theirs, target, i) {
          assert i < m;
          assert Agree(k'.logs[v], target, i);
        } else {
          assert s < t;
          assert !Agree(k'.leaders[t].start, target, i);
        }
      }
    } else {
      var u :| u in k.leaders && s < u <= k.terms[v] && !Agree(k.leaders[u].start, target, i);
      assert u in k'.leaders && s < u <= k'.terms[v];
    }
  }

  lemma StoreKeepsServers(k: Core, v: nat, t: nat, m: nat)
    requires CoreInv(k) && v < k.n && t in k.leaders && k.terms[v] <= t && 1 <= m <= |k.leaders[t].log|
    ensures ServersOk(Store(k, v, t, m)) && Extends(k, Store(k, v, t, m))
  {
    assert LeadOk(k, t);
  }

  lemma StoreKeepsStored(k: Core, v: nat, t: nat, m: nat)
    requires CoreInv(k) && v < k.n && t in k.leaders && k.terms[v] <= t && 1 <= m <= |k.leaders[t].log|
    ensures StoredOk(Store(k, v, t, m))
  {
    var k' := Store(k, v, t, m);
    StoreKeepsServers(k, v, t, m);
    forall x: nat, s: nat, i: nat | (x, s) in k'.stored && i <= k'.stored[(x, s)] ensures Kept(k', x, s, i) {
      if x != v {
        KeptExtends(k, k', x, s, i);
      } else if s == t && !Stored(k, v, t, i) {
        assert Agree(k'.logs[v], k.leaders[t].log, i);
      } else {
        StoreKeepsKept(k, v, t, m, s, i);
      }
    }
  }

  lemma StoreKeepsInv(k: Core, v: nat, t: nat, m: nat)
    requires CoreInv(k) && v < k.n && t in k.leaders && k.terms[v] <= t && 1 <= m <= |k.leaders[t].log|
    ensures CoreInv(Store(k, v, t, m)) && Extends(k, Store(k, v, t, m))
  {
    var k' := Store(k, v, t, m);
    StoreKeepsServers(k, v, t, m);
    StoreKeepsStored(k, v, t, m);
    StoreKeepsBallots(k, v, t, m);
    forall s | s in k'.leaders ensures LeadOk(k', s) {
      LeadExtends(k, k', s);
    }
    CampaignsExtend(k, k');
  }

  lemma StoreKeepsBallots(k: Core, v: nat, t: nat, m: nat)
    requires CoreInv(k) && v < k.n && t in k.leaders && k.terms[v] <= t && 1 <= m <= |k.leaders[t].log|
    ensures BallotsOk(Store(k, v, t, m))
  {
    var k' := Store(k, v, t, m);
    StoreKeepsServers(k, v, t, m);
    forall b | b in k'.ballots ensures BallotOk(k', b) {
      assert b.voter == v ==> b.term <= t;
      BallotExtends(k, k', b);
    }
  }
}
