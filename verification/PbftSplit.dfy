/**
 * Why PBFT wants 3f + 1 nodes: for any larger number with the same fault bound, a faulty leader and its accomplices can
 * make two correct nodes finish one round with different digests.
 */
module PbftDisagreement {
  import opened Base
  import opened ByteStrings
  import opened Pbft

  const START := ViewSeq(0, 0)

  function VoteOf(n: NodeInfo, digest: Bytes): Msg {
    Msg(0, 0, digest, n)
  }

  ghost function VotesOf(s: set<NodeInfo>, digest: Bytes): set<Msg> {
    set n | n in s :: VoteOf(n, digest)
  }

  // ---- reachable states ----

  ghost predicate Reaches(nodes: set<NodeInfo>, first: Shard, s: Shard) {
    exists states, events :: Execution(nodes, states, events) && states[0] == first && states[|events|] == s
  }

  lemma ReachesFirst(nodes: set<NodeInfo>, first: Shard)
    requires Init(nodes, first)
    ensures Reaches(nodes, first, first)
  {
    assert Execution(nodes, [first], []) && [first][0] == first;
  }

  lemma ReachesNext(nodes: set<NodeInfo>, first: Shard, a: Shard, e: Event, b: Shard)
    requires Reaches(nodes, first, a) && StepTo(nodes, a, e, b)
    ensures Reaches(nodes, first, b)
  {
    var states, events :| Execution(nodes, states, events) && states[0] == first && states[|events|] == a;
    var ss, es := states + [b], events + [e];
    forall i | 0 <= i < |es| ensures StepTo(nodes, ss[i], es[i], ss[i + 1]) {
      if i < |events| {
        assert StepTo(nodes, states[i], events[i], states[i + 1]);
      }
    }
    assert Execution(nodes, ss, es) && ss[0] == first && ss[|es|] == b;
  }

  // ---- what the faulty nodes send ----

  function Inserted(net: Net, kind: Stage, msgs: set<Msg>): Net {
    match kind
    case Preprepare => net.(preprepares := net.preprepares + msgs)
    case Prepare => net.(prepares := net.prepares + msgs)
    case Commit => net.(commits := net.commits + msgs)
  }

  lemma {:induction false} InjectAll(nodes: set<NodeInfo>, first: Shard, a: Shard, kind: Stage, msgs: set<Msg>)
    requires Reaches(nodes, first, a)
    requires forall m :: m in msgs ==> m.node in nodes && (kind == Preprepare || m.node !in a.metas)
    ensures Reaches(nodes, first, a.(net := Inserted(a.net, kind, msgs)))
    decreases |msgs|
  {
    if msgs == {} {
      assert a.(net := Inserted(a.net, kind, msgs)) == a;
    } else {
      var m :| m in msgs;
      var b, rest := a.(net := Inserted(a.net, kind, {m})), msgs - {m};
      ReachesNext(nodes, first, a, Inject(kind, m), b);
      InjectAll(nodes, first, b, kind, rest);
      InsertedBoth(a.net, kind, {m}, rest, msgs);
    }
  }

  lemma InsertedBoth(net: Net, kind: Stage, x: set<Msg>, y: set<Msg>, all: set<Msg>)
    requires all == x + y
    ensures Inserted(Inserted(net, kind, x), kind, y) == Inserted(net, kind, all)
  {
  }

  // ---- deliveries ----

  function Queued(x: Meta, kind: Stage, msgs: multiset<Msg>): Meta {
    match kind
    case Preprepare => x.(preprepares := x.preprepares + msgs)
    case Prepare => x.(prepares := x.prepares + msgs)
    case Commit => x.(commits := x.commits + msgs)
  }

  lemma {:induction false} DeliverAll(nodes: set<NodeInfo>, first: Shard, a: Shard, n: NodeInfo, kind: Stage, msgs: set<Msg>)
    requires Reaches(nodes, first, a) && n in a.metas && a.metas[n].at == START && msgs <= Sent(a.net, kind)
    requires forall m :: m in msgs ==> m.At() == START
    ensures Reaches(nodes, first, a.(metas := a.metas[n := Queued(a.metas[n], kind, multiset(msgs))]))
    decreases |msgs|
  {
    if msgs == {} {
      QueuedNone(a.metas[n], kind);
      assert a.metas[n := a.metas[n]] == a.metas && multiset(msgs) == multiset{};
    } else {
      var m :| m in msgs;
      var rest := msgs - {m};
      var b := a.(metas := a.metas[n := Handle(a.metas[n], kind, m)]);
      ReachesNext(nodes, first, a, Deliver(n, kind, m), b);
      DeliverAll(nodes, first, b, n, kind, rest);
      assert multiset(msgs) == multiset{m} + multiset(rest);
      QueuedMore(a.metas[n], kind, m, multiset(rest));
    }
  }

  lemma QueuedNone(x: Meta, kind: Stage)
    ensures Queued(x, kind, multiset{}) == x
  {
    assert x.preprepares + multiset{} == x.preprepares && x.prepares + multiset{} == x.prepares && x.commits + multiset{} == x.commits;
  }

  lemma QueuedMore(x: Meta, kind: Stage, m: Msg, rest: multiset<Msg>)
    ensures Queued(Push(x, kind, m), kind, rest) == Queued(x, kind, multiset{m} + rest)
  {
    assert x.preprepares + multiset{m} + rest == x.preprepares + (multiset{m} + rest);
    assert x.prepares + multiset{m} + rest == x.prepares + (multiset{m} + rest);
    assert x.commits + multiset{m} + rest == x.commits + (multiset{m} + rest);
  }

  // ---- the rounds of a correct node ----

  function Fresh(f: nat, leader: int): Meta {
    Meta(f, leader, START, Preprepare, None, {}, {}, multiset{}, multiset{}, multiset{})
  }

  function Prepared(f: nat, leader: int, pp: Msg): Meta {
    Fresh(f, leader).(stage := Prepare, proposal := Some(pp))
  }

  function Committed(f: nat, leader: int, pp: Msg, quorum: set<NodeInfo>): Meta {
    Prepared(f, leader, pp).(stage := Commit, prepareSet := quorum)
  }

  /** The metas of a set of nodes become the given one; all others stay. */
  ghost predicate Became(a: map<NodeInfo, Meta>, b: map<NodeInfo, Meta>, s: set<NodeInfo>, m: Meta) {
    a.Keys == b.Keys && forall n :: n in a ==> b[n] == if n in s then m else a[n]
  }

  ghost predicate All(metas: map<NodeInfo, Meta>, s: set<NodeInfo>, m: Meta) {
    forall n :: n in s ==> n in metas && metas[n] == m
  }

  lemma EmptySenders(digest: Bytes)
    ensures Senders(multiset{}, START, digest) == {}
  {
  }

  lemma VotesSent(quorum: set<NodeInfo>, digest: Bytes)
    ensures Senders(multiset(VotesOf(quorum, digest)), START, digest) == quorum
    ensures ReadUpTo(multiset(VotesOf(quorum, digest)), multiset{}, START)
  {
    var votes := VotesOf(quorum, digest);
    forall n | n in quorum ensures n in Senders(multiset(votes), START, digest) {
      assert VoteOf(n, digest) in multiset(votes);
    }
  }

  /** A node runs on what it has been shown, and all it sends arrives. */
  lemma RunNext(nodes: set<NodeInfo>, first: Shard, a: Shard, n: NodeInfo, shown: Meta, curated: Meta, o: Outcome)
    requires n in a.metas && Reaches(nodes, first, a.(metas := a.metas[n := shown]))
    requires Curated(shown, curated) && Ready(curated) && o == Advance(curated, n)
    ensures Reaches(nodes, first, After(a, n, o))
  {
    var mid := a.(metas := a.metas[n := shown]);
    assert mid.metas[n := o.meta] == a.metas[n := o.meta];
    ReachesNext(nodes, first, mid, Run(n, curated, o), After(a, n, o));
  }

  function After(a: Shard, n: NodeInfo, o: Outcome): Shard {
    var net := a.net.(prepares := a.net.prepares + o.prepares, commits := a.net.commits + o.commits);
    var decided := if o.decision.Some? then {Decided(n, o.decision.value.at, o.decision.value.digest)} else {};
    Shard(a.metas[n := o.meta], net, a.decided + decided)
  }

  /** A correct node takes the proposal it is shown and votes for it. */
  lemma PrepareOne(nodes: set<NodeInfo>, first: Shard, a: Shard, n: NodeInfo, pp: Msg, f: nat) returns (b: Shard)
    requires Reaches(nodes, first, a) && n in a.metas && a.metas[n] == Fresh(f, pp.node.nodeId)
    requires pp in a.net.preprepares && pp == VoteOf(pp.node, pp.digest)
    ensures Reaches(nodes, first, b) && b.metas == a.metas[n := Prepared(f, pp.node.nodeId, pp)] && b.decided == a.decided
    ensures b.net == a.net.(prepares := a.net.prepares + {VoteOf(n, pp.digest)})
  {
    var before, leader := a.metas[n], pp.node.nodeId;
    DeliverAll(nodes, first, a, n, Preprepare, {pp});
    var shown := Queued(before, Preprepare, multiset({pp}));
    var curated := before.(proposal := Some(pp));
    EmptySenders(pp.digest);
    assert Proposes(pp, shown) && ReadUpTo(shown.preprepares, multiset{}, START) && ReadUpTo(multiset{}, multiset{}, START);
    assert Curated(shown, curated);
    var o := Advance(curated, n);
    assert o == Outcome(Prepared(f, leader, pp), {VoteOf(n, pp.digest)}, {}, None) by {
      assert Advance(curated.(stage := Prepare), n) == Outcome(Prepared(f, leader, pp), {}, {}, None);
    }
    RunNext(nodes, first, a, n, shown, curated, o);
    b := After(a, n, o);
  }

  lemma {:induction false} PrepareAll(
    nodes: set<NodeInfo>, first: Shard, a: Shard, s: set<NodeInfo>, pp: Msg, f: nat) returns (b: Shard)
    requires Reaches(nodes, first, a) && All(a.metas, s, Fresh(f, pp.node.nodeId))
    requires pp in a.net.preprepares && pp == VoteOf(pp.node, pp.digest)
    ensures Reaches(nodes, first, b) && Became(a.metas, b.metas, s, Prepared(f, pp.node.nodeId, pp)) && b.decided == a.decided
    ensures b.net == a.net.(prepares := a.net.prepares + VotesOf(s, pp.digest))
    decreases |s|
  {
    if s == {} {
      b := a;
      assert VotesOf(s, pp.digest) == {};
    } else {
      var n :| n in s;
      var c := PrepareOne(nodes, first, a, n, pp, f);
      b := PrepareAll(nodes, first, c, s - {n}, pp, f);
      assert VotesOf(s, pp.digest) == {VoteOf(n, pp.digest)} + VotesOf(s - {n}, pp.digest);
    }
  }

  lemma CuratesVotes(f: nat, leader: int, pp: Msg, quorum: set<NodeInfo>)
    requires pp == VoteOf(pp.node, pp.digest)
    ensures var m := Prepared(f, leader, pp);
      Curated(Queued(m, Prepare, multiset(VotesOf(quorum, pp.digest))), m.(prepareSet := quorum))
  {
    VotesSent(quorum, pp.digest);
    EmptySenders(pp.digest);
    assert ReadUpTo(multiset{}, multiset{}, START);
    assert Queued(Prepared(f, leader, pp), Prepare, multiset(VotesOf(quorum, pp.digest))).prepares == multiset(VotesOf(quorum, pp.digest));
  }

  lemma CommitOutcome(f: nat, leader: int, pp: Msg, quorum: set<NodeInfo>, n: NodeInfo)
    requires |quorum| >= 2 * f + 1 && pp == VoteOf(pp.node, pp.digest)
    ensures Advance(Prepared(f, leader, pp).(prepareSet := quorum), n) ==
      Outcome(Committed(f, leader, pp, quorum), {}, {VoteOf(n, pp.digest)}, None)
  {
    var curated := Prepared(f, leader, pp).(prepareSet := quorum);
    assert Advance(curated.(stage := Commit), n) == Outcome(Committed(f, leader, pp, quorum), {}, {}, None);
  }

  /** A correct node that is shown a quorum of prepare votes votes to commit. */
  lemma CommitOne(nodes: set<NodeInfo>, first: Shard, a: Shard, n: NodeInfo, pp: Msg, f: nat, quorum: set<NodeInfo>)
    returns (b: Shard)
    requires Reaches(nodes, first, a) && n in a.metas && a.metas[n] == Prepared(f, pp.node.nodeId, pp)
    requires VotesOf(quorum, pp.digest) <= a.net.prepares && |quorum| >= 2 * f + 1 && pp == VoteOf(pp.node, pp.digest)
    ensures Reaches(nodes, first, b) && b.metas == a.metas[n := Committed(f, pp.node.nodeId, pp, quorum)]
    ensures b.decided == a.decided && b.net == a.net.(commits := a.net.commits + {VoteOf(n, pp.digest)})
  {
    var before, leader, votes := a.metas[n], pp.node.nodeId, VotesOf(quorum, pp.digest);
    DeliverAll(nodes, first, a, n, Prepare, votes);
    var shown := Queued(before, Prepare, multiset(votes));
    var curated := before.(prepareSet := quorum);
    CuratesVotes(f, leader, pp, quorum);
    CommitOutcome(f, leader, pp, quorum, n);
    var o := Advance(curated, n);
    RunNext(nodes, first, a, n, shown, curated, o);
    b := After(a, n, o);
  }

  lemma {:induction false} CommitAll(
    nodes: set<NodeInfo>, first: Shard, a: Shard, s: set<NodeInfo>, pp: Msg, f: nat, quorum: set<NodeInfo>)
    returns (b: Shard)
    requires Reaches(nodes, first, a) && All(a.metas, s, Prepared(f, pp.node.nodeId, pp))
    requires VotesOf(quorum, pp.digest) <= a.net.prepares && |quorum| >= 2 * f + 1 && pp == VoteOf(pp.node, pp.digest)
    ensures Reaches(nodes, first, b) && Became(a.metas, b.metas, s, Committed(f, pp.node.nodeId, pp, quorum))
    ensures b.decided == a.decided && b.net == a.net.(commits := a.net.commits + VotesOf(s, pp.digest))
    decreases |s|
  {
    if s == {} {
      b := a;
      assert VotesOf(s, pp.digest) == {};
    } else {
      var n :| n in s;
      var c := CommitOne(nodes, first, a, n, pp, f, quorum);
      b := CommitAll(nodes, first, c, s - {n}, pp, f, quorum);
      assert VotesOf(s, pp.digest) == {VoteOf(n, pp.digest)} + VotesOf(s - {n}, pp.digest);
    }
  }

  lemma CuratesCommits(f: nat, leader: int, pp: Msg, quorum: set<NodeInfo>)
    requires pp == VoteOf(pp.node, pp.digest)
    ensures var m := Committed(f, leader, pp, quorum);
      Curated(Queued(m, Commit, multiset(VotesOf(quorum, pp.digest))), m.(commitSet := quorum))
  {
    VotesSent(quorum, pp.digest);
    EmptySenders(pp.digest);
    assert ReadUpTo(multiset{}, multiset{}, START);
    assert Queued(Committed(f, leader, pp, quorum), Commit, multiset(VotesOf(quorum, pp.digest))).commits == multiset(VotesOf(quorum, pp.digest));
  }

  /** A correct node that is shown a quorum of commit votes decides. */
  lemma DecideOne(nodes: set<NodeInfo>, first: Shard, a: Shard, n: NodeInfo, pp: Msg, f: nat, quorum: set<NodeInfo>)
    returns (b: Shard)
    requires Reaches(nodes, first, a) && n in a.metas && a.metas[n] == Committed(f, pp.node.nodeId, pp, quorum)
    requires VotesOf(quorum, pp.digest) <= a.net.commits && |quorum| >= 2 * f + 1 && pp == VoteOf(pp.node, pp.digest)
    ensures Reaches(nodes, first, b) && b.decided == a.decided + {Decided(n, START, pp.digest)} && b.net == a.net
    ensures b.metas.Keys == a.metas.Keys && forall k :: k in a.metas && k != n ==> b.metas[k] == a.metas[k]
  {
    var before, votes := a.metas[n], VotesOf(quorum, pp.digest);
    DeliverAll(nodes, first, a, n, Commit, votes);
    var shown := Queued(before, Commit, multiset(votes));
    var curated := before.(commitSet := quorum);
    CuratesCommits(f, pp.node.nodeId, pp, quorum);
    var o := Advance(curated, n);
    RunNext(nodes, first, a, n, shown, curated, o);
    b := After(a, n, o);
  }

  // ---- the split ----

  /** The two sides of a split: quorums that share only faulty nodes, of which the leader is one. */
  ghost predicate Split(nodes: set<NodeInfo>, f: nat, x: set<NodeInfo>, y: set<NodeInfo>, faulty: set<NodeInfo>, leader: NodeInfo) {
    && x <= nodes && y <= nodes && |x| >= 2 * f + 1 && |y| >= 2 * f + 1 && x * y <= faulty <= nodes && |faulty| <= f
    && leader in faulty && f == FaultBound(|nodes|)
  }

  lemma SplitExists(nodes: set<NodeInfo>)
    returns (f: nat, x: set<NodeInfo>, y: set<NodeInfo>, faulty: set<NodeInfo>, leader: NodeInfo)
    requires |nodes| > 3 && |nodes| % 3 != 1
    ensures Split(nodes, f, x, y, faulty, leader)
  {
    f := FaultBoundIs(|nodes|);
    x, y := QuorumsMiss(nodes, f);
    if x * y == {} {
      leader :| leader in nodes;
      faulty := {leader};
    } else {
      leader :| leader in x * y;
      faulty := x * y;
    }
  }

  function StartOf(correct: set<NodeInfo>, f: nat, leader: int): Shard {
    Shard(map n | n in correct :: Fresh(f, leader), Net({}, {}, {}), {})
  }

  /** Both proposals and all votes of the faulty nodes, for both digests. */
  lemma FaultySend(nodes: set<NodeInfo>, first: Shard, faulty: set<NodeInfo>, p: Msg, q: Msg) returns (b: Shard)
    requires Init(nodes, first) && faulty <= nodes && first.metas.Keys == nodes - faulty && p.node in nodes && q.node in nodes
    ensures Reaches(nodes, first, b) && b.metas == first.metas && b.decided == {}
    ensures b.net == Net({p, q}, VotesOf(faulty, p.digest) + VotesOf(faulty, q.digest), VotesOf(faulty, p.digest) + VotesOf(faulty, q.digest))
  {
    var votes := VotesOf(faulty, p.digest) + VotesOf(faulty, q.digest);
    ReachesFirst(nodes, first);
    InjectAll(nodes, first, first, Preprepare, {p, q});
    var a := first.(net := Inserted(first.net, Preprepare, {p, q}));
    InjectAll(nodes, first, a, Prepare, votes);
    var c := a.(net := Inserted(a.net, Prepare, votes));
    InjectAll(nodes, first, c, Commit, votes);
    b := c.(net := Inserted(c.net, Commit, votes));
  }

  lemma QuorumVotes(x: set<NodeInfo>, faulty: set<NodeInfo>, digest: Bytes, votes: set<Msg>)
    requires VotesOf(faulty, digest) <= votes && VotesOf(x - faulty, digest) <= votes
    ensures VotesOf(x, digest) <= votes
  {
    forall n | n in x ensures VoteOf(n, digest) in votes {
      if n in faulty {
        assert VoteOf(n, digest) in VotesOf(faulty, digest);
      } else {
        assert VoteOf(n, digest) in VotesOf(x - faulty, digest);
      }
    }
  }

  lemma QuorumHonest(nodes: set<NodeInfo>, f: nat, x: set<NodeInfo>, faulty: set<NodeInfo>) returns (n: NodeInfo)
    requires |x| >= 2 * f + 1 && |faulty| <= f
    ensures n in x - faulty
  {
    if x <= faulty {
      SubsetSize(x, faulty);
      assert false;
    }
    n :| n in x && n !in faulty;
  }

  /** The votes of both sides: everyone honest on a side prepares and commits what that side was shown. */
  lemma SidesVote(
    nodes: set<NodeInfo>, first: Shard, a: Shard, f: nat, x: set<NodeInfo>, y: set<NodeInfo>, faulty: set<NodeInfo>, p: Msg, q: Msg)
    returns (b: Shard)
    requires Reaches(nodes, first, a) && p.node == q.node && p == VoteOf(p.node, p.digest) && q == VoteOf(q.node, q.digest)
    requires Split(nodes, f, x, y, faulty, p.node) && All(a.metas, nodes - faulty, Fresh(f, p.node.nodeId))
    requires p in a.net.preprepares && q in a.net.preprepares
    requires VotesOf(faulty, p.digest) <= a.net.prepares && VotesOf(faulty, q.digest) <= a.net.prepares
    requires VotesOf(faulty, p.digest) <= a.net.commits && VotesOf(faulty, q.digest) <= a.net.commits
    ensures Reaches(nodes, first, b) && VotesOf(x, p.digest) <= b.net.commits && VotesOf(y, q.digest) <= b.net.commits
    ensures All(b.metas, x - faulty, Committed(f, p.node.nodeId, p, x)) && All(b.metas, y - faulty, Committed(f, q.node.nodeId, q, y))
  {
    var c := PrepareAll(nodes, first, a, x - faulty, p, f);
    var d := PrepareAll(nodes, first, c, y - faulty, q, f);
    QuorumVotes(x, faulty, p.digest, d.net.prepares);
    QuorumVotes(y, faulty, q.digest, d.net.prepares);
    var e := CommitAll(nodes, first, d, x - faulty, p, f, x);
    b := CommitAll(nodes, first, e, y - faulty, q, f, y);
    QuorumVotes(x, faulty, p.digest, b.net.commits);
    QuorumVotes(y, faulty, q.digest, b.net.commits);
  }

  /**
   * With more than three nodes whose number is not one more than a multiple of three there is an execution with a faulty
   * leader, no more faults than configured, and two correct nodes that finish one round with different digests.
   */
  lemma DisagreementPossible(nodes: set<NodeInfo>) returns (states: seq<Shard>, events: seq<Event>, d: Decided, e: Decided)
    requires |nodes| > 3 && |nodes| % 3 != 1
    ensures Execution(nodes, states, events) && |nodes - states[0].metas.Keys| <= FaultBound(|nodes|)
    ensures exists leader :: leader in nodes - states[0].metas.Keys && forall n :: n in states[0].metas ==> states[0].metas[n].leader == leader.nodeId
    ensures d in states[|events|].decided && e in states[|events|].decided && d.at == e.at && d.digest != e.digest
  {
    var f, x, y, faulty, leader := SplitExists(nodes);
    var p, q := VoteOf(leader, [0]), VoteOf(leader, [1]);
    var first := StartOf(nodes - faulty, f, leader.nodeId);
    var a := FaultySend(nodes, first, faulty, p, q);
    var b := SidesVote(nodes, first, a, f, x, y, faulty, p, q);
    var n := QuorumHonest(nodes, f, x, faulty);
    var m := QuorumHonest(nodes, f, y, faulty);
    var c := DecideOne(nodes, first, b, n, p, f, x);
    var s := DecideOne(nodes, first, c, m, q, f, y);
    d, e := Decided(n, START, [0]), Decided(m, START, [1]);
    states, events :| Execution(nodes, states, events) && states[0] == first && states[|events|] == s;
    assert nodes - first.metas.Keys == faulty;
  }
}
