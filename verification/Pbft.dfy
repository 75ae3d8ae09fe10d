/**
 * PBFT rounds of one shard (consensus/pbft): a node's round metadata and message pool, the steps it takes, and the
 * agreement of all correct nodes under any message schedule.
 */
module Pbft {
  import opened Base
  import opened ByteStrings

  datatype ViewSeq = ViewSeq(view: int, number: int)

  /** Lexicographic comparison: -1, 0 or 1. */
  function Compare(a: ViewSeq, b: ViewSeq): int {
    if a.view != b.view then (if a.view < b.view then -1 else 1)
    else if a.number != b.number then (if a.number < b.number then -1 else 1)
    else 0
  }

  datatype NodeInfo = NodeInfo(nodeId: int, shardId: int)

  /** What a preprepare, prepare or commit message says; truthful senders sign with their own identity. */
  datatype Msg = Msg(view: int, number: int, digest: Bytes, node: NodeInfo) {
    function At(): ViewSeq {
      ViewSeq(view, number)
    }
  }

  datatype Stage = Preprepare | Prepare | Commit

  /** consensusMeta: one node's round, and the three queues of its message pool. */
  datatype Meta = Meta(
    f: nat, leader: int, at: ViewSeq, stage: Stage, proposal: Option<Msg>, prepareSet: set<NodeInfo>, commitSet: set<NodeInfo>,
    preprepares: multiset<Msg>, prepares: multiset<Msg>, commits: multiset<Msg>)

  /** The number of faults n nodes are configured for. */
  function FaultBound(n: nat): nat {
    if n == 0 then 0 else (n - 1) / 3
  }

  // ---- one node ----

  /** Reading a queue up to a view and sequence removes exactly the messages that are not later. */
  ghost predicate ReadUpTo(before: multiset<Msg>, after: multiset<Msg>, end: ViewSeq) {
    forall m :: after[m] == if Compare(m.At(), end) > 0 then before[m] else 0
  }

  /** The senders of the messages of this round that carry the digest. */
  ghost function Senders(msgs: multiset<Msg>, at: ViewSeq, digest: Bytes): set<NodeInfo> {
    set m | m in msgs && m.At() == at && m.digest == digest :: m.node
  }

  ghost predicate Proposes(m: Msg, a: Meta) {
    m in a.preprepares && m.At() == a.at && m.node.nodeId == a.leader
  }

  /** curateMsg: the round takes a proposal of its leader if it has none, then counts messages that agree with it. */
  ghost predicate Curated(a: Meta, b: Meta) {
    && b.f == a.f && b.leader == a.leader && b.at == a.at && b.stage == a.stage
    && (if a.proposal.Some? then b.proposal == a.proposal && b.preprepares == a.preprepares
        else ReadUpTo(a.preprepares, b.preprepares, a.at) &&
             (if b.proposal.Some? then Proposes(b.proposal.value, a) else forall m :: !Proposes(m, a)))
    && (if b.proposal.None? then b.prepares == a.prepares && b.commits == a.commits && b.prepareSet == a.prepareSet && b.commitSet == a.commitSet
        else ReadUpTo(a.prepares, b.prepares, a.at) && ReadUpTo(a.commits, b.commits, a.at) &&
             b.prepareSet == a.prepareSet + Senders(a.prepares, a.at, b.proposal.value.digest) &&
             b.commitSet == a.commitSet + Senders(a.commits, a.at, b.proposal.value.digest))
  }

  datatype Decision = Decision(at: ViewSeq, digest: Bytes)

  /** What a node does in one call: its new round, the messages it broadcasts, and the decision it delivers. */
  datatype Outcome = Outcome(meta: Meta, prepares: set<Msg>, commits: set<Msg>, decision: Option<Decision>)

  predicate Ready(m: Meta) {
    m.stage == Preprepare || m.proposal.Some?
  }

  function Vote(m: Meta, me: NodeInfo): Msg
    requires m.proposal.Some?
  {
    Msg(m.proposal.value.view, m.proposal.value.number, m.proposal.value.digest, me)
  }

  function NextRound(m: Meta): Meta {
    m.(stage := Preprepare, proposal := None, prepareSet := {}, commitSet := {}, at := ViewSeq(m.at.view, m.at.number + 1))
  }

  function StagesLeft(m: Meta): nat {
    match m.stage case Preprepare => 2 case Prepare => 1 case Commit => 0
  }

  /** step2NextStage: the stages are left one after the other as their quorums are there. */
  function Advance(m: Meta, me: NodeInfo): Outcome
    requires Ready(m)
    decreases StagesLeft(m)
  {
    match m.stage
    case Preprepare =>
      if m.proposal.None? then Outcome(m, {}, {}, None) else
        var o := Advance(m.(stage := Prepare), me);
        o.(prepares := o.prepares + {Vote(m, me)})
    case Prepare =>
      if |m.prepareSet| < 2 * m.f + 1 then Outcome(m, {}, {}, None) else
        var o := Advance(m.(stage := Commit), me);
        o.(commits := o.commits + {Vote(m, me)})
    case Commit =>
      if |m.commitSet| < 2 * m.f + 1 then Outcome(m, {}, {}, None)
      else Outcome(NextRound(m), {}, {}, Some(Decision(m.at, m.proposal.value.digest)))
  }

  // ---- the shard as a system of steps ----

  /** Everything ever sent. */
  datatype Net = Net(preprepares: set<Msg>, prepares: set<Msg>, commits: set<Msg>)

  datatype Decided = Decided(node: NodeInfo, at: ViewSeq, digest: Bytes)

  /** The correct nodes' rounds, the network, and every decision a correct node delivered. */
  datatype Shard = Shard(metas: map<NodeInfo, Meta>, net: Net, decided: set<Decided>)

  function Sent(net: Net, kind: Stage): set<Msg> {
    match kind case Preprepare => net.preprepares case Prepare => net.prepares case Commit => net.commits
  }

  function Push(x: Meta, kind: Stage, m: Msg): Meta {
    match kind
    case Preprepare => x.(preprepares := x.preprepares + multiset{m})
    case Prepare => x.(prepares := x.prepares + multiset{m})
    case Commit => x.(commits := x.commits + multiset{m})
  }

  /** A handler: out-of-date messages are ignored, others join the queue of their kind. */
  function Handle(x: Meta, kind: Stage, m: Msg): Meta {
    if Compare(x.at, m.At()) > 0 then x else Push(x, kind, m)
  }

  datatype Event =
    | Deliver(node: NodeInfo, kind: Stage, msg: Msg)
    | Run(node: NodeInfo, curated: Meta, outcome: Outcome)
    | Inject(kind: Stage, msg: Msg)
    | Idle

  /**
   * One step. A sent message reaches a correct node, in any order and any number of times, or is lost or rejected
   * (Idle); a correct node runs, its broadcasts possibly failing; a faulty node sends anything under its own name; any
   * node proposes anything.
   */
  ghost predicate StepTo(nodes: set<NodeInfo>, a: Shard, e: Event, b: Shard) {
    match e
    case Deliver(n, kind, m) =>
      n in a.metas && m in Sent(a.net, kind) && b == a.(metas := a.metas[n := Handle(a.metas[n], kind, m)])
    case Run(n, mid, o) =>
      && n in a.metas && Curated(a.metas[n], mid) && Ready(mid) && o == Advance(mid, n)
      && b.metas == a.metas[n := o.meta] && b.net.preprepares == a.net.preprepares
      && a.net.prepares <= b.net.prepares <= a.net.prepares + o.prepares && a.net.commits <= b.net.commits <= a.net.commits + o.commits
      && b.decided == a.decided + (if o.decision.Some? then {Decided(n, o.decision.value.at, o.decision.value.digest)} else {})
    case Inject(kind, m) =>
      && m.node in nodes && (kind == Preprepare || m.node !in a.metas) && b.metas == a.metas && b.decided == a.decided
      && b.net == (match kind
           case Preprepare => a.net.(preprepares := a.net.preprepares + {m})
           case Prepare => a.net.(prepares := a.net.prepares + {m})
           case Commit => a.net.(commits := a.net.commits + {m}))
    case Idle => b == a
  }

  ghost predicate FreshMeta(n: nat, m: Meta) {
    m.f == FaultBound(n) && m.stage == Preprepare && m.proposal == None && m.prepareSet == {} && m.commitSet == {}
    && m.preprepares == multiset{} && m.prepares == multiset{} && m.commits == multiset{}
  }

  ghost predicate Init(nodes: set<NodeInfo>, s: Shard) {
    && s.metas.Keys <= nodes && s.net == Net({}, {}, {}) && s.decided == {}
    && forall n :: n in s.metas ==> FreshMeta(|nodes|, s.metas[n])
  }

  // ---- quorums ----

  /** Who voted for a digest in a round. */
  ghost function Voters(votes: set<Msg>, at: ViewSeq, digest: Bytes): set<NodeInfo> {
    set m | m in votes && m.At() == at && m.digest == digest :: m.node
  }

  lemma VotersGrow(a: set<Msg>, b: set<Msg>, at: ViewSeq, digest: Bytes)
    requires a <= b
    ensures Voters(a, at, digest) <= Voters(b, at, digest) && |Voters(a, at, digest)| <= |Voters(b, at, digest)|
  {
    SubsetSize(Voters(a, at, digest), Voters(b, at, digest));
  }

  /** Among 3f + 1 nodes of which f are faulty, two quorums share a correct node. */
  lemma QuorumsMeet(
    nodes: set<NodeInfo>, correct: set<NodeInfo>, x: set<NodeInfo>, y: set<NodeInfo>, f: nat) returns (n: NodeInfo)
    requires |nodes| == 3 * f + 1 && correct <= nodes && |nodes - correct| <= f
    requires x <= nodes && y <= nodes && |x| >= 2 * f + 1 && |y| >= 2 * f + 1
    ensures n in x && n in y && n in correct
  {
    SubsetSize(x + y, nodes);
    assert |x + y| == |x| + |y| - |x * y|;
    if x * y <= nodes - correct {
      SubsetSize(x * y, nodes - correct);
      assert false;
    }
    n :| n in x * y && n !in nodes - correct;
  }

  lemma QuorumHasCorrect(nodes: set<NodeInfo>, correct: set<NodeInfo>, x: set<NodeInfo>, f: nat) returns (n: NodeInfo)
    requires correct <= nodes && |nodes - correct| <= f && x <= nodes && |x| >= 2 * f + 1
    ensures n in x && n in correct
  {
    if x <= nodes - correct {
      SubsetSize(x, nodes - correct);
      assert false;
    }
    n :| n in x && n !in nodes - correct;
  }

  // ---- what every step keeps ----

  ghost predicate AllFrom(votes: set<Msg>, nodes: set<NodeInfo>) {
    forall m :: m in votes ==> m.node in nodes
  }

  /** A round counts only votes that were sent, for its own proposal. */
  ghost predicate CountsOk(net: Net, m: Meta) {
    && (m.proposal.Some? ==> m.proposal.value.At() == m.at) && Ready(m)
    && (m.proposal.None? ==> m.prepareSet == {} && m.commitSet == {})
    && (m.proposal.Some? ==> m.prepareSet <= Voters(net.prepares, m.at, m.proposal.value.digest))
    && (m.proposal.Some? ==> m.commitSet <= Voters(net.commits, m.at, m.proposal.value.digest))
  }

  ghost predicate PoolOk(net: Net, m: Meta) {
    (forall x :: x in m.prepares ==> x in net.prepares) && (forall x :: x in m.commits ==> x in net.commits)
  }

  /** A prepare vote of a correct node is from an earlier round, or for the proposal of its current one. */
  ghost predicate VoteOk(m: Meta, x: Msg) {
    Compare(x.At(), m.at) < 0 || (x.At() == m.at && m.stage != Preprepare && m.proposal.Some? && x.digest == m.proposal.value.digest)
  }

  /** A correct node votes once per round, and commits only on a quorum of prepare votes. */
  ghost predicate VotesOk(net: Net, n: NodeInfo, m: Meta) {
    && (forall x :: x in net.prepares && x.node == n ==> VoteOk(m, x))
    && (forall x, y :: x in net.prepares && y in net.prepares && x.node == n && y.node == n && x.At() == y.At() ==> x.digest == y.digest)
    && (forall x :: x in net.commits && x.node == n ==> |Voters(net.prepares, x.At(), x.digest)| >= 2 * m.f + 1)
  }

  ghost predicate NodeOk(nodes: set<NodeInfo>, s: Shard, n: NodeInfo)
    requires n in s.metas
  {
    var m := s.metas[n];
    m.f == FaultBound(|nodes|) && CountsOk(s.net, m) && PoolOk(s.net, m) && VotesOk(s.net, n, m)
  }

  ghost predicate DecidedOk(nodes: set<NodeInfo>, s: Shard) {
    forall d :: d in s.decided ==> |Voters(s.net.commits, d.at, d.digest)| >= 2 * FaultBound(|nodes|) + 1
  }

  ghost predicate Inv(nodes: set<NodeInfo>, s: Shard) {
    && s.metas.Keys <= nodes && AllFrom(s.net.prepares, nodes) && AllFrom(s.net.commits, nodes)
    && (forall n :: n in s.metas ==> NodeOk(nodes, s, n)) && DecidedOk(nodes, s)
  }

  /** What a node's round and the network say about the node. */
  ghost predicate Good(net: Net, n: NodeInfo, m: Meta) {
    CountsOk(net, m) && PoolOk(net, m) && VotesOk(net, n, m)
  }

  ghost predicate Grows(a: Net, b: Net) {
    a.prepares <= b.prepares && a.commits <= b.commits
  }

  /** Votes of other nodes leave a node as it was. */
  lemma OthersVote(a: Net, b: Net, n: NodeInfo, m: Meta)
    requires Good(a, n, m) && Grows(a, b)
    requires (forall x :: x in b.prepares && x !in a.prepares ==> x.node != n)
    requires forall x :: x in b.commits && x !in a.commits ==> x.node != n
    ensures Good(b, n, m)
  {
    if m.proposal.Some? {
      VotersGrow(a.prepares, b.prepares, m.at, m.proposal.value.digest);
      VotersGrow(a.commits, b.commits, m.at, m.proposal.value.digest);
    }
    forall x | x in b.commits && x.node == n ensures |Voters(b.prepares, x.At(), x.digest)| >= 2 * m.f + 1 {
      VotersGrow(a.prepares, b.prepares, x.At(), x.digest);
    }
  }

  lemma SendersVoted(msgs: multiset<Msg>, votes: set<Msg>, at: ViewSeq, digest: Bytes)
    requires forall x :: x in msgs ==> x in votes
    ensures Senders(msgs, at, digest) <= Voters(votes, at, digest)
  {
  }

  lemma ReadSubset(before: multiset<Msg>, after: multiset<Msg>, end: ViewSeq)
    requires ReadUpTo(before, after, end)
    ensures forall x :: x in after ==> x in before
  {
    forall x | x in after ensures x in before {
      assert after[x] > 0;
    }
  }

  /** Counting messages of the pool counts only votes that were sent. */
  lemma CurateKeeps(net: Net, n: NodeInfo, a: Meta, b: Meta)
    requires Good(net, n, a) && Curated(a, b)
    ensures Good(net, n, b)
  {
    if b.proposal.Some? {
      var digest := b.proposal.value.digest;
      SendersVoted(a.prepares, net.prepares, a.at, digest);
      SendersVoted(a.commits, net.commits, a.at, digest);
      ReadSubset(a.prepares, b.prepares, a.at);
      ReadSubset(a.commits, b.commits, a.at);
    }
  }

  /** Entering the prepare stage: the node's one prepare vote of the round. */
  lemma PrepareKeeps(a: Net, b: Net, n: NodeInfo, m: Meta)
    requires Good(a, n, m) && m.stage == Preprepare && m.proposal.Some? && Grows(a, b)
    requires b.prepares <= a.prepares + {Vote(m, n)} && b.commits == a.commits
    ensures Good(b, n, m.(stage := Prepare))
  {
    var v := Vote(m, n);
    assert v.At() == m.at;
    VotersGrow(a.prepares, b.prepares, m.at, m.proposal.value.digest);
    forall x | x in b.prepares && x.node == n ensures VoteOk(m.(stage := Prepare), x) {
      assert x == v || VoteOk(m, x);
    }
    forall x, y | x in b.prepares && y in b.prepares && x.node == n && y.node == n && x.At() == y.At() ensures x.digest == y.digest {
      assert (x == v || VoteOk(m, x)) && (y == v || VoteOk(m, y));
    }
    forall x | x in b.commits && x.node == n ensures |Voters(b.prepares, x.At(), x.digest)| >= 2 * m.f + 1 {
      VotersGrow(a.prepares, b.prepares, x.At(), x.digest);
    }
  }

  /** Entering the commit stage: a commit vote is backed by a quorum of prepare votes. */
  lemma CommitKeeps(a: Net, b: Net, n: NodeInfo, m: Meta)
    requires Good(a, n, m) && m.stage == Prepare && |m.prepareSet| >= 2 * m.f + 1 && Grows(a, b)
    requires b.prepares == a.prepares && b.commits <= a.commits + {Vote(m, n)}
    ensures Good(b, n, m.(stage := Commit))
  {
    var v, digest := Vote(m, n), m.proposal.value.digest;
    assert v.At() == m.at;
    VotersGrow(a.commits, b.commits, m.at, digest);
    SubsetSize(m.prepareSet, Voters(a.prepares, m.at, digest));
    forall x | x in b.prepares && x.node == n ensures VoteOk(m.(stage := Commit), x) {
      assert VoteOk(m, x);
    }
    forall x | x in b.commits && x.node == n ensures |Voters(b.prepares, x.At(), x.digest)| >= 2 * m.f + 1 {
      assert x == v || x in a.commits;
    }
  }

  /** Finishing the round: the decision is backed by a quorum of commit votes. */
  lemma FinishKeeps(net: Net, n: NodeInfo, m: Meta)
    requires Good(net, n, m) && m.stage == Commit && |m.commitSet| >= 2 * m.f + 1
    ensures Good(net, n, NextRound(m)) && |Voters(net.commits, m.at, m.proposal.value.digest)| >= 2 * m.f + 1
  {
    SubsetSize(m.commitSet, Voters(net.commits, m.at, m.proposal.value.digest));
    forall x | x in net.prepares && x.node == n ensures VoteOk(NextRound(m), x) {
      assert VoteOk(m, x);
    }
  }

  ghost predicate Backed(net: Net, f: nat, o: Outcome) {
    o.decision.Some? ==> |Voters(net.commits, o.decision.value.at, o.decision.value.digest)| >= 2 * f + 1
  }

  lemma CommitStageKeeps(net: Net, n: NodeInfo, m: Meta)
    requires Good(net, n, m) && m.stage == Commit
    ensures var o := Advance(m, n); Good(net, n, o.meta) && Backed(net, m.f, o) && o.prepares == {} && o.commits == {} && o.meta.f == m.f
  {
    if |m.commitSet| >= 2 * m.f + 1 {
      FinishKeeps(net, n, m);
    }
  }

  /** What the prepare stage sends and becomes. */
  lemma PrepareStageIs(m: Meta, n: NodeInfo)
    requires m.stage == Prepare && m.proposal.Some? && |m.prepareSet| >= 2 * m.f + 1
    ensures var o, p := Advance(m, n), Advance(m.(stage := Commit), n);
      o.meta == p.meta && o.decision == p.decision && o.prepares == {} && p.prepares == {} && o.commits == {Vote(m, n)}
  {
  }

  lemma PrepareStageKeeps(a: Net, b: Net, n: NodeInfo, m: Meta)
    requires Good(a, n, m) && m.stage == Prepare && Grows(a, b)
    requires var o := Advance(m, n); b.prepares <= a.prepares + o.prepares && b.commits <= a.commits + o.commits
    ensures var o := Advance(m, n); Good(b, n, o.meta) && Backed(b, m.f, o) && o.prepares == {} && o.commits <= {Vote(m, n)} && o.meta.f == m.f
  {
    if |m.prepareSet| < 2 * m.f + 1 {
      SameNet(a, b, n, m);
    } else {
      PrepareStageIs(m, n);
      CommitKeeps(a, b, n, m);
      CommitStageKeeps(b, n, m.(stage := Commit));
    }
  }

  lemma SameNet(a: Net, b: Net, n: NodeInfo, m: Meta)
    requires Good(a, n, m) && a.prepares == b.prepares && a.commits == b.commits
    ensures Good(b, n, m)
  {
  }

  /** Running a round, with any of its broadcasts lost, keeps what is known of the node. */
  lemma AdvanceKeeps(a: Net, b: Net, n: NodeInfo, m: Meta)
    requires Good(a, n, m) && Grows(a, b)
    requires var o := Advance(m, n); b.prepares <= a.prepares + o.prepares && b.commits <= a.commits + o.commits
    ensures var o := Advance(m, n); Good(b, n, o.meta) && Backed(b, m.f, o) && o.meta.f == m.f
    ensures var o := Advance(m, n); (forall x :: x in o.prepares ==> x.node == n) && forall x :: x in o.commits ==> x.node == n
  {
    match m.stage {
      case Commit =>
        CommitStageKeeps(a, n, m);
        SameNet(a, b, n, Advance(m, n).meta);
      case Prepare =>
        PrepareStageKeeps(a, b, n, m);
      case Preprepare =>
        if m.proposal.None? {
          SameNet(a, b, n, m);
        } else {
          ProposalKeeps(a, b, n, m);
        }
    }
  }

  lemma ProposalKeeps(a: Net, b: Net, n: NodeInfo, m: Meta)
    requires Good(a, n, m) && Grows(a, b) && m.stage == Preprepare && m.proposal.Some?
    requires var o := Advance(m, n); b.prepares <= a.prepares + o.prepares && b.commits <= a.commits + o.commits
    ensures var o := Advance(m, n); Good(b, n, o.meta) && Backed(b, m.f, o) && o.meta.f == m.f && o.prepares <= {Vote(m, n)} && o.commits <= {Vote(m, n)}
  {
    var next := m.(stage := Prepare);
    PrepareKeeps(a, a, n, m);
    PrepareStageKeeps(a, a, n, next);
    var mid := Net(b.preprepares, b.prepares, a.commits);
    PrepareKeeps(a, mid, n, m);
    PrepareStageKeeps(mid, b, n, next);
  }

  // ---- every step keeps the invariant ----

  lemma InitInv(nodes: set<NodeInfo>, s: Shard)
    requires Init(nodes, s)
    ensures Inv(nodes, s)
  {
    forall n | n in s.metas ensures NodeOk(nodes, s, n) {
      assert FreshMeta(|nodes|, s.metas[n]);
    }
  }

  lemma DecidedGrow(nodes: set<NodeInfo>, a: Shard, b: Shard)
    requires DecidedOk(nodes, a) && Grows(a.net, b.net) && b.decided == a.decided
    ensures DecidedOk(nodes, b)
  {
    forall d | d in b.decided ensures |Voters(b.net.commits, d.at, d.digest)| >= 2 * FaultBound(|nodes|) + 1 {
      VotersGrow(a.net.commits, b.net.commits, d.at, d.digest);
    }
  }

  lemma HandleKeeps(net: Net, n: NodeInfo, x: Meta, kind: Stage, m: Msg)
    requires Good(net, n, x) && m in Sent(net, kind)
    ensures Good(net, n, Handle(x, kind, m)) && Handle(x, kind, m).f == x.f
  {
  }

  lemma DeliverInv(nodes: set<NodeInfo>, a: Shard, b: Shard, n: NodeInfo, kind: Stage, m: Msg)
    requires Inv(nodes, a) && StepTo(nodes, a, Deliver(n, kind, m), b)
    ensures Inv(nodes, b)
  {
    assert NodeOk(nodes, a, n);
    HandleKeeps(a.net, n, a.metas[n], kind, m);
    forall k | k in b.metas ensures NodeOk(nodes, b, k) {
      if k != n {
        assert NodeOk(nodes, a, k);
      }
    }
  }

  lemma InjectInv(nodes: set<NodeInfo>, a: Shard, b: Shard, kind: Stage, m: Msg)
    requires Inv(nodes, a) && StepTo(nodes, a, Inject(kind, m), b)
    ensures Inv(nodes, b)
  {
    forall k | k in b.metas ensures NodeOk(nodes, b, k) {
      assert NodeOk(nodes, a, k);
      OthersVote(a.net, b.net, k, b.metas[k]);
    }
    DecidedGrow(nodes, a, b);
  }

  lemma RunOthers(nodes: set<NodeInfo>, a: Shard, b: Shard, n: NodeInfo, mid: Meta, o: Outcome, k: NodeInfo)
    requires Inv(nodes, a) && StepTo(nodes, a, Run(n, mid, o), b) && k in b.metas && k != n
    requires (forall x :: x in o.prepares ==> x.node == n) && forall x :: x in o.commits ==> x.node == n
    ensures NodeOk(nodes, b, k)
  {
    assert NodeOk(nodes, a, k);
    OthersVote(a.net, b.net, k, a.metas[k]);
  }

  lemma RunDecided(nodes: set<NodeInfo>, a: Shard, b: Shard, n: NodeInfo, mid: Meta, o: Outcome)
    requires Inv(nodes, a) && StepTo(nodes, a, Run(n, mid, o), b) && Backed(b.net, FaultBound(|nodes|), o)
    ensures DecidedOk(nodes, b)
  {
    forall d | d in b.decided ensures |Voters(b.net.commits, d.at, d.digest)| >= 2 * FaultBound(|nodes|) + 1 {
      if d in a.decided {
        VotersGrow(a.net.commits, b.net.commits, d.at, d.digest);
      }
    }
  }

  lemma RunStepInv(nodes: set<NodeInfo>, a: Shard, b: Shard, n: NodeInfo, mid: Meta, o: Outcome)
    requires Inv(nodes, a) && StepTo(nodes, a, Run(n, mid, o), b)
    ensures Inv(nodes, b)
  {
    assert NodeOk(nodes, a, n);
    CurateKeeps(a.net, n, a.metas[n], mid);
    AdvanceKeeps(a.net, b.net, n, mid);
    forall k | k in b.metas ensures NodeOk(nodes, b, k) {
      if k != n {
        RunOthers(nodes, a, b, n, mid, o, k);
      }
    }
    RunDecided(nodes, a, b, n, mid, o);
  }

  lemma SameNodes(nodes: set<NodeInfo>, a: Shard, e: Event, b: Shard)
    requires StepTo(nodes, a, e, b)
    ensures b.metas.Keys == a.metas.Keys
  {
  }

  lemma StepInv(nodes: set<NodeInfo>, a: Shard, e: Event, b: Shard)
    requires Inv(nodes, a) && StepTo(nodes, a, e, b)
    ensures Inv(nodes, b)
  {
    match e {
      case Deliver(n, kind, m) => DeliverInv(nodes, a, b, n, kind, m);
      case Run(n, mid, o) => RunStepInv(nodes, a, b, n, mid, o);
      case Inject(kind, m) => InjectInv(nodes, a, b, kind, m);
      case Idle =>
    }
  }

  // ---- agreement ----

  ghost predicate Execution(nodes: set<NodeInfo>, states: seq<Shard>, events: seq<Event>) {
    && |states| == |events| + 1 && Init(nodes, states[0])
    && forall i :: 0 <= i < |events| ==> StepTo(nodes, states[i], events[i], states[i + 1])
  }

  lemma {:induction false} ExecutionInv(nodes: set<NodeInfo>, states: seq<Shard>, events: seq<Event>, k: nat)
    requires Execution(nodes, states, events) && k < |states|
    ensures Inv(nodes, states[k]) && states[k].metas.Keys == states[0].metas.Keys
  {
    if k == 0 {
      InitInv(nodes, states[0]);
    } else {
      ExecutionInv(nodes, states, events, k - 1);
      StepInv(nodes, states[k - 1], events[k - 1], states[k]);
      SameNodes(nodes, states[k - 1], events[k - 1], states[k]);
    }
  }

  lemma VotersFrom(votes: set<Msg>, nodes: set<NodeInfo>, at: ViewSeq, digest: Bytes)
    requires AllFrom(votes, nodes)
    ensures Voters(votes, at, digest) <= nodes
  {
  }

  /** A decision is backed by a quorum of prepare votes. */
  lemma DecisionPrepared(nodes: set<NodeInfo>, s: Shard, d: Decided)
    requires Inv(nodes, s) && d in s.decided && |nodes - s.metas.Keys| <= FaultBound(|nodes|)
    ensures |Voters(s.net.prepares, d.at, d.digest)| >= 2 * FaultBound(|nodes|) + 1
  {
    VotersFrom(s.net.commits, nodes, d.at, d.digest);
    var n := QuorumHasCorrect(nodes, s.metas.Keys, Voters(s.net.commits, d.at, d.digest), FaultBound(|nodes|));
    assert NodeOk(nodes, s, n);
    var m :| m in s.net.commits && m.At() == d.at && m.digest == d.digest && m.node == n;
  }

  /**
   * Agreement: with 3f + 1 nodes of which at most f are faulty, no two correct nodes finish the same view and sequence
   * with different digests, whatever the schedule and whatever the faulty nodes and the leader send. Rounds only advance:
   * catching up, by which a leader can set a node back to an older round, is not part of the steps.
   */
  lemma Agreement(nodes: set<NodeInfo>, states: seq<Shard>, events: seq<Event>, k: nat, f: nat, d: Decided, e: Decided)
    requires Execution(nodes, states, events) && k < |states| && |nodes| == 3 * f + 1
    requires |nodes - states[0].metas.Keys| <= f
    requires d in states[k].decided && e in states[k].decided && d.at == e.at
    ensures d.digest == e.digest
  {
    var s := states[k];
    ExecutionInv(nodes, states, events, k);
    assert FaultBound(|nodes|) == f;
    DecisionPrepared(nodes, s, d);
    DecisionPrepared(nodes, s, e);
    VotersFrom(s.net.prepares, nodes, d.at, d.digest);
    VotersFrom(s.net.prepares, nodes, d.at, e.digest);
    var n := QuorumsMeet(nodes, s.metas.Keys, Voters(s.net.prepares, d.at, d.digest), Voters(s.net.prepares, e.at, e.digest), f);
    assert NodeOk(nodes, s, n);
    var x :| x in s.net.prepares && x.At() == d.at && x.digest == d.digest && x.node == n;
    var y :| y in s.net.prepares && y.At() == e.at && y.digest == e.digest && y.node == n;
  }

  // ---- when quorums meet ----

  lemma {:induction false} SubsetOfSize(s: set<NodeInfo>, k: nat) returns (t: set<NodeInfo>)
    requires k <= |s|
    ensures t <= s && |t| == k
    decreases |s|
  {
    if k == |s| {
      t := s;
    } else {
      var x :| x in s;
      t := SubsetOfSize(s - {x}, k);
    }
  }

  ghost predicate Quorum(nodes: set<NodeInfo>, x: set<NodeInfo>) {
    x <= nodes && |x| >= 2 * FaultBound(|nodes|) + 1
  }

  /** Whichever nodes are faulty, within the bound, any two quorums share a correct node. */
  ghost predicate QuorumsAlwaysMeet(nodes: set<NodeInfo>) {
    forall x, y, faulty :: Quorum(nodes, x) && Quorum(nodes, y) && |faulty| <= FaultBound(|nodes|) ==> !(x * y <= faulty)
  }

  lemma FaultBoundIs(n: nat) returns (f: nat)
    requires n > 0
    ensures f == FaultBound(n) && 3 * f + 1 <= n <= 3 * f + 3 && (n % 3 == 1 <==> n == 3 * f + 1)
  {
    f := FaultBound(n);
  }

  lemma QuorumsShare(nodes: set<NodeInfo>, f: nat, x: set<NodeInfo>, y: set<NodeInfo>, faulty: set<NodeInfo>)
    requires |nodes| == 3 * f + 1 && x <= nodes && y <= nodes && |x| >= 2 * f + 1 && |y| >= 2 * f + 1 && |faulty| <= f
    ensures !(x * y <= faulty)
  {
    SubsetSize(x + y, nodes);
    assert |x + y| == |x| + |y| - |x * y|;
    if x * y <= faulty {
      SubsetSize(x * y, faulty);
    }
  }

  /** With more than 3f + 1 nodes, two quorums can meet in faulty nodes only. */
  lemma QuorumsMiss(nodes: set<NodeInfo>, f: nat) returns (x: set<NodeInfo>, y: set<NodeInfo>)
    requires 3 * f + 2 <= |nodes| <= 3 * f + 3
    ensures x <= nodes && y <= nodes && |x| >= 2 * f + 1 && |y| >= 2 * f + 1 && |x * y| <= f
  {
    var q := 2 * f + 1;
    x := SubsetOfSize(nodes, q);
    var rest := nodes - x;
    assert nodes == x + rest && |nodes| == |x| + |rest|;
    if |rest| >= q {
      y := rest;
      assert x * y == {};
    } else {
      var shared := SubsetOfSize(x, q - |rest|);
      y := rest + shared;
      assert |y| == |rest| + |shared| && x * y == shared;
    }
  }

  /**
   * Quorums of the configured fault bound are sure to share a correct node exactly when the number of nodes is one more
   * than a multiple of three; otherwise two quorums can meet in faulty nodes only.
   */
  lemma QuorumsMeetIff(nodes: set<NodeInfo>)
    requires nodes != {}
    ensures QuorumsAlwaysMeet(nodes) <==> |nodes| % 3 == 1
  {
    var f := FaultBoundIs(|nodes|);
    if |nodes| == 3 * f + 1 {
      forall x, y, faulty | Quorum(nodes, x) && Quorum(nodes, y) && |faulty| <= f ensures !(x * y <= faulty) {
        QuorumsShare(nodes, f, x, y, faulty);
      }
    } else {
      var x, y := QuorumsMiss(nodes, f);
      assert Quorum(nodes, x) && Quorum(nodes, y) && |x * y| <= f && x * y <= x * y;
    }
  }
}
