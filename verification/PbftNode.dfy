/** A PBFT node's mutable parts (consensus/pbft/pbftmeta.go, node.go and basicstructs), against the steps of Pbft. */
module PbftNode {
  import opened Base
  import opened ByteStrings
  import opened Pbft

  /** The heap of pq.go: popping yields a message no later than any that stays; ties come in any order. */
  class PriorityQueue {
    var items: seq<Msg>

    constructor ()
      ensures items == []
    {
      items := [];
    }

    method PushItem(x: Msg)
      modifies this
      ensures multiset(items) == multiset(old(items)) + multiset{x}
    {
      items := items + [x];
    }

    method PopItem() returns (top: Msg)
      requires items != []
      modifies this
      ensures multiset(old(items)) == multiset(items) + multiset{top} && |items| == |old(items)| - 1
      ensures forall m :: m in items ==> Compare(top.At(), m.At()) <= 0
    {
      var least := 0;
      for i := 1 to |items|
        invariant least < i <= |items| && forall j :: 0 <= j < i ==> Compare(items[least].At(), items[j].At()) <= 0
      {
        if Compare(items[i].At(), items[least].At()) == -1 {
          least := i;
        }
      }
      top := items[least];
      assert items == items[..least] + [top] + items[least + 1..];
      items := items[..least] + items[least + 1..];
    }

    /** ReadPreprepareMsg, ReadPrepareMsg and ReadCommitMsg: everything up to a view and sequence. */
    method ReadMsgs(end: ViewSeq) returns (read: seq<Msg>)
      modifies this
      ensures multiset(old(items)) == multiset(items) + multiset(read)
      ensures (forall m :: m in read ==> Compare(m.At(), end) <= 0) && forall m :: m in items ==> Compare(m.At(), end) > 0
    {
      read := [];
      while |items| > 0
        invariant multiset(old(items)) == multiset(items) + multiset(read)
        invariant forall m :: m in read ==> Compare(m.At(), end) <= 0
        decreases |items|
      {
        var top := PopItem();
        if Compare(end, top.At()) == -1 {
          ghost var rest := items;
          PushItem(top);
          AllLater(rest, items, top, end);
          return;
        }
        read := read + [top];
      }
    }
  }

  lemma AllLater(rest: seq<Msg>, items: seq<Msg>, top: Msg, end: ViewSeq)
    requires multiset(items) == multiset(rest) + multiset{top} && Compare(end, top.At()) == -1
    requires forall m :: m in rest ==> Compare(top.At(), m.At()) <= 0
    ensures forall m :: m in items ==> Compare(m.At(), end) > 0
  {
    forall m | m in items ensures Compare(m.At(), end) > 0 {
      assert m in multiset(items);
      assert m in multiset(rest) || m == top;
    }
  }

  /** What ReadMsgs leaves of a queue. */
  lemma ReadIs(before: seq<Msg>, after: seq<Msg>, read: seq<Msg>, end: ViewSeq)
    requires multiset(before) == multiset(after) + multiset(read)
    requires (forall m :: m in read ==> Compare(m.At(), end) <= 0)
    requires forall m :: m in after ==> Compare(m.At(), end) > 0
    ensures ReadUpTo(multiset(before), multiset(after), end)
    ensures forall m :: m in read <==> m in multiset(before) && Compare(m.At(), end) <= 0
  {
    forall m: Msg ensures multiset(after)[m] == (if Compare(m.At(), end) > 0 then multiset(before)[m] else 0) {
      assert m in multiset(read) <==> m in read;
      assert m in multiset(after) <==> m in after;
      assert multiset(before)[m] == multiset(after)[m] + multiset(read)[m];
    }
    forall m: Msg ensures m in read <==> m in multiset(before) && Compare(m.At(), end) <= 0 {
      assert m in multiset(read) <==> m in read;
      assert m in multiset(after) <==> m in after;
      assert multiset(before)[m] == multiset(after)[m] + multiset(read)[m];
    }
  }

  /** An outcome after some messages have been sent already. */
  function Sending(o: Outcome, prepares: set<Msg>, commits: set<Msg>): Outcome {
    Outcome(o.meta, prepares + o.prepares, commits + o.commits, o.decision)
  }

  lemma PreprepareTurn(m: Meta, me: NodeInfo, prepares: set<Msg>, commits: set<Msg>)
    requires m.stage == Preprepare && m.proposal.Some?
    ensures Sending(Advance(m, me), prepares, commits) == Sending(Advance(m.(stage := Prepare), me), prepares + {Vote(m, me)}, commits)
  {
    var o := Advance(m.(stage := Prepare), me);
    assert prepares + (o.prepares + {Vote(m, me)}) == prepares + {Vote(m, me)} + o.prepares;
  }

  lemma PrepareTurn(m: Meta, me: NodeInfo, prepares: set<Msg>, commits: set<Msg>)
    requires m.stage == Prepare && m.proposal.Some? && |m.prepareSet| >= 2 * m.f + 1
    ensures Sending(Advance(m, me), prepares, commits) == Sending(Advance(m.(stage := Commit), me), prepares, commits + {Vote(m, me)})
  {
    var o := Advance(m.(stage := Commit), me);
    assert commits + (o.commits + {Vote(m, me)}) == commits + {Vote(m, me)} + o.commits;
  }

  lemma CommitTurn(m: Meta, me: NodeInfo, prepares: set<Msg>, commits: set<Msg>)
    requires m.stage == Commit && m.proposal.Some? && |m.commitSet| >= 2 * m.f + 1
    ensures Sending(Advance(m, me), prepares, commits) == Outcome(NextRound(m), prepares, commits, Some(Decision(m.at, m.proposal.value.digest)))
  {
    assert prepares + {} == prepares && commits + {} == commits;
  }

  class ConsensusMeta {
    const f: nat
    const leader: int
    const preprepares: PriorityQueue
    const prepares: PriorityQueue
    const commits: PriorityQueue
    var at: ViewSeq
    var stage: Stage
    var proposal: Option<Msg>
    var prepareSet: set<NodeInfo>
    var commitSet: set<NodeInfo>

    ghost predicate Separate()
      reads this
    {
      preprepares != prepares && preprepares != commits && prepares != commits
    }

    ghost function View(): Meta
      reads this, preprepares, prepares, commits
    {
      Meta(f, leader, at, stage, proposal, prepareSet, commitSet, multiset(preprepares.items), multiset(prepares.items), multiset(commits.items))
    }

    /** newConsensusMeta for n nodes. */
    constructor (n: nat)
      ensures Separate() && FreshMeta(n, View()) && at == ViewSeq(0, 0) && leader == 0
      ensures fresh(preprepares) && fresh(prepares) && fresh(commits)
    {
      f := FaultBound(n);
      leader := 0;
      preprepares := new PriorityQueue();
      prepares := new PriorityQueue();
      commits := new PriorityQueue();
      at, stage, proposal, prepareSet, commitSet := ViewSeq(0, 0), Preprepare, None, {}, {};
    }

    /** The first proposal of this round by its leader, if one was read. */
    method TakeProposal()
      requires Separate() && proposal.None?
      modifies this`proposal, preprepares
      ensures ReadUpTo(old(multiset(preprepares.items)), multiset(preprepares.items), at)
      ensures if proposal.Some? then Proposes(proposal.value, old(View())) else forall m :: !Proposes(m, old(View()))
    {
      ghost var before := preprepares.items;
      var read := preprepares.ReadMsgs(at);
      ReadIs(before, preprepares.items, read, at);
      for i := 0 to |read|
        invariant proposal.None? && forall j :: 0 <= j < i ==> !(read[j].At() == at && read[j].node.nodeId == leader)
      {
        if Compare(at, read[i].At()) == 0 && read[i].node.nodeId == leader {
          assert read[i] in read;
          proposal := Some(read[i]);
          return;
        }
      }
      forall m ensures !Proposes(m, old(View())) {
        if m in multiset(before) && m.At() == at {
          assert m in read;
        }
      }
    }

    /** The senders of the messages read that agree with the proposal. */
    method Agreeing(read: seq<Msg>, digest: Bytes) returns (senders: set<NodeInfo>)
      ensures senders == set m | m in read && m.At() == at && m.digest == digest :: m.node
    {
      senders := {};
      for i := 0 to |read|
        invariant senders == set m | m in read[..i] && m.At() == at && m.digest == digest :: m.node
      {
        assert read[..i + 1] == read[..i] + [read[i]];
        if Compare(at, read[i].At()) == 0 && read[i].digest == digest {
          senders := senders + {read[i].node};
        }
      }
      assert read[..|read|] == read;
    }

    method CountVotes(digest: Bytes)
      requires Separate()
      modifies this`prepareSet, this`commitSet, prepares, commits
      ensures ReadUpTo(old(multiset(prepares.items)), multiset(prepares.items), at) && ReadUpTo(old(multiset(commits.items)), multiset(commits.items), at)
      ensures prepareSet == old(prepareSet) + Senders(old(multiset(prepares.items)), at, digest)
      ensures commitSet == old(commitSet) + Senders(old(multiset(commits.items)), at, digest)
    {
      ghost var p0, c0 := prepares.items, commits.items;
      var read := prepares.ReadMsgs(at);
      ReadIs(p0, prepares.items, read, at);
      var senders := Agreeing(read, digest);
      SendersRead(p0, read, at, digest);
      prepareSet := prepareSet + senders;
      read := commits.ReadMsgs(at);
      ReadIs(c0, commits.items, read, at);
      senders := Agreeing(read, digest);
      SendersRead(c0, read, at, digest);
      commitSet := commitSet + senders;
    }

    method CurateMsg()
      requires Separate()
      modifies this`proposal, this`prepareSet, this`commitSet, preprepares, prepares, commits
      ensures Curated(old(View()), View())
    {
      if proposal.None? {
        TakeProposal();
      }
      if proposal.None? {
        return;
      }
      CountVotes(proposal.value.digest);
    }

    /** step2Next: whether the stage changed. */
    method StepToNext() returns (changed: bool)
      requires Ready(View())
      modifies this`stage, this`proposal, this`prepareSet, this`commitSet, this`at
      ensures var m := old(View());
        match m.stage
        case Preprepare => changed == m.proposal.Some? && View() == (if changed then m.(stage := Prepare) else m)
        case Prepare => changed == (|m.prepareSet| >= 2 * f + 1) && View() == (if changed then m.(stage := Commit) else m)
        case Commit => changed == (|m.commitSet| >= 2 * f + 1) && View() == (if changed then NextRound(m) else m)
    {
      match stage {
        case Preprepare =>
          if proposal.None? {
            return false;
          }
          stage := Prepare;
        case Prepare =>
          if |prepareSet| < 2 * f + 1 {
            return false;
          }
          stage := Commit;
        case Commit =>
          if |commitSet| < 2 * f + 1 {
            return false;
          }
          stage, proposal, prepareSet, commitSet := Preprepare, None, {}, {};
          at := ViewSeq(at.view, at.number + 1);
      }
      changed := true;
    }

    /** step2NextStage: the messages to broadcast and the decision to deliver. */
    method StepStages(me: NodeInfo) returns (sentPrepares: set<Msg>, sentCommits: set<Msg>, decision: Option<Decision>)
      requires Ready(View())
      modifies this`stage, this`proposal, this`prepareSet, this`commitSet, this`at
      ensures Outcome(View(), sentPrepares, sentCommits, decision) == Advance(old(View()), me)
    {
      sentPrepares, sentCommits, decision := {}, {}, None;
      while true
        invariant Ready(View()) && decision.None?
        invariant Advance(old(View()), me) == Sending(Advance(View(), me), sentPrepares, sentCommits)
        decreases StagesLeft(View())
      {
        ghost var before := View();
        var round, was := at, proposal;
        var changed := StepToNext();
        if !changed {
          return;
        }
        match stage {
          case Preprepare =>
            CommitTurn(before, me, sentPrepares, sentCommits);
            decision := Some(Decision(round, was.value.digest));
            return;
          case Prepare =>
            PreprepareTurn(before, me, sentPrepares, sentCommits);
            sentPrepares := sentPrepares + {Msg(was.value.view, was.value.number, was.value.digest, me)};
          case Commit =>
            PrepareTurn(before, me, sentPrepares, sentCommits);
            sentCommits := sentCommits + {Msg(was.value.view, was.value.number, was.value.digest, me)};
        }
      }
    }

    /** handlePreprepare, handlePrepare and handleCommit, for a message that decoded and validated. */
    method HandleMsg(kind: Stage, m: Msg)
      requires Separate()
      modifies preprepares, prepares, commits
      ensures View() == Handle(old(View()), kind, m)
    {
      if Compare(at, m.At()) > 0 {
        return;
      }
      match kind {
        case Preprepare => preprepares.PushItem(m);
        case Prepare => prepares.PushItem(m);
        case Commit => commits.PushItem(m);
      }
    }
  }

  lemma SendersRead(before: seq<Msg>, read: seq<Msg>, at: ViewSeq, digest: Bytes)
    requires forall m :: m in read <==> m in multiset(before) && Compare(m.At(), at) <= 0
    ensures Senders(multiset(before), at, digest) == set m | m in read && m.At() == at && m.digest == digest :: m.node
  {
    forall m: Msg ensures m in multiset(before) && m.At() == at <==> m in read && m.At() == at {
    }
  }
}
