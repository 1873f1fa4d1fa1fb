/** Votes of one proposing or accepting round, counted by sender. */
module ProposalCounter {
  import opened Messages

  /** The three vote sets and the running count of `ProposalCounter`. */
  datatype Tally = Tally(approvals: set<NodeId>, promises: set<NodeId>, rejections: set<NodeId>, votes: nat) {
    /** The count is that of the distinct votes since the last reset. */
    ghost predicate Counted() {
      votes == |approvals| + |promises| + |rejections|
    }
  }

  const NO_VOTES := Tally({}, {}, {}, 0)

  function AddPromise(t: Tally, node: NodeId): Tally {
    if node in t.promises then t else t.(promises := t.promises + {node}, votes := t.votes + 1)
  }

  function AddApproval(t: Tally, node: NodeId): Tally {
    if node in t.approvals then t else t.(approvals := t.approvals + {node}, votes := t.votes + 1)
  }

  function AddRejection(t: Tally, node: NodeId): Tally {
    if node in t.rejections then t else t.(rejections := t.rejections + {node}, votes := t.votes + 1)
  }

  /** Repair: a round is pending while votes are missing (the source tests the opposite). */
  predicate StillPending(t: Tally, members: nat) {
    t.votes < members
  }

  /** A vote of one of the three kinds. */
  datatype CastVote = ForPromise(node: NodeId) | ForApproval(node: NodeId) | Against(node: NodeId)

  function Count(t: Tally, vote: CastVote): Tally {
    match vote
    case ForPromise(node) => AddPromise(t, node)
    case ForApproval(node) => AddApproval(t, node)
    case Against(node) => AddRejection(t, node)
  }

  function CountAll(votes: seq<CastVote>): Tally {
    if votes == [] then NO_VOTES else Count(CountAll(votes[..|votes| - 1]), votes[|votes| - 1])
  }

  ghost predicate Holds(t: Tally, cast: set<CastVote>) {
    && t.Counted()
    && (forall n :: n in t.promises <==> ForPromise(n) in cast)
    && (forall n :: n in t.approvals <==> ForApproval(n) in cast)
    && (forall n :: n in t.rejections <==> Against(n) in cast)
  }

  lemma CountHolds(t: Tally, cast: set<CastVote>, vote: CastVote)
    requires Holds(t, cast)
    ensures Holds(Count(t, vote), cast + {vote})
  {
  }

  /**
    Whatever votes arrived since the reset, repeated or not, each set holds exactly the senders of its kind and
    the count is that of the distinct votes: a majority test succeeds only on that many distinct voters.
    */
  lemma {:induction false} TallyHoldsDistinctVoters(votes: seq<CastVote>)
    ensures Holds(CountAll(votes), (set v | v in votes))
  {
    if votes == [] {
    } else {
      var before, last := votes[..|votes| - 1], votes[|votes| - 1];
      TallyHoldsDistinctVoters(before);
      CountHolds(CountAll(before), (set v | v in before), last);
      assert (set v | v in votes) == (set v | v in before) + {last};
    }
  }

  /** `ProposalCounter`. */
  class Counter {
    var approvals: set<NodeId>
    var promises: set<NodeId>
    var rejections: set<NodeId>
    var votes: nat

    ghost function Value(): Tally
      reads this
    {
      Tally(approvals, promises, rejections, votes)
    }

    constructor ()
      ensures Value() == NO_VOTES
    {
      approvals, promises, rejections, votes := {}, {}, {}, 0;
    }

    method Promise(node: NodeId) returns (counted: bool)
      modifies this
      ensures Value() == AddPromise(old(Value()), node)
      ensures counted <==> node !in old(promises)
    {
      if node in promises {
        return false;
      }
      promises := promises + {node};
      votes := votes + 1;
      return true;
    }

    method Approve(node: NodeId) returns (counted: bool)
      modifies this
      ensures Value() == AddApproval(old(Value()), node)
      ensures counted <==> node !in old(approvals)
    {
      if node in approvals {
        return false;
      }
      approvals := approvals + {node};
      votes := votes + 1;
      return true;
    }

    method Reject(node: NodeId) returns (counted: bool)
      modifies this
      ensures Value() == AddRejection(old(Value()), node)
      ensures counted <==> node !in old(rejections)
    {
      if node in rejections {
        return false;
      }
      rejections := rejections + {node};
      votes := votes + 1;
      return true;
    }

    method Reset()
      modifies this
      ensures Value() == NO_VOTES
    {
      approvals, promises, rejections, votes := {}, {}, {}, 0;
    }
  }
}
