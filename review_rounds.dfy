/**
 * A player's review of their own generated rounds
 * (src/components/ReviewMyRounds.tsx): the lies of a round are its
 * statements without the truth's slot; the "reviewed" toggle flips
 * optimistically and flips back when the request fails; the
 * regenerate button marks the round being regenerated while its request
 * is in flight.
 */
module Review {
  import opened GameTypes

  /**
   * `statements.filter((_, index) => index !== truthIndex)`, walking the
   * statements from the last slot back to the first.
   */
  function WithoutSlot(statements: seq<string>, truthIndex: int): (r: seq<string>)
    ensures |r| == if 0 <= truthIndex < |statements| then |statements| - 1 else |statements|
    ensures forall x :: x in r ==> x in statements
    decreases |statements|
  {
    if statements == [] then []
    else
      var last := |statements| - 1;
      WithoutSlot(statements[..last], truthIndex) + (if last == truthIndex then [] else [statements[last]])
  }

  /** The lies shown for a round. */
  function LiesOf(round: PlayerRound): (lies: seq<string>)
    ensures 0 <= round.truthIndex < |round.statements| ==> |lies| == |round.statements| - 1
  {
    WithoutSlot(round.statements, round.truthIndex)
  }

  /**
   * Removing the truth's slot keeps every other statement, in order; a
   * `truthIndex` outside the statements removes nothing.
   */
  lemma {:induction false} WithoutSlotIsRemoval(statements: seq<string>, truthIndex: int)
    ensures WithoutSlot(statements, truthIndex) ==
      if 0 <= truthIndex < |statements| then statements[..truthIndex] + statements[truthIndex + 1..]
      else statements
    decreases |statements|
  {
    if statements != [] {
      var last := |statements| - 1;
      var front := statements[..last];
      WithoutSlotIsRemoval(front, truthIndex);
      if 0 <= truthIndex < last {
        assert front[..truthIndex] == statements[..truthIndex];
        assert front[truthIndex + 1..] + [statements[last]] == statements[truthIndex + 1..];
      } else if truthIndex == last {
        assert front == statements[..truthIndex];
        assert statements[truthIndex + 1..] == [];
      } else {
        assert front + [statements[last]] == statements;
      }
    }
  }

  /** The lies together with the truth's statement are the round's statements, as a multiset. */
  lemma LiesAndTruthMakeStatements(statements: seq<string>, truthIndex: int)
    requires 0 <= truthIndex < |statements|
    ensures multiset(WithoutSlot(statements, truthIndex)) + multiset{statements[truthIndex]} == multiset(statements)
  {
    WithoutSlotIsRemoval(statements, truthIndex);
    RemoveAt(statements, truthIndex);
  }

  lemma RemoveAt(s: seq<string>, k: int)
    requires 0 <= k < |s|
    ensures multiset(s[..k] + s[k + 1..]) + multiset{s[k]} == multiset(s)
  {
    assert s == s[..k] + [s[k]] + s[k + 1..];
  }

  /**
   * A round of three statements has exactly two lies: the two slots other
   * than the truth's, lower slot first.
   */
  lemma ThreeStatementsTwoLies(round: PlayerRound)
    requires |round.statements| == 3
    requires 0 <= round.truthIndex <= 2
    ensures |LiesOf(round)| == 2
    ensures LiesOf(round)[0] == round.statements[if round.truthIndex == 0 then 1 else 0]
    ensures LiesOf(round)[1] == round.statements[if round.truthIndex == 2 then 1 else 2]
  {
    WithoutSlotIsRemoval(round.statements, round.truthIndex);
  }

  /** The body of the review-complete request. */
  datatype ReviewRequest = ReviewRequest(playerName: string, reviewComplete: bool)

  /** The body of the regenerate request. */
  datatype RegenerateRequest = RegenerateRequest(playerName: string, truth: string, roundIndex: int)

  /** The review panel of one player: its props and its React state. */
  class ReviewPanel {
    const player: Player
    var reviewComplete: bool
    var regenerating: Option<int>

    /** Mounting: the local flag starts from the player's stored flag. */
    constructor (player: Player)
      ensures this.player == player
      ensures reviewComplete == player.reviewComplete && regenerating == None
    {
      this.player := player;
      reviewComplete := player.reviewComplete;
      regenerating := None;
    }

    /**
     * A click on the toggle, up to the request: the flag flips at once and
     * the request carries the new value. The button is never disabled, so a
     * second click may come before the first answer.
     */
    method BeginReviewToggle() returns (sent: ReviewRequest)
      modifies this`reviewComplete
      ensures reviewComplete == !old(reviewComplete)
      ensures sent == ReviewRequest(player.name, reviewComplete)
    {
      var newReviewComplete := !reviewComplete;
      reviewComplete := newReviewComplete;
      sent := ReviewRequest(player.name, newReviewComplete);
    }

    /**
     * The answer to the toggle request `sent`. On success the parent's
     * `onReviewToggle` receives the value that request carried (`notified`)
     * and the flag is left as it is; on rejection or exception the flag is
     * set to the opposite of the value that request carried, whatever other
     * clicks have done to it since, and the parent is not told.
     */
    method FinishReviewToggle(sent: ReviewRequest, outcome: RequestOutcome) returns (notified: Option<bool>)
      modifies this`reviewComplete
      ensures outcome.Succeeded? ==> reviewComplete == old(reviewComplete) && notified == Some(sent.reviewComplete)
      ensures !outcome.Succeeded? ==> reviewComplete == !sent.reviewComplete && notified == None
    {
      match outcome {
        case Succeeded =>
          notified := Some(sent.reviewComplete);
        case Rejected(_) =>
          reviewComplete := !sent.reviewComplete;
          notified := None;
        case Threw =>
          reviewComplete := !sent.reviewComplete;
          notified := None;
      }
    }

    /**
     * One click answered before the next: the flag flips for the request
     * (`flagWhileSent`); on success the parent is told the new value and the
     * flag keeps it; on failure the flag is back to its value before the
     * click and the parent is not told.
     */
    method HandleReviewToggle(outcome: RequestOutcome)
      returns (sent: ReviewRequest, flagWhileSent: bool, notified: Option<bool>)
      modifies this`reviewComplete
      ensures sent == ReviewRequest(player.name, !old(reviewComplete))
      ensures flagWhileSent == !old(reviewComplete)
      ensures outcome.Succeeded? ==> reviewComplete == !old(reviewComplete) && notified == Some(!old(reviewComplete))
      ensures !outcome.Succeeded? ==> reviewComplete == old(reviewComplete) && notified == None
    {
      sent := BeginReviewToggle();
      flagWhileSent := reviewComplete;
      notified := FinishReviewToggle(sent, outcome);
    }

    /**
     * Two quick clicks on the toggle whose requests both fail, the first
     * answered first: each answer reverts to the opposite of what its own
     * request carried, so the flag ends flipped although neither request
     * took effect.
     */
    method TwoClicksBothRejected() returns (first: ReviewRequest, second: ReviewRequest)
      modifies this`reviewComplete
      ensures first.reviewComplete == !old(reviewComplete) && second.reviewComplete == old(reviewComplete)
      ensures reviewComplete == !old(reviewComplete)
    {
      first := BeginReviewToggle();
      second := BeginReviewToggle();
      var n1 := FinishReviewToggle(first, Threw);
      var n2 := FinishReviewToggle(second, Threw);
    }

    /**
     * A click on the regenerate button of round `roundIndex`, up to the
     * request: that round is marked as regenerating, which disables only its
     * own button, and the request carries the player's name, the truth and
     * the index.
     */
    method BeginRegenerate(roundIndex: int, truth: string) returns (sent: RegenerateRequest)
      modifies this`regenerating
      ensures regenerating == Some(roundIndex)
      ensures sent == RegenerateRequest(player.name, truth, roundIndex)
    {
      regenerating := Some(roundIndex);
      sent := RegenerateRequest(player.name, truth, roundIndex);
    }

    /**
     * The end of a regenerate request, whatever its outcome: the mark is
     * cleared, even when it now names a round whose own request is still in
     * flight.
     */
    method FinishRegenerate()
      modifies this`regenerating
      ensures regenerating == None
    {
      // the outcome only decides which alert is shown
      regenerating := None;
    }

    /**
     * One regenerate answered before the next: the round is marked while
     * its request is in flight (`markWhileSent`), and the mark is cleared
     * afterwards.
     */
    method HandleRegenerateLies(roundIndex: int, truth: string)
      returns (sent: RegenerateRequest, markWhileSent: Option<int>)
      modifies this`regenerating
      ensures sent == RegenerateRequest(player.name, truth, roundIndex)
      ensures markWhileSent == Some(roundIndex)
      ensures regenerating == None
    {
      sent := BeginRegenerate(roundIndex, truth);
      markWhileSent := regenerating;
      FinishRegenerate();
    }

    /**
     * Regenerating round `first` and then, before its answer, round
     * `second`: the first answer clears the mark while the second request
     * is still in flight, so the second round's button is enabled again.
     */
    method OverlappingRegenerates(first: int, firstTruth: string, second: int, secondTruth: string)
      returns (markAfterFirstAnswer: Option<int>)
      modifies this`regenerating
      ensures markAfterFirstAnswer == None
      ensures regenerating == None
    {
      var a := BeginRegenerate(first, firstTruth);
      var b := BeginRegenerate(second, secondTruth);
      FinishRegenerate();
      markAfterFirstAnswer := regenerating;
      FinishRegenerate();
    }
  }
}
