/**
 * The guessing view of one round (src/components/GameRound.tsx). The three
 * statements are shown in a shuffled order, each card remembering the slot
 * it came from; the first click on a card decides the round, reports the
 * result once through the score callback, and reveals which card held the
 * truth. The random order is an input: any permutation of the labelled
 * statements, which is all that sorting with a random comparator promises.
 */
module Round {
  import opened GameTypes

  /** A card: a statement and the slot it occupies in the round's `statements`. */
  datatype ShuffledStatement = ShuffledStatement(text: string, originalIndex: int)

  /** `statements.map((text, index) => ({ text, originalIndex: index }))`. */
  function Labelled(statements: seq<string>): (r: seq<ShuffledStatement>)
    ensures |r| == |statements|
    ensures forall i :: 0 <= i < |r| ==> r[i] == ShuffledStatement(statements[i], i)
  {
    seq(|statements|, i requires 0 <= i < |statements| => ShuffledStatement(statements[i], i))
  }

  /** `shuffled` is some reordering of the labelled statements. */
  ghost predicate IsShuffleOf(shuffled: seq<ShuffledStatement>, statements: seq<string>) {
    multiset(shuffled) == multiset(Labelled(statements))
  }

  /** The card texts, in card order. */
  function Texts(cards: seq<ShuffledStatement>): (r: seq<string>)
    ensures |r| == |cards|
    ensures forall i :: 0 <= i < |cards| ==> r[i] == cards[i].text
  {
    seq(|cards|, i requires 0 <= i < |cards| => cards[i].text)
  }

  /** The statement revealed as the truth: `statements[correctIndex]`, absent when out of range. */
  function CorrectStatement(statements: seq<string>, correctIndex: int): (r: Option<string>)
    ensures r.Some? <==> 0 <= correctIndex < |statements|
    ensures r.Some? ==> r.value == statements[correctIndex]
  {
    if 0 <= correctIndex < |statements| then Some(statements[correctIndex]) else None
  }

  /** Each labelled entry occurs once, and only entries that match their slot occur at all. */
  lemma {:induction false} LabelledCount(statements: seq<string>, e: ShuffledStatement)
    ensures multiset(Labelled(statements))[e] ==
      if 0 <= e.originalIndex < |statements| && statements[e.originalIndex] == e.text then 1 else 0
    decreases |statements|
  {
    if statements != [] {
      var n := |statements| - 1;
      var front := statements[..n];
      assert Labelled(statements) == Labelled(front) + [ShuffledStatement(statements[n], n)];
      LabelledCount(front, e);
    }
  }

  /** Every card shows the statement of the slot it claims, and there is one card per slot. */
  lemma ShuffleEntries(shuffled: seq<ShuffledStatement>, statements: seq<string>)
    requires IsShuffleOf(shuffled, statements)
    ensures |shuffled| == |statements|
    ensures forall i :: 0 <= i < |shuffled| ==>
      0 <= shuffled[i].originalIndex < |statements| && shuffled[i].text == statements[shuffled[i].originalIndex]
  {
    assert |multiset(shuffled)| == |multiset(Labelled(statements))|;
    forall i | 0 <= i < |shuffled|
      ensures 0 <= shuffled[i].originalIndex < |statements|
      ensures shuffled[i].text == statements[shuffled[i].originalIndex]
    {
      assert shuffled[i] in multiset(Labelled(statements));
      LabelledCount(statements, shuffled[i]);
    }
  }

  /** No two cards come from the same slot. */
  lemma ShuffleDistinct(shuffled: seq<ShuffledStatement>, statements: seq<string>)
    requires IsShuffleOf(shuffled, statements)
    ensures forall i, j :: 0 <= i < j < |shuffled| ==> shuffled[i].originalIndex != shuffled[j].originalIndex
  {
    ShuffleEntries(shuffled, statements);
    forall i, j | 0 <= i < j < |shuffled|
      ensures shuffled[i].originalIndex != shuffled[j].originalIndex
    {
      if shuffled[i].originalIndex == shuffled[j].originalIndex {
        var e := shuffled[i];
        assert shuffled[j] == e;
        assert shuffled == shuffled[..j] + shuffled[j..];
        assert e in shuffled[..j] && e in shuffled[j..];
        assert multiset(shuffled)[e] >= 2;
        LabelledCount(statements, e);
        assert false;
      }
    }
  }

  /** Every slot is on some card. */
  lemma ShuffleCovers(shuffled: seq<ShuffledStatement>, statements: seq<string>, k: int)
    requires IsShuffleOf(shuffled, statements)
    requires 0 <= k < |statements|
    ensures exists i :: 0 <= i < |shuffled| && shuffled[i].originalIndex == k
  {
    var e := Labelled(statements)[k];
    assert e in multiset(shuffled);
    var i :| 0 <= i < |shuffled| && shuffled[i] == e;
  }

  /** Taking card `k` out of `b` takes one copy of it, and one copy of its text, out of the multisets. */
  lemma RemoveCard(b: seq<ShuffledStatement>, k: int)
    requires 0 <= k < |b|
    ensures multiset(b[..k] + b[k + 1..]) == multiset(b) - multiset{b[k]}
    ensures multiset(Texts(b)) == multiset(Texts(b[..k] + b[k + 1..])) + multiset{b[k].text}
  {
    assert b == b[..k] + [b[k]] + b[k + 1..];
    assert Texts(b) == Texts(b[..k]) + [b[k].text] + Texts(b[k + 1..]);
    assert Texts(b[..k] + b[k + 1..]) == Texts(b[..k]) + Texts(b[k + 1..]);
  }

  lemma TextsCons(x: ShuffledStatement, tail: seq<ShuffledStatement>)
    ensures Texts([x] + tail) == [x.text] + Texts(tail)
  {
  }

  /** Two equal multisets stay equal after one copy of the same card leaves each. */
  lemma CancelHead(a: seq<ShuffledStatement>, b: seq<ShuffledStatement>, x: ShuffledStatement,
                   tail: seq<ShuffledStatement>, rest: seq<ShuffledStatement>)
    requires a == [x] + tail
    requires multiset(a) == multiset(b)
    requires multiset(rest) == multiset(b) - multiset{x}
    ensures multiset(tail) == multiset(rest)
  {
  }

  /** Reordering cards reorders their texts. */
  lemma {:induction false} TextsOfReordering(a: seq<ShuffledStatement>, b: seq<ShuffledStatement>)
    requires multiset(a) == multiset(b)
    ensures multiset(Texts(a)) == multiset(Texts(b))
    decreases |a|
  {
    if a == [] {
      assert |multiset(b)| == 0;
      assert b == [];
    } else {
      var x := a[0];
      assert x in multiset(b);
      var k :| 0 <= k < |b| && b[k] == x;
      var rest, tail := b[..k] + b[k + 1..], a[1..];
      RemoveCard(b, k);
      assert a == [x] + tail;
      CancelHead(a, b, x, tail, rest);
      TextsOfReordering(tail, rest);
      TextsCons(x, tail);
    }
  }

  /** The shuffled cards carry exactly the round's statements, each as often as it occurs. */
  lemma ShuffleIsPermutation(shuffled: seq<ShuffledStatement>, statements: seq<string>)
    requires IsShuffleOf(shuffled, statements)
    ensures multiset(Texts(shuffled)) == multiset(statements)
  {
    TextsOfReordering(shuffled, Labelled(statements));
    assert Texts(Labelled(statements)) == statements;
  }

  /**
   * When the truth's slot is in range, exactly one card holds it, and that
   * card shows the statement revealed as the truth.
   */
  lemma TruthCardUnique(shuffled: seq<ShuffledStatement>, statements: seq<string>, correctIndex: int)
    requires IsShuffleOf(shuffled, statements)
    requires 0 <= correctIndex < |statements|
    ensures exists i :: 0 <= i < |shuffled| && shuffled[i].originalIndex == correctIndex
    ensures forall i, j ::
      (0 <= i < |shuffled| && 0 <= j < |shuffled| &&
       shuffled[i].originalIndex == correctIndex && shuffled[j].originalIndex == correctIndex) ==> i == j
    ensures forall i :: 0 <= i < |shuffled| && shuffled[i].originalIndex == correctIndex ==>
      CorrectStatement(statements, correctIndex) == Some(shuffled[i].text)
  {
    ShuffleCovers(shuffled, statements, correctIndex);
    ShuffleDistinct(shuffled, statements);
    ShuffleEntries(shuffled, statements);
  }

  /** How a card is drawn: the part of `getCardClassName` that depends on the state. */
  datatype CardStyle =
    | Open          // nothing picked yet
    | PickedRight   // the picked card, and it was the truth
    | PickedWrong   // the picked card, and it was a lie
    | ShownTruth    // not picked, but it holds the truth
    | Dimmed        // not picked, a lie

  /** The round view: its props and its React state. */
  class GameRoundView {
    var roundNumber: int
    var statements: seq<string>
    var correctIndex: int

    var shuffled: seq<ShuffledStatement>
    var selectedIndex: Option<int>
    var showFeedback: bool
    var isCorrect: bool
    /** How many times `onScoreUpdate` has been called in this round. */
    ghost var scoreUpdates: nat

    ghost predicate Valid()
      reads this
    {
      && IsShuffleOf(shuffled, statements)
      && (selectedIndex.None? ==> !showFeedback && !isCorrect && scoreUpdates == 0)
      && (selectedIndex.Some? ==>
            && 0 <= selectedIndex.value < |shuffled|
            && showFeedback
            && isCorrect == (shuffled[selectedIndex.value].originalIndex == correctIndex)
            && scoreUpdates == 1)
    }

    /** Mounting: the props arrive and the shuffle effect runs once. */
    constructor (roundNumber: int, statements: seq<string>, correctIndex: int, shuffled: seq<ShuffledStatement>)
      requires IsShuffleOf(shuffled, statements)
      ensures Valid()
      ensures this.roundNumber == roundNumber && this.statements == statements && this.correctIndex == correctIndex
      ensures this.shuffled == shuffled && selectedIndex == None && !showFeedback && !isCorrect
    {
      this.roundNumber := roundNumber;
      this.statements := statements;
      this.correctIndex := correctIndex;
      this.shuffled := shuffled;
      selectedIndex := None;
      showFeedback := false;
      isCorrect := false;
      scoreUpdates := 0;
    }

    /**
     * A new round is shown (the round number or the statements change): the
     * effect installs a fresh shuffle and forgets the previous pick.
     */
    method StartRound(roundNumber: int, statements: seq<string>, correctIndex: int, shuffled: seq<ShuffledStatement>)
      requires IsShuffleOf(shuffled, statements)
      modifies this
      ensures Valid()
      ensures this.roundNumber == roundNumber && this.statements == statements && this.correctIndex == correctIndex
      ensures this.shuffled == shuffled && selectedIndex == None && !showFeedback && !isCorrect
    {
      this.roundNumber := roundNumber;
      this.statements := statements;
      this.correctIndex := correctIndex;
      this.shuffled := shuffled;
      selectedIndex := None;
      showFeedback := false;
      isCorrect := false;
      scoreUpdates := 0;
    }

    /**
     * A click on card `i`. Once a card has been picked every further click is
     * ignored and no score is reported; the first click records the pick,
     * whether its slot is the truth's, shows the feedback and reports that
     * same result through `onScoreUpdate` (`reported`).
     */
    method HandleCardClick(i: int) returns (reported: Option<bool>)
      requires Valid()
      requires 0 <= i < |shuffled|
      modifies this
      ensures Valid()
      ensures roundNumber == old(roundNumber) && statements == old(statements)
      ensures correctIndex == old(correctIndex) && shuffled == old(shuffled)
      ensures old(selectedIndex).Some? ==>
        && reported == None
        && selectedIndex == old(selectedIndex) && showFeedback == old(showFeedback)
        && isCorrect == old(isCorrect) && scoreUpdates == old(scoreUpdates)
      ensures old(selectedIndex).None? ==>
        && selectedIndex == Some(i) && showFeedback
        && isCorrect == (shuffled[i].originalIndex == correctIndex)
        && reported == Some(isCorrect)
        && scoreUpdates == old(scoreUpdates) + 1
      ensures scoreUpdates <= 1
    {
      if selectedIndex != None {
        return None;
      }
      var wasCorrect := shuffled[i].originalIndex == correctIndex;
      selectedIndex := Some(i);
      isCorrect := wasCorrect;
      showFeedback := true;
      reported := Some(wasCorrect);
      scoreUpdates := scoreUpdates + 1;
    }

    /**
     * The style of card `i`. After a pick, a card is drawn as the truth
     * (picked or not) exactly when it comes from the slot `correctIndex`.
     */
    function CardStyleOf(i: int): (s: CardStyle)
      reads this
      requires Valid()
      requires 0 <= i < |shuffled|
      ensures selectedIndex.None? <==> s == Open
      ensures selectedIndex.Some? ==>
        ((s == PickedRight || s == ShownTruth) <==> shuffled[i].originalIndex == correctIndex)
      ensures (s == PickedRight || s == PickedWrong) <==> selectedIndex == Some(i)
    {
      if selectedIndex.None? then Open
      else if selectedIndex.value == i then (if isCorrect then PickedRight else PickedWrong)
      else if shuffled[i].originalIndex == correctIndex then ShownTruth
      else Dimmed
    }
  }
}
