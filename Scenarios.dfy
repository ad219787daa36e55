/**
 * Sessions driven through whole question sequences using only the
 * contracts of `Quiz.Session`, for the worked examples of the quiz: a
 * four-opening set played to the end, a first-try answer, a set too
 * small for four choices, and the reveal timer.
 */
module Scenarios {

  import opened Wrappers
  import opened Shuffle
  import opened OpeningsData
  import opened Quiz

  /** The shuffle results the examples use are valid draws. */
  lemma FourDraws()
    ensures IsPermutation([0, 1, 2, 3], 4)
    ensures ValidDraw(4, 0, QuestionDraw([1, 2, 3], [0, 1, 2, 3]))
  {
  }

  lemma RoundDraws()
    ensures ValidDraw(4, 1, QuestionDraw([0, 2, 3], [3, 2, 1, 0]))
    ensures ValidDraw(4, 2, QuestionDraw([3, 1, 0], [1, 0, 2, 3]))
    ensures ValidDraw(4, 3, QuestionDraw([2, 0, 1], [0, 1, 2, 3]))
  {
  }

  lemma SmallDraws()
    ensures IsPermutation([2, 0, 1], 3) && ValidDraw(3, 2, QuestionDraw([0, 1], [1, 2, 0]))
    ensures IsPermutation([0], 1) && ValidDraw(1, 0, QuestionDraw([], [0]))
  {
  }

  /** Moving on from a locked question and answering the next one at
      once: one more question, one more point, one index fewer queued. */
  method NextAnsweredAtOnce(q: Session, d: QuestionDraw)
    requires q.Valid() && q.locked && q.order != [] && ValidDraw(|q.openings|, q.order[0], d)
    modifies q
    ensures q.Valid() && q.locked && !q.showFinal
    ensures q.score == old(q.score) + 1 && q.qCount == old(q.qCount) + 1
    ensures q.openings == old(q.openings) && q.order == old(q.order)[1..]
    ensures q.current == Some(q.openings[old(q.order)[0]])
  {
    q.NextQuestion(d);
    q.Answer(q.current.value.name);
  }

  /** A full round over the set `[a, b, c, e]` asked in that order: a wrong
      guess (`b`) on the first question costs its point, the three others
      are answered at once, and the exhausted queue raises the final
      dialog. */
  method FullRound(a: Opening, b: Opening, c: Opening, e: Opening) returns (score: int, qCount: int, showFinal: bool)
    requires a.name != b.name
    ensures score == 3 && qCount == 4 && showFinal
  {
    FourDraws();
    var q := new Session([a, b, c, e]);
    var perm: seq<nat> := [0, 1, 2, 3];
    var d := QuestionDraw([1, 2, 3], [0, 1, 2, 3]);
    assert IsPermutation(perm, |q.openings|) && ValidDraw(|q.openings|, perm[0], d);
    q.StartRound(false, perm, d);
    assert q.current == Some(a) && q.order == [1, 2, 3] && q.qCount == 1;

    q.Answer(b.name);
    assert !q.locked && q.score == 0;
    q.Answer(a.name);
    assert q.locked && q.score == 0 && q.qCount == 1;

    RoundDraws();
    NextAnsweredAtOnce(q, QuestionDraw([0, 2, 3], [3, 2, 1, 0]));
    assert q.current == Some(b) && q.order == [2, 3];
    NextAnsweredAtOnce(q, QuestionDraw([3, 1, 0], [1, 0, 2, 3]));
    assert q.current == Some(c) && q.order == [3];
    NextAnsweredAtOnce(q, QuestionDraw([2, 0, 1], [0, 1, 2, 3]));
    assert q.current == Some(e) && q.order == [];

    q.NextQuestion(d);
    score, qCount, showFinal := q.score, q.qCount, q.showFinal;
  }

  /** The first target answered at once: one point. */
  method FirstTry(a: Opening, b: Opening, c: Opening, e: Opening) returns (score: int, qCount: int)
    ensures score == 1 && qCount == 1
  {
    FourDraws();
    var q := new Session([a, b, c, e]);
    var perm: seq<nat> := [0, 1, 2, 3];
    var d := QuestionDraw([1, 2, 3], [0, 1, 2, 3]);
    assert IsPermutation(perm, |q.openings|) && ValidDraw(|q.openings|, perm[0], d);
    q.StartRound(false, perm, d);
    assert q.current == Some(a);
    q.Answer(a.name);
    score, qCount := q.score, q.qCount;
  }

  /** A set of three openings raises no error: the question starts with
      three choices, and the cursor starts at 1. */
  method SmallSet(a: Opening, b: Opening, c: Opening) returns (choices: int, qCount: int, moveIdx: int)
    ensures choices == 3 && qCount == 1 && moveIdx == 1
  {
    SmallDraws();
    var q := new Session([a, b, c]);
    var perm: seq<nat> := [2, 0, 1];
    var d := QuestionDraw([0, 1], [1, 2, 0]);
    assert IsPermutation(perm, |q.openings|) && ValidDraw(|q.openings|, perm[0], d);
    q.StartRound(false, perm, d);
    choices, qCount, moveIdx := |q.choices|, q.qCount, q.moveIdx;
  }

  /** Ticks on an opening with three moves reveal one move per tick and
      stop once the question is locked; an opening without moves keeps its
      cursor at 1 and shows no move. */
  method Reveal(a: Opening, b: Opening, c: Opening, e: Opening) returns (revealed: int, afterLock: int, emptyCursor: int, emptyShown: int)
    requires |a.moves| == 3 && e.moves == []
    ensures revealed == 2 && afterLock == 2 && emptyCursor == 1 && emptyShown == 0
  {
    FourDraws();
    var q := new Session([a, b, c, e]);
    var perm: seq<nat> := [0, 1, 2, 3];
    var d := QuestionDraw([1, 2, 3], [0, 1, 2, 3]);
    assert IsPermutation(perm, |q.openings|) && ValidDraw(|q.openings|, perm[0], d);
    q.StartRound(false, perm, d);
    assert q.current == Some(a) && q.moveIdx == 1;
    q.Tick();
    revealed := q.moveIdx;
    q.Answer(a.name);
    q.Tick();
    afterLock := q.moveIdx;

    SmallDraws();
    q.SwitchSet([e]);
    perm := [0];
    d := QuestionDraw([], [0]);
    assert IsPermutation(perm, |q.openings|) && ValidDraw(|q.openings|, perm[0], d);
    q.StartRound(false, perm, d);
    q.Tick();
    emptyCursor := q.moveIdx;
    emptyShown := |q.ShownMoves()|;
  }
}
