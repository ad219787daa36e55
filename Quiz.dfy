/**
 * The quiz session engine of the OpeningQuiz component: a round queue of
 * opening indices, the question being asked, its choices, the reveal
 * cursor, the wrong guesses, and the score and question counters.
 *
 * Each handler of the component is a method of `Session`. Its effect on
 * the whole state is given by a function on `Snapshot` values (the state
 * read as one value), and the invariant `Inv` is proved to be kept by
 * each of those functions. The random draws of the component (the
 * shuffled round order, the sampled distractors and the order of the
 * choices) are inputs.
 */
module Quiz {

  import opened Wrappers
  import opened Shuffle
  import opened OpeningsData

  /** The feedback shown after an answer. */
  datatype Verdict = Correct | Wrong

  /** The random draws made when a question is prepared: the distractor
      indices (the first entries of a shuffled pool that leaves out the
      target) and the order in which the candidates are shown. */
  datatype QuestionDraw = QuestionDraw(distractors: seq<nat>, layout: seq<nat>)

  function Min(a: int, b: int): int { if a <= b then a else b }

  function Max(a: int, b: int): int { if a <= b then b else a }

  /** What the shuffles can produce for target `idx` in a set of `n`:
      up to three distinct other indices, and an ordering of the target
      together with them. */
  predicate ValidDraw(n: nat, idx: nat, d: QuestionDraw) {
    && idx < n
    && |d.distractors| == Min(3, n - 1)
    && Distinct(d.distractors)
    && (forall i :: 0 <= i < |d.distractors| ==> d.distractors[i] < n && d.distractors[i] != idx)
    && IsPermutation(d.layout, |d.distractors| + 1)
  }

  /** The target's name followed by the distractors' names. */
  function Candidates(openings: seq<Opening>, idx: nat, distractors: seq<nat>): seq<string>
    requires idx < |openings|
    requires forall i :: 0 <= i < |distractors| ==> distractors[i] < |openings|
  {
    [openings[idx].name] + seq(|distractors|, i requires 0 <= i < |distractors| => openings[distractors[i]].name)
  }

  /** The choices offered for target `idx`: the target's name and one name
      per distractor, in the drawn order. A set with fewer than four
      openings simply gives fewer choices. */
  function BuildChoices(openings: seq<Opening>, idx: nat, d: QuestionDraw): (r: seq<string>)
    requires ValidDraw(|openings|, idx, d)
    ensures |r| == 1 + Min(3, |openings| - 1)
    ensures multiset(r) == multiset(Candidates(openings, idx, d.distractors))
    ensures openings[idx].name in r
  {
    var c := Candidates(openings, idx, d.distractors);
    ReindexIsPermutation(c, d.layout);
    assert c[0] in multiset(c);
    Reindex(c, d.layout)
  }

  /** When the names of the set are unique, so are the choices. */
  lemma ChoicesDistinct(openings: seq<Opening>, idx: nat, d: QuestionDraw)
    requires ValidDraw(|openings|, idx, d)
    requires UniqueNames(openings)
    ensures Distinct(BuildChoices(openings, idx, d))
  {
    var c := Candidates(openings, idx, d.distractors);
    var ix := [idx] + d.distractors;
    assert forall i :: 0 <= i < |c| ==> c[i] == openings[ix[i]].name;
    assert Distinct(ix);
    ReindexDistinct(c, d.layout);
  }

  /** For every registered set the quiz offers four choices, no two alike. */
  lemma RegisteredSetChoices(setName: string, idx: nat, d: QuestionDraw)
    requires setName in Sets
    requires ValidDraw(|Registered(setName)|, idx, d)
    ensures |BuildChoices(Registered(setName), idx, d)| == 4
    ensures Distinct(BuildChoices(Registered(setName), idx, d))
  {
    RegisteredSetsWellFormed(setName);
    ChoicesDistinct(Registered(setName), idx, d);
  }

  /** The whole session state as one value. `asked` (the indices started in
      this round, in order) and `round` (the permutation the round was
      started with) are bookkeeping of the model, not of the component. */
  datatype Snapshot = Snapshot(
    openings: seq<Opening>,
    score: int,
    qCount: int,
    current: Option<Opening>,
    choices: seq<string>,
    moveIdx: int,
    locked: bool,
    result: Option<Verdict>,
    wrong: set<string>,
    showNext: bool,
    order: seq<nat>,
    showFinal: bool,
    asked: seq<nat>,
    round: seq<nat>)

  /** The state right after mounting, and after every switch of set. */
  function Initial(data: seq<Opening>): Snapshot {
    Snapshot(data, 0, 0, None, [], 0, false, None, {}, false, [], false, [], [])
  }

  /** Starting the question for index `idx` with queue `rest` left. */
  function QuestionStarted(s: Snapshot, idx: nat, rest: seq<nat>, d: QuestionDraw): (t: Snapshot)
    requires ValidDraw(|s.openings|, idx, d)
    ensures t.qCount == s.qCount + 1
    ensures t.current == Some(s.openings[idx]) && t.order == rest && t.asked == s.asked + [idx]
  {
    s.(order := rest,
       current := Some(s.openings[idx]),
       choices := BuildChoices(s.openings, idx, d),
       locked := false,
       result := None,
       qCount := s.qCount + 1,
       wrong := {},
       showNext := false,
       moveIdx := 1,
       asked := s.asked + [idx])
  }

  /** Preparing a question from an index that may be missing: nothing
      happens without data or without an index. */
  function Prepared(s: Snapshot, idx: Option<nat>, rest: seq<nat>, d: QuestionDraw): Snapshot
    requires idx.Some? && |s.openings| > 0 ==> ValidDraw(|s.openings|, idx.value, d)
  {
    if |s.openings| == 0 || idx.None? then s else QuestionStarted(s, idx.value, rest, d)
  }

  /** Starting a round from the shuffled indices `perm`: counters back to
      zero, then the first question from the head of `perm`. */
  function RoundStarted(s: Snapshot, perm: seq<nat>, d: QuestionDraw): (t: Snapshot)
    requires |s.openings| > 0 && IsPermutation(perm, |s.openings|)
    requires ValidDraw(|s.openings|, perm[0], d)
    ensures t.score == 0 && t.qCount == 1 && !t.showFinal
    ensures t.current == Some(s.openings[perm[0]])
    ensures t.asked + t.order == perm
  {
    var t := Prepared(s.(score := 0, qCount := 0, showFinal := false, asked := [], round := perm),
                      Some(perm[0]), perm[1..], d);
    assert [perm[0]] + perm[1..] == perm;
    t
  }

  /** The round-start effect: nothing while loading or without data. */
  function Started(s: Snapshot, loading: bool, perm: seq<nat>, d: QuestionDraw): Snapshot
    requires IsPermutation(perm, |s.openings|)
    requires |perm| > 0 ==> ValidDraw(|s.openings|, perm[0], d)
  {
    if loading || |s.openings| == 0 then s else RoundStarted(s, perm, d)
  }

  /** The OK button of the final-score dialog: without data it only closes
      the dialog, otherwise it starts a new round. */
  function Restarted(s: Snapshot, perm: seq<nat>, d: QuestionDraw): Snapshot
    requires IsPermutation(perm, |s.openings|)
    requires |perm| > 0 ==> ValidDraw(|s.openings|, perm[0], d)
  {
    if |s.openings| == 0 then s.(showFinal := false) else RoundStarted(s, perm, d)
  }

  /** The Next button: the head of the queue becomes the next question, or
      an exhausted queue raises the final-score dialog. */
  function Advanced(s: Snapshot, d: QuestionDraw): Snapshot
    requires |s.openings| > 0 && s.order != [] ==> ValidDraw(|s.openings|, s.order[0], d)
  {
    if |s.openings| == 0 then s
    else if s.order == [] then s.(showFinal := true)
    else Prepared(s, Some(s.order[0]), s.order[1..], d)
  }

  /** Clicking the choice `name`. */
  function Answered(s: Snapshot, name: string): Snapshot {
    if s.current.None? || s.locked then s
    else if name == s.current.value.name then
      s.(result := Some(Correct),
         score := if s.wrong == {} then s.score + 1 else s.score,
         locked := true,
         showNext := true)
    else
      s.(result := Some(Wrong), wrong := s.wrong + {name})
  }

  /** The guard under which the reveal timer is scheduled. */
  predicate TickArmed(s: Snapshot) {
    && s.current.Some?
    && !s.locked
    && |s.current.value.moves| > 0
    && s.moveIdx < |s.current.value.moves|
  }

  /** One expiry of the reveal timer. */
  function Ticked(s: Snapshot): Snapshot {
    if TickArmed(s) then s.(moveIdx := Min(|s.current.value.moves|, s.moveIdx + 1)) else s
  }

  /** The state of a question while it is being asked. */
  ghost predicate Asking(s: Snapshot)
    requires s.asked != []
  {
    var idx := s.asked[|s.asked| - 1];
    && idx < |s.openings|
    && s.current == Some(s.openings[idx])
    && s.current.value.name !in s.wrong
    && |s.choices| == 1 + Min(3, |s.openings| - 1)
    && s.current.value.name in s.choices
    && 1 <= s.moveIdx <= Max(1, |s.current.value.moves|)
  }

  /** The round is over: every index of the set was asked, once each. */
  ghost predicate RoundDone(s: Snapshot) {
    && s.order == []
    && s.qCount == |s.openings|
    && forall k :: 0 <= k < |s.openings| ==> k in s.asked
  }

  /** The session invariant. */
  ghost predicate Inv(s: Snapshot) {
    && 0 <= s.score
    && s.score + (if s.current.Some? && !s.locked then 1 else 0) <= s.qCount
    && s.qCount == |s.asked|
    && s.round == s.asked + s.order
    && (s.round != [] ==> IsPermutation(s.round, |s.openings|))
    && Distinct(s.asked)
    && (s.current.Some? <==> s.asked != [])
    && (s.current.None? ==>
          s.round == [] && s.moveIdx == 0 && !s.locked && s.result.None? && s.wrong == {} && s.choices == [])
    && (s.current.Some? ==> Asking(s))
    && (s.locked <==> s.result == Some(Correct))
    && s.showNext == s.locked
    && (s.showFinal ==> s.current.Some? && RoundDone(s))
  }

  lemma InitialInv(data: seq<Opening>)
    ensures Inv(Initial(data))
  {
  }

  /** The elements of a prefix of a sequence without repeats are distinct too. */
  lemma PrefixDistinct(a: seq<nat>, b: seq<nat>)
    requires Distinct(a + b)
    ensures Distinct(a)
  {
    forall i, j | 0 <= i < j < |a| ensures a[i] != a[j] {
      assert a[i] == (a + b)[i] && a[j] == (a + b)[j];
    }
  }

  /** A freshly started question satisfies the per-question invariant. */
  lemma QuestionStartedAsking(s: Snapshot, idx: nat, rest: seq<nat>, d: QuestionDraw)
    requires ValidDraw(|s.openings|, idx, d)
    ensures QuestionStarted(s, idx, rest, d).asked != []
    ensures Asking(QuestionStarted(s, idx, rest, d))
    ensures var t := QuestionStarted(s, idx, rest, d);
              t.moveIdx == 1 && t.wrong == {} && !t.locked && t.result.None? && !t.showNext
  {
  }

  lemma {:induction false} StartedInv(s: Snapshot, loading: bool, perm: seq<nat>, d: QuestionDraw)
    requires Inv(s)
    requires IsPermutation(perm, |s.openings|)
    requires |perm| > 0 ==> ValidDraw(|s.openings|, perm[0], d)
    ensures Inv(Started(s, loading, perm, d))
  {
    if !loading && |s.openings| > 0 {
      RoundStartedInv(s, perm, d);
    }
  }

  lemma {:induction false} RoundStartedInv(s: Snapshot, perm: seq<nat>, d: QuestionDraw)
    requires |s.openings| > 0 && IsPermutation(perm, |s.openings|)
    requires ValidDraw(|s.openings|, perm[0], d)
    ensures Inv(RoundStarted(s, perm, d))
  {
    var s' := s.(score := 0, qCount := 0, showFinal := false, asked := [], round := perm);
    QuestionStartedAsking(s', perm[0], perm[1..], d);
    var t := RoundStarted(s, perm, d);
    assert t == QuestionStarted(s', perm[0], perm[1..], d);
    assert t.asked == [perm[0]];
  }

  lemma RestartedInv(s: Snapshot, perm: seq<nat>, d: QuestionDraw)
    requires Inv(s)
    requires IsPermutation(perm, |s.openings|)
    requires |perm| > 0 ==> ValidDraw(|s.openings|, perm[0], d)
    ensures Inv(Restarted(s, perm, d))
  {
    if |s.openings| > 0 {
      RoundStartedInv(s, perm, d);
    }
  }

  /** Advancing from a question keeps the invariant; when the queue is
      exhausted it is the coverage of the round's permutation that makes the
      round complete. */
  lemma {:induction false} AdvancedInv(s: Snapshot, d: QuestionDraw)
    requires Inv(s)
    requires s.current.Some?
    requires |s.openings| > 0 && s.order != [] ==> ValidDraw(|s.openings|, s.order[0], d)
    ensures Inv(Advanced(s, d))
  {
    if |s.openings| > 0 {
      if s.order == [] {
        assert s.round == s.asked;
        PermutationCovers(s.round, |s.openings|);
      } else {
        var t := QuestionStarted(s, s.order[0], s.order[1..], d);
        QuestionStartedAsking(s, s.order[0], s.order[1..], d);
        assert s.order == [s.order[0]] + s.order[1..];
        assert t.asked + t.order == s.round;
        PrefixDistinct(t.asked, t.order);
      }
    }
  }

  lemma AnsweredInv(s: Snapshot, name: string)
    requires Inv(s)
    ensures Inv(Answered(s, name))
  {
  }

  lemma TickedInv(s: Snapshot)
    requires Inv(s)
    ensures Inv(Ticked(s))
  {
  }

  /** Under the invariant every index is asked at most once in a round, and
      when the final dialog is up every index has been asked exactly once. */
  lemma EachIndexAskedOnce(s: Snapshot)
    requires Inv(s)
    ensures Distinct(s.asked)
    ensures forall i :: 0 <= i < |s.asked| ==> s.asked[i] < |s.openings|
    ensures s.showFinal ==>
              |s.asked| == |s.openings| == s.qCount
              && forall k :: 0 <= k < |s.openings| ==> k in s.asked
  {
    if s.asked != [] {
      forall i | 0 <= i < |s.asked| ensures s.asked[i] < |s.openings| {
        assert s.asked[i] == s.round[i];
      }
    }
  }

  /** A locked question ignores every further answer. */
  lemma LockedIgnoresAnswers(s: Snapshot, name: string)
    requires s.locked
    ensures Answered(s, name) == s
  {
  }

  /** A correct first guess earns a point and locks the question. */
  lemma FirstTryScores(s: Snapshot)
    requires Inv(s) && s.current.Some? && !s.locked && s.wrong == {}
    ensures var t := Answered(s, s.current.value.name);
      t.score == s.score + 1 && t.locked && t.showNext && t.qCount == s.qCount
  {
  }

  /** A correct guess after a wrong one locks the question but earns
      nothing. */
  lemma RetryEarnsNothing(s: Snapshot, miss: string)
    requires Inv(s) && s.current.Some? && !s.locked
    requires miss != s.current.value.name
    ensures var t := Answered(Answered(s, miss), s.current.value.name);
      t.score == s.score && t.locked && t.wrong == s.wrong + {miss} && t.qCount == s.qCount
  {
  }

  /** The score rises only on a correct answer to an unlocked question
      nobody has guessed wrong yet, and then by exactly one. */
  lemma PointOnlyOnFirstTry(s: Snapshot, name: string)
    requires Inv(s)
    ensures var t := Answered(s, name);
      && s.score <= t.score <= s.score + 1
      && (t.score == s.score + 1 <==>
            s.current.Some? && !s.locked && s.wrong == {} && name == s.current.value.name)
  {
  }

  /** A wrong answer only records the name: no lock, no point, and the
      record never contains the target's name. */
  lemma WrongAnswerRecorded(s: Snapshot, name: string)
    requires Inv(s) && s.current.Some? && !s.locked && name != s.current.value.name
    ensures var t := Answered(s, name);
      && t.wrong == s.wrong + {name}
      && !t.locked && t.score == s.score && t.result == Some(Wrong)
      && s.current.value.name !in t.wrong
  {
  }

  /** The reveal cursor never moves back, moves only while the timer is
      armed, and a tick never takes it past the move count. */
  lemma TickMonotone(s: Snapshot)
    requires Inv(s)
    ensures s.moveIdx <= Ticked(s).moveIdx
    ensures Ticked(s).moveIdx != s.moveIdx ==> TickArmed(s) && Ticked(s).moveIdx == s.moveIdx + 1
    ensures TickArmed(s) ==> Ticked(s).moveIdx <= |s.current.value.moves|
  {
  }

  /** The session of one quiz view. Each method is the imperative twin of a
      transition function on `Snapshot` (`Answer` of `Answered`, `Tick` of
      `Ticked`, `PrepareFromIndex` of `Prepared`, ...): it updates the fields
      in place and its `ensures` ties the new `State()` to that function. */
  class Session {
    var openings: seq<Opening>
    var score: int
    var qCount: int
    var current: Option<Opening>
    var choices: seq<string>
    var moveIdx: int
    var locked: bool
    var result: Option<Verdict>
    var wrong: set<string>
    var showNext: bool
    var order: seq<nat>
    var showFinal: bool
    ghost var asked: seq<nat>
    ghost var round: seq<nat>

    ghost function State(): Snapshot
      reads this
    {
      Snapshot(openings, score, qCount, current, choices, moveIdx, locked, result,
               wrong, showNext, order, showFinal, asked, round)
    }

    ghost predicate Valid()
      reads this
    {
      Inv(State())
    }

    /** Mounting the view with the set data `data`. */
    constructor (data: seq<Opening>)
      ensures Valid() && State() == Initial(data)
    {
      openings := data;
      score, qCount := 0, 0;
      current, choices := None, [];
      moveIdx, locked := 0, false;
      result := None;
      wrong, showNext := {}, false;
      order, showFinal := [], false;
      asked, round := [], [];
      InitialInv(data);
    }

    /** Switching to another set: every session field is reset, and the
        data of the new set, `data`, becomes the session's data. */
    method SwitchSet(data: seq<Opening>)
      modifies this
      ensures Valid() && State() == Initial(data)
    {
      openings := data;
      score, qCount := 0, 0;
      current, choices := None, [];
      moveIdx, locked := 0, false;
      result := None;
      wrong, showNext := {}, false;
      order, showFinal := [], false;
      asked, round := [], [];
      assert State() == Initial(data);
      InitialInv(data);
    }

    /** Prepares the question for `idx` with `nextOrder` left in the queue. */
    method PrepareFromIndex(idx: Option<nat>, nextOrder: seq<nat>, d: QuestionDraw)
      requires idx.Some? && |openings| > 0 ==> ValidDraw(|openings|, idx.value, d)
      modifies this
      ensures State() == Prepared(old(State()), idx, nextOrder, d)
    {
      if |openings| == 0 || idx.None? {
        return;
      }
      var i := idx.value;
      order := nextOrder;
      current := Some(openings[i]);
      choices := BuildChoices(openings, i, d);
      locked := false;
      result := None;
      qCount := qCount + 1;
      wrong := {};
      showNext := false;
      moveIdx := 1;
      asked := asked + [i];
    }

    /** The part shared by the round-start effect and the OK button. */
    method BeginRound(perm: seq<nat>, d: QuestionDraw)
      requires |openings| > 0 && IsPermutation(perm, |openings|)
      requires ValidDraw(|openings|, perm[0], d)
      modifies this
      ensures State() == RoundStarted(old(State()), perm, d)
    {
      score, qCount, showFinal := 0, 0, false;
      asked, round := [], perm;
      PrepareFromIndex(Some(perm[0]), perm[1..], d);
    }

    /** The round-start effect, run when the data is ready. */
    method StartRound(loading: bool, perm: seq<nat>, d: QuestionDraw)
      requires Valid()
      requires IsPermutation(perm, |openings|)
      requires |perm| > 0 ==> ValidDraw(|openings|, perm[0], d)
      modifies this
      ensures Valid() && State() == Started(old(State()), loading, perm, d)
    {
      StartedInv(State(), loading, perm, d);
      if loading || |openings| == 0 {
        return;
      }
      BeginRound(perm, d);
    }

    /** The OK button of the final-score dialog. */
    method Restart(perm: seq<nat>, d: QuestionDraw)
      requires Valid()
      requires IsPermutation(perm, |openings|)
      requires |perm| > 0 ==> ValidDraw(|openings|, perm[0], d)
      modifies this
      ensures Valid() && State() == Restarted(old(State()), perm, d)
    {
      RestartedInv(State(), perm, d);
      if |openings| == 0 {
        showFinal := false;
        return;
      }
      BeginRound(perm, d);
    }

    /** The Next button, which is only rendered while a question is shown. */
    method NextQuestion(d: QuestionDraw)
      requires Valid()
      requires current.Some?
      requires |openings| > 0 && order != [] ==> ValidDraw(|openings|, order[0], d)
      modifies this
      ensures Valid() && State() == Advanced(old(State()), d)
    {
      AdvancedInv(State(), d);
      if |openings| == 0 {
        return;
      }
      if order == [] {
        showFinal := true;
        return;
      }
      PrepareFromIndex(Some(order[0]), order[1..], d);
    }

    /** A click on the choice `name`. */
    method Answer(name: string)
      requires Valid()
      modifies this
      ensures Valid() && State() == Answered(old(State()), name)
    {
      AnsweredInv(State(), name);
      if current.None? || locked {
        return;
      }
      if name == current.value.name {
        result := Some(Correct);
        score := if wrong == {} then score + 1 else score;
        locked := true;
        showNext := true;
      } else {
        result := Some(Wrong);
        wrong := wrong + {name};
      }
    }

    /** One expiry of the reveal timer; the timer is only scheduled, and
        so only fires, under the guard `TickArmed`. */
    method Tick()
      requires Valid()
      modifies this
      ensures Valid() && State() == Ticked(old(State()))
    {
      TickedInv(State());
      if current.None? || locked {
        return;
      }
      var len := |current.value.moves|;
      if len <= 0 {
        return;
      }
      if moveIdx >= len {
        return;
      }
      moveIdx := Min(len, moveIdx + 1);
    }

    /** The moves currently shown on the board: none without a question,
        otherwise the prefix of its moves whose length is the cursor
        clamped into `[0, |moves|]`. */
    function ShownMoves(): (r: seq<string>)
      reads this
      ensures current.None? ==> r == []
      ensures current.Some? ==>
                && |r| == Max(0, Min(moveIdx, |current.value.moves|))
                && r <= current.value.moves
    {
      if current.None? then [] else current.value.moves[..Max(0, Min(moveIdx, |current.value.moves|))]
    }
  }
}
