# Chess openings quiz: session engine and opening sets

This project models the quiz of the chess openings trainer. The quiz shows an
opening's moves one by one and asks the user to pick the opening's name from up
to four candidates. It keeps score over one pass (a "round") through the active
set of openings. Two parts of the repository are modelled:

- **The quiz session** of the `OpeningQuiz` component (`Quiz.dfy`). Its state is
  the class `Quiz.Session`, with the component's fields: the round queue
  `order`, the question `current`, its `choices`, the reveal cursor `moveIdx`,
  `locked`, `result`, the set `wrong` of wrong guesses, `showNext`, `score`,
  `qCount` and `showFinal`. Each handler and effect of the component is one
  method. Each method's new state is stated as a function of the old state
  (`Started`, `Advanced`, `Answered`, `Ticked`, ... on the value type `Snapshot`).
  The invariant `Inv` holds in the initial state (`Initial`) and is proved to be
  kept by `Started`, `RoundStarted`, `Restarted`, `Advanced` (from a shown
  question), `Answered` and `Ticked`. The helper steps `Prepared` and
  `QuestionStarted` do not keep it on their own, since they grow the asked
  indices without the round being reset. It says:
  - `score <= qCount`, and `score < qCount` while the current question is still open;
  - `qCount` counts the questions started in the round;
  - the indices asked so far, followed by the queue, are exactly the round's permutation;
  - the target's name is never among the wrong guesses;
  - the cursor stays in `[1, max(1, |moves|)]` while a question is asked;
  - `locked` holds exactly when the last verdict was "correct", and `showNext` equals `locked`;
  - once the final dialog is up, every index of the set has been asked exactly once.
- **The opening sets** of the backend (`OpeningsData.dfy`): the `Opening`
  record, its serialisation to a dictionary, the three registered sets with
  their data, and the lookup `GetOpenings`, which falls back to an empty list.

The comparator shuffle is random, so its results are inputs to the model:
- the shuffled round order `perm`, which must be a permutation of the indices;
- per question, a `QuestionDraw`: the distractor indices (distinct, never the
  target, `min(3, n - 1)` of them) and the order in which the candidates are shown.

`Shuffle.dfy` defines what "permutation" means. It proves that a permutation
covers every index, and that reordering by a permutation keeps every element
with its multiplicity. `Scenarios.dfy` drives sessions through the worked
examples of the quiz, using only the methods' contracts.

The module `Wrappers` holds the `Option` type used for the source's `null`.

### Where the code and the intended design differ (the model follows the code)

- **Cursor start.** The cursor starts at 1 when a question starts
  (`OpeningQuiz.jsx:62`), but the reset on a set switch puts it at 0 (line
  41). So an opening without moves has cursor 1 and no move shown.
  `ShownMoves` clamps the cursor, and the invariant allows `moveIdx = 1 > |moves| = 0`.
- **Small sets.** A set with fewer than four openings raises no error. It just
  offers `1 + min(3, n - 1)` choices (lines 50-52). `Scenarios.SmallSet` shows three.
- **Advancing.** `prepareQuestion` (lines 65-70) does not check that the
  question is locked, and the model does not require it either. Its only
  caller is the Next button, rendered only while a question is shown after a
  correct answer (lines 182-192). `Session.NextQuestion` therefore requires
  that a question is shown, which is what makes the final dialog imply a
  complete round.
- **End of round.** When the queue runs out, only `showFinal` becomes true. The
  last question stays as `current` (line 67).
- **Duplicate names.** Distractors are picked by index, not by name. Choices are
  distinct whenever the set's names are (`Quiz.ChoicesDistinct`). `OpeningsData.RegisteredSetsWellFormed`
  proves that every registered set has unique names.

## Model

| member | source | states |
|---|---|---|
| `Shuffle.PermutationCovers` | chess-openings-app/frontend/src/components/OpeningQuiz.jsx:75-77 | a shuffled index list of length n without repeats contains every index below n, so a round can miss no opening |
| `Shuffle.ReindexIsPermutation` | chess-openings-app/frontend/src/components/OpeningQuiz.jsx:52 | reordering the candidates by a permutation keeps each of them with its multiplicity |
| `OpeningsData.ToDict` | chess-openings-app/backend/openings/openings_data.py:19-21 | the dictionary has exactly the keys name, moves and description, and reading it back gives the same opening |
| `OpeningsData.GetOpenings` | chess-openings-app/backend/openings/openings_data.py:111-122 | an unknown set name gives the empty list; a known one gives one record per registered opening, in order, each reading back to that opening |
| `OpeningsData.RegisteredSets` | chess-openings-app/backend/openings/openings_data.py:104-108 | exactly the three canonical names are registered, with 10, 16 and 12 openings |
| `OpeningsData.RegisteredSetsWellFormed` | chess-openings-app/backend/openings/openings_data.py:24-102 | in every registered set the names are unique and there are at least four openings |
| `Quiz.BuildChoices` | chess-openings-app/frontend/src/components/OpeningQuiz.jsx:49-52 | the choices are 1 + min(3, n-1) names: as a multiset, the target's name plus one name per distractor, so the target is always offered |
| `Quiz.ChoicesDistinct` | chess-openings-app/frontend/src/components/OpeningQuiz.jsx:49-52 | if the set's names are unique, no name is offered twice |
| `Quiz.RegisteredSetChoices` | chess-openings-app/frontend/src/components/OpeningQuiz.jsx:49-52 | for every registered set a question offers exactly four choices, all different |
| `Quiz.QuestionStarted` | chess-openings-app/frontend/src/components/OpeningQuiz.jsx:54-62 | starting a question adds exactly 1 to qCount, makes the indexed opening current, sets the queue to the given remainder and records the index as asked |
| `Quiz.RoundStarted` | chess-openings-app/frontend/src/components/OpeningQuiz.jsx:75-79 | after a round starts: score 0, qCount 1, no final dialog, the head of the permutation is current, and the current index followed by the queue is the permutation |
| `Quiz.QuestionStartedAsking` | chess-openings-app/frontend/src/components/OpeningQuiz.jsx:54-62 | a freshly started question is in a consistent asking state: target not among wrong guesses, it is among the choices, the cursor is 1, no wrong guess, no verdict, not locked, Next hidden |
| `Quiz.InitialInv` | chess-openings-app/frontend/src/components/OpeningQuiz.jsx:21-45 | the state after mounting or a set switch satisfies the session invariant |
| `Quiz.StartedInv` | chess-openings-app/frontend/src/components/OpeningQuiz.jsx:73-80 | the round-start effect keeps the session invariant, including when it does nothing (loading or no data) |
| `Quiz.RoundStartedInv` | chess-openings-app/frontend/src/components/OpeningQuiz.jsx:75-79 | starting a round from any state with a permutation of the set yields a state satisfying the invariant |
| `Quiz.RestartedInv` | chess-openings-app/frontend/src/components/OpeningQuiz.jsx:216-223 | the OK button of the final dialog keeps the invariant, with or without data |
| `Quiz.AdvancedInv` | chess-openings-app/frontend/src/components/OpeningQuiz.jsx:65-70 | the Next action from a shown question keeps the invariant; when the queue is exhausted the final dialog comes up with every index asked and qCount equal to the set size |
| `Quiz.AnsweredInv` | chess-openings-app/frontend/src/components/OpeningQuiz.jsx:106-119 | answering keeps the invariant, in particular score stays within qCount and the target never enters the wrong set |
| `Quiz.TickedInv` | chess-openings-app/frontend/src/components/OpeningQuiz.jsx:84-97 | a reveal tick keeps the invariant |
| `Quiz.EachIndexAskedOnce` | chess-openings-app/frontend/src/components/OpeningQuiz.jsx:65-79 | under the invariant no index is asked twice in a round, and whenever the final dialog is up each index of the set has been asked, qCount times in all, qCount being the set size |
| `Quiz.LockedIgnoresAnswers` | chess-openings-app/frontend/src/components/OpeningQuiz.jsx:107 | once locked, any answer leaves the whole state unchanged |
| `Quiz.FirstTryScores` | chess-openings-app/frontend/src/components/OpeningQuiz.jsx:109-114 | a correct answer with no wrong guess yet adds one point, locks the question and shows Next |
| `Quiz.RetryEarnsNothing` | chess-openings-app/frontend/src/components/OpeningQuiz.jsx:109-118 | a wrong guess followed by the correct one locks the question without any point |
| `Quiz.PointOnlyOnFirstTry` | chess-openings-app/frontend/src/components/OpeningQuiz.jsx:106-119 | an answer raises the score by at most one, and by one exactly when it is correct, to an open question, with no wrong guess yet |
| `Quiz.WrongAnswerRecorded` | chess-openings-app/frontend/src/components/OpeningQuiz.jsx:115-118 | a wrong answer adds the name to wrong, leaves the question unlocked and the score unchanged, and wrong still excludes the target |
| `Quiz.TickMonotone` | chess-openings-app/frontend/src/components/OpeningQuiz.jsx:86-94 | a tick never lowers the cursor, moves it by exactly one and only when armed, and never past the move count |
| `Quiz.Session.constructor` | chess-openings-app/frontend/src/components/OpeningQuiz.jsx:21-35 | the initial state: counters 0, no question, cursor 0, nothing locked, empty queue, invariant holds |
| `Quiz.Session.SwitchSet` | chess-openings-app/frontend/src/components/OpeningQuiz.jsx:38-45 | switching set resets every session field to its initial value and takes the new set's data |
| `Quiz.Session.PrepareFromIndex` | chess-openings-app/frontend/src/components/OpeningQuiz.jsx:47-63 | without data or index nothing changes; otherwise exactly the question-start update (qCount + 1, unlocked, no verdict, wrong empty, no Next, cursor 1, queue replaced) |
| `Quiz.Session.BeginRound` | chess-openings-app/frontend/src/components/OpeningQuiz.jsx:75-79 | score and qCount reset to 0 and the final dialog closed before the first question of the permutation starts |
| `Quiz.Session.StartRound` | chess-openings-app/frontend/src/components/OpeningQuiz.jsx:73-80 | while loading or without data nothing changes; otherwise a round starts from the given permutation; the invariant is kept |
| `Quiz.Session.Restart` | chess-openings-app/frontend/src/components/OpeningQuiz.jsx:216-223 | without data only the final dialog closes; otherwise a new round starts; the invariant is kept |
| `Quiz.Session.NextQuestion` | chess-openings-app/frontend/src/components/OpeningQuiz.jsx:65-70 | called only while a question is shown (the Next button's render guard, lines 182-189); an empty queue raises the final dialog and changes nothing else; otherwise the queue's head is started and the queue shortened by one; the invariant is kept |
| `Quiz.Session.Answer` | chess-openings-app/frontend/src/components/OpeningQuiz.jsx:106-119 | no-op without a question or when locked; correct locks, shows Next and scores iff no wrong guess; wrong records the name; the invariant is kept |
| `Quiz.Session.Tick` | chess-openings-app/frontend/src/components/OpeningQuiz.jsx:84-97 | only with a question, unlocked, with moves and the cursor below their count does the cursor become min(len, cursor + 1); the invariant is kept |
| `Quiz.Session.ShownMoves` | chess-openings-app/frontend/src/components/OpeningQuiz.jsx:100-103 | no moves without a question; otherwise the prefix of the moves whose length is the cursor clamped into [0, len] |
| `Scenarios.NextAnsweredAtOnce` | chess-openings-app/frontend/src/components/OpeningQuiz.jsx:65-70 | from a locked question, Next and an immediate correct answer add one question and one point and pop one index |
| `Scenarios.FullRound` | chess-openings-app/frontend/src/components/OpeningQuiz.jsx:65-119 | a four-opening round with one retry on the first question ends with score 3, qCount 4 and the final dialog up |
| `Scenarios.FirstTry` | chess-openings-app/frontend/src/components/OpeningQuiz.jsx:109-114 | answering the first target at once gives score 1 with qCount 1 |
| `Scenarios.SmallSet` | chess-openings-app/frontend/src/components/OpeningQuiz.jsx:50-62 | a three-opening set starts a question with three choices, qCount 1 and cursor 1 |
| `Scenarios.Reveal` | chess-openings-app/frontend/src/components/OpeningQuiz.jsx:86-103 | a tick reveals one more move, a locked question gets no ticks, and a move-less opening keeps cursor 1 with no move shown |

## Left out

- The data hook `useOpenings.js` is not part of this model: its asynchronous fetch, its cache by bucket and its stale-response guard. `Session.SwitchSet` takes the new set's data directly, and `StartRound` takes the hook's `loading` flag as a parameter.
- The network client `openingsClient.js` and the Flask routes of `app.py` are not part of this model (HTTP plumbing, slug map, JSON wrapping).
- The set selector (`SETS`, `activeSetIdx`, lines 9-18 of `OpeningQuiz.jsx`) is left out: a switch is modelled by `SwitchSet` with the new data.
- Timing: `setTimeout`, `clearTimeout` and effect re-registration (lines 83-97) are not modelled. A timer expiry is the explicit `Session.Tick`, which fires only under the scheduling guard. A timer that a cleanup cancels is just a `Tick` that is never called.
- Randomness: the distribution of `Math.random` and of the comparator sort (lines 6-7) cannot be stated. The shuffled results are inputs, constrained to be permutations and valid distractor draws.
- React's batching of state updates is represented by applying each handler's updates in the order React applies them, as one method.
- Rendering is not modelled: the JSX, the loading, error and empty-set screens (lines 121-123), button disabling, the final dialog's markup, and `ChessBoard.jsx` with the `chess.js` library it wraps.
- `MultipleChoice.jsx`, `OpeningSelector.jsx`, `MiniTest.jsx` and `App.jsx` have no logic beyond display and are not part of this model.
- The serialised dictionary holds only the two value shapes it needs (a string, a list of strings), not general JSON.
- `asked` and `round` are ghost bookkeeping of the model. "Each index once per round" is stated over them, since the component itself keeps no history.
