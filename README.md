# AI Interview Game: session state machine

A model in Dafny of the game logic in `ai-interview-game.py`, a Streamlit page
that asks a language model for interview questions and scores free-text
answers, and keeps score in `st.session_state`:

- the current slot `q_index` (0 to 9);
- the counters `level`, `badges` and `xp`;
- three parallel lists of ten slots:
  - `questions`, each slot a question or `None`;
  - `answers`, each slot a string;
  - `feedbacks`, each slot an evaluation or `None`.

Each click on the page re-runs the script from top to bottom, and the
handlers change this state in place.

Files:

- `pytext.dfy` (module `PyText`): Python's `str.strip()` and its whitespace
  test. The page uses them on every model reply and to refuse a blank answer.
- `llm.dfy` (module `Llm`): the two helpers `generate_question` and
  `evaluate_answer`. The model service's answer is a parameter (`Reply`): the
  text it returned, or the details of the exception it raised. An exception
  becomes the placeholder string `[Error generating question: …]` or
  `[Error evaluating answer: …]`. So each helper always returns a string.
- `game_state.dfy` (module `GameState`): the session state as a value
  (`State`) and its invariant `Valid`. It has one function per handler:
  - `Initial`, `Progressed` (`update_progress`);
  - `Generated`, `Answered`, `Evaluated`;
  - `Previous`, `Next`;
  - `PageRun`, one whole script run for one click.

  The lemmas state the game's rules about these functions.
- `session.dfy` (module `Session`): class `SessionState`. The counters are
  fields that the methods reassign. The three slot lists are fixed-size
  arrays that the methods update by index. `Reset` replaces the arrays with
  new ones. Every method is proved against the `GameState` function it
  implements (`Snapshot() == Evaluated(old(Snapshot()), …)`).

Points about the code's behaviour that the model keeps:

- Slot writes are not bounds-checked. They index with `q_index`, and the
  invariant keeps it in range.
- Evaluation is allowed while the question slot is still `None`.
- The badge depends on the current slot, not on how many answers were
  evaluated. Re-evaluating slot index 2 earns another badge each time
  (`ProgressedTimesTotal` with `n` evaluations on one slot).
- The answer text area is not tied to a slot. `answers[q_index] = answer`
  (line 187) stores its content
  into the current slot on every run, including:
  - the run after Next (`NextCarriesAnswer`);
  - the run that follows Reset (`ResetThenRerun`).
- `xp` stays a multiple of 20 below 100. So a level-up loses no XP:
  `100 * level + xp` grows by exactly 20 per evaluation.

## Model

| member | source | states |
|---|---|---|
| `PyText.TextStart` | ai-interview-game.py:38 | the forward scan over leading whitespace stops at the first non-whitespace character, or at the end, and skips only whitespace |
| `PyText.TextEnd` | ai-interview-game.py:38 | the backward scan over trailing whitespace, never below the start of the text, stops just past the last non-whitespace character and skips only whitespace |
| `PyText.Strip` | ai-interview-game.py:38 | `str.strip()`: no longer than the input, and neither end of a non-empty result is whitespace |
| `PyText.StripIsSlice` | ai-interview-game.py:38 | the stripped text is one contiguous slice of the input, with only whitespace removed on either side |
| `PyText.StripEmptyIff` | ai-interview-game.py:191 | `not answer.strip()` holds exactly when every character of the answer is whitespace |
| `PyText.StripTrimmed` | ai-interview-game.py:38 | a string with no whitespace at either end is returned unchanged |
| `PyText.StripIdempotent` | ai-interview-game.py:38 | stripping twice is the same as stripping once |
| `Llm.Placeholder` | ai-interview-game.py:39-40 | the error placeholder is its prefix, then the exception details, then `]` |
| `Llm.ReplyText` | ai-interview-game.py:36-40 | the body shared by both helpers (lines 36-40 and 55-59): an exception gives a text that starts with the helper's error prefix |
| `Llm.GenerateQuestion` | ai-interview-game.py:28-40 | `generate_question`: the question is empty exactly when the model returned blank text |
| `Llm.EvaluateAnswer` | ai-interview-game.py:43-59 | `evaluate_answer`: the evaluation is empty exactly when the model returned blank text |
| `Llm.ReplyTextEmptyIff` | ai-interview-game.py:36-40 | a helper's result is empty exactly when the model returned blank text; a placeholder is never empty |
| `Llm.ReplyTextIsStripped` | ai-interview-game.py:36-40 | a helper's result, placeholder included, has no whitespace at either end |
| `Llm.ReplyTextIsAmbiguous` | ai-interview-game.py:36-40 | model text equal to a helper's output (such as a placeholder) comes back unchanged, so a failure cannot be told from content |
| `Llm.QuestionErrorPlaceholder` | ai-interview-game.py:39-40 | a failed generation yields `[Error generating question: <details>]`: the prefix, the exception details, then `]`, so never empty |
| `Llm.FeedbackErrorPlaceholder` | ai-interview-game.py:58-59 | a failed evaluation yields `[Error evaluating answer: <details>]`: the prefix, the exception details, then `]` |
| `GameState.Initial` | ai-interview-game.py:106-123 | the defaults satisfy the invariant: slot 0, level 1, no badges, no XP, ten `None` questions, ten `""` answers, ten `None` feedbacks |
| `GameState.Progressed` | ai-interview-game.py:127-138 | never touches `q_index` or the slot lists; keeps the invariant (`0 <= xp < 100`, multiple of 20); total XP grows by exactly 20 |
| `GameState.LevelUpIff` | ai-interview-game.py:128-133 | the level rises by one exactly when `xp + 20 >= 100`, and then `xp` is 0; otherwise the level is unchanged and `xp` grows by 20 |
| `GameState.BadgeIff` | ai-interview-game.py:136-138 | badges rise by one exactly when `(q_index + 1) % 3 == 0`, otherwise unchanged, whatever the XP |
| `GameState.ProgressedTimesTotal` | ai-interview-game.py:127-138 | after `n` updates on one slot: still valid, total XP up by `20 * n`, badges up by `n` on a badge slot and 0 elsewhere, slot and lists unchanged |
| `GameState.ProgressedTimesClosedForm` | ai-interview-game.py:128-131 | after `n` updates `xp == (xp0 + 20n) % 100` and the level rises by `(xp0 + 20n) / 100` |
| `GameState.FiveProgressionsFromFresh` | ai-interview-game.py:128-131 | five updates from the defaults give `xp == 0` and `level == 2` |
| `GameState.Generated` | ai-interview-game.py:176-179 | the helper's result, placeholder included, fills the current question slot; every other slot and every other field is unchanged; the invariant holds |
| `GameState.GenerateOverwrites` | ai-interview-game.py:176-179 | generating twice on one slot is the same as generating once with the second reply |
| `GameState.Answered` | ai-interview-game.py:186-187 | the text area's content fills the current answer slot; every other slot and field is unchanged |
| `GameState.AnswerOverwrites` | ai-interview-game.py:186-187 | a later answer replaces an earlier one, and recording the same answer twice changes nothing |
| `GameState.Evaluated` | ai-interview-game.py:189-200 | a blank answer leaves the state as it was; otherwise the current feedback slot gets the evaluator's result, other feedback slots are unchanged, and the result is `update_progress` applied once; questions and answers untouched |
| `GameState.EvaluatedSteps` | ai-interview-game.py:194-200 | on a non-blank answer, the handler's two steps in order (store the feedback, then `update_progress()`) give `Evaluated`'s result |
| `GameState.BlankAnswerChangesNothing` | ai-interview-game.py:190-192 | an empty or whitespace-only answer changes nothing: no feedback, XP, level or badge change |
| `GameState.NonBlankAnswerProgresses` | ai-interview-game.py:193-200 | a non-blank answer fills the feedback slot, adds 20 to total XP, and adds a badge exactly on a badge slot |
| `GameState.Previous` | ai-interview-game.py:212-213 | only `q_index` changes; index 0 stays at 0, any other index goes back by one; the invariant holds |
| `GameState.Next` | ai-interview-game.py:215-216 | only `q_index` changes; index 9 stays at 9, any other index goes on by one; the invariant holds |
| `GameState.NavigationInverse` | ai-interview-game.py:212-216 | Next undoes Previous away from slot 0, and Previous undoes Next away from slot 9; each is a no-op at its own end |
| `GameState.PageRun` | ai-interview-game.py:176-221 | one script run, in source order (generate, record answer, evaluate, navigate or reset), keeps the invariant |
| `GameState.OnlyEvaluateProgresses` | ai-interview-game.py:176-216 | a run with neither an Evaluate nor a Reset click leaves XP, level, badges and feedbacks unchanged |
| `GameState.ResetThenRerun` | ai-interview-game.py:218-221 | Reset gives the defaults; the rerun it starts gives the defaults except that slot 0 holds the text area's content |
| `GameState.RoundOnSlot` | ai-interview-game.py:176-200 | generate, type and evaluate on a slot fill its question, answer and feedback, add 20 total XP, and add a badge exactly on a badge slot |
| `GameState.FirstRoundScenario` | ai-interview-game.py:176-200 | the first round of a fresh game fills slot 0 and leaves `xp == 20`, `level == 1`, `badges == 0` |
| `GameState.NextCarriesAnswer` | ai-interview-game.py:186-216 | after Next, the following run stores the same text into the new slot too |
| `GameState.ThirdSlotBadge` | ai-interview-game.py:136-137 | evaluating on slot index 2 earns a badge; on slots 0 and 1 it does not |
| `Session.SessionState.constructor` | ai-interview-game.py:106-123 | a new session holds the defaults in new arrays |
| `Session.SessionState.UpdateProgress` | ai-interview-game.py:127-138 | updates the counters as `Progressed`; reports a level-up exactly when `xp + 20 >= 100` and a badge exactly on a badge slot; may write only `xp`, `level`, `badges` |
| `Session.SessionState.Generate` | ai-interview-game.py:176-179 | writes the current question slot as `Generated`; may modify only the question list |
| `Session.SessionState.RecordAnswer` | ai-interview-game.py:186-187 | writes the current answer slot as `Answered`; may modify only the answer list |
| `Session.SessionState.Evaluate` | ai-interview-game.py:189-200 | changes the state as `Evaluated`; warns exactly when the answer is blank; may modify only the counters and the feedback list |
| `Session.SessionState.MovePrevious` | ai-interview-game.py:212-213 | moves `q_index` as `Previous`; may modify only `q_index` |
| `Session.SessionState.MoveNext` | ai-interview-game.py:215-216 | moves `q_index` as `Next`; may modify only `q_index` |
| `Session.SessionState.Reset` | ai-interview-game.py:218-221 | the session holds the defaults again, in new arrays |
| `Session.SessionState.RunPage` | ai-interview-game.py:176-221 | one script run changes the session as `PageRun` and keeps the invariant |

## Left out

- The Gemini setup (`genai.configure`, `GenerativeModel`) and the network call
  `generate_content` are foreign calls. Their outcome is the `Reply`
  parameter.
- The prompt texts built from topic, difficulty, question and answer are not
  modelled. The model's reply to them is the `Reply` parameter, so the question
  passed to the evaluator (possibly `None`) does not appear in the model.
- Loading `GEMINI_API_KEY` with dotenv, and the halt when it is missing, are
  environment I/O.
- All rendering is left out:
  - CSS, header, HUD metrics, the topic and difficulty selectboxes;
  - spinners, the question and feedback cards;
  - the success, balloons, info and warning notices.

  The level-up and badge notices appear only as `UpdateProgress`'s two
  results. The blank-answer warning appears only as `Evaluate`'s result.
- `st.progress(xp / 100)` is a floating-point display value.
- `st.rerun()` after Reset is modelled as the end of the run. The run it
  starts is the next `RunPage` call.
- `RunPage` assumes at most one button is pressed per run, as Streamlit
  delivers clicks.
- `test_env.py` is an operational script that loads, prints and checks an
  environment variable. It has no game logic.
- `PyText.IsSpace` covers the code points CPython's `str.strip()` removes. It
  does not model Python's string internals beyond that.
