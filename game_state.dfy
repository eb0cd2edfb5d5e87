/** The interview game's session state as a value, and one function per
    thing that can happen to it. These functions are the specification the
    `Session.SessionState` class is proved against; the lemmas state what the
    game promises about them. */
module GameState {
  import opened PyText
  import opened Llm

  datatype Option<T> = None | Some(value: T)

  /** `num_questions`: the fixed number of question slots. */
  const NumQuestions: int := 10

  /** `st.session_state`: the current slot, the three counters and the three
      parallel slot lists. */
  datatype State = State(
    qIndex: int,
    level: int,
    badges: int,
    xp: int,
    questions: seq<Option<string>>,
    answers: seq<string>,
    feedbacks: seq<Option<string>>)

  /** What holds of every session state the game can reach. */
  predicate Valid(s: State) {
    0 <= s.qIndex < NumQuestions &&
    1 <= s.level && 0 <= s.badges &&
    0 <= s.xp < 100 && s.xp % 20 == 0 &&
    |s.questions| == NumQuestions && |s.answers| == NumQuestions &&
    |s.feedbacks| == NumQuestions
  }

  /** The defaults a page run fills into an empty session: first slot,
      level 1, no badges, no XP, no questions, empty answers, no feedback. */
  function Initial(): (s: State)
    ensures Valid(s)
    ensures s.qIndex == 0 && s.level == 1 && s.badges == 0 && s.xp == 0
    ensures forall i :: 0 <= i < NumQuestions ==>
      s.questions[i] == None && s.answers[i] == "" && s.feedbacks[i] == None
  {
    State(0, 1, 0, 0, seq(NumQuestions, _ => None), seq(NumQuestions, _ => ""),
          seq(NumQuestions, _ => None))
  }

  /** The badge slots: every third slot, counting from 1 (`(q_index + 1) % 3
      == 0`). Python's `%` by a positive divisor agrees with Dafny's. */
  predicate IsBadgeSlot(qIndex: int) {
    (qIndex + 1) % 3 == 0
  }

  /** All XP ever earned in this game: each level stands for 100 XP. */
  function TotalXp(s: State): int {
    100 * s.level + s.xp
  }

  /** `update_progress()`: 20 XP; at 100 XP the XP restarts from 0 and the level
      goes up; a badge whenever the current slot is the third of a group of
      three. From a valid state no XP is lost at a level-up: the total XP grows
      by exactly 20. */
  function Progressed(s: State): (r: State)
    ensures r.qIndex == s.qIndex && r.questions == s.questions &&
            r.answers == s.answers && r.feedbacks == s.feedbacks
    ensures Valid(s) ==> Valid(r)
    ensures Valid(s) ==> TotalXp(r) == TotalXp(s) + 20
  {
    var gained := s.xp + 20;
    var xp := if gained >= 100 then 0 else gained;
    var level := if gained >= 100 then s.level + 1 else s.level;
    var badges := if IsBadgeSlot(s.qIndex) then s.badges + 1 else s.badges;
    s.(xp := xp, level := level, badges := badges)
  }

  /** The level goes up by one exactly when the 20 XP reach 100; then XP is 0,
      otherwise the level stays and XP grows by 20. */
  lemma LevelUpIff(s: State)
    ensures var r := Progressed(s);
      (r.level == s.level + 1 <==> s.xp + 20 >= 100) &&
      (s.xp + 20 >= 100 ==> r.xp == 0) &&
      (s.xp + 20 < 100 ==> r.level == s.level && r.xp == s.xp + 20)
  {
  }

  /** A badge is earned exactly on a badge slot, whatever the XP
      and whether or not the level goes up. */
  lemma BadgeIff(s: State, otherXp: int)
    ensures var r := Progressed(s);
      (r.badges == s.badges + 1 <==> IsBadgeSlot(s.qIndex)) &&
      (!IsBadgeSlot(s.qIndex) ==> r.badges == s.badges) &&
      r.badges == Progressed(s.(xp := otherXp)).badges
  {
  }

  /** `update_progress()` run `n` times in a row without moving slot. */
  function ProgressedTimes(s: State, n: nat): State
    decreases n
  {
    if n == 0 then s else ProgressedTimes(Progressed(s), n - 1)
  }

  /** Over `n` updates on one slot: the state stays valid, the total XP
      grows by `20 * n`, badges grow by `n` on a badge slot
      and not at all elsewhere, and the slot index and lists never change. */
  lemma {:induction false} ProgressedTimesTotal(s: State, n: nat)
    requires Valid(s)
    ensures var r := ProgressedTimes(s, n);
      Valid(r) &&
      TotalXp(r) == TotalXp(s) + 20 * n &&
      r.badges == s.badges + (if IsBadgeSlot(s.qIndex) then n else 0) &&
      r.qIndex == s.qIndex && r.questions == s.questions &&
      r.answers == s.answers && r.feedbacks == s.feedbacks
    decreases n
  {
    if n > 0 {
      ProgressedTimesTotal(Progressed(s), n - 1);
    }
  }

  /** Level and XP after `n` updates, in closed form: the XP is what is left
      of the total over whole hundreds and each hundred is one level. */
  lemma {:induction false} ProgressedTimesClosedForm(s: State, n: nat)
    requires Valid(s)
    ensures var r := ProgressedTimes(s, n);
      r.xp == (s.xp + 20 * n) % 100 &&
      r.level == s.level + (s.xp + 20 * n) / 100
  {
    ProgressedTimesTotal(s, n);
    var r := ProgressedTimes(s, n);
    var total := s.xp + 20 * n;
    assert total == 100 * (r.level - s.level) + r.xp;
    DivModUnique(total, r.level - s.level, r.xp);
  }

  lemma DivModUnique(a: int, q: int, m: int)
    requires a == 100 * q + m && 0 <= m < 100
    ensures a / 100 == q && a % 100 == m
  {
  }

  /** Five evaluations from a fresh game give exactly one level-up: level 2
      with the XP back at 0. */
  lemma FiveProgressionsFromFresh()
    ensures ProgressedTimes(Initial(), 5).xp == 0
    ensures ProgressedTimes(Initial(), 5).level == 2
  {
    ProgressedTimesClosedForm(Initial(), 5);
  }

  /** The Generate handler: the model's question, or the error placeholder,
      fills the current question slot and nothing else changes. */
  function Generated(s: State, reply: Reply): (r: State)
    requires Valid(s)
    ensures Valid(r)
    ensures r.questions[s.qIndex] == Some(GenerateQuestion(reply))
    ensures forall i :: 0 <= i < NumQuestions && i != s.qIndex ==>
      r.questions[i] == s.questions[i]
    ensures r == s.(questions := r.questions)
  {
    s.(questions := s.questions[s.qIndex := Some(GenerateQuestion(reply))])
  }

  /** Generating again on the same slot overwrites the earlier question. */
  lemma GenerateOverwrites(s: State, first: Reply, second: Reply)
    requires Valid(s)
    ensures Generated(Generated(s, first), second) == Generated(s, second)
  {
  }

  /** `answers[q_index] = answer`, which runs on every page run: the text
      area's content is
      written into the current answer slot, and nothing else changes. */
  function Answered(s: State, answer: string): (r: State)
    requires Valid(s)
    ensures Valid(r)
    ensures r.answers[s.qIndex] == answer
    ensures forall i :: 0 <= i < NumQuestions && i != s.qIndex ==>
      r.answers[i] == s.answers[i]
    ensures r == s.(answers := r.answers)
  {
    s.(answers := s.answers[s.qIndex := answer])
  }

  /** Recording the same answer again changes nothing; a later answer
      replaces an earlier one. */
  lemma AnswerOverwrites(s: State, first: string, second: string)
    requires Valid(s)
    ensures Answered(Answered(s, first), second) == Answered(s, second)
    ensures Answered(Answered(s, first), first) == Answered(s, first)
  {
  }

  /** The Evaluate handler. A blank answer only shows a warning. Otherwise the
      evaluator's text (or its error placeholder) fills the current feedback
      slot and `update_progress()` runs once. The question slot may still be
      empty: the evaluator is asked anyway. */
  function Evaluated(s: State, answer: string, reply: Reply): (r: State)
    requires Valid(s)
    ensures Valid(r)
    ensures r.qIndex == s.qIndex && r.questions == s.questions && r.answers == s.answers
    ensures Strip(answer) == [] ==> r == s
    ensures Strip(answer) != [] ==>
      r.feedbacks[s.qIndex] == Some(EvaluateAnswer(reply)) &&
      (forall i :: 0 <= i < NumQuestions && i != s.qIndex ==>
         r.feedbacks[i] == s.feedbacks[i]) &&
      r == Progressed(s.(feedbacks := r.feedbacks))
  {
    if Strip(answer) == [] then s
    else Progressed(s.(feedbacks := s.feedbacks[s.qIndex := Some(EvaluateAnswer(reply))]))
  }

  /** `Evaluated` on a non-blank answer, as the two steps the handler takes:
      store the feedback, then `update_progress()`. */
  lemma EvaluatedSteps(s: State, answer: string, reply: Reply)
    requires Valid(s) && Strip(answer) != []
    ensures Valid(s.(feedbacks := s.feedbacks[s.qIndex := Some(EvaluateAnswer(reply))]))
    ensures Evaluated(s, answer, reply) ==
            Progressed(s.(feedbacks := s.feedbacks[s.qIndex := Some(EvaluateAnswer(reply))]))
  {
  }

  /** An empty or whitespace-only answer leaves the whole state alone, so in
      particular no feedback, XP, level or badge changes. */
  lemma BlankAnswerChangesNothing(s: State, answer: string, reply: Reply)
    requires Valid(s) && IsBlank(answer)
    ensures Evaluated(s, answer, reply) == s
  {
    StripEmptyIff(answer);
  }

  /** An answer with any non-whitespace character is evaluated: the feedback
      slot is filled, 20 XP are earned (possibly as a level-up), and a badge
      exactly on every third slot. */
  lemma NonBlankAnswerProgresses(s: State, answer: string, reply: Reply)
    requires Valid(s) && !IsBlank(answer)
    ensures var r := Evaluated(s, answer, reply);
      r.feedbacks[s.qIndex] == Some(EvaluateAnswer(reply)) &&
      TotalXp(r) == TotalXp(s) + 20 &&
      r.badges == s.badges + (if IsBadgeSlot(s.qIndex) then 1 else 0)
  {
    StripEmptyIff(answer);
  }

  /** The Previous button: one slot back, staying at the first slot. */
  function Previous(s: State): (r: State)
    ensures r == s.(qIndex := r.qIndex)
    ensures Valid(s) ==> Valid(r)
    ensures s.qIndex <= 0 ==> r.qIndex == 0
    ensures s.qIndex > 0 ==> r.qIndex == s.qIndex - 1
  {
    s.(qIndex := if s.qIndex - 1 > 0 then s.qIndex - 1 else 0)
  }

  /** The Next button: one slot on, staying at the last slot. */
  function Next(s: State): (r: State)
    ensures r == s.(qIndex := r.qIndex)
    ensures Valid(s) ==> Valid(r)
    ensures s.qIndex >= NumQuestions - 1 ==> r.qIndex == NumQuestions - 1
    ensures s.qIndex < NumQuestions - 1 ==> r.qIndex == s.qIndex + 1
  {
    s.(qIndex := if s.qIndex + 1 < NumQuestions - 1 then s.qIndex + 1 else NumQuestions - 1)
  }

  /** Previous and Next undo each other away from the ends, and each leaves the
      state alone at its own end. */
  lemma NavigationInverse(s: State)
    requires Valid(s)
    ensures s.qIndex > 0 ==> Next(Previous(s)) == s
    ensures s.qIndex < NumQuestions - 1 ==> Previous(Next(s)) == s
    ensures s.qIndex == 0 ==> Previous(s) == s
    ensures s.qIndex == NumQuestions - 1 ==> Next(s) == s
  {
  }

  /** Which button, if any, the user pressed on one page run, with what the
      model service answered when the button calls it. */
  datatype Click =
    | NoClick
    | GenerateClick(question: Reply)
    | EvaluateClick(feedback: Reply)
    | PreviousClick
    | NextClick
    | ResetClick

  /** One run of the page script, top to bottom: the Generate handler, then
      the answer recorded from the text area, then the Evaluate handler, then
      navigation; Reset clears the session and ends the run. */
  function PageRun(s: State, click: Click, answer: string): (r: State)
    requires Valid(s)
    ensures Valid(r)
  {
    var generated := if click.GenerateClick? then Generated(s, click.question) else s;
    var answered := Answered(generated, answer);
    match click
    case EvaluateClick(reply) => Evaluated(answered, answer, reply)
    case PreviousClick => Previous(answered)
    case NextClick => Next(answered)
    case ResetClick => Initial()
    case _ => answered
  }

  /** Only the Evaluate button changes XP, level or badges; without it the
      three counters are left alone. */
  lemma OnlyEvaluateProgresses(s: State, click: Click, answer: string)
    requires Valid(s) && !click.EvaluateClick? && !click.ResetClick?
    ensures var r := PageRun(s, click, answer);
      r.xp == s.xp && r.level == s.level && r.badges == s.badges &&
      r.feedbacks == s.feedbacks
  {
  }

  /** Reset, followed by the run the page then starts, gives the defaults
      again, except that the text area still holds its text and that text is
      recorded into the first slot. */
  lemma ResetThenRerun(s: State, answer: string, typed: string)
    requires Valid(s)
    ensures PageRun(s, ResetClick, answer) == Initial()
    ensures PageRun(PageRun(s, ResetClick, answer), NoClick, typed) ==
            Initial().(answers := Initial().answers[0 := typed])
  {
  }

  /** One round on the current slot, as three page runs: generate a
      question, type an answer, evaluate it. The slot's question, answer and
      feedback are filled, 20 XP are earned, and a badge exactly on a badge
      slot. */
  lemma {:induction false} RoundOnSlot(s: State, question: Reply, answer: string, feedback: Reply)
    requires Valid(s) && !IsBlank(answer)
    ensures var s1 := PageRun(s, GenerateClick(question), "");
      var s2 := PageRun(s1, NoClick, answer);
      var s3 := PageRun(s2, EvaluateClick(feedback), answer);
      s3.qIndex == s.qIndex &&
      s3.questions[s.qIndex] == Some(GenerateQuestion(question)) &&
      s3.answers[s.qIndex] == answer &&
      s3.feedbacks[s.qIndex] == Some(EvaluateAnswer(feedback)) &&
      TotalXp(s3) == TotalXp(s) + 20 &&
      s3.badges == s.badges + (if IsBadgeSlot(s.qIndex) then 1 else 0)
  {
    var s2 := Answered(Answered(Generated(s, question), ""), answer);
    assert s2 == s.(questions := s2.questions, answers := s2.answers);
    assert s2.questions[s.qIndex] == Some(GenerateQuestion(question)) && s2.answers[s.qIndex] == answer;
    assert Answered(s2, answer) == s2;
    NonBlankAnswerProgresses(s2, answer, feedback);
  }

  /** The first round of a fresh game: slot 0 holds the question, the answer
      and the feedback, with 20 XP, level 1 and no badge. */
  lemma FirstRoundScenario(question: Reply, answer: string, feedback: Reply)
    requires !IsBlank(answer)
    ensures var s3 := PageRun(PageRun(PageRun(Initial(), GenerateClick(question), ""),
                                      NoClick, answer), EvaluateClick(feedback), answer);
      s3.questions[0] == Some(GenerateQuestion(question)) &&
      s3.answers[0] == answer &&
      s3.feedbacks[0] == Some(EvaluateAnswer(feedback)) &&
      s3.xp == 20 && s3.level == 1 && s3.badges == 0 && s3.qIndex == 0
  {
    assert TotalXp(Initial()) == 100 && !IsBadgeSlot(0);
    RoundOnSlot(Initial(), question, answer, feedback);
  }

  /** The text area is not tied to a slot: after Next, the following run
      stores the same text into the new slot as well. */
  lemma NextCarriesAnswer(s: State, answer: string)
    requires Valid(s) && s.qIndex < NumQuestions - 1
    ensures var r := PageRun(PageRun(s, NextClick, answer), NoClick, answer);
      r.qIndex == s.qIndex + 1 &&
      r.answers[s.qIndex] == answer && r.answers[s.qIndex + 1] == answer
  {
  }

  /** The badge for slot index 2: evaluating on the first two slots earns
      none, evaluating on the third earns one. */
  lemma {:induction false} ThirdSlotBadge(s: State, answer: string, feedback: Reply)
    requires Valid(s) && !IsBlank(answer)
    ensures s.qIndex == 2 ==> Evaluated(s, answer, feedback).badges == s.badges + 1
    ensures s.qIndex < 2 ==> Evaluated(s, answer, feedback).badges == s.badges
  {
    NonBlankAnswerProgresses(s, answer, feedback);
    if s.qIndex == 2 {
      assert IsBadgeSlot(2);
    } else if s.qIndex == 1 {
      assert !IsBadgeSlot(1);
    } else if s.qIndex == 0 {
      assert !IsBadgeSlot(0);
    }
  }
}
