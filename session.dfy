/** `st.session_state` as the page script uses it: an object whose counters
    the handlers reassign and whose three fixed-size slot lists they update
    by index. Every method is proved against the function of the same name
    in `GameState`. */
module Session {
  import opened PyText
  import opened Llm
  import opened GameState

  class SessionState {
    var qIndex: int
    var level: int
    var badges: int
    var xp: int
    var questions: array<Option<string>>
    var answers: array<string>
    var feedbacks: array<Option<string>>

    /** The session's contents as a `GameState.State` value. */
    function Snapshot(): State
      reads this, questions, answers, feedbacks
    {
      State(qIndex, level, badges, xp, questions[..], answers[..], feedbacks[..])
    }

    /** The two option lists are distinct objects and the contents are a
        reachable game state. */
    predicate Valid()
      reads this, questions, answers, feedbacks
    {
      questions != feedbacks && GameState.Valid(Snapshot())
    }

    /** The first page run of a session fills in every default. */
    constructor ()
      ensures Valid() && Snapshot() == Initial()
      ensures fresh(questions) && fresh(answers) && fresh(feedbacks)
    {
      qIndex := 0;
      level := 1;
      badges := 0;
      xp := 0;
      questions := new Option<string>[NumQuestions](_ => None);
      answers := new string[NumQuestions](_ => "");
      feedbacks := new Option<string>[NumQuestions](_ => None);
    }

    /** `update_progress()`. The two results say whether the level-up and the
        badge notifications are shown. */
    method UpdateProgress() returns (leveledUp: bool, badgeEarned: bool)
      requires Valid()
      modifies this`xp, this`level, this`badges
      ensures Valid() && Snapshot() == Progressed(old(Snapshot()))
      ensures leveledUp <==> old(xp) + 20 >= 100
      ensures badgeEarned <==> IsBadgeSlot(qIndex)
    {
      xp := xp + 20;
      leveledUp := xp >= 100;
      if leveledUp {
        xp := 0;
        level := level + 1;
      }
      badgeEarned := (qIndex + 1) % 3 == 0;
      if badgeEarned {
        badges := badges + 1;
      }
    }

    /** The Generate button: the helper's result goes into the current
        question slot. */
    method Generate(reply: Reply)
      requires Valid()
      modifies questions
      ensures Valid() && Snapshot() == Generated(old(Snapshot()), reply)
    {
      var q := GenerateQuestion(reply);
      questions[qIndex] := Some(q);
    }

    /** The text area's content is stored in the current answer slot. */
    method RecordAnswer(answer: string)
      requires Valid()
      modifies answers
      ensures Valid() && Snapshot() == Answered(old(Snapshot()), answer)
    {
      answers[qIndex] := answer;
    }

    /** The Evaluate button. `warned` is true when the answer was blank and
        only the warning was shown. */
    method Evaluate(answer: string, reply: Reply) returns (warned: bool)
      requires Valid()
      modifies this`xp, this`level, this`badges, feedbacks
      ensures Valid() && Snapshot() == Evaluated(old(Snapshot()), answer, reply)
      ensures warned <==> IsBlank(answer)
    {
      ghost var before := Snapshot();
      StripEmptyIff(answer);
      warned := Strip(answer) == [];
      if !warned {
        EvaluatedSteps(before, answer, reply);
        var fb := EvaluateAnswer(reply);
        feedbacks[qIndex] := Some(fb);
        assert Snapshot() == before.(feedbacks := before.feedbacks[qIndex := Some(fb)]);
        var _, _ := UpdateProgress();
      }
    }

    /** The Previous button. */
    method MovePrevious()
      requires Valid()
      modifies this`qIndex
      ensures Valid() && Snapshot() == Previous(old(Snapshot()))
    {
      qIndex := if qIndex - 1 > 0 then qIndex - 1 else 0;
    }

    /** The Next button. */
    method MoveNext()
      requires Valid()
      modifies this`qIndex
      ensures Valid() && Snapshot() == Next(old(Snapshot()))
    {
      qIndex := if qIndex + 1 < NumQuestions - 1 then qIndex + 1 else NumQuestions - 1;
    }

    /** The Reset button: every key is dropped and the defaults are filled in
        again, with new lists. */
    method Reset()
      modifies this
      ensures Valid() && Snapshot() == Initial()
      ensures fresh(questions) && fresh(answers) && fresh(feedbacks)
    {
      qIndex := 0;
      level := 1;
      badges := 0;
      xp := 0;
      questions := new Option<string>[NumQuestions](_ => None);
      answers := new string[NumQuestions](_ => "");
      feedbacks := new Option<string>[NumQuestions](_ => None);
      assert questions[..] == Initial().questions;
      assert answers[..] == Initial().answers;
      assert feedbacks[..] == Initial().feedbacks;
    }

    /** One run of the page script with the text area holding `answer` and
        at most one button pressed. */
    method RunPage(click: Click, answer: string)
      requires Valid()
      modifies this, questions, answers, feedbacks
      ensures Valid() && Snapshot() == PageRun(old(Snapshot()), click, answer)
    {
      if click.GenerateClick? {
        Generate(click.question);
      }
      RecordAnswer(answer);
      match click {
        case EvaluateClick(reply) =>
          var _ := Evaluate(answer, reply);
        case PreviousClick =>
          MovePrevious();
        case NextClick =>
          MoveNext();
        case ResetClick =>
          Reset();
        case _ =>
      }
    }
  }
}
