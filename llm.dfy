/** The two helpers that ask the language model for a question and for an
    evaluation. The model service is not modelled: its answer to the prompt is
    a parameter, either the text it returned or the details of the exception
    it raised. Both helpers turn an exception into a placeholder string, so
    they always return a string and never fail. */
module Llm {
  import opened PyText

  /** What `model.generate_content(prompt)` did: returned a response whose
      text is `text`, or raised an exception that formats as `details`. */
  datatype Reply = Returned(text: string) | Raised(details: string)

  const QuestionErrorPrefix: string := "[Error generating question: "
  const FeedbackErrorPrefix: string := "[Error evaluating answer: "

  /** `prefix + details + "]"`, the placeholder a helper returns after an
      exception. */
  function Placeholder(prefix: string, details: string): (r: string)
    requires prefix != [] && !IsSpace(prefix[0])
    ensures |prefix| < |r| && r[..|prefix|] == prefix && r[|r| - 1] == ']'
    ensures r[|prefix|..|r| - 1] == details
  {
    prefix + details + "]"
  }

  /** What a helper returns for `reply`: the stripped model text, or the
      placeholder that starts with `prefix` when the call raised. */
  function ReplyText(reply: Reply, prefix: string): (r: string)
    requires prefix != [] && !IsSpace(prefix[0])
    ensures reply.Raised? ==> |prefix| < |r| && r[..|prefix|] == prefix
  {
    match reply
    case Returned(text) => Strip(text)
    case Raised(details) => Placeholder(prefix, details)
  }

  /** A helper's result is empty exactly when the model returned blank text;
      a placeholder is never empty. */
  lemma ReplyTextEmptyIff(reply: Reply, prefix: string)
    requires prefix != [] && !IsSpace(prefix[0])
    ensures ReplyText(reply, prefix) == [] <==> reply.Returned? && IsBlank(reply.text)
  {
    if reply.Returned? {
      StripEmptyIff(reply.text);
    }
  }

  /** A helper's result never has whitespace at either end: stripping it
      again changes nothing. */
  lemma ReplyTextIsStripped(reply: Reply, prefix: string)
    requires prefix != [] && !IsSpace(prefix[0])
    ensures Strip(ReplyText(reply, prefix)) == ReplyText(reply, prefix)
  {
    if reply.Returned? {
      StripIdempotent(reply.text);
    } else {
      var r := Placeholder(prefix, reply.details);
      assert r[0] == prefix[0];
      StripTrimmed(r);
    }
  }

  /** Because errors are reported as text, a model that answers with a
      helper's own output, such as a placeholder, cannot be told apart from
      it: that text comes out unchanged. */
  lemma ReplyTextIsAmbiguous(reply: Reply, prefix: string)
    requires prefix != [] && !IsSpace(prefix[0])
    ensures ReplyText(Returned(ReplyText(reply, prefix)), prefix) == ReplyText(reply, prefix)
  {
    ReplyTextIsStripped(reply, prefix);
  }

  /** `generate_question(topic, difficulty)`: the stripped model text, or a
      placeholder when the call raised. */
  function GenerateQuestion(reply: Reply): (q: string)
    ensures q == [] <==> reply.Returned? && IsBlank(reply.text)
  {
    ReplyTextEmptyIff(reply, QuestionErrorPrefix);
    ReplyText(reply, QuestionErrorPrefix)
  }

  /** `evaluate_answer(question, answer)`: the stripped model text, or a
      placeholder when the call raised. */
  function EvaluateAnswer(reply: Reply): (f: string)
    ensures f == [] <==> reply.Returned? && IsBlank(reply.text)
  {
    ReplyTextEmptyIff(reply, FeedbackErrorPrefix);
    ReplyText(reply, FeedbackErrorPrefix)
  }

  /** A failed generation yields `[Error generating question: <details>]`:
      non-empty, so the question slot is still filled. */
  lemma QuestionErrorPlaceholder(details: string)
    ensures var q := GenerateQuestion(Raised(details));
      |QuestionErrorPrefix| < |q| && q[..|QuestionErrorPrefix|] == QuestionErrorPrefix &&
      q[|QuestionErrorPrefix|..|q| - 1] == details && q[|q| - 1] == ']'
  {
  }

  /** A failed evaluation yields `[Error evaluating answer: <details>]`. */
  lemma FeedbackErrorPlaceholder(details: string)
    ensures var f := EvaluateAnswer(Raised(details));
      |FeedbackErrorPrefix| < |f| && f[..|FeedbackErrorPrefix|] == FeedbackErrorPrefix &&
      f[|FeedbackErrorPrefix|..|f| - 1] == details && f[|f| - 1] == ']'
  {
  }
}
