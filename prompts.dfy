/** The prompt strings app.py sends to the language model: document
    excerpts cut by character count, fixed instruction text, and for free
    chat the recent transcript. */
module Prompts {
  import opened Transcript

  /** Where the pieces of a four-part concatenation sit. */
  lemma Pieces(a: string, b: string, c: string, d: string)
    ensures var r := a + b + c + d;
      && a <= r
      && r[|a|..|a| + |b|] == b
      && r[|a| + |b|..|r| - |d|] == c
      && r[|r| - |d|..] == d
  {
  }

  /** Where the pieces of a three-part concatenation sit. */
  lemma Around(a: string, b: string, c: string)
    ensures var r := a + b + c;
      && a <= r
      && r[|a|..|a| + |b|] == b
      && r[|r| - |c|..] == c
  {
  }

  /** Python's `text[:n]`: the first `n` characters, or all of them. */
  function Excerpt(text: string, n: nat): (r: string)
    ensures |r| == Min(n, |text|)
    ensures r <= text
  {
    if |text| <= n then text else text[..n]
  }

  /** Character budgets for the document excerpt (app.py:64, 69, 157, 184). */
  const SummaryExcerptSize := 6000
  const ChatExcerptSize := 8000

  const SummaryInstruction := "Summarize this document in 5 bullet points:\n\n"
  const QuizInstruction :=
    "Generate 5 multiple choice questions from this document. Format each as Q: ... A) ... B) ... C) ... D) ... Answer: ...\n\n"

  /** The summary prompt (app.py:64): the instruction, then the first 6000
      characters of the document. */
  function SummaryPrompt(text: string): (r: string)
    ensures |r| == |SummaryInstruction| + Min(SummaryExcerptSize, |text|)
    ensures SummaryInstruction <= r
    ensures r[|SummaryInstruction|..] <= text
  {
    var e := Excerpt(text, SummaryExcerptSize);
    assert (SummaryInstruction + e)[|SummaryInstruction|..] == e;
    SummaryInstruction + e
  }

  /** The quiz prompt (app.py:69): the instruction, then the first 6000
      characters of the document. */
  function QuizPrompt(text: string): (r: string)
    ensures |r| == |QuizInstruction| + Min(SummaryExcerptSize, |text|)
    ensures QuizInstruction <= r
    ensures r[|QuizInstruction|..] <= text
  {
    var e := Excerpt(text, SummaryExcerptSize);
    assert (QuizInstruction + e)[|QuizInstruction|..] == e;
    QuizInstruction + e
  }

  const QuickHead := "Document:\n"
  const QuestionLead := "\n\nQuestion: "

  /** The quick-question prompt (app.py:157): the first 8000 characters of
      the document and the canned question, with no history. */
  function QuickPrompt(text: string, q: string): (r: string)
    ensures var m := Min(ChatExcerptSize, |text|);
      && |r| == |QuickHead| + m + |QuestionLead| + |q|
      && QuickHead <= r
      && r[|QuickHead|..|QuickHead| + m] == text[..m]
      && EndsWith(r, QuestionLead + q)
  {
    var e := Excerpt(text, ChatExcerptSize);
    Around(QuickHead, e, QuestionLead + q);
    QuickHead + e + (QuestionLead + q)
  }

  const ChatHead := "You are a helpful assistant. Answer based on this document.\n\nDocument:\n"
  const HistoryLead := "\n\nHistory:\n"

  /** The free-chat prompt (app.py:181-189), around the history block
      `history` that app.py:180 builds from the transcript. */
  function ChatPrompt(text: string, history: string, q: string): (r: string)
    ensures var m := Min(ChatExcerptSize, |text|);
      && ChatHead <= r
      && |ChatHead| + m <= |r| - |QuestionLead + q|
      && r[|ChatHead|..|ChatHead| + m] == text[..m]
      && r[|ChatHead| + m..|r| - |QuestionLead + q|] == HistoryLead + history
      && EndsWith(r, QuestionLead + q)
  {
    var e := Excerpt(text, ChatExcerptSize);
    Pieces(ChatHead, e, HistoryLead + history, QuestionLead + q);
    ChatHead + e + (HistoryLead + history) + (QuestionLead + q)
  }

  /** What the model is asked in free chat (app.py:173, 180-189): with the
      question appended to the transcript first, the history block ends
      with that question as its last line, right before the question. */
  lemma ChatPromptEndsWithQuestion(text: string, ms: seq<Message>, q: string)
    ensures var r := ChatPrompt(text, HistoryText(ms + [Message(User, q)]), q);
      EndsWith(r[..|r| - |QuestionLead + q|], "user: " + q)
  {
    var h := HistoryText(ms + [Message(User, q)]);
    HistoryEndsWithQuestion(ms, q);
    BodyEndsWith(text, h, q, "user: " + q);
  }

  lemma BodyEndsWith(text: string, h: string, q: string, line: string)
    requires EndsWith(h, line)
    ensures var r := ChatPrompt(text, h, q);
      EndsWith(r[..|r| - |QuestionLead + q|], line)
  {
  }
}
