/** The per-session state of app.py (`st.session_state`, app.py:36-49) and
    the user actions that change it. Each action is one method; a button
    that app.py only shows once a document has text (app.py:108, 131) is
    modelled by a branch that does nothing when `pdfText` is empty. The
    language model's reply is a parameter; each method that would call the
    model returns the prompt it would send. */
module SessionState {
  import opened Wrappers
  import opened Words
  import opened Transcript
  import opened Prompts
  import opened Ingest

  const Models: seq<string> := ["llama-3.1-8b-instant", "llama-3.3-70b-versatile", "mixtral-8x7b-32768"]
  const DefaultTemperature: real := 0.7

  const QuickQuestions: seq<string> := [
    "What is this document about?",
    "What are the key points?",
    "Give me the main conclusions."
  ]

  /** An uploaded file: its name and what the PDF reader extracts per page. */
  datatype UploadedFile = UploadedFile(name: string, pages: seq<Option<string>>)

  /** The transcript is a run of question/answer pairs: a user message
      followed by an assistant message, again and again. */
  predicate Paired(ms: seq<Message>) {
    if ms == [] then true
    else |ms| >= 2 && ms[0].role == User && ms[1].role == Assistant && Paired(ms[2..])
  }

  lemma {:induction false} PairedAppend(ms: seq<Message>, q: string, a: string)
    requires Paired(ms)
    ensures Paired(ms + [Message(User, q), Message(Assistant, a)])
    decreases |ms|
  {
    var pair := [Message(User, q), Message(Assistant, a)];
    if ms == [] {
      assert ms + pair == pair;
      assert pair[2..] == [];
    } else {
      assert (ms + pair)[2..] == ms[2..] + pair;
      PairedAppend(ms[2..], q, a);
    }
  }

  /** A transcript of pairs has even length and ends with an answer. */
  lemma {:induction false} PairedShape(ms: seq<Message>)
    ensures Paired(ms) ==> |ms| % 2 == 0
    ensures Paired(ms) && ms != [] ==> ms[|ms| - 1].role == Assistant
    decreases |ms|
  {
    if ms != [] && Paired(ms) {
      PairedShape(ms[2..]);
      if ms[2..] != [] {
        assert ms[|ms| - 1] == ms[2..][|ms[2..]| - 1];
      }
    }
  }

  class ChatSession {
    var messages: seq<Message>
    var pdfText: string
    var pdfName: string
    var pdfPages: nat
    var pdfWords: nat
    var totalQuestions: nat
    var model: string
    var temperature: real
    var summary: string

    /** The word count always belongs to the current text, the transcript
        is made of question/answer pairs, and every pair was counted as a
        question (clearing the chat keeps the count). */
    ghost predicate Valid()
      reads this
      ensures Valid() ==> |messages| % 2 == 0
      ensures Valid() && messages != [] ==> messages[|messages| - 1].role == Assistant
    {
      PairedShape(messages);
      && pdfWords == CountWords(pdfText)
      && Paired(messages)
      && |messages| <= 2 * totalQuestions
    }

    /** The `if st.session_state.pdf_text` gate: a document is loaded when
        its text is non-empty. */
    predicate HasDocument()
      reads this
      ensures HasDocument() <==> |pdfText| > 0
    {
      pdfText != ""
    }

    /** Without a document the word count shown is 0. */
    lemma NoDocumentNoWords()
      requires Valid() && !HasDocument()
      ensures pdfWords == 0
    {
    }

    /** Neither the document fields nor the settings changed. */
    twostate predicate SameDocument()
      reads this
    {
      && pdfText == old(pdfText) && pdfName == old(pdfName)
      && pdfPages == old(pdfPages) && pdfWords == old(pdfWords)
    }

    twostate predicate SameSettings()
      reads this
    {
      model == old(model) && temperature == old(temperature)
    }

    /** The defaults of app.py:36-49. */
    constructor ()
      ensures Valid()
      ensures messages == [] && pdfText == "" && pdfName == ""
      ensures pdfPages == 0 && pdfWords == 0 && totalQuestions == 0
      ensures model == Models[0] && temperature == DefaultTemperature && summary == ""
    {
      messages := [];
      pdfText := "";
      pdfName := "";
      pdfPages := 0;
      pdfWords := 0;
      totalQuestions := 0;
      model := Models[0];
      temperature := DefaultTemperature;
      summary := "";
      CountWordsZero("");
    }

    /** The model and creativity controls of the sidebar (app.py:79-87). */
    method Configure(choice: nat, creativity: real)
      requires Valid()
      requires choice < |Models| && 0.0 <= creativity <= 1.0
      modifies this
      ensures Valid()
      ensures model == Models[choice] && temperature == creativity
      ensures SameDocument() && messages == old(messages)
      ensures summary == old(summary) && totalQuestions == old(totalQuestions)
    {
      model := Models[choice];
      temperature := creativity;
    }

    /** The uploader (app.py:94-105). A file whose name differs from the
        current one replaces the document and starts a fresh transcript and
        summary; no file, or the same name again, changes nothing. The
        question counter and the settings survive either way. */
    method Upload(file: Option<UploadedFile>)
      requires Valid()
      modifies this
      ensures Valid()
      ensures if file.Some? && file.value.name != old(pdfName) then
          && pdfText == ConcatPages(file.value.pages)
          && pdfName == file.value.name
          && pdfPages == |file.value.pages|
          && pdfWords == CountWords(ConcatPages(file.value.pages))
          && messages == [] && summary == ""
        else
          && SameDocument()
          && messages == old(messages) && summary == old(summary)
      ensures totalQuestions == old(totalQuestions) && SameSettings()
    {
      if file.Some? && file.value.name != pdfName {
        var text := ExtractText(file.value.pages);
        pdfText := text;
        pdfName := file.value.name;
        pdfPages := |file.value.pages|;
        pdfWords := CountWords(text);
        messages := [];
        summary := "";
      }
    }

    /** "Clear Chat" (app.py:122-124), shown only with a document: empties
        the transcript and nothing else. */
    method ClearChat() returns (shown: bool)
      requires Valid()
      modifies this
      ensures Valid()
      ensures shown == old(HasDocument())
      ensures messages == if shown then [] else old(messages)
      ensures SameDocument() && SameSettings()
      ensures summary == old(summary) && totalQuestions == old(totalQuestions)
    {
      shown := HasDocument();
      if shown {
        messages := [];
      }
    }

    /** "Export" (app.py:126-128), shown only with a document: the text of
        the downloadable transcript. Reads the session only. */
    method Export() returns (file: Option<string>)
      requires Valid()
      ensures file == if HasDocument() then Some(ExportChat(messages)) else None
    {
      if HasDocument() {
        file := Some(ExportChat(messages));
      } else {
        file := None;
      }
    }

    /** A quick-question button (app.py:152-161), shown only with a
        document: the question and the model's reply join the transcript as
        one pair and the question is counted. The prompt holds the document
        excerpt and the question, with no history. */
    method AskQuick(choice: nat, reply: string) returns (prompt: Option<string>)
      requires Valid()
      requires choice < |QuickQuestions|
      modifies this
      ensures Valid()
      ensures if old(HasDocument()) then
          && prompt == Some(QuickPrompt(pdfText, QuickQuestions[choice]))
          && messages == old(messages) + [Message(User, QuickQuestions[choice]), Message(Assistant, reply)]
          && totalQuestions == old(totalQuestions) + 1
        else
          && prompt == None
          && messages == old(messages) && totalQuestions == old(totalQuestions)
      ensures SameDocument() && SameSettings() && summary == old(summary)
    {
      if !HasDocument() {
        return None;
      }
      var q := QuickQuestions[choice];
      prompt := Some(QuickPrompt(pdfText, q));
      Record(q, reply);
    }

    /** The chat input (app.py:172-193), shown only with a document; an
        empty question is ignored. The question joins the transcript first,
        so the history in the prompt ends with it; then the reply joins and
        the question is counted. */
    method AskChat(question: string, reply: string) returns (prompt: Option<string>)
      requires Valid()
      modifies this
      ensures Valid()
      ensures if old(HasDocument()) && question != "" then
          && prompt == Some(ChatPrompt(pdfText, HistoryText(old(messages) + [Message(User, question)]), question))
          && messages == old(messages) + [Message(User, question), Message(Assistant, reply)]
          && totalQuestions == old(totalQuestions) + 1
        else
          && prompt == None
          && messages == old(messages) && totalQuestions == old(totalQuestions)
      ensures SameDocument() && SameSettings() && summary == old(summary)
    {
      if !HasDocument() || question == "" {
        return None;
      }
      var asked := messages + [Message(User, question)];
      prompt := Some(ChatPrompt(pdfText, HistoryText(asked), question));
      Record(question, reply);
    }

    /** An answered question, from either the quick buttons or the chat
        input: the question and the reply join the transcript as one pair,
        the question is counted, and nothing else changes. */
    method Record(question: string, reply: string)
      requires Valid()
      modifies this
      ensures Valid()
      ensures messages == old(messages) + [Message(User, question), Message(Assistant, reply)]
      ensures totalQuestions == old(totalQuestions) + 1
      ensures SameDocument() && SameSettings() && summary == old(summary)
    {
      PairedAppend(messages, question, reply);
      messages := messages + [Message(User, question), Message(Assistant, reply)];
      totalQuestions := totalQuestions + 1;
    }

    /** "Generate Summary" and "Regenerate" (app.py:198-208), shown only
        with a document; whichever of the two is on screen, the reply
        overwrites the summary and nothing else changes. */
    method GenerateSummary(reply: string) returns (prompt: Option<string>)
      requires Valid()
      modifies this
      ensures Valid()
      ensures if old(HasDocument()) then
          prompt == Some(SummaryPrompt(pdfText)) && summary == reply
        else
          prompt == None && summary == old(summary)
      ensures SameDocument() && SameSettings()
      ensures messages == old(messages) && totalQuestions == old(totalQuestions)
    {
      if HasDocument() {
        prompt := Some(SummaryPrompt(pdfText));
        summary := reply;
      } else {
        prompt := None;
      }
    }

    /** "Generate Quiz" (app.py:214-217), shown only with a document: the
        reply is displayed and kept nowhere, so the session is unchanged. */
    method GenerateQuiz(reply: string) returns (prompt: Option<string>, quiz: Option<string>)
      requires Valid()
      ensures prompt == if HasDocument() then Some(QuizPrompt(pdfText)) else None
      ensures quiz == if HasDocument() then Some(reply) else None
    {
      if HasDocument() {
        prompt := Some(QuizPrompt(pdfText));
        quiz := Some(reply);
      } else {
        prompt, quiz := None, None;
      }
    }
  }

  /** A session from start to finish: upload a report of three pages that
      each read "Hello World", ask a quick question, clear the chat, export,
      generate a quiz twice, then pick the same file again. */
  method Walkthrough(answer: string, quiz1: string, quiz2: string)
    returns (pages: nat, words: nat, afterAsk: nat, afterClear: nat, questions: nat,
             exported: Option<string>, quiz: Option<string>)
    ensures pages == 3 && words == 4
    ensures afterAsk == 2 && afterClear == 0 && questions == 1
    ensures exported == Some("")
    ensures quiz == Some(quiz2)
  {
    var s := new ChatSession();
    var report := [Some("Hello World"), Some("Hello World"), Some("Hello World")];
    HelloWorldPages();
    s.Upload(Some(UploadedFile("report.pdf", report)));
    assert s.HasDocument() by {
      assert "Hello World" <= s.pdfText;
    }

    var _ := s.AskQuick(0, answer);
    afterAsk := |s.messages|;

    var _ := s.ClearChat();
    afterClear := |s.messages|;
    exported := s.Export();

    var _, first := s.GenerateQuiz(quiz1);
    var _, second := s.GenerateQuiz(quiz2);
    quiz := second;

    s.Upload(Some(UploadedFile("report.pdf", [])));
    pages, words, questions := s.pdfPages, s.pdfWords, s.totalQuestions;
  }
}
