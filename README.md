# PDF AI Assistant — a Dafny model of its session logic

The application (`app.py`) is a single Streamlit page. A user uploads a PDF.
The page extracts the text, then asks a hosted language model about it: free
questions, three canned "quick questions", a five-bullet summary and a quiz.
Under the UI sits a small core, and this project models it:

- **Word counting** (`count_words`, `re.findall(r'\w+', text)`), in module
  `Words`. `FindWords` returns the matches and `CountWords` counts them. The count
  is proved equal to an independent count of the positions where a run of
  word characters begins.
- **Transcript text**, in module `Transcript`. It covers the export file
  (`"\n\n".join` of `ROLE: content` blocks) and the chat-history block: the
  last six messages as `role: content` lines, joined by `"\n"`.
- **Prompt composition**, in module `Prompts`. Each prompt is fixed text
  plus a character-count excerpt of the document: 6000 characters for the
  summary and the quiz, 8000 for questions. The chat prompt also holds the
  history block.
- **Document ingestion**, in module `Ingest`. The page texts are
  concatenated with no separator, and a page without text counts as `""`.
- **The session state** (`st.session_state`), in module `SessionState`.
  Class `ChatSession` has one field per session key and one method per user
  action: upload, configure, clear chat, export, quick question, chat
  question, generate/regenerate summary and generate quiz.

The PDF reader's output is an input: a `seq<Option<string>>` of page texts.
The language model's reply is a string parameter. Each action that would
call the model returns the prompt it would send. A button that the page only
shows once the document has text (`if st.session_state.pdf_text`) becomes a
branch that changes nothing when `pdfText` is empty.

`ChatSession.Valid()` is the invariant every action keeps:

- `pdfWords` is the word count of `pdfText`.
- The transcript is a run of (user, assistant) pairs.
- There are never more pairs than counted questions.

Note on the word count: take three pages that each read "Hello World".
Summing the pages gives 6 words, but the code counts 4. It joins the pages
with no separator, so it counts the words of
"Hello WorldHello WorldHello World". The model follows the code (lemma
`Ingest.ThreeTwoWordPages`). In general the document's count never exceeds
the sum of the per-page counts (`Ingest.PageWordsBound`).

## Model

| member | source | states |
|---|---|---|
| `Words.RunLength` | app.py:60 | the greedy `\w+` match at the start of a text: the longest prefix made only of word characters, ending at the text's end or at a non-word character |
| `Words.FindWords` | app.py:60 | every match `re.findall(r'\w+', …)` returns is non-empty and made only of word characters |
| `Words.CountWords` | app.py:59-60 | the number of `\w+` matches; two words are always parted by a non-word character, so a text of N characters has at most (N + 1) / 2 words |
| `Words.CountWordsIsRunStarts` | app.py:59-60 | `count_words` equals the number of positions where a maximal run of word characters begins (independent reference definition) |
| `Words.CountWordsConcat` | app.py:59-60 | the count of a concatenation is the sum of the two counts, minus one exactly when a word straddles the boundary |
| `Words.RunStartsConcat` | app.py:59-60 | the same boundary law for the reference count of run starts |
| `Words.CountWordsZero` | app.py:59-60 | the count is 0 if and only if the text has no word characters (so 0 for the empty text) |
| `Words.OneWord` | app.py:59-60 | a non-empty text of word characters only counts as one word |
| `Words.FindWordsContent` | app.py:60 | concatenating the matches gives exactly the text's word characters, in order |
| `Transcript.RoleName` | app.py:154-159 | the role string stored with a message (also at app.py:173 and 192): `user` exactly for the user, `assistant` exactly for the assistant, so the stored string tells the roles apart |
| `Transcript.Upper` | app.py:127 | `str.upper()` keeps the length and upper-cases each ASCII letter |
| `Transcript.UpperRoleNames` | app.py:127 | the export labels are `USER` and `ASSISTANT` |
| `Transcript.Join` | app.py:127 | `sep.join(parts)`: the first part opens the result and, with two parts or more, the separator and the last part close it (the same join builds the history block at app.py:180) |
| `Transcript.JoinTerminated` | app.py:127 | `sep.join(parts)` followed by one more `sep` is every part followed by `sep`: separators go only between neighbours |
| `Transcript.JoinLength` | app.py:127 | N joined parts hold the parts' characters plus N-1 separators |
| `Transcript.JoinAppend` | app.py:127 | joining one more part appends a separator and that part at the end |
| `Transcript.ExportBlock` | app.py:127 | one export block is `USER: ` or `ASSISTANT: ` followed by the message content |
| `Transcript.ExportBlocks` | app.py:127 | one block per message, in transcript order, each `ROLE: content` |
| `Transcript.ExportChat` | app.py:127 | the export is empty if and only if the transcript is, and otherwise starts with the first message's block |
| `Transcript.ExportAppend` | app.py:127 | a later message adds a blank line and its block at the end of the export |
| `Transcript.ExportLayout` | app.py:127 | N messages export as N blocks separated by N-1 blank lines, so the length is the blocks' length plus 2(N-1) |
| `Transcript.Recent` | app.py:180 | `messages[-6:]`: the last min(6, N) messages, as a suffix of the transcript |
| `Transcript.RecentKeepsLast` | app.py:180 | the window's last message is the transcript's last message |
| `Transcript.HistoryLine` | app.py:180 | one history line is `user: ` or `assistant: ` (the role as stored, not upper-cased) followed by the content |
| `Transcript.HistoryLines` | app.py:180 | as many lines as messages; the first line is the oldest message's and the last line the newest's (the lines in between are given by `HistoryLayout`) |
| `Transcript.HistoryText` | app.py:180 | the history block is empty for an empty transcript; otherwise it ends with the newest message's line, after a `"\n"` when there are older messages |
| `Transcript.HistoryLayout` | app.py:180 | the whole history block: the lines of the last min(6, N) messages, oldest first, each followed by `"\n"` except the last (reference layout `Terminated`) |
| `Transcript.HistoryEndsWithQuestion` | app.py:173-180 | once the question is appended, the history block's last line is `user: <question>`, after a line break when the transcript already held messages |
| `Prompts.Excerpt` | app.py:64 | `text[:n]` is a prefix of the text of length min(n, length of the text) |
| `Prompts.SummaryPrompt` | app.py:62-65 | the summary prompt is the fixed instruction followed by the document's prefix of length min(6000, N) |
| `Prompts.QuizPrompt` | app.py:67-70 | the quiz prompt is the fixed instruction followed by the document's prefix of length min(6000, N) |
| `Prompts.QuickPrompt` | app.py:157 | the quick prompt is `Document:\n`, then the document's first min(8000, N) characters, then `\n\nQuestion: <q>` |
| `Prompts.ChatPrompt` | app.py:181-189 | the chat prompt is the instruction header, then the first min(8000, N) characters of the document, then `\n\nHistory:\n` and the history block, then `\n\nQuestion: <q>` |
| `Prompts.ChatPromptEndsWithQuestion` | app.py:173-189 | in a chat prompt built after the question is appended, the text before the final question ends with the history line `user: <q>` |
| `Ingest.PageText` | app.py:99 | `page.extract_text() or ""`: a page without text contributes `""`, a page with text contributes exactly that text |
| `Ingest.ConcatPages` | app.py:97-99 | the document text is the page texts in page order with nothing between them; the first page's text opens it |
| `Ingest.ExtractText` | app.py:97-99 | the page loop's result is the in-order concatenation of the page texts, with a page without text contributing `""` |
| `Ingest.ConcatPagesAppend` | app.py:97-99 | the text of two runs of pages is the first run's text followed by the second's |
| `Ingest.PageWordsBound` | app.py:97-103 | the document's word count never exceeds the sum of its pages' word counts |
| `Ingest.SplitWordCountsOnce` | app.py:97-103 | a word split across two pages ("Hel", "lo") counts once, not twice |
| `Ingest.TwoWordPage` | app.py:59-60 | a page that reads word, space, word has two words |
| `Ingest.ThreeTwoWordPages` | app.py:97-103 | three "Hello World"-shaped pages give 3 pages but 4 words, not 6 |
| `Ingest.HelloWorldPages` | app.py:97-103 | for three pages that each read "Hello World", the page count is 3 and the word count 4, while the per-page counts sum to 6 |
| `SessionState.PairedAppend` | app.py:172-193 | appending a question and its answer keeps the transcript a run of (user, assistant) pairs |
| `SessionState.PairedShape` | app.py:152-193 | a transcript of (user, assistant) pairs has even length and, when non-empty, ends with an assistant message |
| `SessionState.ChatSession.Valid` | app.py:36-193 | the session invariant: the stored word count is the count of the stored text, the transcript is a run of (user, assistant) pairs, there are never more pairs than counted questions; so the transcript has even length and ends with an answer |
| `SessionState.ChatSession.HasDocument` | app.py:131 | the `pdf_text` gate (here and at app.py:108) that every action but upload and settings sits behind: it holds exactly when the document text is non-empty |
| `SessionState.ChatSession.NoDocumentNoWords` | app.py:100-103 | in a valid session without document text the stored word count is 0 |
| `SessionState.ChatSession.constructor` | app.py:36-49 | the session starts with the defaults: empty transcript, text, name and summary, zero counts, the first model, temperature 0.7 |
| `SessionState.ChatSession.Configure` | app.py:79-87 | choosing a model and a creativity sets `model` and `temperature` and nothing else |
| `SessionState.ChatSession.Upload` | app.py:94-105 | a new file name replaces the text (the concatenated pages), name, page count (all pages) and word count, and empties the transcript and summary. No file, or the same name, changes nothing. The question counter and settings always survive |
| `SessionState.ChatSession.ClearChat` | app.py:122-124 | with a document, it empties the transcript and changes nothing else: counter, summary, document and settings stay |
| `SessionState.ChatSession.Export` | app.py:126-128 | with a document, the download text is the export of the current transcript. Without one, nothing is offered. The session is only read |
| `SessionState.ChatSession.Record` | app.py:154-160 | an answered question (also app.py:173 and 192-193): the question and the reply join the transcript as one (user, assistant) pair and the counter adds 1; the invariant holds and nothing else changes |
| `SessionState.ChatSession.AskQuick` | app.py:152-161 | with a document, it appends exactly the canned question and the reply, adds 1 to the counter, and sends the excerpt-and-question prompt. Document, summary and settings stay |
| `SessionState.ChatSession.AskChat` | app.py:172-193 | with a document and a non-empty question, it appends exactly the question and the reply and adds 1 to the counter. The prompt's history is built after the question is appended. Otherwise nothing changes |
| `SessionState.ChatSession.GenerateSummary` | app.py:198-208 | Generate and Regenerate both overwrite `summary` with the reply, sending the summary prompt. Nothing else changes |
| `SessionState.ChatSession.GenerateQuiz` | app.py:214-217 | with a document, it sends the quiz prompt and shows the reply. The session is never written |
| `SessionState.Walkthrough` | app.py:36-217 | a scenario: upload three "Hello World" pages (3 pages, 4 words), ask a quick question (2 messages), clear (0 messages, 1 question still counted), export the empty transcript (`""`), quiz twice (the second reply is shown), re-upload under the same name (nothing changes) |

## Left out

- Streamlit rendering is not modelled: page config, CSS, sidebar layout, tabs, spinners, statistics boxes, chat widgets, `st.rerun` and `download_button` (app.py:12-33, 73-92, 106-121, 132-217). It has no behaviour beyond the transitions above.
- PDF parsing (`PdfReader`, `page.extract_text()`, app.py:96-99) is not modelled. It is a foreign library; its output is the input sequence of optional page texts, and a malformed PDF's library failure is not modelled.
- The language-model client (`ChatGroq`, `llm.invoke`, app.py:52-57, 64, 69, 158, 190) is not modelled. It is a network call; the reply is an arbitrary string parameter.
- A failing model call is not modelled. In app.py it raises after the user message was appended (app.py:154, 173), which would leave an unanswered question in the transcript. Modelled calls always return, so `Valid()` can state that the transcript is made of pairs.
- The API key set-up (app.py:1-4) is left out. It is environment I/O, and line 4 names an undefined variable.
- `Words.IsWordChar` covers only the ASCII part of Python's Unicode `\w` (letters, digits, underscore). The counting lemmas hold for any choice of word characters. Three lemmas use the ASCII definition. `Ingest.HelloWorldShape` checks that "Hello" and "World" are words and " " is not. `Ingest.HelloWorldPages` builds on it. `Ingest.SplitWordCountsOnce` checks that "Hello", "Hel" and "lo" are made of word characters.
- `Transcript.Upper` upper-cases ASCII letters only; it is applied only to the role names `user` and `assistant`.
- The creativity slider's value is a floating-point number that only reaches the model client; it is kept as an exact `real`.
- The display-only difference between the "Generate Summary" and "Regenerate" buttons (app.py:198-205) is not modelled. Both perform the same update, so `GenerateSummary` models both.
