/** The chat transcript and the two ways app.py turns it into text: the
    export file (app.py:127) and the history block of a chat prompt
    (app.py:180). */
module Transcript {

  /** Every message app.py appends has role "user" or "assistant". */
  datatype Role = User | Assistant

  datatype Message = Message(role: Role, content: string)

  /** The role string stored in the message dictionary; each role has its
      own name, so the stored string tells the roles apart. */
  function RoleName(r: Role): (name: string)
    ensures name == "user" <==> r == User
    ensures name == "assistant" <==> r == Assistant
  {
    match r
    case User => "user"
    case Assistant => "assistant"
  }

  /** `str.upper()` on ASCII letters; role names are ASCII. */
  function UpperChar(c: char): char {
    if 'a' <= c <= 'z' then (c as int - 32) as char else c
  }

  function Upper(s: string): (r: string)
    ensures |r| == |s|
    ensures forall i :: 0 <= i < |s| ==> r[i] == UpperChar(s[i])
  {
    if s == [] then [] else [UpperChar(s[0])] + Upper(s[1..])
  }

  /** Upper-casing the two role names gives the labels of the export file. */
  lemma UpperRoleNames()
    ensures Upper(RoleName(User)) == "USER"
    ensures Upper(RoleName(Assistant)) == "ASSISTANT"
  {
  }

  // ---------------------------------------------------------------------
  // Joining strings.

  /** Python's `sep.join(parts)`: the first part opens the result and, with
      two parts or more, a separator and the last part close it. */
  function Join(parts: seq<string>, sep: string): (r: string)
    ensures parts != [] ==> parts[0] <= r
    ensures |parts| > 1 ==> EndsWith(r, sep + parts[|parts| - 1])
  {
    if parts == [] then ""
    else if |parts| == 1 then parts[0]
    else parts[0] + sep + Join(parts[1..], sep)
  }

  /** A reference layout: every part followed by one separator. */
  function Terminated(parts: seq<string>, sep: string): string {
    if parts == [] then "" else parts[0] + sep + Terminated(parts[1..], sep)
  }

  function TotalLength(parts: seq<string>): nat {
    if parts == [] then 0 else |parts[0]| + TotalLength(parts[1..])
  }

  /** Joining puts a separator between neighbours only: with one more
      separator at the end, a join is every part followed by a separator. */
  lemma {:induction false} JoinTerminated(parts: seq<string>, sep: string)
    requires parts != []
    ensures Join(parts, sep) + sep == Terminated(parts, sep)
  {
    if |parts| > 1 {
      JoinTerminated(parts[1..], sep);
    }
  }

  /** N parts joined hold the parts and N - 1 separators. */
  lemma {:induction false} JoinLength(parts: seq<string>, sep: string)
    requires parts != []
    ensures |Join(parts, sep)| == TotalLength(parts) + (|parts| - 1) * |sep|
  {
    if |parts| > 1 {
      var tail := parts[1..];
      JoinLength(tail, sep);
      assert |Join(parts, sep)| == |parts[0]| + |sep| + |Join(tail, sep)|;
      assert TotalLength(parts) == |parts[0]| + TotalLength(tail);
      OneMoreSeparator(|tail|, |sep|);
    } else {
      assert parts[1..] == [];
    }
  }

  lemma OneMoreSeparator(k: int, width: int)
    ensures (k - 1) * width + width == k * width
  {
  }

  /** Appending a part appends a separator and the part. */
  lemma {:induction false} JoinAppend(parts: seq<string>, p: string, sep: string)
    requires parts != []
    ensures Join(parts + [p], sep) == Join(parts, sep) + sep + p
  {
    if |parts| > 1 {
      assert (parts + [p])[1..] == parts[1..] + [p];
      JoinAppend(parts[1..], p, sep);
    } else {
      assert parts + [p] == [parts[0], p];
    }
  }

  // ---------------------------------------------------------------------
  // Export (app.py:127): "\n\n".join(f"{role.upper()}: {content}" ...).

  const ExportSeparator := "\n\n"

  /** One block of the export: the upper-cased role, a colon and a space,
      then the content. */
  function ExportBlock(m: Message): (r: string)
    ensures r == (if m.role == User then "USER" else "ASSISTANT") + ": " + m.content
  {
    UpperRoleNames();
    Upper(RoleName(m.role)) + ": " + m.content
  }

  function ExportBlocks(ms: seq<Message>): (blocks: seq<string>)
    ensures |blocks| == |ms|
    ensures forall i :: 0 <= i < |ms| ==> blocks[i] == ExportBlock(ms[i])
  {
    seq(|ms|, i requires 0 <= i < |ms| => ExportBlock(ms[i]))
  }

  /** The text of the exported chat file. It is empty exactly when the
      transcript is, and otherwise opens with the first message's block. */
  function ExportChat(ms: seq<Message>): (r: string)
    ensures r == "" <==> ms == []
    ensures ms != [] ==> ExportBlock(ms[0]) <= r
  {
    Join(ExportBlocks(ms), ExportSeparator)
  }

  /** Export keeps transcript order: a later message adds a blank line and
      its block at the end. */
  lemma ExportAppend(ms: seq<Message>, m: Message)
    requires ms != []
    ensures ExportChat(ms + [m]) == ExportChat(ms) + ExportSeparator + ExportBlock(m)
  {
    assert ExportBlocks(ms + [m]) == ExportBlocks(ms) + [ExportBlock(m)];
    JoinAppend(ExportBlocks(ms), ExportBlock(m), ExportSeparator);
  }

  /** N messages export as N blocks in transcript order with N - 1 blank
      lines between them: adding one more separator gives each block
      followed by a separator. */
  lemma ExportLayout(ms: seq<Message>)
    requires ms != []
    ensures ExportChat(ms) + ExportSeparator == Terminated(ExportBlocks(ms), ExportSeparator)
    ensures |ExportChat(ms)| == TotalLength(ExportBlocks(ms)) + 2 * (|ms| - 1)
  {
    JoinTerminated(ExportBlocks(ms), ExportSeparator);
    JoinLength(ExportBlocks(ms), ExportSeparator);
  }

  // ---------------------------------------------------------------------
  // Chat history (app.py:180): "\n".join(f"{role}: {content}" for the last
  // six messages).

  const HistorySize := 6

  function Min(a: int, b: int): int {
    if a <= b then a else b
  }

  /** Python's `ms[-6:]`: the last six messages, or all of them when there
      are fewer. */
  function Recent(ms: seq<Message>): (r: seq<Message>)
    ensures |r| == Min(HistorySize, |ms|)
    ensures r == ms[|ms| - |r|..]
  {
    if |ms| <= HistorySize then ms else ms[|ms| - HistorySize..]
  }

  /** One line of the chat history: the role as stored, a colon and a
      space, then the content. */
  function HistoryLine(m: Message): (r: string)
    ensures r == (if m.role == User then "user" else "assistant") + ": " + m.content
  {
    RoleName(m.role) + ": " + m.content
  }

  /** One history line per message, in transcript order: the first line
      is the oldest message and the last line the newest. */
  function HistoryLines(ms: seq<Message>): (lines: seq<string>)
    ensures |lines| == |ms|
    ensures ms != [] ==> lines[0] == HistoryLine(ms[0])
    ensures ms != [] ==> lines[|lines| - 1] == HistoryLine(ms[|ms| - 1])
  {
    seq(|ms|, i requires 0 <= i < |ms| => HistoryLine(ms[i]))
  }

  /** The `history` string of app.py:180. It is empty for an empty
      transcript; otherwise its last line is the newest message, after a
      line break when the transcript holds older messages. */
  function HistoryText(ms: seq<Message>): (r: string)
    ensures ms == [] ==> r == ""
    ensures ms != [] ==> EndsWith(r, HistoryLine(ms[|ms| - 1]))
    ensures |ms| > 1 ==> EndsWith(r, "\n" + HistoryLine(ms[|ms| - 1]))
  {
    if ms == [] then ""
    else
      var w := Recent(ms);
      RecentKeepsLast(ms);
      assert |ms| > 1 ==> |w| > 1;
      LastLine(w, HistoryLine(ms[|ms| - 1]));
      Join(HistoryLines(w), "\n")
  }

  /** The whole history block: the window of the last min(6, N) messages,
      oldest first, one line each, with a line break after every line but
      the last. */
  lemma HistoryLayout(ms: seq<Message>)
    requires ms != []
    ensures var w := Min(HistorySize, |ms|);
      HistoryText(ms) + "\n"
        == Terminated(seq(w, i requires 0 <= i < w => HistoryLine(ms[|ms| - w + i])), "\n")
  {
    var w := Min(HistorySize, |ms|);
    assert HistoryLines(Recent(ms)) == seq(w, i requires 0 <= i < w => HistoryLine(ms[|ms| - w + i]));
    JoinTerminated(HistoryLines(Recent(ms)), "\n");
  }

  predicate EndsWith(s: string, suffix: string) {
    |suffix| <= |s| && s[|s| - |suffix|..] == suffix
  }

  /** The window keeps the newest message last. */
  lemma RecentKeepsLast(ms: seq<Message>)
    requires ms != []
    ensures Recent(ms) != [] && Recent(ms)[|Recent(ms)| - 1] == ms[|ms| - 1]
  {
  }

  /** A suffix of a suffix is a suffix. */
  lemma EndsWithShorter(s: string, a: string, b: string)
    requires EndsWith(s, a + b)
    ensures EndsWith(s, b)
  {
  }

  lemma LastLine(w: seq<Message>, line: string)
    requires w != [] && HistoryLine(w[|w| - 1]) == line
    ensures EndsWith(Join(HistoryLines(w), "\n"), line)
    ensures |w| > 1 ==> EndsWith(Join(HistoryLines(w), "\n"), "\n" + line)
  {
    var lines := HistoryLines(w);
    if |w| == 1 {
      assert lines == [line];
    } else {
      EndsWithShorter(Join(lines, "\n"), "\n", line);
    }
  }

  /** After the user's question is appended, the history block ends with
      that question as its last line, preceded by a line break when the
      transcript already held messages. */
  lemma HistoryEndsWithQuestion(ms: seq<Message>, q: string)
    ensures EndsWith(HistoryText(ms + [Message(User, q)]), "user: " + q)
    ensures ms != [] ==> EndsWith(HistoryText(ms + [Message(User, q)]), "\nuser: " + q)
  {
    var t := ms + [Message(User, q)];
    assert t[|t| - 1] == Message(User, q);
    var line := HistoryLine(t[|t| - 1]);
    assert line == "user: " + q;
    assert "\n" + line == "\nuser: " + q;
  }
}
