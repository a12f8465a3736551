/**
 * The pure parts of the chat transport wrapper: splitting a long message into
 * chunks that fit the chat service's payload limit, the status emoji table,
 * and the legacy notification layout.
 */
module TelegramApi {
  import opened Base
  import opened Text

  // ---------------------------------------------------------------------------
  // chunkText
  // ---------------------------------------------------------------------------

  const DefaultChunkLength := 3500

  /** A line split off by `/\r?\n/` loses the carriage return that preceded its newline. */
  function DropCarriageReturn(s: string): string {
    if |s| > 0 && s[|s| - 1] == '\r' then s[..|s| - 1] else s
  }

  /** `String(text).split(/\r?\n/)` */
  function SplitLines(s: string): (lines: seq<string>)
    ensures |lines| >= 1
    ensures forall i :: 0 <= i < |lines| ==> '\n' !in lines[i]
  {
    var parts := Split(s, '\n');
    seq(|parts|, i requires 0 <= i < |parts| => if i < |parts| - 1 then DropCarriageReturn(parts[i]) else parts[i])
  }

  /** `line.slice(i, i + maxLength)` for `i = 0, maxLength, 2 * maxLength, ...` below the line's length. */
  function Slices(line: string, maxLength: nat): seq<string>
    requires maxLength >= 1
    decreases |line|
  {
    if |line| == 0 then []
    else if |line| <= maxLength then [line]
    else [line[..maxLength]] + Slices(line[maxLength..], maxLength)
  }

  /** The loop state of `chunkText`: the chunks pushed so far and the pending buffer. */
  datatype Acc = Acc(chunks: seq<string>, buffer: string)

  /** One iteration of `chunkText`'s loop over the lines. */
  function Step(acc: Acc, line: string, maxLength: nat): Acc
    requires maxLength >= 1
  {
    var next := if acc.buffer != "" then acc.buffer + "\n" + line else line;
    if |next| > maxLength then
      var flushed := if acc.buffer != "" then acc.chunks + [acc.buffer] else acc.chunks;
      if |line| > maxLength then Acc(flushed + Slices(line, maxLength), "") else Acc(flushed, line)
    else Acc(acc.chunks, next)
  }

  /** The loop state after the given lines. */
  function Process(lines: seq<string>, maxLength: nat): Acc
    requires maxLength >= 1
  {
    if |lines| == 0 then Acc([], "")
    else Step(Process(lines[..|lines| - 1], maxLength), lines[|lines| - 1], maxLength)
  }

  /** After the loop: flush a non-empty buffer; an empty result becomes `['']`. */
  function Finish(acc: Acc): seq<string> {
    var cs := if acc.buffer != "" then acc.chunks + [acc.buffer] else acc.chunks;
    if |cs| == 0 then [""] else cs
  }

  /** What `chunkText(text, maxLength)` returns. */
  function Chunks(text: string, maxLength: nat): seq<string>
    requires maxLength >= 1
  {
    Finish(Process(SplitLines(text), maxLength))
  }

  /** The inner loop of `chunkText`: a line longer than the limit pushed as consecutive slices. */
  method SliceLine(line: string, maxLength: nat) returns (pieces: seq<string>)
    requires maxLength >= 1
    ensures pieces == Slices(line, maxLength)
  {
    pieces := [];
    var i := 0;
    while i < |line|
      invariant 0 <= i
      invariant i < |line| ==> pieces + Slices(line[i..], maxLength) == Slices(line, maxLength)
      invariant i >= |line| ==> pieces == Slices(line, maxLength)
      decreases |line| - i
    {
      var rest := line[i..];
      if |rest| <= maxLength {
        assert Slice(line, i, i + maxLength) == rest;
      } else {
        assert Slice(line, i, i + maxLength) == rest[..maxLength];
        assert rest[maxLength..] == line[i + maxLength..];
      }
      pieces := pieces + [Slice(line, i, i + maxLength)];
      i := i + maxLength;
    }
    if |line| == 0 {
      assert line[0..] == line;
    }
  }

  /** `chunkText(text, maxLength)`: the buffer-and-flush loop over the lines. */
  method ChunkText(text: string, maxLength: nat) returns (chunks: seq<string>)
    requires maxLength >= 1
    ensures chunks == Chunks(text, maxLength)
    ensures |chunks| >= 1
    ensures forall i :: 0 <= i < |chunks| ==> |chunks[i]| <= maxLength
    ensures chunks == [""] || forall i :: 0 <= i < |chunks| ==> chunks[i] != ""
    ensures text == "" ==> chunks == [""]
    ensures Remove(Concat(chunks), '\n') == Concat(SplitLines(text))
  {
    var lines := SplitLines(text);
    chunks := [];
    var buffer := "";
    var i := 0;
    while i < |lines|
      invariant 0 <= i <= |lines|
      invariant Acc(chunks, buffer) == Process(lines[..i], maxLength)
    {
      var line := lines[i];
      var next := if buffer != "" then buffer + "\n" + line else line;
      if |next| > maxLength {
        if buffer != "" {
          chunks := chunks + [buffer];
        }
        if |line| > maxLength {
          var pieces := SliceLine(line, maxLength);
          chunks := chunks + pieces;
          buffer := "";
        } else {
          buffer := line;
        }
      } else {
        buffer := next;
      }
      assert lines[..i + 1][..i] == lines[..i];
      i := i + 1;
    }
    assert lines[..i] == lines;
    if buffer != "" {
      chunks := chunks + [buffer];
    }
    if |chunks| == 0 {
      chunks := [""];
    }
    ChunksBounded(text, maxLength);
    ChunksKeepContent(text, maxLength);
    if text == "" {
      ChunksOfEmpty(maxLength);
    }
  }

  // ---------------------------------------------------------------------------
  // Properties of chunkText
  // ---------------------------------------------------------------------------

  lemma {:induction false} SlicesShape(line: string, maxLength: nat)
    requires maxLength >= 1
    ensures forall i :: 0 <= i < |Slices(line, maxLength)| ==> 0 < |Slices(line, maxLength)[i]| <= maxLength
    ensures forall i :: 0 <= i < |Slices(line, maxLength)| - 1 ==> |Slices(line, maxLength)[i]| == maxLength
    ensures Concat(Slices(line, maxLength)) == line
    decreases |line|
  {
    if |line| > maxLength {
      SlicesShape(line[maxLength..], maxLength);
      assert line == line[..maxLength] + line[maxLength..];
    }
  }

  /** The loop keeps every chunk and the buffer within the limit, and never pushes an empty chunk. */
  lemma {:induction false} ProcessBounded(lines: seq<string>, maxLength: nat)
    requires maxLength >= 1
    ensures var acc := Process(lines, maxLength);
      && |acc.buffer| <= maxLength
      && forall i :: 0 <= i < |acc.chunks| ==> 0 < |acc.chunks[i]| <= maxLength
  {
    if |lines| > 0 {
      ProcessBounded(lines[..|lines| - 1], maxLength);
      SlicesShape(lines[|lines| - 1], maxLength);
    }
  }

  /** Every chunk fits; the result is `['']` or has no empty chunk. */
  lemma ChunksBounded(text: string, maxLength: nat)
    requires maxLength >= 1
    ensures forall i :: 0 <= i < |Chunks(text, maxLength)| ==> |Chunks(text, maxLength)[i]| <= maxLength
    ensures Chunks(text, maxLength) == [""] || forall i :: 0 <= i < |Chunks(text, maxLength)| ==> Chunks(text, maxLength)[i] != ""
  {
    ProcessBounded(SplitLines(text), maxLength);
  }

  /** The text held by a loop state once newlines are disregarded. */
  function Content(acc: Acc): string {
    Remove(Concat(acc.chunks), '\n') + Remove(acc.buffer, '\n')
  }

  lemma PushKeepsContent(chunks: seq<string>, piece: string)
    ensures Remove(Concat(chunks + [piece]), '\n') == Remove(Concat(chunks), '\n') + Remove(piece, '\n')
  {
    ConcatAppend(chunks, [piece]);
    ConcatSingle(piece);
    RemoveAppend(Concat(chunks), piece, '\n');
  }

  lemma JoinLineContent(buffer: string, line: string)
    requires '\n' !in line
    ensures Remove(buffer + "\n" + line, '\n') == Remove(buffer, '\n') + line
  {
    var tail := ['\n'] + line;
    assert buffer + "\n" + line == buffer + tail;
    RemoveAppend(buffer, tail, '\n');
    RemoveDropsHead('\n', line);
    RemoveAbsent(line, '\n');
  }

  /** One iteration adds exactly the line's characters to the state's content. */
  lemma StepKeepsContent(acc: Acc, line: string, maxLength: nat)
    requires maxLength >= 1
    requires '\n' !in line
    ensures Content(Step(acc, line, maxLength)) == Content(acc) + line
  {
    RemoveAbsent(line, '\n');
    var next := if acc.buffer != "" then acc.buffer + "\n" + line else line;
    if acc.buffer != "" {
      JoinLineContent(acc.buffer, line);
    }
    if |next| > maxLength {
      var flushed := if acc.buffer != "" then acc.chunks + [acc.buffer] else acc.chunks;
      PushKeepsContent(acc.chunks, acc.buffer);
      assert Remove(Concat(flushed), '\n') == Remove(Concat(acc.chunks), '\n') + Remove(acc.buffer, '\n');
      if |line| > maxLength {
        SlicesShape(line, maxLength);
        ConcatAppend(flushed, Slices(line, maxLength));
        RemoveAppend(Concat(flushed), line, '\n');
      }
    }
  }

  /** Content is kept in order: only newline characters are dropped or added between the lines. */
  lemma {:induction false} ProcessKeepsContent(lines: seq<string>, maxLength: nat)
    requires maxLength >= 1
    requires forall i :: 0 <= i < |lines| ==> '\n' !in lines[i]
    ensures Content(Process(lines, maxLength)) == Concat(lines)
  {
    if |lines| > 0 {
      var front, line := lines[..|lines| - 1], lines[|lines| - 1];
      ProcessKeepsContent(front, maxLength);
      StepKeepsContent(Process(front, maxLength), line, maxLength);
      assert lines == front + [line];
      ConcatAppend(front, [line]);
      ConcatSingle(line);
    }
  }

  lemma ChunksKeepContent(text: string, maxLength: nat)
    requires maxLength >= 1
    ensures Remove(Concat(Chunks(text, maxLength)), '\n') == Concat(SplitLines(text))
  {
    var acc := Process(SplitLines(text), maxLength);
    ProcessKeepsContent(SplitLines(text), maxLength);
    PushKeepsContent(acc.chunks, acc.buffer);
    ConcatSingle("");
  }

  /** For text without carriage returns, the lines hold exactly the text's non-newline characters. */
  lemma {:induction false} LinesAreContent(text: string)
    requires '\r' !in text
    ensures Concat(SplitLines(text)) == Remove(text, '\n')
  {
    SplitLinesPlain(text);
    ConcatSplit(text);
  }

  lemma {:induction false} SplitPiecesFromText(s: string, c: char, x: char)
    requires x !in s
    ensures forall i :: 0 <= i < |Split(s, c)| ==> x !in Split(s, c)[i]
    decreases |s|
  {
    match IndexOf(s, c)
    case None =>
    case Some(k) =>
      SplitPiecesFromText(s[k + 1..], c, x);
      assert x !in s[..k];
  }

  /** Without carriage returns, splitting on `/\r?\n/` is splitting on the newline. */
  lemma SplitLinesPlain(text: string)
    requires '\r' !in text
    ensures SplitLines(text) == Split(text, '\n')
  {
    SplitPiecesFromText(text, '\n', '\r');
  }

  lemma {:induction false} ConcatSplit(s: string)
    ensures Concat(Split(s, '\n')) == Remove(s, '\n')
    decreases |s|
  {
    match IndexOf(s, '\n')
    case None =>
      RemoveAbsent(s, '\n');
    case Some(k) =>
      var head, tail := s[..k], s[k + 1..];
      var rest := Split(tail, '\n');
      assert Split(s, '\n') == [head] + rest;
      ConcatSplit(tail);
      assert s == head + "\n" + tail;
      RemoveAppend(head + "\n", tail, '\n');
      RemoveAppend(head, "\n", '\n');
      RemoveOnly('\n');
      RemoveAbsent(head, '\n');
      ConcatAppend([head], rest);
      ConcatSingle(head);
  }

  /**
   * Chunks drop nothing but newlines: for text without carriage returns, the
   * chunks joined and stripped of newlines equal the text stripped of newlines.
   */
  lemma ChunksPreserveText(text: string, maxLength: nat)
    requires maxLength >= 1
    requires '\r' !in text
    ensures Remove(Concat(Chunks(text, maxLength)), '\n') == Remove(text, '\n')
  {
    ChunksKeepContent(text, maxLength);
    LinesAreContent(text);
  }

  lemma ContainsExtend(a: string, b: string, sub: string)
    ensures Contains(a, sub) ==> Contains(a + b, sub)
    ensures Contains(b, sub) ==> Contains(a + b, sub)
  {
    if Contains(a, sub) {
      var i :| 0 <= i <= |a| - |sub| && OccursAt(a, sub, i);
      assert (a + b)[i..i + |sub|] == a[i..i + |sub|];
      assert OccursAt(a + b, sub, i);
    }
    if Contains(b, sub) {
      var i :| 0 <= i <= |b| - |sub| && OccursAt(b, sub, i);
      assert (a + b)[|a| + i..|a| + i + |sub|] == b[i..i + |sub|];
      assert OccursAt(a + b, sub, |a| + i);
    }
  }

  lemma ContainsSelf(s: string)
    ensures Contains(s, s)
  {
    assert OccursAt(s, s, 0);
  }

  /** `line` is kept whole: some chunk pushed so far, or the buffer, contains it. */
  predicate KeptWhole(acc: Acc, line: string) {
    || Contains(acc.buffer, line)
    || exists j :: 0 <= j < |acc.chunks| && Contains(acc.chunks[j], line)
  }

  lemma ContainsEmpty(s: string, sub: string)
    requires sub == ""
    ensures Contains(s, sub)
  {
    assert OccursAt(s, sub, 0);
  }

  /** A line already kept whole stays so: the loop only appends to the buffer and to the chunks. */
  lemma StepKeepsWhole(acc: Acc, line: string, maxLength: nat, l: string)
    requires maxLength >= 1
    requires KeptWhole(acc, l)
    ensures KeptWhole(Step(acc, line, maxLength), l)
  {
    var acc' := Step(acc, line, maxLength);
    var next := if acc.buffer != "" then acc.buffer + "\n" + line else line;
    if l == "" {
      ContainsEmpty(acc'.buffer, l);
    } else if Contains(acc.buffer, l) {
      assert acc.buffer != "";
      if |next| > maxLength {
        assert acc'.chunks[|acc.chunks|] == acc.buffer;
      } else {
        ContainsExtend(acc.buffer, "\n" + line, l);
        assert acc.buffer + "\n" + line == acc.buffer + ("\n" + line);
      }
    } else {
      var j :| 0 <= j < |acc.chunks| && Contains(acc.chunks[j], l);
      assert acc'.chunks[j] == acc.chunks[j];
    }
  }

  /** The line just processed is kept whole when it fits. */
  lemma StepKeepsLine(acc: Acc, line: string, maxLength: nat)
    requires maxLength >= 1
    requires |line| <= maxLength
    ensures KeptWhole(Step(acc, line, maxLength), line)
  {
    ContainsSelf(line);
    ContainsExtend(acc.buffer + "\n", line, line);
  }

  lemma {:induction false} ProcessKeepsShortLines(lines: seq<string>, maxLength: nat)
    requires maxLength >= 1
    ensures forall k :: 0 <= k < |lines| && |lines[k]| <= maxLength ==> KeptWhole(Process(lines, maxLength), lines[k])
  {
    if |lines| > 0 {
      var front, line := lines[..|lines| - 1], lines[|lines| - 1];
      ProcessKeepsShortLines(front, maxLength);
      var acc := Process(front, maxLength);
      forall k | 0 <= k < |lines| && |lines[k]| <= maxLength
        ensures KeptWhole(Process(lines, maxLength), lines[k])
      {
        if k == |lines| - 1 {
          StepKeepsLine(acc, line, maxLength);
        } else {
          assert lines[k] == front[k];
          StepKeepsWhole(acc, line, maxLength, lines[k]);
        }
      }
    }
  }

  /** A line that fits the limit is never split across chunks: it sits whole inside one chunk. */
  lemma ShortLinesNotSplit(text: string, maxLength: nat)
    requires maxLength >= 1
    ensures forall k :: 0 <= k < |SplitLines(text)| && |SplitLines(text)[k]| <= maxLength ==>
      exists j :: 0 <= j < |Chunks(text, maxLength)| && Contains(Chunks(text, maxLength)[j], SplitLines(text)[k])
  {
    var lines := SplitLines(text);
    var acc := Process(lines, maxLength);
    var result := Chunks(text, maxLength);
    ProcessKeepsShortLines(lines, maxLength);
    forall k | 0 <= k < |lines| && |lines[k]| <= maxLength
      ensures exists j :: 0 <= j < |result| && Contains(result[j], lines[k])
    {
      var l := lines[k];
      if Contains(acc.buffer, l) {
        if acc.buffer != "" {
          assert result[|acc.chunks|] == acc.buffer;
        } else {
          assert |l| == 0;
          assert OccursAt(result[0], l, 0);
        }
      } else {
        var j :| 0 <= j < |acc.chunks| && Contains(acc.chunks[j], l);
        assert result[j] == acc.chunks[j];
      }
    }
  }

  /** While everything fits, the loop only grows the buffer: it holds the lines so far, joined. */
  lemma {:induction false} ProcessFits(lines: seq<string>, maxLength: nat, i: nat)
    requires maxLength >= 1
    requires 1 <= i <= |lines| && lines[0] != ""
    requires |Join(lines, "\n")| <= maxLength
    ensures Process(lines[..i], maxLength) == Acc([], Join(lines[..i], "\n"))
    decreases i
  {
    assert lines[..|lines|] == lines;
    JoinPrefixGrows(lines, "\n", i, |lines|);
    if i == 1 {
      assert lines[..1][..0] == [];
    } else {
      ProcessFits(lines, maxLength, i - 1);
      assert lines[..i][..i - 1] == lines[..i - 1];
      assert lines[..i] == lines[..i - 1] + [lines[i - 1]];
      JoinSnoc(lines[..i - 1], lines[i - 1], "\n");
      JoinPrefixGrows(lines, "\n", 1, i - 1);
      assert Join(lines[..1], "\n") == lines[0];
    }
  }

  lemma FirstPieceNonEmpty(s: string, c: char)
    requires s != "" && s[0] != c
    ensures Split(s, c)[0] != ""
  {
  }

  /**
   * Text that fits the limit, has no carriage return and does not begin with a
   * newline comes back as the single chunk it already is.
   */
  lemma FittingTextNotSplit(text: string, maxLength: nat)
    requires maxLength >= 1
    requires text != "" && text[0] != '\n' && '\r' !in text
    requires |text| <= maxLength
    ensures Chunks(text, maxLength) == [text]
  {
    var lines := SplitLines(text);
    SplitLinesPlain(text);
    JoinSplit(text, '\n');
    FirstPieceNonEmpty(text, '\n');
    ProcessFits(lines, maxLength, |lines|);
    assert lines[..|lines|] == lines;
  }

  /** Empty text gives the single empty chunk that the `['']` fallback supplies. */
  lemma ChunksOfEmpty(maxLength: nat)
    requires maxLength >= 1
    ensures Chunks("", maxLength) == [""]
  {
    assert IndexOf("", '\n') == None;
    assert SplitLines("") == [""];
    assert SplitLines("")[..0] == [];
    assert Process([""], maxLength) == Step(Acc([], ""), "", maxLength);
  }

  /** Leading blank lines are dropped: the loop never buffers an empty first line. */
  lemma LeadingNewlineDropped()
    ensures Chunks("\nok", 3500) == ["ok"]
  {
    assert Split("\nok", '\n') == ["", "ok"] by {
      assert IndexOf("\nok", '\n') == Some(0);
      assert "\nok"[1..] == "ok";
      assert IndexOf("ok", '\n') == None;
    }
    var lines := SplitLines("\nok");
    assert lines == ["", "ok"];
    assert lines[..1] == [""];
    assert lines[..1][..0] == [];
    assert Process(lines[..1], 3500) == Acc([], "");
    assert Process(lines, 3500) == Step(Acc([], ""), "ok", 3500);
  }

  /** A line longer than the limit is cut into full-size slices and one shorter remainder. */
  lemma LongLinesSliced(line: string, maxLength: nat)
    requires maxLength >= 1 && |line| > maxLength
    ensures |Slices(line, maxLength)| >= 2
    ensures Concat(Slices(line, maxLength)) == line
    ensures forall i :: 0 <= i < |Slices(line, maxLength)| - 1 ==> |Slices(line, maxLength)[i]| == maxLength
  {
    SlicesShape(line, maxLength);
  }

  // ---------------------------------------------------------------------------
  // statusEmoji and formatNotification
  // ---------------------------------------------------------------------------

  const StatusEmojis: map<string, string> := map[
    "success" := "✅",
    "error" := "❌",
    "warning" := "⚠️",
    "info" := "ℹ️",
    "working" := "🔄",
    "done" := "🎉",
    "question" := "❓",
    "stop" := "⏸️",
    "end" := "🏁"]

  const Robot := "🤖"

  /** `statusEmoji(status)`: the table entry, or the robot for an unknown status. */
  function StatusEmoji(status: string): (e: string)
    ensures e != ""
    ensures e == Robot <==> status !in StatusEmojis
    ensures status in StatusEmojis ==> e == StatusEmojis[status]
  {
    if status in StatusEmojis then StatusEmojis[status] else Robot
  }

  /** `options.x || fallback` for an optional text option. */
  function OrDefault(v: Option<string>, fallback: string): (r: string)
    ensures r == fallback || (v.Some? && r == v.value && r != "")
  {
    if v.Some? && v.value != "" then v.value else fallback
  }

  /**
   * `formatNotification(message, {status, project, cwd})`, the clock reading
   * passed in as the already formatted `timestamp`.
   */
  function FormatNotification(message: string, status: Option<string>, project: Option<string>,
                              cwd: Option<string>, timestamp: string): (r: string)
    ensures var header := StatusEmoji(OrDefault(status, "info")) + " *" + OrDefault(project, "Claude Code") + "*";
      && StartsWith(r, header)
      && EndsWith(r, "\n\n" + message + "\n\n_" + timestamp + "_")
      && (OrDefault(cwd, "") == "" <==> r == header + "\n\n" + message + "\n\n_" + timestamp + "_")
      && (OrDefault(cwd, "") != "" ==> StartsWith(r, header + "\n📂 `" + cwd.value + "`"))
  {
    var emoji := StatusEmoji(OrDefault(status, "info"));
    var proj := OrDefault(project, "Claude Code");
    var path := OrDefault(cwd, "");
    var formatted := emoji + " *" + proj + "*";
    var formatted := if path != "" then formatted + "\n📂 `" + path + "`" else formatted;
    formatted + "\n\n" + message + "\n\n_" + timestamp + "_"
  }
}
