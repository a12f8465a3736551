/**
 * Shared helpers: chat command parsing, the sender allowlist, truncation,
 * stripping terminal colour codes, and laying out a question set as chat text
 * plus an inline keyboard whose buttons point back at the options.
 */
module Utils {
  import opened Base
  import opened Text
  import opened Json

  // ---------------------------------------------------------------------------
  // parseCommand
  // ---------------------------------------------------------------------------

  /** `{ cmd, rest }`: `cmd` is `None` (null) for text that is not a command. */
  datatype Command = Command(cmd: Option<string>, rest: string)

  /** The part of `s` before the first `c`: `s.split(c)[0]`. */
  function Before(s: string, c: char): (r: string)
    ensures c !in r
    ensures IndexOf(s, c).None? ==> r == s
    ensures IndexOf(s, c).Some? ==> r == s[..IndexOf(s, c).value]
  {
    match IndexOf(s, c)
    case None => s
    case Some(k) => s[..k]
  }

  /** `parseCommand(text)` */
  function ParseCommand(text: string): (c: Command)
    ensures !StartsWith(Trim(text), "/") ==> c == Command(None, Trim(text))
  {
    var trimmed := Trim(text);
    if !StartsWith(trimmed, "/") then Command(None, trimmed)
    else
      var parts := Split(trimmed, ' ');
      var first := parts[0];
      Command(Some(ToLower(Split(first, '@')[0])), Trim(Join(parts[1..], " ")))
  }

  /** The first piece of a split is the part before the first separator. */
  lemma SplitHead(s: string, c: char)
    ensures Split(s, c)[0] == Before(s, c)
  {
  }

  /** A token that starts with `/` still does after cutting at `@` and lower-casing. */
  lemma SlashSurvives(token: string)
    requires |token| > 0 && token[0] == '/'
    ensures StartsWith(ToLower(Before(token, '@')), "/")
  {
    var name := Before(token, '@');
    assert |name| > 0 && name[0] == '/';
  }

  /**
   * A command is the first space-separated token of the trimmed text, cut at
   * its first `@` and lower-cased, so it starts with `/`; the rest is the text
   * after the first space, trimmed, or empty when there is no space.
   */
  lemma {:induction false} ParseCommandShape(text: string)
    requires StartsWith(Trim(text), "/")
    ensures var t := Trim(text);
      && ParseCommand(text).cmd == Some(ToLower(Before(Before(t, ' '), '@')))
      && StartsWith(ParseCommand(text).cmd.value, "/")
      && ParseCommand(text).rest == (if ' ' in t then Trim(t[IndexOf(t, ' ').value + 1..]) else "")
  {
    var t := Trim(text);
    var parts := Split(t, ' ');
    var first := parts[0];
    assert ParseCommand(text) == Command(Some(ToLower(Split(first, '@')[0])), Trim(Join(parts[1..], " ")));
    SplitHead(t, ' ');
    SplitHead(first, '@');
    assert t[0] == '/';
    assert first[0] == '/';
    SlashSurvives(first);
    JoinSplitTail(t, ' ');
  }

  // ---------------------------------------------------------------------------
  // isUserAllowed
  // ---------------------------------------------------------------------------

  /** `array.includes(x)`, searching from the front. */
  function Includes(a: seq<Value>, x: Value): (r: bool)
    ensures r <==> x in a
  {
    if |a| == 0 then false else a[0] == x || Includes(a[1..], x)
  }

  /** The allowlist is in force: `allowed_user_ids` is a non-empty array. */
  predicate AllowlistActive(allowed: Option<Value>) {
    allowed.Some? && allowed.value.JArr? && |allowed.value.elems| > 0
  }

  /** `isUserAllowed(userId, allowedIds)`; `userId` is `None` when the update has no sender. */
  function IsUserAllowed(userId: Option<int>, allowed: Option<Value>): (ok: bool)
    ensures !AllowlistActive(allowed) ==> ok
    ensures AllowlistActive(allowed) ==> (ok <==> userId.Some? && JNum(userId.value) in allowed.value.elems)
  {
    if allowed.None? || !allowed.value.JArr? || |allowed.value.elems| == 0 then true
    else userId.Some? && Includes(allowed.value.elems, JNum(userId.value))
  }

  // ---------------------------------------------------------------------------
  // truncate and stripAnsi
  // ---------------------------------------------------------------------------

  /** `truncate(text, maxLength)` */
  function Truncate(text: string, maxLength: int): (r: string)
    ensures |text| <= maxLength ==> r == text
    ensures |r| <= |text| + 3
    ensures maxLength >= 3 && |text| > maxLength ==>
      |r| == maxLength && EndsWith(r, "...") && r[..maxLength - 3] == text[..maxLength - 3]
  {
    if |text| <= maxLength then text else Slice(text, 0, maxLength - 3) + "..."
  }

  const Esc: char := '\U{1B}'

  predicate IsAnsiParam(c: char) { '0' <= c <= '9' || c == ';' }

  predicate IsAsciiLetter(c: char) { 'a' <= c <= 'z' || 'A' <= c <= 'Z' }

  /** The end of the run of `[0-9;]` characters that starts at `j`. */
  function ParamRunEnd(s: string, j: nat): (k: nat)
    requires j <= |s|
    ensures j <= k <= |s|
    ensures forall i :: j <= i < k ==> IsAnsiParam(s[i])
    ensures k == |s| || !IsAnsiParam(s[k])
    decreases |s| - j
  {
    if j < |s| && IsAnsiParam(s[j]) then ParamRunEnd(s, j + 1) else j
  }

  /**
   * `stripAnsi(input)`: removes every match of `ESC [ [0-9;]* [a-zA-Z]`,
   * scanning left to right as a global regular-expression replace does.
   */
  function StripAnsi(s: string): (r: string)
    ensures |r| <= |s|
    decreases |s|
  {
    if |s| == 0 then ""
    else if |s| >= 2 && s[0] == Esc && s[1] == '[' && ParamRunEnd(s, 2) < |s| && IsAsciiLetter(s[ParamRunEnd(s, 2)]) then
      StripAnsi(s[ParamRunEnd(s, 2) + 1..])
    else [s[0]] + StripAnsi(s[1..])
  }

  /** Text without an escape character passes through unchanged. */
  lemma {:induction false} StripAnsiNoEscape(s: string)
    requires Esc !in s
    ensures StripAnsi(s) == s
  {
    if |s| > 0 {
      StripAnsiNoEscape(s[1..]);
    }
  }

  /** Stripping never introduces an escape character. */
  lemma {:induction false} StripAnsiNoNewEscape(s: string)
    ensures Esc in StripAnsi(s) ==> Esc in s
    decreases |s|
  {
    if |s| > 0 {
      if |s| >= 2 && s[0] == Esc && s[1] == '[' && ParamRunEnd(s, 2) < |s| && IsAsciiLetter(s[ParamRunEnd(s, 2)]) {
        StripAnsiNoNewEscape(s[ParamRunEnd(s, 2) + 1..]);
      } else {
        StripAnsiNoNewEscape(s[1..]);
      }
    }
  }

  // ---------------------------------------------------------------------------
  // formatQuestionsForTelegram
  // ---------------------------------------------------------------------------

  /** One option of a question; `description` is empty when absent. */
  datatype QuestionOption = QuestionOption(optionLabel: string, description: string)

  /** One question of an `/api/ask` body; a missing `options` is the empty sequence. */
  datatype Question = Question(question: string, options: seq<QuestionOption>)

  /** The decoded `callback_data` of a button: `{q, o}` or `{other: true}`. */
  datatype Callback = Pick(q: nat, o: nat) | OtherChoice

  /** An inline-keyboard button. */
  datatype Button = Button(text: string, callback: Callback)

  const OtherButton := Button("📝 Other (type response)", OtherChoice)

  function QuestionLine(qIndex: nat, q: Question): string {
    "*" + NatToString(qIndex + 1) + ". " + q.question + "*"
  }

  function OptionLine(oIndex: nat, opt: QuestionOption): string {
    "   " + NatToString(oIndex + 1) + ") " + opt.optionLabel
      + (if opt.description != "" then " - " + opt.description else "")
  }

  /** The buttons of question `qIndex`: one per option, labelled with it, pointing back at it. */
  function OptionButtons(qIndex: nat, opts: seq<QuestionOption>): seq<Button> {
    seq(|opts|, o requires 0 <= o < |opts| => Button(opts[o].optionLabel, Pick(qIndex, o)))
  }

  /** The text lines of question `qIndex`: its heading, one line per option, then a blank line. */
  function QuestionBlock(qIndex: nat, q: Question): seq<string> {
    [QuestionLine(qIndex, q)] + seq(|q.options|, o requires 0 <= o < |q.options| => OptionLine(o, q.options[o])) + [""]
  }

  /** The text lines of the first `n` questions. */
  function LinesUpTo(qs: seq<Question>, n: nat): seq<string>
    requires n <= |qs|
  {
    if n == 0 then [] else LinesUpTo(qs, n - 1) + QuestionBlock(n - 1, qs[n - 1])
  }

  /** The keyboard rows of the first `n` questions: a row for each one that has options. */
  function RowsUpTo(qs: seq<Question>, n: nat): seq<seq<Button>>
    requires n <= |qs|
  {
    if n == 0 then []
    else RowsUpTo(qs, n - 1) + (if |qs[n - 1].options| > 0 then [OptionButtons(n - 1, qs[n - 1].options)] else [])
  }

  /** How many of the first `n` questions have options. */
  function WithOptions(qs: seq<Question>, n: nat): nat
    requires n <= |qs|
  {
    if n == 0 then 0 else WithOptions(qs, n - 1) + (if |qs[n - 1].options| > 0 then 1 else 0)
  }

  /** A button points back at an existing option of `qs` and carries that option's label. */
  predicate PointsBack(qs: seq<Question>, b: Button) {
    && b.callback.Pick?
    && b.callback.q < |qs|
    && b.callback.o < |qs[b.callback.q].options|
    && b.text == qs[b.callback.q].options[b.callback.o].optionLabel
  }

  /**
   * The option rows: one per question that has options, in question order;
   * each row is exactly that question's buttons, and every button points back
   * at the option it shows.
   */
  lemma {:induction false} OptionRows(qs: seq<Question>, n: nat)
    requires n <= |qs|
    ensures |RowsUpTo(qs, n)| == WithOptions(qs, n)
    ensures forall qi :: 0 <= qi < n && |qs[qi].options| > 0 ==> OptionButtons(qi, qs[qi].options) in RowsUpTo(qs, n)
    ensures forall r :: r in RowsUpTo(qs, n) ==> |r| > 0 && exists qi :: 0 <= qi < n && r == OptionButtons(qi, qs[qi].options)
    ensures forall r, b :: r in RowsUpTo(qs, n) && b in r ==> PointsBack(qs, b)
  {
    RowsCount(qs, n);
    RowsCover(qs, n);
    RowsFromQuestions(qs, n);
    forall r, b | r in RowsUpTo(qs, n) && b in r
      ensures PointsBack(qs, b)
    {
      var qi :| 0 <= qi < n && r == OptionButtons(qi, qs[qi].options);
      ButtonPointsBack(qs, qi, b);
    }
  }

  lemma {:induction false} RowsCount(qs: seq<Question>, n: nat)
    requires n <= |qs|
    ensures |RowsUpTo(qs, n)| == WithOptions(qs, n)
  {
    if n > 0 {
      RowsCount(qs, n - 1);
    }
  }

  lemma {:induction false} RowsCover(qs: seq<Question>, n: nat)
    requires n <= |qs|
    ensures forall qi :: 0 <= qi < n && |qs[qi].options| > 0 ==> OptionButtons(qi, qs[qi].options) in RowsUpTo(qs, n)
  {
    if n > 0 {
      RowsCover(qs, n - 1);
      var extra := if |qs[n - 1].options| > 0 then [OptionButtons(n - 1, qs[n - 1].options)] else [];
      assert RowsUpTo(qs, n) == RowsUpTo(qs, n - 1) + extra;
    }
  }

  lemma {:induction false} RowsFromQuestions(qs: seq<Question>, n: nat)
    requires n <= |qs|
    ensures forall r :: r in RowsUpTo(qs, n) ==> |r| > 0 && exists qi :: 0 <= qi < n && r == OptionButtons(qi, qs[qi].options)
  {
    if n > 0 {
      RowsFromQuestions(qs, n - 1);
      var extra := if |qs[n - 1].options| > 0 then [OptionButtons(n - 1, qs[n - 1].options)] else [];
      assert RowsUpTo(qs, n) == RowsUpTo(qs, n - 1) + extra;
    }
  }

  /** Every button of a question's row points back at its option. */
  lemma ButtonPointsBack(qs: seq<Question>, qi: nat, b: Button)
    requires qi < |qs| && b in OptionButtons(qi, qs[qi].options)
    ensures PointsBack(qs, b)
  {
    var r := OptionButtons(qi, qs[qi].options);
    var o :| 0 <= o < |r| && r[o] == b;
  }

  /**
   * `formatQuestionsForTelegram(questions)`: the numbered question text and the
   * inline keyboard, one row per question with options and a final "Other" row.
   */
  method FormatQuestionsForTelegram(questions: seq<Question>) returns (text: string, keyboard: seq<seq<Button>>)
    ensures text == Join(LinesUpTo(questions, |questions|), "\n")
    ensures keyboard == RowsUpTo(questions, |questions|) + [[OtherButton]]
    ensures |keyboard| == WithOptions(questions, |questions|) + 1
    ensures keyboard[|keyboard| - 1] == [OtherButton]
    ensures forall r, b :: r in keyboard[..|keyboard| - 1] && b in r ==> PointsBack(questions, b)
  {
    var lines: seq<string> := [];
    var rows: seq<seq<Button>> := [];
    var qIndex := 0;
    while qIndex < |questions|
      invariant 0 <= qIndex <= |questions|
      invariant lines == LinesUpTo(questions, qIndex)
      invariant rows == RowsUpTo(questions, qIndex)
    {
      var q := questions[qIndex];
      var optLines: seq<string> := [];
      if |q.options| > 0 {
        var row;
        optLines, row := OptionsOf(qIndex, q.options);
        rows := rows + [row];
      }
      BlockOf(qIndex, q, optLines);
      lines := lines + ([QuestionLine(qIndex, q)] + optLines + [""]);
      qIndex := qIndex + 1;
    }
    keyboard := rows + [[OtherButton]];
    text := Join(lines, "\n");
    KeyboardShape(questions, rows);
  }

  lemma BlockOf(qIndex: nat, q: Question, optLines: seq<string>)
    requires optLines == seq(|q.options|, o requires 0 <= o < |q.options| => OptionLine(o, q.options[o]))
    ensures [QuestionLine(qIndex, q)] + optLines + [""] == QuestionBlock(qIndex, q)
  {
  }

  /** The keyboard is the option rows and the "Other" row after them. */
  lemma KeyboardShape(questions: seq<Question>, rows: seq<seq<Button>>)
    requires rows == RowsUpTo(questions, |questions|)
    ensures var keyboard := rows + [[OtherButton]];
      && |keyboard| == WithOptions(questions, |questions|) + 1
      && keyboard[|keyboard| - 1] == [OtherButton]
      && forall r, b :: r in keyboard[..|keyboard| - 1] && b in r ==> PointsBack(questions, b)
  {
    OptionRows(questions, |questions|);
    var keyboard := rows + [[OtherButton]];
    assert keyboard[..|keyboard| - 1] == rows;
  }

  /** The option lines and the keyboard row of question `qIndex`, one option at a time. */
  method OptionsOf(qIndex: nat, opts: seq<QuestionOption>) returns (optLines: seq<string>, row: seq<Button>)
    ensures optLines == seq(|opts|, o requires 0 <= o < |opts| => OptionLine(o, opts[o]))
    ensures row == OptionButtons(qIndex, opts)
  {
    optLines, row := [], [];
    var optIndex := 0;
    while optIndex < |opts|
      invariant 0 <= optIndex <= |opts|
      invariant row == OptionButtons(qIndex, opts[..optIndex])
      invariant optLines == seq(optIndex, o requires 0 <= o < optIndex => OptionLine(o, opts[o]))
    {
      optLines := optLines + [OptionLine(optIndex, opts[optIndex])];
      row := row + [Button(opts[optIndex].optionLabel, Pick(qIndex, optIndex))];
      optIndex := optIndex + 1;
    }
    assert opts[..optIndex] == opts;
  }
}
