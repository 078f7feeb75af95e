/**
 The escapers of emain/emain-web.ts and emain/agent-tools/pty-write.ts, each against a reader for the
 notation it writes.
 */
module JavaScriptLiteral {
  import opened Wrappers

  /** `String.prototype.replace` of every occurrence of one character. */
  function Replace(s: string, c: char, with: string): string {
    if s == [] then [] else (if s[0] == c then with else [s[0]]) + Replace(s[1..], c, with)
  }

  /** Six passes, the backslash first. */
  function EscapeSelector(s: string): string {
    var s1 := Replace(s, '\\', "\\\\");
    var s2 := Replace(s1, '"', "\\\"");
    var s3 := Replace(s2, '\'', "\\'");
    var s4 := Replace(s3, '\n', "\\n");
    var s5 := Replace(s4, '\r', "\\r");
    Replace(s5, '\t', "\\t")
  }

  /** What one character becomes. */
  function EscapeChar(c: char): string {
    match c
    case '\\' => "\\\\"
    case '"' => "\\\""
    case '\'' => "\\'"
    case '\n' => "\\n"
    case '\r' => "\\r"
    case '\t' => "\\t"
    case _ => [c]
  }

  function EscapeEach(s: string): string {
    if s == [] then [] else EscapeChar(s[0]) + EscapeEach(s[1..])
  }

  lemma {:induction false} ReplaceAppend(s: string, t: string, c: char, with: string)
    ensures Replace(s + t, c, with) == Replace(s, c, with) + Replace(t, c, with)
  {
    if s == [] {
      assert s + t == t;
    } else {
      assert (s + t)[1..] == s[1..] + t;
      ReplaceAppend(s[1..], t, c, with);
    }
  }

  lemma EscapeAppend(s: string, t: string)
    ensures EscapeSelector(s + t) == EscapeSelector(s) + EscapeSelector(t)
  {
    ReplaceAppend(s, t, '\\', "\\\\");
    var s1, t1 := Replace(s, '\\', "\\\\"), Replace(t, '\\', "\\\\");
    ReplaceAppend(s1, t1, '"', "\\\"");
    var s2, t2 := Replace(s1, '"', "\\\""), Replace(t1, '"', "\\\"");
    ReplaceAppend(s2, t2, '\'', "\\'");
    var s3, t3 := Replace(s2, '\'', "\\'"), Replace(t2, '\'', "\\'");
    ReplaceAppend(s3, t3, '\n', "\\n");
    var s4, t4 := Replace(s3, '\n', "\\n"), Replace(t3, '\n', "\\n");
    ReplaceAppend(s4, t4, '\r', "\\r");
    var s5, t5 := Replace(s4, '\r', "\\r"), Replace(t4, '\r', "\\r");
    ReplaceAppend(s5, t5, '\t', "\\t");
  }

  lemma ReplaceOne(a: char, c: char, with: string)
    ensures Replace([a], c, with) == if a == c then with else [a]
  {
  }

  lemma ReplaceTwo(a: char, b: char, c: char, with: string)
    requires a != c && b != c
    ensures Replace([a, b], c, with) == [a, b]
  {
    assert [a, b][1..] == [b] && [b][1..] == [];
    assert Replace([b], c, with) == [b];
  }

  lemma EscapeOne(c: char)
    ensures EscapeSelector([c]) == EscapeChar(c)
  {
    var s1 := Replace([c], '\\', "\\\\");
    ReplaceOne(c, '\\', "\\\\");
    var s2 := Replace(s1, '"', "\\\"");
    var s3 := Replace(s2, '\'', "\\'");
    var s4 := Replace(s3, '\n', "\\n");
    var s5 := Replace(s4, '\r', "\\r");
    if c == '\\' {
      ReplaceTwo('\\', '\\', '"', "\\\"");
      ReplaceTwo('\\', '\\', '\'', "\\'");
      ReplaceTwo('\\', '\\', '\n', "\\n");
      ReplaceTwo('\\', '\\', '\r', "\\r");
      ReplaceTwo('\\', '\\', '\t', "\\t");
    } else {
      ReplaceOne(c, '"', "\\\"");
      if c == '"' {
        ReplaceTwo('\\', '"', '\'', "\\'");
        ReplaceTwo('\\', '"', '\n', "\\n");
        ReplaceTwo('\\', '"', '\r', "\\r");
        ReplaceTwo('\\', '"', '\t', "\\t");
      } else {
        ReplaceOne(c, '\'', "\\'");
        if c == '\'' {
          ReplaceTwo('\\', '\'', '\n', "\\n");
          ReplaceTwo('\\', '\'', '\r', "\\r");
          ReplaceTwo('\\', '\'', '\t', "\\t");
        } else {
          ReplaceOne(c, '\n', "\\n");
          ReplaceTwo('\\', 'n', '\r', "\\r");
          ReplaceTwo('\\', 'n', '\t', "\\t");
          ReplaceOne(c, '\r', "\\r");
          ReplaceTwo('\\', 'r', '\t', "\\t");
          ReplaceOne(c, '\t', "\\t");
        }
      }
    }
  }

  /** The six passes do not disturb each other: together they are one map over the characters. */
  lemma {:induction false} SixPassesAreOneMap(s: string)
    ensures EscapeSelector(s) == EscapeEach(s)
  {
    if s != [] {
      assert s == [s[0]] + s[1..];
      EscapeAppend([s[0]], s[1..]);
      EscapeOne(s[0]);
      SixPassesAreOneMap(s[1..]);
    }
  }

  // ---- The reader (section 12.9.4 of ECMA-262, 2023 edition) ----

  predicate IsLineTerminator(c: char) {
    c in {'\n', '\r', '\U{2028}', '\U{2029}'}
  }

  predicate IsDigit(c: char) {
    '0' <= c <= '9'
  }

  /**
   The value of a one-character escape: the single escapes, and any character that escapes to itself.
   Octal, hexadecimal and Unicode escapes and line continuations are not read here.
   */
  function EscapeValue(c: char): Option<char> {
    match c
    case 'b' => Some('\U{08}')
    case 't' => Some('\t')
    case 'n' => Some('\n')
    case 'v' => Some('\U{0b}')
    case 'f' => Some('\U{0c}')
    case 'r' => Some('\r')
    case _ => if c == 'x' || c == 'u' || IsDigit(c) || IsLineTerminator(c) then None else Some(c)
  }

  /** Reads a double-quoted literal from behind its opening quote: its value, and the text behind its closing quote. */
  function ReadLiteral(source: string): Option<(string, string)> {
    if source == [] then None
    else if source[0] == '"' then Some(([], source[1..]))
    else if source[0] == '\n' || source[0] == '\r' then None
    else if source[0] == '\\' then
      if |source| < 2 || EscapeValue(source[1]).None? then None
      else Prepend(EscapeValue(source[1]).value, ReadLiteral(source[2..]))
    else Prepend(source[0], ReadLiteral(source[1..]))
  }

  function Prepend(c: char, read: Option<(string, string)>): Option<(string, string)> {
    match read
    case None => None
    case Some((value, rest)) => Some(([c] + value, rest))
  }

  lemma ReadEscapedChar(c: char, rest: string)
    ensures ReadLiteral(EscapeChar(c) + rest) == Prepend(c, ReadLiteral(rest))
  {
    var source := EscapeChar(c) + rest;
    if |EscapeChar(c)| == 2 {
      assert source[2..] == rest;
    } else {
      assert source[1..] == rest;
    }
  }

  /**
   For every string, a double-quoted literal with the escaped string in it ends at the quote put behind
   it and has that very string as its value.
   */
  lemma {:induction false} LiteralReadsBack(s: string, rest: string)
    ensures ReadLiteral(EscapeSelector(s) + "\"" + rest) == Some((s, rest))
  {
    SixPassesAreOneMap(s);
    EachReadsBack(s, rest);
  }

  lemma {:induction false} EachReadsBack(s: string, rest: string)
    ensures ReadLiteral(EscapeEach(s) + "\"" + rest) == Some((s, rest))
  {
    if s == [] {
      assert EscapeEach(s) + "\"" + rest == ['"'] + rest;
    } else {
      assert EscapeEach(s) + "\"" + rest == EscapeChar(s[0]) + (EscapeEach(s[1..]) + "\"" + rest);
      ReadEscapedChar(s[0], EscapeEach(s[1..]) + "\"" + rest);
      EachReadsBack(s[1..], rest);
      assert [s[0]] + s[1..] == s;
    }
  }

  /** The same behind literal text of the template, such as an error message, that needs no escaping. */
  lemma {:induction false} LiteralWithPrefixReadsBack(prefix: string, s: string, rest: string)
    requires forall c | c in prefix :: EscapeChar(c) == [c]
    ensures ReadLiteral(prefix + EscapeSelector(s) + "\"" + rest) == Some((prefix + s, rest))
  {
    if prefix == [] {
      LiteralReadsBack(s, rest);
      assert prefix + EscapeSelector(s) == EscapeSelector(s) && prefix + s == s;
    } else {
      var tail := prefix[1..] + EscapeSelector(s) + "\"" + rest;
      assert prefix + EscapeSelector(s) + "\"" + rest == [prefix[0]] + tail;
      ReadEscapedChar(prefix[0], tail);
      LiteralWithPrefixReadsBack(prefix[1..], s, rest);
      assert [prefix[0]] + (prefix[1..] + s) == prefix + s;
    }
  }

  /** So different strings never give the same script text. */
  lemma EscapingIsInjective(s: string, t: string)
    ensures EscapeSelector(s) == EscapeSelector(t) ==> s == t
  {
    LiteralReadsBack(s, "");
    LiteralReadsBack(t, "");
  }
}

module ShellWord {
  import opened Wrappers
  import opened JavaScriptLiteral

  function ShellQuoteSingle(value: string): string {
    "'" + Replace(value, '\'', "'\\''") + "'"
  }

  // ---- The reader (sections 2.2 and 2.3 of the Shell Command Language, POSIX.1-2017) ----

  predicate EndsWord(c: char) {
    c in {' ', '\t', '\n', ';', '&', '|', '<', '>', '(', ')'}
  }

  /** Outside quotes these start an expansion, another kind of quoting or a pattern, none of which is read here. */
  predicate IsSpecial(c: char) {
    c in {'$', '`', '"', '*', '?', '[', '#', '~', '=', '%', '{', '}', '!'}
  }

  /** Reads one word: its value after quote removal, and the text it stops at. */
  function ReadWord(source: string, quoted: bool): Option<(string, string)> {
    if source == [] then
      if quoted then None else Some(([], []))
    else if quoted then
      if source[0] == '\'' then ReadWord(source[1..], false) else Prepend(source[0], ReadWord(source[1..], true))
    else if EndsWord(source[0]) then Some(([], source))
    else if source[0] == '\'' then ReadWord(source[1..], true)
    else if source[0] == '\\' then
      if |source| < 2 || source[1] == '\n' then None else Prepend(source[1], ReadWord(source[2..], false))
    else if IsSpecial(source[0]) then None
    else Prepend(source[0], ReadWord(source[1..], false))
  }

  lemma QuoteInside(tail: string)
    ensures ReadWord("'\\''" + tail, true) == Prepend('\'', ReadWord(tail, true))
  {
    var source := "'\\''" + tail;
    assert source[1..] == "\\''" + tail;
    assert source[1..][2..] == "'" + tail;
    assert source[1..][2..][1..] == tail;
    assert ReadWord(source, true) == ReadWord(source[1..], false);
    assert ReadWord(source[1..], false) == Prepend('\'', ReadWord(source[1..][2..], false));
  }

  lemma {:induction false} QuotedReadsBack(value: string, rest: string)
    requires rest == [] || EndsWord(rest[0])
    ensures ReadWord(Replace(value, '\'', "'\\''") + "'" + rest, true) == Some((value, rest))
  {
    var source := Replace(value, '\'', "'\\''") + "'" + rest;
    if value == [] {
      assert source == ['\''] + rest;
      assert source[1..] == rest;
    } else {
      var tail := Replace(value[1..], '\'', "'\\''") + "'" + rest;
      QuotedReadsBack(value[1..], rest);
      assert [value[0]] + value[1..] == value;
      if value[0] == '\'' {
        assert source == "'\\''" + tail;
        QuoteInside(tail);
      } else {
        assert source == [value[0]] + tail;
        assert source[1..] == tail;
        assert ReadWord(source, true) == Prepend(value[0], ReadWord(source[1..], true));
      }
    }
  }

  /** For every string, the quoted form is one shell word whose value is that string. */
  lemma QuoteIsOneWord(value: string, rest: string)
    requires rest == [] || EndsWord(rest[0])
    ensures ReadWord(ShellQuoteSingle(value) + rest, false) == Some((value, rest))
  {
    QuotedReadsBack(value, rest);
    var source := ShellQuoteSingle(value) + rest;
    assert source[1..] == Replace(value, '\'', "'\\''") + "'" + rest;
  }
}

module PtyWrite {
  import opened Wrappers
  import opened ShellWord

  const SOH := '\U{01}'

  /** What `trim` takes away: white space and line terminators (section 22.1.3.32 of ECMA-262, 2023 edition). */
  predicate IsSpace(c: char) {
    || c in {' ', '\t', '\n', '\r', '\U{0b}', '\U{0c}', '\U{a0}', '\U{feff}', '\U{1680}'}
    || '\U{2000}' <= c <= '\U{200a}'
    || c in {'\U{2028}', '\U{2029}', '\U{202f}', '\U{205f}', '\U{3000}'}
  }

  function TrimStart(s: string): string {
    if s != [] && IsSpace(s[0]) then TrimStart(s[1..]) else s
  }

  function TrimEnd(s: string): string
    decreases |s|
  {
    if s != [] && IsSpace(s[|s| - 1]) then TrimEnd(s[..|s| - 1]) else s
  }

  function Trim(s: string): string {
    TrimEnd(TrimStart(s))
  }

  function DropSoh(s: string): string {
    if s != [] && s[0] == SOH then DropSoh(s[1..]) else s
  }

  /** Drops one line end, with the carriage return before it if there is one. */
  function DropLineEnd(s: string): string {
    if s == [] || s[|s| - 1] != '\n' then s
    else if |s| > 1 && s[|s| - 2] == '\r' then s[..|s| - 2]
    else s[..|s| - 1]
  }

  function NormalizeStartupInput(input: string): string {
    Trim(DropLineEnd(DropSoh(input)))
  }

  /** The startup command alone, or behind a change to its directory. */
  predicate IsStartupText(text: string, command: string, cwd: Option<string>) {
    if text == command then true
    else if cwd.None? || Trim(cwd.value) == "" then false
    else
      || text == "cd " + Trim(cwd.value) + " && " + command
      || text == "cd " + ShellQuoteSingle(Trim(cwd.value)) + " && " + command
  }

  predicate IsStartupCommandReplay(input: string, initialCommand: Option<string>, cwd: Option<string>) {
    if initialCommand.None? || Trim(initialCommand.value) == "" then false
    else IsStartupText(NormalizeStartupInput(input), Trim(initialCommand.value), cwd)
  }

  datatype Mode = Raw | Line | Block

  function DecorateBytes(input: string, mode: Mode, windows: bool): string {
    match mode
    case Raw => input
    case Line => [SOH] + input + (if windows then "\r" else "\n")
    case Block => "\U{1b}[200~" + input + "\U{1b}[201~"
  }

  /** What a call of the tool writes to the command; nothing if it ignores a replay. */
  function Execute(input: string, mode: Mode, windows: bool, initialCommand: Option<string>, cwd: Option<string>):
    Option<string>
  {
    if IsStartupCommandReplay(input, initialCommand, cwd) then None else Some(DecorateBytes(input, mode, windows))
  }

  /**
   Exactly what reaches the command: the input as it is, or from the beginning of the line with the
   platform's Enter behind it, or between the marks of a bracketed paste.
   */
  lemma WritesTheInput(input: string, mode: Mode, windows: bool, initialCommand: Option<string>, cwd: Option<string>)
    requires !IsStartupCommandReplay(input, initialCommand, cwd)
    ensures var written := Execute(input, mode, windows, initialCommand, cwd);
            && written.Some?
            && (mode.Raw? ==> written.value == input)
            && (mode.Line? ==>
                  && |written.value| == |input| + 2 && written.value[0] == SOH && written.value[1..|input| + 1] == input
                  && written.value[|input| + 1] == (if windows then '\r' else '\n'))
            && (mode.Block? ==>
                  && |written.value| == |input| + 12 && written.value[6..|input| + 6] == input
                  && written.value[..6] == "\U{1b}[200~" && written.value[|input| + 6..] == "\U{1b}[201~")
  {
  }

  // ---- Trimming ----

  predicate Trimmed(s: string) {
    s != [] ==> !IsSpace(s[0]) && !IsSpace(s[|s| - 1])
  }

  predicate IsBlank(s: string) {
    forall k | 0 <= k < |s| :: IsSpace(s[k])
  }

  predicate IsSohs(s: string) {
    forall k | 0 <= k < |s| :: s[k] == SOH
  }

  lemma {:induction false} TrimEndOfMore(s: string, c: char)
    requires IsSpace(c)
    ensures TrimEnd(s + [c]) == TrimEnd(s)
  {
    assert (s + [c])[..|s|] == s;
  }

  lemma {:induction false} TrimOfMore(s: string, c: char)
    requires IsSpace(c)
    ensures Trim(s + [c]) == Trim(s)
  {
    if s == [] {
      assert s + [c] == [c] && [c][1..] == [];
    } else if IsSpace(s[0]) {
      assert (s + [c])[1..] == s[1..] + [c];
      TrimOfMore(s[1..], c);
    } else {
      TrimEndOfMore(s, c);
    }
  }

  lemma {:induction false} TrimEndShape(s: string)
    ensures |TrimEnd(s)| <= |s| && TrimEnd(s) == s[..|TrimEnd(s)|] && IsBlank(s[|TrimEnd(s)|..])
    ensures s != [] && !IsSpace(s[0]) ==> TrimEnd(s) != []
    decreases |s|
  {
    if s != [] && IsSpace(s[|s| - 1]) {
      var front, core := s[..|s| - 1], TrimEnd(s);
      TrimEndShape(front);
      assert core == TrimEnd(front);
      hide TrimEnd;
      assert s[|core|..] == front[|core|..] + [s[|s| - 1]];
    } else {
      assert s[|s|..] == [];
    }
  }

  lemma {:induction false} TrimOfTrimmed(s: string)
    requires Trimmed(s)
    ensures Trim(s) == s
  {
  }

  lemma DropLineEndIsTrimmed(s: string)
    ensures Trim(DropLineEnd(s)) == Trim(s)
  {
    if s != [] && s[|s| - 1] == '\n' {
      var shorter := s[..|s| - 1];
      assert s == shorter + ['\n'];
      TrimOfMore(shorter, '\n');
      if |s| > 1 && s[|s| - 2] == '\r' {
        assert shorter == s[..|s| - 2] + ['\r'];
        TrimOfMore(s[..|s| - 2], '\r');
      }
    }
  }

  lemma {:induction false} DropSohShape(s: string)
    ensures |DropSoh(s)| <= |s| && DropSoh(s) == s[|s| - |DropSoh(s)|..] && IsSohs(s[..|s| - |DropSoh(s)|])
    ensures s != [] && s[0] == SOH ==> |DropSoh(s)| < |s|
    ensures DropSoh(s) != [] ==> DropSoh(s)[0] != SOH
  {
    if s != [] && s[0] == SOH {
      var rest, core := s[1..], DropSoh(s);
      DropSohShape(rest);
      assert core == DropSoh(rest);
      hide DropSoh;
      assert s[..|s| - |core|] == [s[0]] + rest[..|rest| - |core|];
    }
  }

  /** What the guard compares is the trimmed input without its leading ^A characters. */
  lemma NormalizeIsTrim(input: string)
    ensures NormalizeStartupInput(input) == Trim(DropSoh(input))
  {
    DropLineEndIsTrimmed(DropSoh(input));
  }

  lemma {:induction false} TrimStartShape(s: string)
    ensures |TrimStart(s)| <= |s| && TrimStart(s) == s[|s| - |TrimStart(s)|..] && IsBlank(s[..|s| - |TrimStart(s)|])
    ensures TrimStart(s) != [] ==> !IsSpace(TrimStart(s)[0])
  {
    if s != [] && IsSpace(s[0]) {
      var rest, core := s[1..], TrimStart(s);
      TrimStartShape(rest);
      assert core == TrimStart(rest);
      hide TrimStart;
      assert s[..|s| - |core|] == [s[0]] + rest[..|rest| - |core|];
    }
  }

  lemma {:induction false} TrimEndOfSuffix(front: string, s: string)
    ensures |TrimEnd(s)| == 0 || |TrimEnd(front + s)| == |front| + |TrimEnd(s)|
    decreases |s|
  {
    if s != [] && IsSpace(s[|s| - 1]) {
      assert (front + s)[..|front + s| - 1] == front + s[..|s| - 1];
      TrimEndOfSuffix(front, s[..|s| - 1]);
    }
  }

  /** Of a text whose first character stays, a later part trims to something shorter. */
  lemma LaterPartTrimsShorter(s: string, part: string)
    requires s != [] && !IsSpace(s[0]) && |part| < |s| && part == s[|s| - |part|..]
    ensures |Trim(part)| < |Trim(s)|
  {
    TrimStartShape(part);
    var core := TrimStart(part);
    var front := s[..|s| - |core|];
    assert s == front + core;
    TrimEndOfSuffix(front, core);
    TrimEndShape(s);
    hide TrimEnd;
    assert TrimStart(s) == s;
  }

  // ---- What counts as a replay ----

  /**
   The startup command given to the tool again is ignored, in every mode and whatever the directory,
   exactly if it does not start with ^A; otherwise it is written to the command that already runs.
   */
  lemma StartupCommandIsIgnored(command: string, mode: Mode, windows: bool, cwd: Option<string>)
    requires Trim(command) != ""
    ensures Execute(command, mode, windows, Some(command), cwd).None? <==> command[0] != SOH
  {
    NormalizeIsTrim(command);
    if command[0] == SOH {
      DropSohShape(command);
      hide Trim, DropSoh, NormalizeStartupInput;
      LaterPartTrimsShorter(command, DropSoh(command));
    }
  }

  /** The text between ^A characters and white space; without white space before it, it does not start with ^A. */
  predicate Wraps(input: string, controls: string, before: string, text: string, after: string) {
    && input == controls + (before + (text + after))
    && IsSohs(controls) && IsBlank(before) && IsBlank(after)
    && (before == "" ==> text == "" || text[0] != SOH)
  }

  lemma {:induction false} DropSohs(controls: string, rest: string)
    requires IsSohs(controls) && (rest == "" || rest[0] != SOH)
    ensures DropSoh(controls + rest) == rest
  {
    if controls == "" {
      assert controls + rest == rest;
    } else {
      assert (controls + rest)[1..] == controls[1..] + rest;
      DropSohs(controls[1..], rest);
    }
  }

  lemma {:induction false} TrimBlanks(before: string, text: string, after: string)
    requires IsBlank(before) && IsBlank(after) && Trimmed(text)
    ensures Trim(before + (text + after)) == text
    decreases |before|, |after|
  {
    if before != "" {
      assert (before + (text + after))[1..] == before[1..] + (text + after);
      TrimBlanks(before[1..], text, after);
    } else if after != "" {
      var shorter := after[..|after| - 1];
      TrimBlanks(before, text, shorter);
      TrimOfMore(before + (text + shorter), after[|after| - 1]);
      assert before + (text + after) == before + (text + shorter) + [after[|after| - 1]];
    } else {
      assert before + (text + after) == text;
      TrimOfTrimmed(text);
    }
  }

  lemma NormalizedWraps(input: string, controls: string, before: string, text: string, after: string)
    requires Wraps(input, controls, before, text, after) && text != "" && Trimmed(text)
    ensures NormalizeStartupInput(input) == text
  {
    var rest := before + (text + after);
    assert rest[0] == if before == "" then text[0] else before[0];
    NormalizeIsTrim(input);
    DropSohs(controls, rest);
    TrimBlanks(before, text, after);
  }

  lemma WrapsNormalized(input: string) returns (controls: string, before: string, after: string)
    ensures Wraps(input, controls, before, NormalizeStartupInput(input), after)
  {
    var rest := DropSoh(input);
    var core := TrimStart(rest);
    NormalizeIsTrim(input);
    DropSohShape(input);
    TrimStartShape(rest);
    TrimEndShape(core);
    hide DropSoh, TrimStart, TrimEnd, NormalizeStartupInput;
    controls, before, after := input[..|input| - |rest|], rest[..|rest| - |core|], core[|TrimEnd(core)|..];
    assert rest == before + core && core == TrimEnd(core) + after;
    assert input == controls + rest;
  }

  /**
   Exactly which inputs are ignored: the startup command, alone or behind one of the two changes of
   directory, with any white space around it and any ^A characters before that.
   */
  lemma ReplaysExactly(input: string, command: string, cwd: Option<string>)
    requires Trim(command) != ""
    ensures IsStartupCommandReplay(input, Some(command), cwd) <==>
              exists controls: string, before: string, text: string, after: string ::
                Wraps(input, controls, before, text, after) && IsStartupText(text, Trim(command), cwd)
  {
    hide Trim, NormalizeStartupInput, Wraps, IsStartupText;
    var controls, before, after := WrapsNormalized(input);
    if IsStartupCommandReplay(input, Some(command), cwd) {
      assert Wraps(input, controls, before, NormalizeStartupInput(input), after);
    }
    forall controls: string, before: string, text: string, after: string
      | Wraps(input, controls, before, text, after) && IsStartupText(text, Trim(command), cwd)
      ensures NormalizeStartupInput(input) == text
    {
      StartupTextIsTrimmed(text, command, cwd);
      NormalizedWraps(input, controls, before, text, after);
    }
  }

  lemma StartupTextIsTrimmed(text: string, command: string, cwd: Option<string>)
    requires Trim(command) != "" && IsStartupText(text, Trim(command), cwd)
    ensures text != "" && Trimmed(text)
  {
    TrimIsTrimmed(command);
    hide Trim, ShellQuoteSingle;
    if text != Trim(command) {
      assert text[0] == 'c';
      assert text[|text| - 1] == Trim(command)[|Trim(command)| - 1];
    }
  }

  lemma {:induction false} TrimIsTrimmed(s: string)
    ensures Trimmed(Trim(s))
  {
    if s != [] && IsSpace(s[0]) {
      TrimIsTrimmed(s[1..]);
    } else {
      TrimEndIsTrimmed(s);
    }
  }

  lemma {:induction false} TrimEndIsTrimmed(s: string)
    requires s != [] ==> !IsSpace(s[0])
    ensures Trimmed(TrimEnd(s))
    decreases |s|
  {
    if s != [] && IsSpace(s[|s| - 1]) {
      TrimEndIsTrimmed(s[..|s| - 1]);
    }
  }

  /** The quoted change of directory that counts as a replay does change to that directory. */
  lemma QuotedReplayNamesTheDirectory(command: string, cwd: string)
    requires Trim(command) != "" && Trim(cwd) != ""
    ensures var text := "cd " + ShellQuoteSingle(Trim(cwd)) + " && " + Trim(command);
            && IsStartupCommandReplay(text, Some(command), Some(cwd))
            && text[..3] == "cd "
            && ReadWord(text[3..], false) == Some((Trim(cwd), " && " + Trim(command)))
  {
    var quoted, line := ShellQuoteSingle(Trim(cwd)), Trim(command);
    TrimIsTrimmed(command);
    hide Trim, ShellQuoteSingle, ReadWord, NormalizeStartupInput;
    ChangeThenRun(quoted, line);
    QuoteIsOneWord(Trim(cwd), " && " + line);
  }

  lemma ChangeThenRun(place: string, line: string)
    requires line != [] && Trimmed(line)
    ensures var text := "cd " + place + " && " + line;
            && NormalizeStartupInput(text) == text
            && text[..3] == "cd " && text[3..] == place + (" && " + line)
  {
    var text := "cd " + place + " && " + line;
    hide NormalizeStartupInput;
    assert text == "cd " + (place + (" && " + line));
    StaysAsItIs(text, line);
  }

  /** Text with a plain first character and a trimmed end is compared as it is. */
  lemma StaysAsItIs(text: string, end: string)
    requires |end| > 0 && |text| > |end| && Trimmed(end) && text[|text| - |end|..] == end
    requires text[0] != SOH && !IsSpace(text[0])
    ensures NormalizeStartupInput(text) == text
  {
    assert text[|text| - 1] == end[|end| - 1];
    NormalizeIsTrim(text);
    TrimOfTrimmed(text);
  }
}
