/** Printing values into shell scripts, unit files and property lists
    (crates/aipass-agent/src/autostart.rs).

    Each printer is a chain of single-character replacements.  What a chain prints is
    compared with what the reading side makes of it. */
module Printers {
  import opened Wrappers

  /** Every occurrence of a character gives way to a text. */
  function Replace(s: string, c: char, with: string): string {
    if s == "" then "" else (if s[0] == c then with else [s[0]]) + Replace(s[1..], c, with)
  }

  function ShellQuote(value: string): string {
    "'" + Replace(value, '\'', "'\\''") + "'"
  }

  function SystemdEscape(value: string): string {
    Replace(Replace(Replace(Replace(value, '\\', "\\\\"), '"', "\\\""), '%', "%%"), '$', "$$")
  }

  function SystemdQuote(value: string): string {
    "\"" + SystemdEscape(value) + "\""
  }

  function XmlEscape(value: string): string {
    XmlTail(Replace(value, '&', "&amp;"))
  }

  /** The replacements after the first. */
  function XmlTail(s: string): string {
    Replace(Replace(Replace(Replace(s, '<', "&lt;"), '>', "&gt;"), '"', "&quot;"), '\'', "&apos;")
  }

  // ---- Replacing -----------------------------------------------------------

  lemma {:induction false} ReplaceInParts(a: string, b: string, c: char, with: string)
    ensures Replace(a + b, c, with) == Replace(a, c, with) + Replace(b, c, with)
    decreases |a|
  {
    if a == "" {
      assert a + b == b;
    } else {
      assert (a + b)[0] == a[0] && (a + b)[1..] == a[1..] + b;
      ReplaceInParts(a[1..], b, c, with);
    }
  }

  lemma {:induction false} ReplaceAbsent(s: string, c: char, with: string)
    requires c !in s
    ensures Replace(s, c, with) == s
  {
    if s != "" {
      assert s == [s[0]] + s[1..];
      ReplaceAbsent(s[1..], c, with);
    }
  }

  lemma ReplaceOne(c: char, with: string)
    ensures Replace([c], c, with) == with
  {
    assert [c][1..] == "";
    assert with + "" == with;
  }

  // ---- The shell -----------------------------------------------------------

  predicate IsBlank(c: char) {
    c == ' ' || c == '\t' || c == '\n'
  }

  predicate IsPlainMark(c: char) {
    c == '-' || c == '_' || c == '.' || c == '/' || c == ':' || c == ',' || c == '+' || c == '@'
  }

  /** Characters that stand for themselves in a word that is not quoted; what the
      others do is not needed here. */
  predicate IsPlain(c: char) {
    'a' <= c <= 'z' || 'A' <= c <= 'Z' || '0' <= c <= '9' || IsPlainMark(c)
  }

  datatype Word = Word(text: string, rest: string)

  function Prefixed(c: char, word: Option<Word>): Option<Word> {
    if word.None? then None else Some(Word([c] + word.value.text, word.value.rest))
  }

  /** The word a shell reads, by sections 2.2.1 and 2.2.2 of the POSIX.1-2017 Shell
      Command Language: a backslash keeps the next character, single quotes keep
      everything up to the next single quote. */
  function ReadWord(s: string, quoted: bool): Option<Word>
    decreases |s|
  {
    if s == "" then (if quoted then None else Some(Word("", "")))
    else if quoted then
      if s[0] == '\'' then ReadWord(s[1..], false) else Prefixed(s[0], ReadWord(s[1..], true))
    else if IsBlank(s[0]) then Some(Word("", s))
    else if s[0] == '\'' then ReadWord(s[1..], true)
    else if s[0] == '\\' then
      (if |s| == 1 || s[1] == '\n' then None else Prefixed(s[1], ReadWord(s[2..], false)))
    else if IsPlain(s[0]) then Prefixed(s[0], ReadWord(s[1..], false))
    else None
  }

  lemma {:induction false} QuotedIsRead(value: string, rest: string)
    requires ReadWord(rest, false) == Some(Word("", rest))
    ensures ReadWord(Replace(value, '\'', "'\\''") + ("'" + rest), true) == Some(Word(value, rest))
    decreases |value|
  {
    if value == "" {
      assert "" + ("'" + rest) == "'" + rest;
      assert ("'" + rest)[1..] == rest;
    } else {
      QuotedIsRead(value[1..], rest);
      var tail := Replace(value[1..], '\'', "'\\''") + ("'" + rest);
      FirstReplaced(value, "'" + rest);
      if value[0] == '\'' {
        ReopenedQuote(tail);
      } else {
        KeptInQuote(value[0], tail);
      }
      assert value == [value[0]] + value[1..];
    }
  }

  lemma FirstReplaced(value: string, more: string)
    requires value != ""
    ensures Replace(value, '\'', "'\\''") + more ==
      (if value[0] == '\'' then "'\\''" else [value[0]]) + (Replace(value[1..], '\'', "'\\''") + more)
  {
  }

  lemma KeptInQuote(c: char, tail: string)
    requires c != '\''
    ensures ReadWord([c] + tail, true) == Prefixed(c, ReadWord(tail, true))
  {
    assert ([c] + tail)[1..] == tail;
  }

  /** Close, escaped quote, open. */
  lemma ReopenedQuote(tail: string)
    ensures ReadWord("'\\''" + tail, true) == Prefixed('\'', ReadWord(tail, true))
  {
    var a, b, c := "'\\''" + tail, "\\''" + tail, "'" + tail;
    assert a[0] == '\'' && a[1..] == b;
    assert b[0] == '\\' && b[1] == '\'' && b[2..] == c;
    assert c[0] == '\'' && c[1..] == tail;
    assert ReadWord(a, true) == ReadWord(b, false);
    assert ReadWord(b, false) == Prefixed('\'', ReadWord(c, false));
    assert ReadWord(c, false) == ReadWord(tail, true);
  }

  /** Whatever the value holds, the shell reads the quoted text as one word equal to
      it, up to the blank or end that follows. */
  lemma ShellReadsItBack(value: string, rest: string)
    requires rest == "" || IsBlank(rest[0])
    ensures ReadWord(ShellQuote(value) + rest, false) == Some(Word(value, rest))
  {
    var inner := Replace(value, '\'', "'\\''") + ("'" + rest);
    assert ShellQuote(value) + rest == "'" + inner;
    assert ("'" + inner)[0] == '\'' && ("'" + inner)[1..] == inner;
    QuotedIsRead(value, rest);
  }

  function SkipBlanks(s: string): (rest: string)
    ensures |rest| <= |s| && (rest == "" || !IsBlank(rest[0]))
  {
    if s == "" || !IsBlank(s[0]) then s else SkipBlanks(s[1..])
  }

  lemma {:induction false} ReadingShortens(s: string, quoted: bool)
    ensures ReadWord(s, quoted).Some? ==> |ReadWord(s, quoted).value.rest| <= |s|
    ensures ReadWord(s, quoted).Some? && s != "" && (quoted || !IsBlank(s[0])) ==>
      |ReadWord(s, quoted).value.rest| < |s|
    decreases |s|
  {
    if s != "" {
      ReadingShortens(s[1..], true);
      ReadingShortens(s[1..], false);
      if |s| > 1 {
        ReadingShortens(s[2..], false);
      }
    }
  }

  function ReadWords(line: string): Option<seq<string>>
    decreases |line|
  {
    var s := SkipBlanks(line);
    if s == "" then Some([])
    else
      ReadingShortens(s, false);
      match ReadWord(s, false)
      case None => None
      case Some(word) =>
        var more := ReadWords(word.rest);
        if more.None? then None else Some([word.text] + more.value)
  }

  /** A word of a generated command: fixed text, or a value that is quoted. */
  datatype Token = Fixed(text: string) | Value(text: string)

  function PrintToken(token: Token): string {
    match token
    case Fixed(text) => text
    case Value(text) => ShellQuote(text)
  }

  function CommandLine(tokens: seq<Token>): string {
    if tokens == [] then "\n"
    else if |tokens| == 1 then PrintToken(tokens[0]) + "\n"
    else PrintToken(tokens[0]) + (" " + CommandLine(tokens[1..]))
  }

  function Texts(tokens: seq<Token>): (texts: seq<string>)
    ensures |texts| == |tokens| && forall i :: 0 <= i < |texts| ==> texts[i] == tokens[i].text
  {
    if tokens == [] then [] else [tokens[0].text] + Texts(tokens[1..])
  }

  predicate PlainWord(text: string) {
    text != "" && forall i :: 0 <= i < |text| ==> IsPlain(text[i])
  }

  lemma {:induction false} PlainIsRead(text: string, rest: string)
    requires (forall i :: 0 <= i < |text| ==> IsPlain(text[i])) && (rest == "" || IsBlank(rest[0]))
    ensures ReadWord(text + rest, false) == Some(Word(text, rest))
    decreases |text|
  {
    if text == "" {
      assert text + rest == rest;
    } else {
      PlainIsRead(text[1..], rest);
      PlainInWord(text[0], text[1..] + rest);
      assert text == [text[0]] + text[1..];
      assert text + rest == [text[0]] + (text[1..] + rest);
    }
  }

  lemma PlainInWord(c: char, tail: string)
    requires IsPlain(c)
    ensures ReadWord([c] + tail, false) == Prefixed(c, ReadWord(tail, false))
  {
    assert ([c] + tail)[1..] == tail;
  }

  lemma TokenIsRead(token: Token, rest: string)
    requires token.Fixed? ==> PlainWord(token.text)
    requires rest == "" || IsBlank(rest[0])
    ensures ReadWord(PrintToken(token) + rest, false) == Some(Word(token.text, rest))
    ensures PrintToken(token) != "" && !IsBlank(PrintToken(token)[0])
  {
    match token
    case Fixed(text) => PlainIsRead(text, rest);
    case Value(text) => ShellReadsItBack(text, rest);
  }

  lemma WordThenRest(word: string, text: string, rest: string)
    requires word != "" && !IsBlank(word[0]) && ReadWord(word + rest, false) == Some(Word(text, rest))
    requires ReadWords(rest).Some?
    ensures ReadWords(word + rest) == Some([text] + ReadWords(rest).value)
  {
    assert (word + rest)[0] == word[0];
  }

  /** A generated command is read as its words: no value is split, joined or lost, not
      even an empty one. */
  lemma {:induction false} CommandLineIsReadBack(tokens: seq<Token>)
    requires forall i :: 0 <= i < |tokens| && tokens[i].Fixed? ==> PlainWord(tokens[i].text)
    ensures ReadWords(CommandLine(tokens)) == Some(Texts(tokens))
  {
    if tokens == [] {
      NothingLeft();
    } else {
      CommandLineIsReadBack(tokens[1..]);
      OneMoreToken(tokens);
    }
  }

  lemma OneMoreToken(tokens: seq<Token>)
    requires tokens != [] && (tokens[0].Fixed? ==> PlainWord(tokens[0].text))
    requires ReadWords(CommandLine(tokens[1..])).Some?
    ensures ReadWords(CommandLine(tokens)) == Some([tokens[0].text] + ReadWords(CommandLine(tokens[1..])).value)
  {
    var rest := AfterFirst(tokens);
    AfterFirstIsRead(tokens);
    TokenIsRead(tokens[0], rest);
    WordThenRest(PrintToken(tokens[0]), tokens[0].text, rest);
  }

  lemma AfterFirstIsRead(tokens: seq<Token>)
    requires tokens != []
    ensures ReadWords(AfterFirst(tokens)) == ReadWords(CommandLine(tokens[1..]))
  {
    if |tokens| == 1 {
      assert tokens[1..] == [];
    } else {
      SkipOne(CommandLine(tokens[1..]));
    }
  }

  /** What follows the first word of a line. */
  function AfterFirst(tokens: seq<Token>): (rest: string)
    requires tokens != []
    ensures rest != "" && IsBlank(rest[0])
    ensures CommandLine(tokens) == PrintToken(tokens[0]) + rest
  {
    if |tokens| == 1 then "\n" else " " + CommandLine(tokens[1..])
  }

  lemma NothingLeft()
    ensures ReadWords("\n") == Some([])
  {
    assert "\n"[1..] == "";
    assert SkipBlanks("\n") == SkipBlanks("");
  }

  lemma SkipOne(line: string)
    ensures ReadWords(" " + line) == ReadWords(line)
  {
    assert (" " + line)[1..] == line;
    assert SkipBlanks(" " + line) == SkipBlanks(line);
  }

  function ExecTokens(binary: string, vault: string): seq<Token> {
    [Fixed("exec"), Value(binary), Fixed("--vault"), Value(vault)]
  }

  /** The line that starts the agent in a desktop session. */
  lemma ExecLineIsReadBack(binary: string, vault: string)
    ensures ReadWords(CommandLine(ExecTokens(binary, vault))) == Some(["exec", binary, "--vault", vault])
  {
    var tokens := ExecTokens(binary, vault);
    assert PlainWord(tokens[0].text) && PlainWord(tokens[2].text);
    CommandLineIsReadBack(tokens);
    assert Texts(tokens) == ["exec", binary, "--vault", vault];
  }

  // ---- Assignments in a script ---------------------------------------------

  datatype Assignment = Assignment(name: string, value: string)

  predicate IsNameChar(c: char) {
    'a' <= c <= 'z' || 'A' <= c <= 'Z' || '0' <= c <= '9' || c == '_'
  }

  predicate IsName(name: string) {
    name != "" && !('0' <= name[0] <= '9') && forall i :: 0 <= i < |name| ==> IsNameChar(name[i])
  }

  /** One assignment a line, its value quoted. */
  function AssignmentLines(assignments: seq<Assignment>): string {
    if assignments == [] then ""
    else
      assignments[0].name + ("=" + (ShellQuote(assignments[0].value) + ("\n" + AssignmentLines(assignments[1..]))))
  }

  /** The name before the first character that cannot be part of one. */
  function ReadName(s: string): (name: string)
    ensures |name| <= |s|
  {
    if s == "" || !IsNameChar(s[0]) then "" else [s[0]] + ReadName(s[1..])
  }

  /** Assignments by section 2.9.1 of the POSIX.1-2017 Shell Command Language: a name, an
      equals sign and a word, here with nothing else on the line. */
  function ReadAssignments(s: string): Option<seq<Assignment>>
    decreases |s|
  {
    if s == "" then Some([])
    else
      var name := ReadName(s);
      if !IsName(name) || |name| >= |s| || s[|name|] != '=' then None
      else
        var value := s[|name| + 1..];
        ReadingShortens(value, false);
        match ReadWord(value, false)
        case None => None
        case Some(word) =>
          if word.rest == "" || word.rest[0] != '\n' then None
          else
            var more := ReadAssignments(word.rest[1..]);
            if more.None? then None else Some([Assignment(name, word.text)] + more.value)
  }

  lemma {:induction false} NameIsRead(name: string, rest: string)
    requires (forall i :: 0 <= i < |name| ==> IsNameChar(name[i])) && rest != "" && !IsNameChar(rest[0])
    ensures ReadName(name + rest) == name
    decreases |name|
  {
    if name == "" {
      assert name + rest == rest;
    } else {
      NameIsRead(name[1..], rest);
      assert (name + rest)[0] == name[0] && (name + rest)[1..] == name[1..] + rest;
      assert name == [name[0]] + name[1..];
    }
  }

  /** A block of assignments sets each variable to its value, whatever the value holds. */
  lemma {:induction false} AssignmentsAreReadBack(assignments: seq<Assignment>)
    requires forall i :: 0 <= i < |assignments| ==> IsName(assignments[i].name)
    ensures ReadAssignments(AssignmentLines(assignments)) == Some(assignments)
  {
    if assignments != [] {
      var first, tail := assignments[0], AssignmentLines(assignments[1..]);
      AssignmentsAreReadBack(assignments[1..]);
      AssignmentIsRead(first, tail);
      assert assignments == [first] + assignments[1..];
    }
  }

  lemma AssignmentIsRead(first: Assignment, tail: string)
    requires IsName(first.name) && ReadAssignments(tail).Some?
    ensures ReadAssignments(first.name + ("=" + (ShellQuote(first.value) + ("\n" + tail))))
      == Some([first] + ReadAssignments(tail).value)
  {
    var value := ShellQuote(first.value) + ("\n" + tail);
    var line := first.name + ("=" + value);
    NameIsRead(first.name, "=" + value);
    assert line[|first.name|] == '=';
    assert line[|first.name| + 1..] == value;
    ShellReadsItBack(first.value, "\n" + tail);
    assert ("\n" + tail)[1..] == tail;
  }

  // ---- Reading a registered path back --------------------------------------

  /** Every leftmost occurrence of the escaped quote gives way to a quote. */
  function Unescape(raw: string): string
    decreases |raw|
  {
    if raw == "" then ""
    else if "'\\''" <= raw then "'" + Unescape(raw[4..])
    else [raw[0]] + Unescape(raw[1..])
  }

  function Unquote(value: string): Option<string> {
    if |value| < 2 || value[0] != '\'' || value[|value| - 1] != '\'' then None
    else
      var decoded := Unescape(value[1..|value| - 1]);
      if ShellQuote(decoded) == value then Some(decoded) else None
  }

  lemma {:induction false} UnescapeUndoes(value: string)
    ensures Unescape(Replace(value, '\'', "'\\''")) == value
  {
    if value != "" {
      UnescapeUndoes(value[1..]);
      var tail := Replace(value[1..], '\'', "'\\''");
      if value[0] == '\'' {
        StartsWith("'\\''", tail);
        assert "'" == [value[0]];
      } else {
        assert ([value[0]] + tail)[0] == value[0] && ([value[0]] + tail)[1..] == tail;
      }
      assert value == [value[0]] + value[1..];
    }
  }

  /** The agent's own reading accepts exactly what its printing makes, and gives back
      the value that was printed. */
  lemma UnquoteExactly(quoted: string, value: string)
    ensures Unquote(quoted) == Some(value) <==> quoted == ShellQuote(value)
  {
    if quoted == ShellQuote(value) {
      var inner := Replace(value, '\'', "'\\''");
      assert quoted[1..|quoted| - 1] == inner;
      UnescapeUndoes(value);
    }
  }

  // ---- Property lists ------------------------------------------------------

  /** The five predefined entities. */
  function XmlChar(c: char): string {
    match c
    case '&' => "&amp;"
    case '<' => "&lt;"
    case '>' => "&gt;"
    case '"' => "&quot;"
    case '\'' => "&apos;"
    case _ => [c]
  }

  function XmlOnePass(value: string): string {
    if value == "" then "" else XmlChar(value[0]) + XmlOnePass(value[1..])
  }

  lemma XmlEscapeInParts(a: string, b: string)
    ensures XmlEscape(a + b) == XmlEscape(a) + XmlEscape(b)
  {
    ReplaceInParts(a, b, '&', "&amp;");
    var a1, b1 := Replace(a, '&', "&amp;"), Replace(b, '&', "&amp;");
    ReplaceInParts(a1, b1, '<', "&lt;");
    var a2, b2 := Replace(a1, '<', "&lt;"), Replace(b1, '<', "&lt;");
    ReplaceInParts(a2, b2, '>', "&gt;");
    var a3, b3 := Replace(a2, '>', "&gt;"), Replace(b2, '>', "&gt;");
    ReplaceInParts(a3, b3, '"', "&quot;");
    ReplaceInParts(Replace(a3, '"', "&quot;"), Replace(b3, '"', "&quot;"), '\'', "&apos;");
  }

  /** A text without the last four characters only meets the first replacement. */
  lemma AngleFree(s: string)
    requires '<' !in s && '>' !in s && '"' !in s && '\'' !in s
    ensures XmlTail(s) == s
  {
    ReplaceAbsent(s, '<', "&lt;");
    ReplaceAbsent(s, '>', "&gt;");
    QuoteFree(s);
  }

  lemma QuoteFree(s: string)
    requires '"' !in s && '\'' !in s
    ensures Replace(Replace(s, '"', "&quot;"), '\'', "&apos;") == s
  {
    ReplaceAbsent(s, '"', "&quot;");
    ReplaceAbsent(s, '\'', "&apos;");
  }

  lemma AngleOfChar(c: char)
    requires c == '<' || c == '>'
    ensures XmlTail([c]) == XmlChar(c)
  {
    if c == '<' {
      ReplaceOne('<', "&lt;");
      ReplaceAbsent("&lt;", '>', "&gt;");
      QuoteFree("&lt;");
    } else {
      ReplaceAbsent([c], '<', "&lt;");
      ReplaceOne('>', "&gt;");
      QuoteFree("&gt;");
    }
  }

  lemma QuoteOfChar(c: char)
    requires c == '"' || c == '\''
    ensures XmlTail([c]) == XmlChar(c)
  {
    ReplaceAbsent([c], '<', "&lt;");
    ReplaceAbsent([c], '>', "&gt;");
    if c == '"' {
      ReplaceOne('"', "&quot;");
      ReplaceAbsent("&quot;", '\'', "&apos;");
    } else {
      ReplaceAbsent([c], '"', "&quot;");
      ReplaceOne('\'', "&apos;");
    }
  }

  lemma XmlEscapeOfChar(c: char)
    ensures XmlEscape([c]) == XmlChar(c)
  {
    if c == '&' {
      ReplaceOne('&', "&amp;");
      AngleFree("&amp;");
    } else {
      ReplaceAbsent([c], '&', "&amp;");
      TailOfChar(c);
    }
  }

  lemma TailOfChar(c: char)
    requires c != '&'
    ensures XmlTail([c]) == XmlChar(c)
  {
    if c == '<' || c == '>' {
      AngleOfChar(c);
    } else if c == '"' || c == '\'' {
      QuoteOfChar(c);
    } else {
      AngleFree([c]);
    }
  }

  /** The chain of replacements is one pass over the characters: what one step puts in
      is not escaped again by the next. */
  lemma {:induction false} XmlEscapeIsOnePass(value: string)
    ensures XmlEscape(value) == XmlOnePass(value)
  {
    if value != "" {
      assert value == [value[0]] + value[1..];
      XmlEscapeInParts([value[0]], value[1..]);
      XmlEscapeOfChar(value[0]);
      XmlEscapeIsOnePass(value[1..]);
    }
  }

  /** The text of character data by section 4.6 of XML 1.0; nothing if it holds markup
      or another entity. */
  function XmlText(s: string): Option<string>
    decreases |s|
  {
    if s == "" then Some("")
    else if s[0] == '<' then None
    else if s[0] != '&' then Read(s[0], XmlText(s[1..]))
    else if "&amp;" <= s then Read('&', XmlText(s[5..]))
    else if "&lt;" <= s then Read('<', XmlText(s[4..]))
    else if "&gt;" <= s then Read('>', XmlText(s[4..]))
    else if "&quot;" <= s then Read('"', XmlText(s[6..]))
    else if "&apos;" <= s then Read('\'', XmlText(s[6..]))
    else None
  }

  function Read(c: char, text: Option<string>): Option<string> {
    if text.None? then None else Some([c] + text.value)
  }

  lemma XmlTextOfChar(c: char, rest: string)
    ensures XmlText(XmlChar(c) + rest) == Read(c, XmlText(rest))
  {
    var s := XmlChar(c) + rest;
    StartsWith(XmlChar(c), rest);
    match c
    case '&' => assert "&amp;" <= s;
    case '<' => OtherEntity("&lt;", rest, "&amp;", 1);
    case '>' =>
      OtherEntity("&gt;", rest, "&amp;", 1);
      OtherEntity("&gt;", rest, "&lt;", 1);
    case '"' =>
      OtherEntity("&quot;", rest, "&amp;", 1);
      OtherEntity("&quot;", rest, "&lt;", 1);
      OtherEntity("&quot;", rest, "&gt;", 1);
    case '\'' =>
      OtherEntity("&apos;", rest, "&amp;", 2);
      OtherEntity("&apos;", rest, "&lt;", 1);
      OtherEntity("&apos;", rest, "&gt;", 1);
      OtherEntity("&apos;", rest, "&quot;", 1);
    case _ =>
  }

  lemma StartsWith(start: string, rest: string)
    ensures start <= start + rest && (start + rest)[|start|..] == rest
  {
  }

  lemma OtherEntity(start: string, rest: string, entity: string, i: nat)
    requires i < |start| && i < |entity| && start[i] != entity[i]
    ensures !(entity <= start + rest)
  {
    assert (start + rest)[i] == start[i];
  }

  /** Decoding the entities gives the value back, whatever it holds. */
  lemma {:induction false} XmlReadsItBack(value: string)
    ensures XmlText(XmlEscape(value)) == Some(value)
  {
    XmlEscapeIsOnePass(value);
    if value != "" {
      XmlEscapeIsOnePass(value[1..]);
      XmlTextOfChar(value[0], XmlOnePass(value[1..]));
      XmlReadsItBack(value[1..]);
      assert value == [value[0]] + value[1..];
    }
  }

  // ---- Unit files ----------------------------------------------------------

  function SystemdChar(c: char): string {
    match c
    case '\\' => "\\\\"
    case '"' => "\\\""
    case '%' => "%%"
    case '$' => "$$"
    case _ => [c]
  }

  function SystemdOnePass(value: string): string {
    if value == "" then "" else SystemdChar(value[0]) + SystemdOnePass(value[1..])
  }

  lemma SystemdEscapeInParts(a: string, b: string)
    ensures SystemdEscape(a + b) == SystemdEscape(a) + SystemdEscape(b)
  {
    ReplaceInParts(a, b, '\\', "\\\\");
    var a1, b1 := Replace(a, '\\', "\\\\"), Replace(b, '\\', "\\\\");
    ReplaceInParts(a1, b1, '"', "\\\"");
    var a2, b2 := Replace(a1, '"', "\\\""), Replace(b1, '"', "\\\"");
    ReplaceInParts(a2, b2, '%', "%%");
    ReplaceInParts(Replace(a2, '%', "%%"), Replace(b2, '%', "%%"), '$', "$$");
  }

  lemma SystemdEscapeOfChar(c: char)
    ensures SystemdEscape([c]) == SystemdChar(c)
  {
    match c
    case '\\' =>
      ReplaceOne('\\', "\\\\");
      ReplaceAbsent("\\\\", '"', "\\\"");
      ReplaceAbsent("\\\\", '%', "%%");
      ReplaceAbsent("\\\\", '$', "$$");
    case '"' =>
      ReplaceAbsent("\"", '\\', "\\\\");
      ReplaceOne('"', "\\\"");
      ReplaceAbsent("\\\"", '%', "%%");
      ReplaceAbsent("\\\"", '$', "$$");
    case '%' =>
      ReplaceAbsent("%", '\\', "\\\\");
      ReplaceAbsent("%", '"', "\\\"");
      ReplaceOne('%', "%%");
      ReplaceAbsent("%%", '$', "$$");
    case '$' =>
      ReplaceAbsent("$", '\\', "\\\\");
      ReplaceAbsent("$", '"', "\\\"");
      ReplaceAbsent("$", '%', "%%");
      ReplaceOne('$', "$$");
    case _ =>
      ReplaceAbsent([c], '\\', "\\\\");
      ReplaceAbsent([c], '"', "\\\"");
      ReplaceAbsent([c], '%', "%%");
      ReplaceAbsent([c], '$', "$$");
  }

  lemma {:induction false} SystemdEscapeIsOnePass(value: string)
    ensures SystemdEscape(value) == SystemdOnePass(value)
  {
    if value != "" {
      assert value == [value[0]] + value[1..];
      SystemdEscapeInParts([value[0]], value[1..]);
      SystemdEscapeOfChar(value[0]);
      SystemdEscapeIsOnePass(value[1..]);
    }
  }

  /** A quoted argument of a unit file: backslash sequences, then doubled specifiers
      and variable signs, up to the closing quote. */
  function SystemdText(s: string): Option<string>
    decreases |s|
  {
    if s == "" then None
    else if s[0] == '"' then (if |s| == 1 then Some("") else None)
    else if s[0] == '\\' || s[0] == '%' || s[0] == '$' then
      (if |s| == 1 || !(if s[0] == '\\' then s[1] == '\\' || s[1] == '"' else s[1] == s[0]) then None
       else Read(s[1], SystemdText(s[2..])))
    else Read(s[0], SystemdText(s[1..]))
  }

  lemma SystemdTextOfChar(c: char, rest: string)
    ensures SystemdText(SystemdChar(c) + rest) == Read(c, SystemdText(rest))
  {
    var s := SystemdChar(c) + rest;
    assert s[|SystemdChar(c)|..] == rest;
  }

  lemma {:induction false} SystemdInnerReadsBack(value: string)
    ensures SystemdText(SystemdOnePass(value) + "\"") == Some(value)
  {
    if value == "" {
      assert "" + "\"" == "\"";
    } else {
      var rest := SystemdOnePass(value[1..]) + "\"";
      assert SystemdOnePass(value) + "\"" == SystemdChar(value[0]) + rest;
      SystemdTextOfChar(value[0], rest);
      SystemdInnerReadsBack(value[1..]);
      assert value == [value[0]] + value[1..];
    }
  }

  /** A quoted value is read as one argument equal to it. */
  lemma SystemdReadsItBack(value: string)
    ensures SystemdQuote(value)[0] == '"' && SystemdText(SystemdQuote(value)[1..]) == Some(value)
  {
    SystemdEscapeIsOnePass(value);
    SystemdInnerReadsBack(value);
    assert SystemdQuote(value)[1..] == SystemdEscape(value) + "\"";
  }
}
