/**
 How a command is shown to its approver (internal/commands/admin.go, admin_ui.go): arguments are quoted
 for a shell and wrapped into lines.  The partner is a reader of such text: section 2.2 of the
 POSIX.1-2017 Shell Command Language, with `#`, `~` and `=` as ordinary characters.  The bytes that
 the approver is shown are, to such a reader, the bytes that will run.

 A `char` stands for one byte, as in the strings of the program.
 */
module Display {
  import opened Wrappers

  const SPECIAL := " \t\n'\"\\$`;&|()<>*?![]{}"
  const FIRST := "  "
  const CONTINUATION := "    "

  // The printer.

  /** Every single quote is closed, put between double quotes, and opened again. */
  function Escape(value: string): string {
    if value == "" then ""
    else (if value[0] == '\'' then "'\"'\"'" else [value[0]]) + Escape(value[1..])
  }

  predicate Plain(value: string) {
    value != "" && forall c | c in value :: c !in SPECIAL
  }

  function ShellQuote(value: string): string {
    if Plain(value) then value else "'" + Escape(value) + "'"
  }

  function QuoteAll(argv: seq<string>): seq<string> {
    if argv == [] then [] else [ShellQuote(argv[0])] + QuoteAll(argv[1..])
  }

  function Join(args: seq<string>): string {
    if args == [] then "" else if |args| == 1 then args[0] else Join(args[..|args| - 1]) + " " + args[|args| - 1]
  }

  /** The lines still to come, with `line` begun under `indent`. */
  function WrapFrom(argv: seq<string>, width: int, line: string, indent: string): seq<string>
    decreases |argv|
  {
    if argv == [] then [line]
    else
      var separator := if |line| > |indent| then " " else "";
      if |line| + |separator| + |argv[0]| > width && |line| > |indent| then
        [line] + WrapFrom(argv[1..], width, CONTINUATION + argv[0], CONTINUATION)
      else
        WrapFrom(argv[1..], width, line + separator + argv[0], indent)
  }

  function Wrap(argv: seq<string>, width: int, enabled: bool): seq<string> {
    if argv == [] then [FIRST]
    else if !enabled then [FIRST + Join(argv)]
    else WrapFrom(argv, width, FIRST, FIRST)
  }

  /** `wrapAdminCommand`. */
  method WrapAdminCommand(argv: seq<string>, width: int, enabled: bool) returns (lines: seq<string>)
    ensures lines == Wrap(argv, width, enabled)
  {
    if |argv| == 0 {
      return [FIRST];
    }
    if !enabled {
      return [FIRST + Join(argv)];
    }
    lines := [];
    var line := FIRST;
    var indent := FIRST;
    for i := 0 to |argv|
      invariant lines + WrapFrom(argv[i..], width, line, indent) == WrapFrom(argv, width, FIRST, FIRST)
    {
      var arg := argv[i];
      assert argv[i..][1..] == argv[i + 1..];
      var separator := "";
      if |line| > |indent| {
        separator := " ";
      }
      if |line| + |separator| + |arg| > width && |line| > |indent| {
        lines := lines + [line];
        indent := CONTINUATION;
        line := indent + arg;
      } else {
        line := line + separator + arg;
      }
    }
    return lines + [line];
  }

  /** The lines as they are written, each with its newline. */
  function Text(lines: seq<string>): string {
    if lines == [] then "" else lines[0] + "\n" + Text(lines[1..])
  }

  // The reader.

  datatype Mode = Gap | Bare | Single | Double

  /** Operators, expansions, patterns and the reserved words of one character: outside quotes they are not part
      of a word, or do not stand for themselves. */
  const ACTIVE := "|&;<>()$`*?[]!{}"

  predicate Separator(c: char) {
    c == ' ' || c == '\t' || c == '\n'
  }

  function Before(word: string, rest: Option<seq<string>>): Option<seq<string>> {
    match rest
    case None => None
    case Some(words) => Some([word] + words)
  }

  /** The words of a text, `word` being the part of the current one already read; nothing if a quote is
      left open, or if the text asks for anything but quoting. */
  function Words(text: string, mode: Mode, word: string): Option<seq<string>>
    decreases |text|, if mode == Gap then 1 else 0
  {
    match mode
    case Gap =>
      if text == "" then Some([])
      else if Separator(text[0]) then Words(text[1..], Gap, "")
      else if |text| >= 2 && text[0] == '\\' && text[1] == '\n' then Words(text[2..], Gap, "")
      else Words(text, Bare, "")
    case Bare =>
      if text == "" then Some([word])
      else if Separator(text[0]) then Before(word, Words(text[1..], Gap, ""))
      else if text[0] == '\'' then Words(text[1..], Single, word)
      else if text[0] == '\"' then Words(text[1..], Double, word)
      else if text[0] == '\\' then
        if |text| == 1 then None
        else Words(text[2..], Bare, if text[1] == '\n' then word else word + [text[1]])
      else if text[0] in ACTIVE then None
      else Words(text[1..], Bare, word + [text[0]])
    case Single =>
      if text == "" then None
      else if text[0] == '\'' then Words(text[1..], Bare, word)
      else Words(text[1..], Single, word + [text[0]])
    case Double =>
      if text == "" || text[0] == '$' || text[0] == '`' then None
      else if text[0] == '\"' then Words(text[1..], Bare, word)
      else if text[0] == '\\' then
        if |text| == 1 then None
        else if text[1] == '\n' then Words(text[2..], Double, word)
        else Words(text[2..], Double, word + (if text[1] in "$`\"\\" then [text[1]] else text[..2]))
      else Words(text[1..], Double, word + [text[0]])
  }

  function Tokenize(text: string): Option<seq<string>> {
    Words(text, Gap, "")
  }

  // Reading one argument.

  lemma {:induction false} PlainScans(value: string, rest: string, word: string)
    requires forall c | c in value :: c !in SPECIAL
    ensures Words(value + rest, Bare, word) == Words(rest, Bare, word + value)
    decreases |value|
  {
    if value == "" {
      assert "" + rest == rest && word + "" == word;
    } else {
      var text := value + rest;
      assert text[0] == value[0] && value[0] in value && text[1..] == value[1..] + rest;
      NotSpecial(value[0]);
      PlainScans(value[1..], rest, word + [value[0]]);
      assert word + [value[0]] + value[1..] == word + value;
    }
  }

  lemma NotSpecial(c: char)
    requires c !in SPECIAL
    ensures !Separator(c) && c != '\'' && c != '\"' && c != '\\' && c !in ACTIVE
  {
    SpecialIs(c);
  }

  /** The characters for which an argument is quoted, one by one. */
  lemma SpecialIs(c: char)
    ensures c in SPECIAL <==>
            || c == ' ' || c == '\t' || c == '\n' || c == '\'' || c == '\"' || c == '\\'
            || c == '$' || c == '`' || c == ';' || c == '&' || c == '|' || c == '(' || c == ')' || c == '<' || c == '>'
            || c == '*' || c == '?' || c == '!' || c == '[' || c == ']' || c == '{' || c == '}'
  {
    assert SPECIAL == [' ', '\t', '\n', '\'', '\"', '\\', '$', '`', ';', '&', '|', '(', ')', '<', '>', '*', '?', '!', '[', ']', '{', '}'];
  }

  /** An argument is shown as it is exactly if it is not empty and has none of these characters; otherwise it
      is shown between single quotes. */
  lemma QuotesExactlyIf(value: string)
    ensures ShellQuote(value) == value <==>
            value != "" && forall c | c in value ::
              && c != ' ' && c != '\t' && c != '\n' && c != '\'' && c != '\"' && c != '\\'
              && c != '$' && c != '`' && c != ';' && c != '&' && c != '|' && c != '(' && c != ')' && c != '<' && c != '>'
              && c != '*' && c != '?' && c != '!' && c != '[' && c != ']' && c != '{' && c != '}'
    ensures ShellQuote(value) != value ==>
            var q := ShellQuote(value); |q| >= |value| + 2 && q[0] == '\'' && q[|q| - 1] == '\''
  {
    forall c | c in value {
      SpecialIs(c);
    }
    EscapeIsLonger(value);
    hide Escape;
  }

  lemma {:induction false} EscapeIsLonger(value: string)
    ensures |Escape(value)| >= |value|
  {
    if value != "" {
      EscapeIsLonger(value[1..]);
    }
  }

  /** A single quote inside: out of the quotes, through the double quotes, and in again. */
  lemma QuoteScans(rest: string, word: string)
    ensures Words("'\"'\"'" + rest, Single, word) == Words(rest, Single, word + "'")
  {
    var text := "'\"'\"'" + rest;
    assert text[1..] == "\"'\"'" + rest;
    assert text[1..][1..] == "'\"'" + rest;
    assert text[1..][1..][1..] == "\"'" + rest;
    assert text[1..][1..][1..][1..] == "'" + rest;
    assert text[1..][1..][1..][1..][1..] == rest;
    assert Words(text, Single, word) == Words(text[1..], Bare, word);
    assert Words(text[1..], Bare, word) == Words(text[1..][1..], Double, word);
    assert Words(text[1..][1..], Double, word) == Words(text[1..][1..][1..], Double, word + "'");
    assert Words(text[1..][1..][1..], Double, word + "'") == Words(text[1..][1..][1..][1..], Bare, word + "'");
    assert Words(text[1..][1..][1..][1..], Bare, word + "'") == Words(rest, Single, word + "'");
  }

  lemma QuotedOne(c: char, rest: string, word: string)
    ensures Words([c] + rest, Single, word) == if c == '\'' then Words(rest, Bare, word) else Words(rest, Single, word + [c])
  {
    assert ([c] + rest)[1..] == rest;
  }

  lemma {:induction false} EscapedScans(value: string, rest: string, word: string)
    ensures Words(Escape(value) + "'" + rest, Single, word) == Words(rest, Bare, word + value)
    decreases |value|
  {
    hide Words;
    if value == "" {
      assert "" + "'" + rest == ['\''] + rest;
      QuotedOne('\'', rest, word);
      assert word + "" == word;
    } else {
      var more := Escape(value[1..]) + "'" + rest;
      var c := value[0];
      EscapedScans(value[1..], rest, word + [c]);
      assert word + [c] + value[1..] == word + value;
      if c == '\'' {
        assert Escape(value) + "'" + rest == "'\"'\"'" + more;
        QuoteScans(more, word);
        assert word + "'" == word + [c];
      } else {
        assert Escape(value) + "'" + rest == [c] + more;
        QuotedOne(c, more, word);
      }
    }
  }

  lemma StartsWord(text: string)
    requires text != "" && !Separator(text[0]) && text[0] != '\\'
    ensures Words(text, Gap, "") == if text[0] == '\'' then Words(text[1..], Single, "") else Words(text, Bare, "")
  {
  }

  lemma PlainArgument(value: string, rest: string)
    requires Plain(value)
    ensures Words(value + rest, Gap, "") == Words(rest, Bare, value)
  {
    hide Words;
    assert value[0] in value;
    NotSpecial(value[0]);
    StartsWord(value + rest);
    PlainScans(value, rest, "");
    assert "" + value == value;
  }

  lemma QuotedArgument(value: string, rest: string)
    ensures Words("'" + Escape(value) + "'" + rest, Gap, "") == Words(rest, Bare, value)
  {
    hide Words, Escape;
    var text := "'" + Escape(value) + "'" + rest;
    assert text[0] == '\'' && text[1..] == Escape(value) + "'" + rest;
    StartsWord(text);
    EscapedScans(value, rest, "");
    assert "" + value == value;
  }

  /** A quoted argument is read as the argument, whatever follows. */
  lemma ArgumentScans(value: string, rest: string)
    ensures Words(ShellQuote(value) + rest, Gap, "") == Words(rest, Bare, value)
    ensures ShellQuote(value) != ""
  {
    assert Plain(value) ==> value != "";
    hide Words, Escape, Plain;
    if Plain(value) {
      PlainArgument(value, rest);
    } else {
      QuotedArgument(value, rest);
    }
  }

  // Reading one line.

  lemma {:induction false} IndentScans(n: nat, indent: string, rest: string)
    requires |indent| == n && forall c | c in indent :: c == ' '
    ensures Words(indent + rest, Gap, "") == Words(rest, Gap, "")
  {
    if n == 0 {
      assert indent + rest == rest;
    } else {
      assert indent[0] in indent;
      assert forall c | c in indent[1..] :: c in indent;
      assert (indent + rest)[1..] == indent[1..] + rest;
      IndentScans(n - 1, indent[1..], rest);
    }
  }

  function Prepend(words: seq<string>, rest: Option<seq<string>>): Option<seq<string>> {
    match rest
    case None => None
    case Some(more) => Some(words + more)
  }

  lemma {:induction false} QuoteAllAppend(argv: seq<string>)
    requires argv != []
    ensures QuoteAll(argv) == QuoteAll(argv[..|argv| - 1]) + [ShellQuote(argv[|argv| - 1])]
    ensures |QuoteAll(argv)| == |argv| && QuoteAll(argv)[..|argv| - 1] == QuoteAll(argv[..|argv| - 1])
    decreases |argv|
  {
    hide ShellQuote;
    if |argv| == 1 {
      assert argv[1..] == [] && argv[..0] == [];
    } else {
      var init, last := argv[..|argv| - 1], ShellQuote(argv[|argv| - 1]);
      QuoteAllAppend(argv[1..]);
      assert argv[1..][..|argv| - 2] == init[1..];
      assert QuoteAll(argv) == [ShellQuote(argv[0])] + (QuoteAll(init[1..]) + [last]);
      assert QuoteAll(init) == [ShellQuote(argv[0])] + QuoteAll(init[1..]);
      assert QuoteAll(argv) == QuoteAll(init) + [last];
    }
  }

  /** Quoted arguments joined by spaces, up to a separator. */
  lemma {:induction false} JoinScans(argv: seq<string>, rest: string)
    requires argv != [] && rest != "" && Separator(rest[0])
    ensures Words(Join(QuoteAll(argv)) + rest, Gap, "") == Prepend(argv, Words(rest[1..], Gap, ""))
    decreases |argv|
  {
    hide ShellQuote;
    var last := argv[|argv| - 1];
    QuoteAllAppend(argv);
    ArgumentScans(last, rest);
    assert Words(rest, Bare, last) == Before(last, Words(rest[1..], Gap, ""));
    if |argv| == 1 {
      assert argv == [last] && QuoteAll(argv) == [ShellQuote(last)];
    } else {
      var init := argv[..|argv| - 1];
      var tail := " " + ShellQuote(last) + rest;
      assert Join(QuoteAll(argv)) + rest == Join(QuoteAll(init)) + tail;
      assert tail[1..] == ShellQuote(last) + rest;
      JoinScans(init, tail);
      PrependBefore(init, last, Words(rest[1..], Gap, ""));
      assert init + [last] == argv;
    }
  }

  lemma PrependBefore(init: seq<string>, last: string, rest: Option<seq<string>>)
    ensures Prepend(init, Before(last, rest)) == Prepend(init + [last], rest)
  {
    assert rest.Some? ==> init + ([last] + rest.value) == init + [last] + rest.value;
  }

  // Rows.

  function Flatten(groups: seq<seq<string>>): seq<string> {
    if groups == [] then [] else groups[0] + Flatten(groups[1..])
  }

  function Row(i: nat, group: seq<string>): string {
    (if i == 0 then FIRST else CONTINUATION) + Join(group)
  }

  /** What a good layout is: every line has arguments, a line with several stays within the width, and
      no line was broken where its next argument would have fitted. */
  predicate Laid(lines: seq<string>, groups: seq<seq<string>>, width: int) {
    |lines| == |groups| && forall i | 0 <= i < |lines| :: Sits(lines, groups, width, i)
  }

  predicate Sits(lines: seq<string>, groups: seq<seq<string>>, width: int, i: nat)
    requires i < |lines| == |groups|
  {
    && groups[i] != [] && lines[i] == Row(i, groups[i])
    && (|groups[i]| >= 2 ==> |lines[i]| <= width)
    && (i > 0 ==> |lines[i - 1]| + 1 + |groups[i][0]| > width)
  }

  lemma JoinMore(args: seq<string>, arg: string)
    ensures Join(args + [arg]) == if args == [] then arg else Join(args) + " " + arg
  {
    assert (args + [arg])[..|args|] == args;
  }

  lemma {:induction false} JoinNonempty(args: seq<string>)
    requires args != [] && NoneEmpty(args)
    ensures Join(args) != ""
  {
    if |args| == 1 {
      assert args[0] in args;
    }
  }

  predicate NoneEmpty(args: seq<string>) {
    forall arg | arg in args :: arg != ""
  }

  /** The loop keeps the layout: `lines` and the line under construction, with the groups they show. */
  lemma {:induction false} WrapFromIsLaid(argv: seq<string>, width: int, lines: seq<string>, line: string, groups: seq<seq<string>>)
      returns (all: seq<seq<string>>)
    requires NoneEmpty(argv) && (forall group | group in groups :: NoneEmpty(group))
    requires Laid(lines + [line], groups, width)
    ensures Laid(lines + WrapFrom(argv, width, line, if lines == [] then FIRST else CONTINUATION), all, width)
    ensures Flatten(all) == Flatten(groups) + argv
    decreases |argv|
  {
    hide Laid, Join, Flatten, NoneEmpty;
    if argv == [] {
      all := groups;
      assert Flatten(groups) + argv == Flatten(groups);
    } else {
      var arg, rest := argv[0], argv[1..];
      assert argv == [arg] + rest;
      HeadNotEmpty(argv);
      LineHasArguments(lines, line, groups, width);
      if |line| + 1 + |arg| > width {
        FlattenSnoc(groups, [arg]);
        BreakIsLaid(lines, line, groups, width, arg);
        all := WrapFromIsLaid(rest, width, lines + [line], CONTINUATION + arg, groups + [[arg]]);
        assert lines + [line] + WrapFrom(rest, width, CONTINUATION + arg, CONTINUATION)
            == lines + ([line] + WrapFrom(rest, width, CONTINUATION + arg, CONTINUATION));
      } else {
        GrowIsLaid(lines, line, groups, width, arg);
        FlattenGrow(groups, arg);
        all := WrapFromIsLaid(rest, width, lines, line + " " + arg, groups[..|lines|] + [groups[|lines|] + [arg]]);
      }
      assert Flatten(groups) + [arg] + rest == Flatten(groups) + argv;
    }
  }

  lemma HeadNotEmpty(argv: seq<string>)
    requires argv != [] && NoneEmpty(argv)
    ensures argv[0] != "" && NoneEmpty(argv[1..]) && NoneEmpty([argv[0]])
    ensures forall group | NoneEmpty(group) :: NoneEmpty(group + [argv[0]])
  {
    assert argv[0] in argv;
    forall arg | arg in argv[1..] ensures arg != "" {
      assert arg in argv;
    }
  }

  /** The line under construction always shows something after its indent. */
  lemma LineHasArguments(lines: seq<string>, line: string, groups: seq<seq<string>>, width: int)
    requires Laid(lines + [line], groups, width) && forall group | group in groups :: NoneEmpty(group)
    ensures |groups| == |lines| + 1 && |line| > |if lines == [] then FIRST else CONTINUATION|
  {
    hide Join;
    var k := |lines|;
    assert Sits(lines + [line], groups, width, k);
    assert groups[k] in groups;
    JoinNonempty(groups[k]);
  }

  lemma BreakIsLaid(lines: seq<string>, line: string, groups: seq<seq<string>>, width: int, arg: string)
    requires Laid(lines + [line], groups, width) && |line| + 1 + |arg| > width
    ensures Laid(lines + [line] + [CONTINUATION + arg], groups + [[arg]], width)
  {
    hide Join;
    JoinMore([], arg);
    assert [] + [arg] == [arg];
    var before, after := lines + [line], lines + [line] + [CONTINUATION + arg];
    forall i | 0 <= i < |after| ensures Sits(after, groups + [[arg]], width, i) {
      if i < |before| {
        assert Sits(before, groups, width, i);
      }
    }
  }

  lemma GrowIsLaid(lines: seq<string>, line: string, groups: seq<seq<string>>, width: int, arg: string)
    requires Laid(lines + [line], groups, width) && |line| + 1 + |arg| <= width
    ensures Laid(lines + [line + " " + arg], groups[..|lines|] + [groups[|lines|] + [arg]], width)
  {
    var k := |lines|;
    var before, after := lines + [line], lines + [line + " " + arg];
    var grown := groups[..k] + [groups[k] + [arg]];
    assert Sits(before, groups, width, k);
    LastGrows(k, line, groups[k], arg);
    hide Join, Row;
    forall i | 0 <= i < |after| ensures Sits(after, grown, width, i) {
      assert Sits(before, groups, width, i);
      if i > 0 {
        assert before[i - 1] == after[i - 1];
      }
    }
  }

  lemma LastGrows(k: nat, line: string, group: seq<string>, arg: string)
    requires group != [] && line == Row(k, group)
    ensures line + " " + arg == Row(k, group + [arg])
  {
    JoinMore(group, arg);
    hide Join;
  }

  lemma {:induction false} FlattenSnoc(groups: seq<seq<string>>, group: seq<string>)
    ensures Flatten(groups + [group]) == Flatten(groups) + group
  {
    if groups == [] {
      assert [group][1..] == [];
    } else {
      assert (groups + [group])[1..] == groups[1..] + [group];
      FlattenSnoc(groups[1..], group);
    }
  }

  lemma FlattenLast(groups: seq<seq<string>>)
    requires groups != []
    ensures Flatten(groups) == Flatten(groups[..|groups| - 1]) + groups[|groups| - 1]
  {
    assert groups == groups[..|groups| - 1] + [groups[|groups| - 1]];
    FlattenSnoc(groups[..|groups| - 1], groups[|groups| - 1]);
  }

  lemma FlattenGrow(groups: seq<seq<string>>, arg: string)
    requires groups != []
    ensures var k := |groups| - 1; Flatten(groups[..k] + [groups[k] + [arg]]) == Flatten(groups) + [arg]
  {
    hide Flatten;
    var k := |groups| - 1;
    FlattenLast(groups);
    FlattenSnoc(groups[..k], groups[k] + [arg]);
    assert Flatten(groups[..k]) + (groups[k] + [arg]) == Flatten(groups[..k]) + groups[k] + [arg];
  }

  /** The wrapped lines show all arguments in order, in a good layout. */
  lemma WrapIsLaid(argv: seq<string>, width: int) returns (groups: seq<seq<string>>)
    requires argv != [] && NoneEmpty(argv)
    ensures Laid(Wrap(argv, width, true), groups, width) && Flatten(groups) == argv
  {
    var line, rest := FIRST + argv[0], argv[1..];
    assert [argv[0]] + rest == argv;
    OneGroup(argv[0], width);
    HeadNotEmpty(argv);
    hide Laid, Flatten, NoneEmpty;
    assert [] + [line] == [line];
    groups := WrapFromIsLaid(rest, width, [], line, [[argv[0]]]);
    assert FIRST + "" + argv[0] == line;
    assert [] + WrapFrom(rest, width, line, FIRST) == WrapFrom(rest, width, line, FIRST);
  }

  lemma OneGroup(arg: string, width: int)
    ensures Laid([FIRST + arg], [[arg]], width) && Flatten([[arg]]) == [arg]
  {
    assert [[arg]][1..] == [] && [arg] + [] == [arg];
  }

  /** There is only one good layout of given arguments. */
  lemma {:induction false} LayoutIsUnique(lines: seq<string>, groups: seq<seq<string>>, others: seq<string>, apart: seq<seq<string>>, width: int, k: nat)
    requires Laid(lines, groups, width) && Laid(others, apart, width) && Flatten(groups) == Flatten(apart)
    requires k <= |groups| && k <= |apart|
    ensures groups[..k] == apart[..k]
  {
    hide Laid, Flatten;
    if k > 0 {
      LayoutIsUnique(lines, groups, others, apart, width, k - 1);
      SameGroup(lines, groups, others, apart, width, k - 1);
      assert groups[..k] == groups[..k - 1] + [groups[k - 1]] && apart[..k] == apart[..k - 1] + [apart[k - 1]];
    }
  }

  lemma SameGroup(lines: seq<string>, groups: seq<seq<string>>, others: seq<string>, apart: seq<seq<string>>, width: int, k: nat)
    requires Laid(lines, groups, width) && Laid(others, apart, width) && Flatten(groups) == Flatten(apart)
    requires k < |groups| && k < |apart| && groups[..k] == apart[..k]
    ensures groups[k] == apart[k]
  {
    SameTail(groups, apart, k);
    FlattenAt(groups, k);
    FlattenAt(apart, k);
    hide Flatten, Join;
    assert Sits(lines, groups, width, k) && Sits(others, apart, width, k);
    NoEarlyBreak(lines, groups, apart, width, k);
    NoEarlyBreak(others, apart, groups, width, k);
    assert groups[k] == Flatten(groups[k..])[..|groups[k]|];
    assert apart[k] == Flatten(apart[k..])[..|apart[k]|];
  }

  lemma SameTail(groups: seq<seq<string>>, apart: seq<seq<string>>, k: nat)
    requires Flatten(groups) == Flatten(apart) && k <= |groups| && k <= |apart| && groups[..k] == apart[..k]
    ensures Flatten(groups[k..]) == Flatten(apart[k..])
  {
    FlattenSplit(groups, k);
    FlattenSplit(apart, k);
    assert Flatten(groups[k..]) == Flatten(groups)[|Flatten(groups[..k])|..];
    assert Flatten(apart[k..]) == Flatten(apart)[|Flatten(apart[..k])|..];
  }

  lemma LastGroup(groups: seq<seq<string>>, k: nat)
    requires k < |groups|
    ensures k + 1 == |groups| ==> Flatten(groups[k..]) == groups[k]
    ensures k + 1 < |groups| && groups[k + 1] != [] ==>
            |groups[k]| < |Flatten(groups[k..])| && Flatten(groups[k..])[|groups[k]|] == groups[k + 1][0]
  {
    FlattenAt(groups, k);
    if k + 1 == |groups| {
      assert groups[k + 1..] == [];
    } else {
      FlattenAt(groups, k + 1);
    }
  }

  /** A longer line than a good layout has at the same place would be too long. */
  lemma NoEarlyBreak(lines: seq<string>, groups: seq<seq<string>>, apart: seq<seq<string>>, width: int, k: nat)
    requires Laid(lines, groups, width) && k < |groups| && k < |apart| && Flatten(groups[k..]) == Flatten(apart[k..])
    requires groups[k] != []
    ensures |groups[k]| < |apart[k]| ==> |Row(k, apart[k])| > width && |apart[k]| >= 2
  {
    var a := |groups[k]|;
    var all := Flatten(groups[k..]);
    FlattenAt(groups, k);
    FlattenAt(apart, k);
    LastGroup(groups, k);
    assert apart[k] == all[..|apart[k]|] && groups[k] == all[..a];
    hide Flatten, Join;
    if a < |apart[k]| {
      assert Sits(lines, groups, width, k) && Sits(lines, groups, width, k + 1);
      hide Laid;
      assert apart[k][..a + 1] == groups[k] + [all[a]];
      JoinMore(groups[k], all[a]);
      JoinGrows(apart[k], a + 1);
    }
  }

  lemma {:induction false} JoinGrows(args: seq<string>, k: nat)
    requires k <= |args|
    ensures |Join(args[..k])| <= |Join(args)|
    decreases |args|
  {
    if k == |args| {
      assert args[..k] == args;
    } else {
      var init := args[..|args| - 1];
      JoinGrows(init, k);
      assert init[..k] == args[..k];
      assert args == init + [args[|args| - 1]];
      JoinMore(init, args[|args| - 1]);
    }
  }

  /** Any two good layouts of the same arguments are the same. */
  lemma OneLayout(lines: seq<string>, groups: seq<seq<string>>, others: seq<string>, apart: seq<seq<string>>, width: int)
    requires Laid(lines, groups, width) && Laid(others, apart, width) && Flatten(groups) == Flatten(apart)
    ensures groups == apart && lines == others
  {
    var k := if |groups| <= |apart| then |groups| else |apart|;
    LayoutIsUnique(lines, groups, others, apart, width, k);
    SameTail(groups, apart, k);
    EveryGroup(lines, groups, width);
    EveryGroup(others, apart, width);
    NothingLeft(groups, k);
    NothingLeft(apart, k);
    assert groups == groups[..k] && apart == apart[..k];
    hide Flatten, Join;
    forall i | 0 <= i < |lines| ensures lines[i] == others[i] {
      assert Sits(lines, groups, width, i) && Sits(others, apart, width, i);
    }
  }

  lemma EveryGroup(lines: seq<string>, groups: seq<seq<string>>, width: int)
    requires Laid(lines, groups, width)
    ensures forall group | group in groups :: group != []
  {
    hide Join;
    forall group | group in groups ensures group != [] {
      var i :| 0 <= i < |groups| && groups[i] == group;
      assert Sits(lines, groups, width, i);
    }
  }

  lemma NothingLeft(groups: seq<seq<string>>, k: nat)
    requires k <= |groups| && forall group | group in groups :: group != []
    ensures Flatten(groups[k..]) == [] <==> k == |groups|
  {
    if k < |groups| {
      FlattenAt(groups, k);
      assert groups[k] in groups;
    }
  }

  lemma {:induction false} FlattenSplit(groups: seq<seq<string>>, k: nat)
    requires k <= |groups|
    ensures Flatten(groups) == Flatten(groups[..k]) + Flatten(groups[k..])
  {
    if k == 0 {
      assert groups[0..] == groups && Flatten(groups[..0]) == [];
    } else {
      FlattenSplit(groups[1..], k - 1);
      FlattenHead(groups);
      FlattenHead(groups[..k]);
      assert groups[1..][..k - 1] == groups[..k][1..] && groups[1..][k - 1..] == groups[k..] && groups[..k][0] == groups[0];
      hide Flatten;
      assert groups[0] + (Flatten(groups[..k][1..]) + Flatten(groups[k..])) == groups[0] + Flatten(groups[..k][1..]) + Flatten(groups[k..]);
    }
  }

  lemma FlattenHead(groups: seq<seq<string>>)
    requires groups != []
    ensures Flatten(groups) == groups[0] + Flatten(groups[1..])
  {
  }

  lemma FlattenAt(groups: seq<seq<string>>, k: nat)
    requires k < |groups|
    ensures Flatten(groups[k..]) == groups[k] + Flatten(groups[k + 1..])
  {
    assert groups[k..][1..] == groups[k + 1..];
  }

  // The round trip.

  lemma {:induction false} QuoteAllSplit(argv: seq<string>, k: nat)
    requires k <= |argv|
    ensures |QuoteAll(argv)| == |argv|
    ensures QuoteAll(argv)[..k] == QuoteAll(argv[..k]) && QuoteAll(argv)[k..] == QuoteAll(argv[k..])
  {
    hide ShellQuote;
    if argv != [] {
      if k == 0 {
        QuoteAllSplit(argv[1..], 0);
        assert argv[0..] == argv;
      } else {
        QuoteAllSplit(argv[1..], k - 1);
        assert argv[..k][1..] == argv[1..][..k - 1] && argv[1..][k - 1..] == argv[k..];
        assert QuoteAll(argv)[..k] == [ShellQuote(argv[0])] + QuoteAll(argv[1..])[..k - 1];
        assert QuoteAll(argv)[k..] == QuoteAll(argv[1..])[k - 1..];
      }
    }
  }

  lemma RowScans(i: nat, argv: seq<string>, rest: string)
    requires argv != []
    ensures Words(Row(i, QuoteAll(argv)) + "\n" + rest, Gap, "") == Prepend(argv, Words(rest, Gap, ""))
  {
    var indent := if i == 0 then FIRST else CONTINUATION;
    var tail := "\n" + rest;
    assert tail[1..] == rest;
    assert Row(i, QuoteAll(argv)) + "\n" + rest == indent + (Join(QuoteAll(argv)) + tail);
    IndentScans(|indent|, indent, Join(QuoteAll(argv)) + tail);
    JoinScans(argv, tail);
  }

  /** Rows of quoted arguments, from the `i`-th on, are read as the arguments. */
  lemma {:induction false} RowsScan(i: nat, lines: seq<string>, groups: seq<seq<string>>, argv: seq<string>)
    requires |lines| == |groups| && forall j | 0 <= j < |groups| :: groups[j] != [] && lines[j] == Row(i + j, groups[j])
    requires Flatten(groups) == QuoteAll(argv)
    ensures Words(Text(lines), Gap, "") == Some(argv)
    decreases |lines|
  {
    hide ShellQuote, Join;
    QuoteAllSplit(argv, |argv|);
    if groups == [] {
      assert argv == [];
    } else {
      var k := |groups[0]|;
      QuoteAllSplit(argv, k);
      assert groups[0] == QuoteAll(argv)[..k] && Flatten(groups[1..]) == QuoteAll(argv)[k..];
      RowsScan(i + 1, lines[1..], groups[1..], argv[k..]);
      assert lines[0] == Row(i + 0, groups[0]);
      RowScans(i, argv[..k], Text(lines[1..]));
      assert argv[..k] + argv[k..] == argv;
    }
  }

  lemma {:induction false} QuotedNotEmpty(argv: seq<string>)
    ensures NoneEmpty(QuoteAll(argv))
  {
    if argv != [] {
      QuotedNotEmpty(argv[1..]);
      ArgumentScans(argv[0], "");
    }
  }

  lemma LaidScans(lines: seq<string>, groups: seq<seq<string>>, width: int, argv: seq<string>)
    requires Laid(lines, groups, width) && Flatten(groups) == QuoteAll(argv)
    ensures Tokenize(Text(lines)) == Some(argv)
  {
    hide Join, Text, Words;
    forall j | 0 <= j < |groups| ensures groups[j] != [] && lines[j] == Row(0 + j, groups[j]) {
      assert Sits(lines, groups, width, j);
    }
    RowsScan(0, lines, groups, argv);
  }

  /** The bytes that the approver is shown, wrapped or not, are read back as exactly the command's arguments. */
  lemma DisplayRoundTrip(argv: seq<string>, width: int, enabled: bool)
    ensures Tokenize(Text(Wrap(QuoteAll(argv), width, enabled))) == Some(argv)
  {
    hide ShellQuote, Join, Laid, Row, WrapFrom;
    QuoteAllSplit(argv, |argv|);
    if argv == [] {
      NothingScans();
    } else if !enabled {
      RowScans(0, argv, "");
      OneLineScans(argv);
    } else {
      QuotedNotEmpty(argv);
      var groups := WrapIsLaid(QuoteAll(argv), width);
      LaidScans(Wrap(QuoteAll(argv), width, true), groups, width, argv);
    }
  }

  lemma NothingScans()
    ensures Tokenize(Text([FIRST])) == Some([])
  {
    assert Text([FIRST]) == FIRST + "\n" + "";
    IndentScans(2, FIRST, "\n" + "");
    assert FIRST + ("\n" + "") == FIRST + "\n" + "";
    assert ("\n" + "")[1..] == "";
  }

  lemma OneLineScans(argv: seq<string>)
    requires argv != []
    ensures Tokenize(Text([FIRST + Join(QuoteAll(argv))])) == Some(argv)
  {
    hide Join;
    var line := FIRST + Join(QuoteAll(argv));
    assert [line][1..] == [];
    assert line == Row(0, QuoteAll(argv));
    RowScans(0, argv, "");
    assert Words("", Gap, "") == Some([]);
    assert argv + [] == argv;
  }

  /** Joined arguments have one space between them, and without wrapping all stand on one line after two. */
  lemma OnOneLine(argv: seq<string>, last: string, width: int)
    ensures Join([last]) == last && (argv != [] ==> Join(argv + [last]) == Join(argv) + " " + last)
    ensures Wrap(argv + [last], width, false) == ["  " + Join(argv + [last])]
    ensures forall enabled :: Wrap([], width, enabled) == ["  "]
  {
    JoinMore(argv, last);
    hide Join;
    JoinMore([], last);
    assert [] + [last] == [last];
  }

  /** Every wrapped line that shows several arguments is within the width, and no line is broken where
      its next argument would have fitted. */
  lemma WrappedWithinWidth(argv: seq<string>, width: int) returns (groups: seq<seq<string>>)
    requires argv != []
    ensures var lines := Wrap(QuoteAll(argv), width, true);
            && Flatten(groups) == QuoteAll(argv) && |lines| == |groups|
            && (forall i | 0 <= i < |lines| ::
                 && groups[i] != [] && lines[i] == (if i == 0 then "  " else "    ") + Join(groups[i])
                 && (|groups[i]| >= 2 ==> |lines[i]| <= width))
            && (forall i | 0 < i < |lines| :: |lines[i - 1]| + 1 + |groups[i][0]| > width)
  {
    QuoteAllSplit(argv, |argv|);
    QuotedNotEmpty(argv);
    hide ShellQuote, Join, Wrap;
    groups := WrapIsLaid(QuoteAll(argv), width);
    var lines := Wrap(QuoteAll(argv), width, true);
    forall i | 0 <= i < |lines|
      ensures groups[i] != [] && lines[i] == (if i == 0 then "  " else "    ") + Join(groups[i])
      ensures |groups[i]| >= 2 ==> |lines[i]| <= width
      ensures i > 0 ==> |lines[i - 1]| + 1 + |groups[i][0]| > width
    {
      assert Sits(lines, groups, width, i);
    }
  }
}
