/**
  The generator of the Redis command table used by the Redis protocol parser. It reads a
  list of command names and a text in which each command name is followed by zero or more
  argument-description lines, groups the lines into one list per command, and renders
  each list as one C++ initializer `{"NAME", {ARG, ...}},`.
 */
module RedisCmdsFormatGenerator {
  import opened Common
  import opened Strings

  /** White space as `absl::ascii_isspace` defines it. */
  predicate IsAsciiSpace(c: char) {
    c == ' ' || c == '\t' || c == '\n' || c == '\U{B}' || c == '\U{C}' || c == '\r'
  }

  /** Empty or made only of white space: what `absl::SkipWhitespace` drops. */
  predicate IsBlank(s: string) {
    forall k :: 0 <= k < |s| ==> IsAsciiSpace(s[k])
  }

  /** `absl::SkipWhitespace()` applied to the pieces of a split, in order. */
  function SkipWhitespace(pieces: seq<string>): (kept: seq<string>)
    ensures forall k :: 0 <= k < |kept| ==> !IsBlank(kept[k]) && kept[k] in pieces
    ensures forall p :: p in pieces && !IsBlank(p) ==> p in kept
  {
    if pieces == [] then []
    else (if IsBlank(pieces[0]) then [] else [pieces[0]]) + SkipWhitespace(pieces[1..])
  }

  /**
    The filter works piece by piece and keeps the order: filtering two runs of pieces
    is filtering each, laid end to end.
   */
  lemma {:induction false} SkipWhitespaceAppend(a: seq<string>, b: seq<string>)
    ensures SkipWhitespace(a + b) == SkipWhitespace(a) + SkipWhitespace(b)
    decreases |a|
  {
    if a == [] {
      assert a + b == b;
    } else {
      assert (a + b)[0] == a[0];
      assert (a + b)[1..] == a[1..] + b;
      SkipWhitespaceAppend(a[1..], b);
    }
  }

  /** A single piece is kept exactly when it is not blank. */
  lemma SkipWhitespaceOne(piece: string)
    ensures SkipWhitespace([piece]) == if IsBlank(piece) then [] else [piece]
  {
  }

  /** `absl::StrSplit(text, "\n", absl::SkipWhitespace())`. */
  function Lines(text: string): (lines: seq<string>)
    ensures forall k :: 0 <= k < |lines| ==> !IsBlank(lines[k]) && '\n' !in lines[k]
  {
    var pieces := Split(text, "\n");
    forall k | 0 <= k < |pieces| ensures '\n' !in pieces[k] {
      ContainsChar(pieces[k], '\n');
    }
    SkipWhitespace(pieces)
  }

  /** The set of command names: the non-blank lines of the command file. */
  function CommandSet(redisCmds: string): (names: set<string>)
    ensures forall n :: n in names ==> !IsBlank(n)
  {
    set l | l in Lines(redisCmds)
  }

  /** Every non-blank line of the command file is a command name (no blank one is). */
  lemma CommandSetIsNonBlankLines(redisCmds: string, name: string)
    ensures name in CommandSet(redisCmds) <==> name in Split(redisCmds, "\n") && !IsBlank(name)
  {
  }

  /** The `kWhiteSpaces` string the generator strips, taken as one 4-character string. */
  const WhiteSpaces: string := " \t\U{B}\n"

  /** `absl::ConsumePrefix`: remove `prefix` once if `s` starts with it. */
  function ConsumePrefix(s: string, prefix: string): (r: string)
    ensures HasPrefix(s, prefix) ==> prefix + r == s
    ensures !HasPrefix(s, prefix) ==> r == s
  {
    if HasPrefix(s, prefix) then s[|prefix|..] else s
  }

  // `absl::ConsumeSuffix` removes `suffix` once if the line ends with it, which is
  // `Strings.TrimSuffix`.

  /**
    Only the whole string " \t\v\n" is consumed, and it ends in a newline, which a line of
    a split on "\n" never holds: both calls leave such a line as it is.
   */
  lemma ConsumeLeavesSplitLine(line: string)
    requires '\n' !in line
    ensures ConsumePrefix(line, WhiteSpaces) == line
    ensures TrimSuffix(line, WhiteSpaces) == line
  {
  }

  /** The lists laid end to end. */
  function Flatten(groups: seq<seq<string>>): seq<string>
  {
    if groups == [] then [] else Flatten(groups[..|groups| - 1]) + groups[|groups| - 1]
  }

  /**
    The shape `GroupCommands` gives its groups: none is empty, only the first element of a group
    is a command name, and every group but possibly the first starts with one.
   */
  predicate WellGrouped(groups: seq<seq<string>>, names: set<string>) {
    && (forall g :: 0 <= g < |groups| ==> |groups[g]| > 0)
    && (forall g, k :: 0 <= g < |groups| && 1 <= k < |groups[g]| ==> groups[g][k] !in names)
    && (forall g :: 1 <= g < |groups| ==> groups[g][0] in names)
  }

  lemma FlattenPush(groups: seq<seq<string>>, group: seq<string>)
    ensures Flatten(groups + [group]) == Flatten(groups) + group
  {
    assert (groups + [group])[..|groups|] == groups;
  }

  /**
    The closed groups and the open group `output_line` after the loop of `GroupCommands` has read
    `lines`: a command name closes a non-empty open group, then every line joins the open
    group.
   */
  function GroupState(lines: seq<string>, names: set<string>): (seq<seq<string>>, seq<string>)
  {
    if lines == [] then ([], [])
    else Step(GroupState(lines[..|lines| - 1], names), lines[|lines| - 1], names)
  }

  /** One turn of the loop on the state (closed groups, open group). */
  function Step(state: (seq<seq<string>>, seq<string>), line: string, names: set<string>)
    : (seq<seq<string>>, seq<string>)
  {
    if line in names && state.1 != [] then (state.0 + [state.1], [line])
    else (state.0, state.1 + [line])
  }

  lemma GroupStatePrefix(lines: seq<string>, i: nat, names: set<string>)
    requires i < |lines|
    ensures GroupState(lines[..i + 1], names) == Step(GroupState(lines[..i], names), lines[i], names)
  {
    assert lines[..i + 1][..i] == lines[..i];
  }

  /** All groups `GroupCommands` appends for `lines`: the closed ones, then the open one if any. */
  function Groups(lines: seq<string>, names: set<string>): seq<seq<string>>
  {
    var state := GroupState(lines, names);
    if state.1 != [] then state.0 + [state.1] else state.0
  }

  /**
    What holds of the loop state after reading `lines`: closed and open groups hold those
    lines in order, and closing the open group would leave them well grouped.
   */
  predicate Grouping(added: seq<seq<string>>, outputLine: seq<string>, lines: seq<string>, names: set<string>) {
    && Flatten(added) + outputLine == lines
    && WellGrouped(added, names)
    && (lines != [] ==> outputLine != [])
    && (forall k :: 1 <= k < |outputLine| ==> outputLine[k] !in names)
    && (added != [] ==> outputLine != [] && outputLine[0] in names)
  }

  lemma {:induction false} GroupStateGrouping(lines: seq<string>, names: set<string>)
    ensures Grouping(GroupState(lines, names).0, GroupState(lines, names).1, lines, names)
    decreases |lines|
  {
    if lines != [] {
      var init := lines[..|lines| - 1];
      GroupStateGrouping(init, names);
      var state := GroupState(init, names);
      assert lines == init + [lines[|lines| - 1]];
      if lines[|lines| - 1] in names && state.1 != [] {
        FlattenPush(state.0, state.1);
      }
    }
  }

  /**
    The groups hold exactly the lines, in order; none is empty; only the first element of
    a group is a command name; and every group but possibly the first starts with one.
   */
  lemma GroupsFlattenAndShape(lines: seq<string>, names: set<string>)
    ensures Flatten(Groups(lines, names)) == lines
    ensures WellGrouped(Groups(lines, names), names)
  {
    GroupStateGrouping(lines, names);
    var state := GroupState(lines, names);
    if state.1 != [] {
      FlattenPush(state.0, state.1);
    }
  }

  lemma AppendSplit(commands: seq<seq<string>>, added: seq<seq<string>>)
    ensures (commands + added)[..|commands|] == commands
    ensures (commands + added)[|commands|..] == added
  {
  }

  /**
    `GroupCommands`, the body of the generator's `main`: appends to `commands` one group per command, a new group starting at every line
    that is a command name. It never removes what `commands` held and always returns OK;
    the groups it adds hold exactly the non-blank argument lines, in order.
   */
  method GroupCommands(redisCmds: string, redisCmdargs: string, commands: seq<seq<string>>)
    returns (status: Status, result: seq<seq<string>>)
    ensures status == Ok
    ensures result == commands + Groups(Lines(redisCmdargs), CommandSet(redisCmds))
    ensures |result| >= |commands| && result[..|commands|] == commands
    ensures Flatten(result[|commands|..]) == Lines(redisCmdargs)
    ensures WellGrouped(result[|commands|..], CommandSet(redisCmds))
  {
    var names := CommandSet(redisCmds);
    var lines := Lines(redisCmdargs);
    var added: seq<seq<string>> := [];
    var outputLine: seq<string> := [];
    for i := 0 to |lines|
      invariant (added, outputLine) == GroupState(lines[..i], names)
    {
      var line := lines[i];
      ConsumeLeavesSplitLine(line);
      line := ConsumePrefix(line, WhiteSpaces);
      line := TrimSuffix(line, WhiteSpaces);
      assert line == lines[i];
      GroupStatePrefix(lines, i, names);
      ghost var next := Step((added, outputLine), line, names);
      if line in names && outputLine != [] {
        assert next == (added + [outputLine], [line]);
        added := added + [outputLine];
        outputLine := [];
        assert outputLine + [line] == [line];
      } else {
        assert next == (added, outputLine + [line]);
      }
      outputLine := outputLine + [line];
      assert (added, outputLine) == next;
    }
    assert lines[..|lines|] == lines;
    if outputLine != [] {
      added := added + [outputLine];
    }
    status := Ok;
    result := commands + added;
    GroupsFlattenAndShape(lines, names);
    AppendSplit(commands, added);
  }

  /** How one argument is quoted: a raw string literal when it holds a double quote. */
  function Quote(arg: string): (q: string)
    ensures '"' in arg ==> HasPrefix(q, "R\"(") && HasSuffix(q, ")\"") && |q| == |arg| + 5
    ensures '"' !in arg ==> |q| == |arg| + 2 && q[0] == '"' && q[|q| - 1] == '"' && '"' !in q[1..|q| - 1]
  {
    if '"' in arg then "R\"(" + arg + ")\"" else "\"" + arg + "\""
  }

  /** Reads a quoted argument back: the inverse of `Quote`. */
  function Unquote(q: string): (arg: string)
    ensures |arg| <= |q|
  {
    if |q| >= 5 && q[..3] == "R\"(" && q[|q| - 2..] == ")\"" then q[3..|q| - 2]
    else if |q| >= 2 && q[0] == '"' && q[|q| - 1] == '"' then q[1..|q| - 1]
    else q
  }

  /** Quoting loses nothing: the argument is recovered from its quoted form. */
  lemma QuoteRoundTrip(arg: string)
    ensures Unquote(Quote(arg)) == arg
  {
    var q := Quote(arg);
    if '"' in arg {
      assert q[..3] == "R\"(";
      assert q[|q| - 2..] == ")\"";
      assert q[3..|q| - 2] == arg;
    } else {
      assert q[0] == '"';
      assert q[1..|q| - 1] == arg;
    }
  }

  /** The loop of `FomatCommand` that quotes each argument, in order. */
  function QuoteAll(args: seq<string>): (quoted: seq<string>)
    ensures |quoted| == |args|
    ensures forall k :: 0 <= k < |args| ==> quoted[k] == Quote(args[k])
  {
    if args == [] then [] else [Quote(args[0])] + QuoteAll(args[1..])
  }

  /**
    `FomatCommand`: renders a group as `{"NAME", {A1, A2, ...}},` where the Ai are the
    group's arguments (all elements after the name) quoted and joined by ", ".
   */
  function FormatCommand(command: seq<string>): (line: string)
    requires |command| > 0
    ensures HasPrefix(line, "{\"" + command[0] + "\", {")
    ensures HasSuffix(line, "}},")
  {
    var prefix := "{\"" + command[0] + "\", {";
    var line := prefix + Join(QuoteAll(command[1..]), ", ") + "}},";
    assert line[..|prefix|] == prefix;
    line
  }

  /** A command without arguments renders with an empty initializer list. */
  lemma FormatCommandNoArgs(name: string)
    ensures FormatCommand([name]) == "{\"" + name + "\", {}},"
  {
  }

  /** Between the name and the closing braces sit the quoted arguments joined by ", ". */
  lemma FormatCommandArgs(command: seq<string>)
    requires |command| > 0
    ensures var prefix := "{\"" + command[0] + "\", {";
            var line := FormatCommand(command);
            line[|prefix|..|line| - 3] == Join(QuoteAll(command[1..]), ", ")
  {
  }
}
