/**
 * The server console (server/console.go): how a line typed at the console is
 * split into a command name and its arguments, and how command output and
 * messages are logged. Reading stdin, the command registry (cmd.ByAlias) and
 * command execution are not part of this model.
 */
module Console {

  /**
   * unicode.IsSpace on the characters it lists below U+0100: tab, newline,
   * vertical tab, form feed, carriage return, space, U+0085 and U+00A0.
   */
  predicate IsSpace(c: char) {
    c == ' ' || 9 <= c as int <= 13 || c as int == 0x85 || c as int == 0xA0
  }

  /** Drops leading white space. */
  function TrimLeft(s: string): (r: string)
    ensures |r| <= |s| && r == s[|s| - |r|..]
    ensures forall i :: 0 <= i < |s| - |r| ==> IsSpace(s[i])
    ensures r == [] || !IsSpace(r[0])
    decreases |s|
  {
    if s != [] && IsSpace(s[0]) then TrimLeft(s[1..]) else s
  }

  /** Drops trailing white space. */
  function TrimRight(s: string): (r: string)
    ensures |r| <= |s| && r == s[..|r|]
    ensures forall i :: |r| <= i < |s| ==> IsSpace(s[i])
    ensures r == [] || !IsSpace(r[|r| - 1])
    decreases |s|
  {
    if s != [] && IsSpace(s[|s| - 1]) then TrimRight(s[..|s| - 1]) else s
  }

  /** strings.TrimSpace. */
  function TrimSpace(s: string): (r: string)
    ensures r == [] || (!IsSpace(r[0]) && !IsSpace(r[|r| - 1]))
    ensures var i := |s| - |TrimLeft(s)|;
      0 <= i <= |s| - |r| && r == s[i..i + |r|] &&
      (forall k :: 0 <= k < i ==> IsSpace(s[k])) &&
      (forall k :: i + |r| <= k < |s| ==> IsSpace(s[k]))
  {
    var l := TrimLeft(s);
    var r := TrimRight(l);
    var i := |s| - |l|;
    assert r == s[i..i + |r|];
    r
  }

  /** strings.TrimPrefix. */
  function TrimPrefix(s: string, prefix: string): (r: string)
    ensures prefix <= s ==> s == prefix + r
    ensures !(prefix <= s) ==> r == s
  {
    if prefix <= s then s[|prefix|..] else s
  }

  /** strings.Split(t, " ")[0]: t up to its first space. */
  function FirstField(t: string): (name: string)
    ensures name <= t && ' ' !in name
    ensures |name| < |t| ==> t[|name|] == ' '
    decreases |t|
  {
    if t == [] || t[0] == ' ' then [] else [t[0]] + FirstField(t[1..])
  }

  /** What the console does with one line. */
  datatype LineOutcome =
    | Ignored
    | Execute(name: string, args: string)
    | CommandNotFound(error: string)

  /**
   * A line blank after trimming is ignored. Otherwise the name is the
   * trimmed line up to its first space, and the arguments are the rest with
   * at most one leading space removed; a name no command answers to is
   * reported.
   */
  function HandleLine(line: string, isCommand: string -> bool): (o: LineOutcome)
    ensures o.Ignored? <==> TrimSpace(line) == []
    ensures TrimSpace(line) != [] ==> (o.Execute? <==> isCommand(FirstField(TrimSpace(line))))
    ensures o.Execute? ==> o.name == FirstField(TrimSpace(line)) && isCommand(o.name)
    ensures o.CommandNotFound? ==> o.error == "Could not find command '" + FirstField(TrimSpace(line)) + "'"
  {
    var t := TrimSpace(line);
    if |t| == 0 then Ignored
    else
      var name := FirstField(t);
      if isCommand(name) then Execute(name, TrimPrefix(TrimPrefix(t, name), " "))
      else CommandNotFound("Could not find command '" + name + "'")
  }

  /**
   * A command line is put back together from its parts: the trimmed line is
   * the name alone, or the name, one space and the arguments; the name is
   * not empty and holds no space, and the arguments are empty exactly when
   * the trimmed line is the name alone.
   */
  lemma {:induction false} LineSplitsAtFirstSpace(line: string, isCommand: string -> bool)
    requires HandleLine(line, isCommand).Execute?
    ensures var o := HandleLine(line, isCommand);
      o.name != [] && ' ' !in o.name &&
      (TrimSpace(line) == o.name || TrimSpace(line) == o.name + " " + o.args) &&
      (o.args == [] <==> TrimSpace(line) == o.name)
  {
    var t := TrimSpace(line);
    var name := FirstField(t);
    assert t[0] != ' ';
    assert name != [] by {
      assert name == [t[0]] + FirstField(t[1..]);
    }
    var rest := TrimPrefix(t, name);
    assert t == name + rest;
    if rest != [] {
      assert rest[0] == t[|name|] == ' ';
      assert [' '] <= rest;
      assert rest == " " + TrimPrefix(rest, " ");
      assert TrimPrefix(rest, " ") != [] by {
        assert t[|t| - 1] != ' ';
      }
    } else {
      assert TrimPrefix(rest, " ") == [];
    }
  }

  /** format: strips at most two trailing newlines and changes nothing else. */
  function Format(text: string): (r: string)
    ensures r <= text && |text| - |r| <= 2
    ensures forall i :: |r| <= i < |text| ==> text[i] == '\n'
    ensures |text| - |r| < 2 ==> r == [] || r[|r| - 1] != '\n'
  {
    StripNewline(StripNewline(text))
  }

  /** strings.TrimSuffix(s, "\n"). */
  function StripNewline(s: string): (r: string)
    ensures s != [] && s[|s| - 1] == '\n' ==> r == s[..|s| - 1]
    ensures !(s != [] && s[|s| - 1] == '\n') ==> r == s
  {
    if s != [] && s[|s| - 1] == '\n' then s[..|s| - 1] else s
  }

  /** The text fmt.Sprintln makes of one string: the string and a newline. */
  function Sprintln(message: string): string {
    message + "\n"
  }

  /** A message sent to the console comes out without the newline Sprintln adds. */
  lemma FormatUndoesSprintln(message: string)
    requires message == [] || message[|message| - 1] != '\n'
    ensures Format(Sprintln(message)) == message
  {
    assert Sprintln(message)[..|message|] == message;
  }

  datatype LogLine = ErrorLine(text: string) | InfoLine(text: string)

  /** The console's logger, as the lines it has written. */
  class ConsoleLog {
    var lines: seq<LogLine>
    /** text.ANSI, which is not part of this model. */
    const ansi: string -> string

    constructor (ansi: string -> string)
      ensures lines == [] && this.ansi == ansi
    {
      lines := [];
      this.ansi := ansi;
    }

    /** SendCommandOutput: every error, in order, then every message, in order. */
    method SendCommandOutput(errors: seq<string>, messages: seq<string>)
      modifies this
      ensures |lines| == |old(lines)| + |errors| + |messages| && lines[..|old(lines)|] == old(lines)
      ensures forall i :: 0 <= i < |errors| ==> lines[|old(lines)| + i] == ErrorLine(ansi(errors[i]))
      ensures forall i :: 0 <= i < |messages| ==> lines[|old(lines)| + |errors| + i] == InfoLine(ansi(messages[i]))
    {
      for i := 0 to |errors|
        invariant |lines| == |old(lines)| + i && lines[..|old(lines)|] == old(lines)
        invariant forall k :: 0 <= k < i ==> lines[|old(lines)| + k] == ErrorLine(ansi(errors[k]))
      {
        lines := lines + [ErrorLine(ansi(errors[i]))];
      }
      for i := 0 to |messages|
        invariant |lines| == |old(lines)| + |errors| + i && lines[..|old(lines)|] == old(lines)
        invariant forall k :: 0 <= k < |errors| ==> lines[|old(lines)| + k] == ErrorLine(ansi(errors[k]))
        invariant forall k :: 0 <= k < i ==> lines[|old(lines)| + |errors| + k] == InfoLine(ansi(messages[k]))
      {
        lines := lines + [InfoLine(ansi(messages[i]))];
      }
    }

    /** SendMessage: the formatted message with the reset code appended, as one info line. */
    method SendMessage(message: string)
      modifies this
      ensures lines == old(lines) + [InfoLine(ansi(Format(Sprintln(message)) + "Â§r"))]
    {
      lines := lines + [InfoLine(ansi(Format(Sprintln(message)) + "Â§r"))];
    }
  }
}
