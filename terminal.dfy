/**
 * The navigation terminal: a draggable window with a small command language
 * (help, ls, cd, clear, exit), an output log, and a recall list walked with
 * the arrow keys.
 *
 * React state updates are applied in the order they are queued. That is why
 * `clear` also drops the echo of its own command line: the echo is queued
 * before the command runs, and the command empties the log after it.
 */
module Terminal {
  import opened Optional
  import opened JsStrings

  // ---------------------------------------------------------------------------
  // Output lines
  // ---------------------------------------------------------------------------

  datatype LineKind = Command | Output | Error | Success

  datatype Line = Line(kind: LineKind, content: string)

  /** The text colour class of a log line: cyan, red and green for three kinds, gray for the rest. */
  function LineColor(kind: LineKind): (cls: string)
    ensures cls == "text-cyan-400" <==> kind == Command
    ensures cls == "text-red-400" <==> kind == Error
    ensures cls == "text-green-400" <==> kind == Success
    ensures cls == "text-gray-300" <==> kind == Output
  {
    match kind
    case Command => "text-cyan-400"
    case Error => "text-red-400"
    case Success => "text-green-400"
    case _ => "text-gray-300"
  }

  /** A horizontal rule of the help box: a corner, 44 double bars, a corner. */
  function Rule(left: char, right: char): string {
    [left] + Repeat('\U{2550}', 44) + [right]
  }

  function Boxed(s: string): string {
    ['\U{2551}'] + s + ['\U{2551}']
  }

  const HelpLines: seq<Line> := [
    Line(Output, Rule('\U{2554}', '\U{2557}')),
    Line(Output, Boxed("       PORTFOLIO NAVIGATION TERMINAL        ")),
    Line(Output, Rule('\U{2560}', '\U{2563}')),
    Line(Output, Boxed("  ls           List available pages         ")),
    Line(Output, Boxed("  cd <page>    Navigate to page             ")),
    Line(Output, Boxed("  clear        Clear terminal               ")),
    Line(Output, Boxed("  exit         Close terminal               ")),
    Line(Output, Rule('\U{255A}', '\U{255D}'))
  ]

  const LsLines: seq<Line> := [
    Line(Output, ""),
    Line(Output, "\U{1F4C1} Available pages:"),
    Line(Output, "   \U{251C}\U{2500}\U{2500} \U{1F3E0} home         Main page"),
    Line(Output, "   \U{251C}\U{2500}\U{2500} \U{1F464} about        About me"),
    Line(Output, "   \U{251C}\U{2500}\U{2500} \U{1F6E0}\U{FE0F}  skills       Technical skills"),
    Line(Output, "   \U{251C}\U{2500}\U{2500} \U{1F680} projects     Portfolio projects"),
    Line(Output, "   \U{2514}\U{2500}\U{2500} \U{1F4E7} contact      Get in touch"),
    Line(Output, "")
  ]

  const UsageLine := Line(Error, "\U{274C} Usage: cd <page>")

  function PageNotFoundLine(page: string): Line {
    Line(Error, "\U{274C} Page \"" + page + "\" not found. Type \"ls\" to see available pages.")
  }

  function NavigatingLine(page: string): Line {
    Line(Success, "\U{2713} Navigating to /" + page + "...")
  }

  const GoodbyeLine := Line(Success, "\U{1F44B} Closing terminal... Thanks for visiting!")

  function CommandNotFoundLine(name: string): Line {
    Line(Error, "\U{274C} Command not found: " + name)
  }

  const HelpHintLine := Line(Output, "\U{1F4A1} Type \"help\" for available commands")

  /** The line that echoes a command, with the path shown before it ran. */
  function Echo(path: string, cmd: string): Line {
    Line(Command, path + " $ " + cmd)
  }

  // ---------------------------------------------------------------------------
  // Commands
  // ---------------------------------------------------------------------------

  const Pages: seq<string> := ["home", "about", "skills", "projects", "contact"]

  const CommandNames: seq<string> := ["help", "ls", "cd", "clear", "exit"]

  /** A timer a command starts: the navigation after 600 ms, or closing after 400 ms. */
  datatype Timer = Navigate(route: string) | Close

  /**
   * What a command hands back: the lines to append, whether it empties the log
   * first, the new current path if it sets one, and the timers it starts.
   */
  datatype Outcome = Outcome(lines: seq<Line>, clears: bool, path: Option<string>, timers: seq<Timer>)

  /** The route of a page: the site root for home, otherwise the page's own path. */
  function Route(page: string): (route: string)
    ensures page == "home" ==> route == "/"
    ensures page != "home" ==> route == "/" + page
  {
    if page == "home" then "/" else "/" + page
  }

  /**
   * `cd`: the first argument, lower-cased, must name a page. A missing or
   * empty argument is a usage error, and an unknown page an error naming the
   * page. A known page becomes the current path and starts the navigation.
   */
  function Cd(args: seq<string>): (out: Outcome)
    ensures !out.clears && |out.lines| == 1
    ensures |args| == 0 || args[0] == "" ==> out == Outcome([UsageLine], false, None, [])
    ensures out.path.Some? <==> |args| > 0 && ToLowerAscii(args[0]) in Pages
    ensures out.path.Some? ==>
      var page := ToLowerAscii(args[0]);
      && out.path.value == "~/" + page
      && out.timers == [Navigate(Route(page))]
      && out.lines == [NavigatingLine(page)]
    ensures out.path.None? ==> out.timers == [] && out.lines[0].kind == Error
    ensures |args| > 0 && args[0] != "" && ToLowerAscii(args[0]) !in Pages ==>
      out.lines == [PageNotFoundLine(ToLowerAscii(args[0]))]
  {
    if |args| == 0 || args[0] == "" then
      Outcome([UsageLine], false, None, [])
    else
      var page := ToLowerAscii(args[0]);
      if page !in Pages then
        Outcome([PageNotFoundLine(page)], false, None, [])
      else
        Outcome([NavigatingLine(page)], false, Some("~/" + page), [Navigate(Route(page))])
  }

  /**
   * The command table, matched case-sensitively. Only `clear` empties the
   * log, only `cd` moves the path, only `cd` and `exit` start timers, and a
   * name outside the table gets the two-line not-found reply.
   */
  function Run(name: string, args: seq<string>, hasOnClose: bool): (out: Outcome)
    ensures out.clears <==> name == "clear"
    ensures out.path.Some? ==> name == "cd"
    ensures out.timers != [] ==> name == "cd" || (name == "exit" && hasOnClose)
    ensures name !in CommandNames ==> out == Outcome([CommandNotFoundLine(name), HelpHintLine], false, None, [])
    ensures name == "help" || name == "ls" ==> |out.lines| == 8 && out.path.None? && out.timers == []
    ensures name == "clear" ==> out.lines == [] && out.path.None? && out.timers == []
    ensures name == "exit" ==>
      && out.lines == [GoodbyeLine] && out.path.None?
      && out.timers == if hasOnClose then [Close] else []
  {
    if name == "help" then Outcome(HelpLines, false, None, [])
    else if name == "ls" then Outcome(LsLines, false, None, [])
    else if name == "cd" then Cd(args)
    else if name == "clear" then Outcome([], true, None, [])
    else if name == "exit" then Outcome([GoodbyeLine], false, None, if hasOnClose then [Close] else [])
    else Outcome([CommandNotFoundLine(name), HelpHintLine], false, None, [])
  }

  // ---------------------------------------------------------------------------
  // The console
  // ---------------------------------------------------------------------------

  datatype Point = Point(x: int, y: int)

  const Width := 700
  const Height := 450

  /**
   * The terminal's state: the input line, the output log, the current path,
   * the recall list and the index into it (-1 when not recalling), the
   * window's position, the drag state, and the timers started so far.
   */
  datatype Console = Console(
    input: string,
    history: seq<Line>,
    path: string,
    commandHistory: seq<string>,
    historyIndex: int,
    position: Point,
    dragging: bool,
    offset: Point,
    timers: seq<Timer>)

  /** The recall index always points into the recall list, or is -1. */
  predicate Valid(c: Console) {
    -1 <= c.historyIndex < |c.commandHistory|
  }

  function Initial(): (c: Console)
    ensures Valid(c) && c.history == [] && c.path == "~" && c.historyIndex == -1
  {
    Console("", [], "~", [], -1, Point(100, 100), false, Point(0, 0), [])
  }

  /** The command line cut into its name and arguments at single spaces. */
  function Words(cmd: string): (words: seq<string>)
    ensures |words| >= 1
  {
    Split(Trim(cmd), ' ')
  }

  /**
   * The effect of a non-blank command line `t` whose command produced `out`:
   * the line joins the recall list, the recall index resets, the echo (with
   * the path before the command) and the command's lines are appended in that
   * order, and the command's path and timers take effect.
   */
  function Applied(c: Console, t: string, out: Outcome): (r: Console)
    ensures r.commandHistory == c.commandHistory + [t] && r.historyIndex == -1
    ensures r.input == c.input && r.position == c.position && r.dragging == c.dragging && r.offset == c.offset
    ensures out.clears ==> r.history == out.lines
    ensures !out.clears ==> r.history == c.history + [Echo(c.path, t)] + out.lines
    ensures r.path == if out.path.Some? then out.path.value else c.path
    ensures r.timers == c.timers + out.timers
  {
    c.(history := (if out.clears then [] else c.history + [Echo(c.path, t)]) + out.lines,
       path := out.path.GetOr(c.path),
       commandHistory := c.commandHistory + [t],
       historyIndex := -1,
       timers := c.timers + out.timers)
  }

  /** Running a command line: a line that is blank once trimmed changes nothing. */
  function Executed(c: Console, cmd: string, hasOnClose: bool): (r: Console)
    requires Valid(c)
    ensures Valid(r) && r.input == c.input && r.position == c.position && r.dragging == c.dragging
    ensures AllWhitespace(cmd) ==> r == c
    ensures !AllWhitespace(cmd) ==>
      && r.commandHistory == c.commandHistory + [Trim(cmd)]
      && r.historyIndex == -1
  {
    var t := Trim(cmd);
    if t == [] then c
    else
      var words := Split(t, ' ');
      Applied(c, t, Run(words[0], words[1..], hasOnClose))
  }

  /** A non-blank line runs the command named by its first word on the remaining words. */
  lemma ExecutedWords(c: Console, cmd: string, hasOnClose: bool)
    requires Valid(c) && !AllWhitespace(cmd)
    ensures Executed(c, cmd, hasOnClose) == Applied(c, Trim(cmd), Run(Words(cmd)[0], Words(cmd)[1..], hasOnClose))
  {
  }

  /** The echo of a command other than `clear` follows the old log and shows the path from before the command. */
  lemma EchoUsesOldPath(c: Console, cmd: string, hasOnClose: bool)
    requires Valid(c) && !AllWhitespace(cmd) && Words(cmd)[0] != "clear"
    ensures var r := Executed(c, cmd, hasOnClose);
            && |r.history| > |c.history|
            && r.history[..|c.history|] == c.history
            && r.history[|c.history|] == Echo(c.path, Trim(cmd))
  {
    ExecutedWords(c, cmd, hasOnClose);
  }

  /** An unknown command name appends its echo and exactly two lines, and changes no path and starts no timer. */
  lemma UnknownCommand(c: Console, cmd: string, hasOnClose: bool)
    requires Valid(c) && !AllWhitespace(cmd) && Words(cmd)[0] !in CommandNames
    ensures var r := Executed(c, cmd, hasOnClose);
            && r.history == c.history + [Echo(c.path, Trim(cmd)), CommandNotFoundLine(Words(cmd)[0]), HelpHintLine]
            && r.path == c.path && r.timers == c.timers
  {
    ExecutedWords(c, cmd, hasOnClose);
  }

  /** `clear` leaves an empty log: its own echo goes too. */
  lemma ClearEmptiesLog(c: Console, cmd: string, hasOnClose: bool)
    requires Valid(c) && !AllWhitespace(cmd) && Words(cmd)[0] == "clear"
    ensures Executed(c, cmd, hasOnClose).history == []
  {
    ExecutedWords(c, cmd, hasOnClose);
  }

  /** A command that answers with one line leaves the echo and that line after the old log. */
  lemma OneLineApplied(c: Console, t: string, out: Outcome)
    requires !out.clears && |out.lines| == 1
    ensures Applied(c, t, out).history == c.history + [Echo(c.path, t), out.lines[0]]
  {
    assert out.lines == [out.lines[0]];
  }

  /** `cd` is a single word that starts with a letter, and it names the `cd` command. */
  lemma CdWord()
    ensures "cd" != [] && !IsWhitespace("cd"[0]) && Lacks("cd", ' ')
    ensures forall args, hasOnClose :: Run("cd", args, hasOnClose) == Cd(args)
  {
    assert "cd"[0] == 'c' && "cd"[1] == 'd';
    assert "cd" != "ls" by { assert "ls"[0] == 'l'; }
  }

  /** A command word followed by one argument, as typed: `name + " " + arg`. */
  lemma WordsOfTwo(name: string, arg: string)
    requires name != [] && !IsWhitespace(name[0]) && Lacks(name, ' ')
    requires arg != [] && !IsWhitespace(arg[|arg| - 1]) && Lacks(arg, ' ')
    ensures !AllWhitespace(name + " " + arg) && Trim(name + " " + arg) == name + " " + arg
    ensures Words(name + " " + arg) == [name, arg]
  {
    var cmd := name + " " + arg;
    assert cmd == Join([name, arg], ' ');
    assert cmd[0] == name[0] && cmd[|cmd| - 1] == arg[|arg| - 1];
    TrimOfUntrimmable(cmd);
    SplitJoin([name, arg], ' ');
  }

  /** `cd` on one argument, typed with a single space. */
  lemma CdLine(c: Console, arg: string, hasOnClose: bool)
    requires Valid(c) && arg != [] && !IsWhitespace(arg[|arg| - 1]) && Lacks(arg, ' ')
    ensures Executed(c, "cd " + arg, hasOnClose) == Applied(c, "cd " + arg, Cd([arg]))
  {
    var cmd := "cd " + arg;
    assert cmd == "cd" + " " + arg;
    CdWord();
    WordsOfTwo("cd", arg);
    ExecutedWords(c, cmd, hasOnClose);
    assert Words(cmd)[1..] == [arg];
  }

  /** `cd` to a known page, in any ASCII letter case, moves the path there and starts the navigation to its route. */
  lemma CdToKnownPage(c: Console, arg: string, hasOnClose: bool)
    requires Valid(c) && arg != [] && !IsWhitespace(arg[|arg| - 1]) && Lacks(arg, ' ')
    requires ToLowerAscii(arg) in Pages
    ensures var r := Executed(c, "cd " + arg, hasOnClose);
            var page := ToLowerAscii(arg);
            && r.path == "~/" + page
            && r.timers == c.timers + [Navigate(Route(page))]
            && r.history == c.history + [Echo(c.path, "cd " + arg), NavigatingLine(page)]
  {
    CdLine(c, arg, hasOnClose);
    OneLineApplied(c, "cd " + arg, Cd([arg]));
  }

  /** `cd` to anything else leaves the path alone, starts nothing and appends one error line. */
  lemma CdToUnknownPage(c: Console, arg: string, hasOnClose: bool)
    requires Valid(c) && arg != [] && !IsWhitespace(arg[|arg| - 1]) && Lacks(arg, ' ')
    requires ToLowerAscii(arg) !in Pages
    ensures var r := Executed(c, "cd " + arg, hasOnClose);
            && r.path == c.path && r.timers == c.timers
            && r.history == c.history + [Echo(c.path, "cd " + arg), PageNotFoundLine(ToLowerAscii(arg))]
  {
    CdLine(c, arg, hasOnClose);
    OneLineApplied(c, "cd " + arg, Cd([arg]));
  }

  /** `cd`, two spaces and one argument split into the words `cd`, the empty word and the argument. */
  lemma CdTwoSpacesLine(c: Console, arg: string, hasOnClose: bool)
    requires Valid(c) && arg != [] && !IsWhitespace(arg[|arg| - 1]) && Lacks(arg, ' ')
    ensures Executed(c, "cd  " + arg, hasOnClose) == Applied(c, "cd  " + arg, Cd(["", arg]))
  {
    var cmd := "cd  " + arg;
    var parts := ["cd", "", arg];
    assert cmd == Join(parts, ' ') by {
      assert parts[1..] == ["", arg];
      assert Join(["", arg], ' ') == "" + [' '] + arg;
    }
    assert cmd[0] == 'c' && cmd[|cmd| - 1] == arg[|arg| - 1];
    CdWord();
    TrimOfUntrimmable(cmd);
    SplitJoin(parts, ' ');
    ExecutedWords(c, cmd, hasOnClose);
    assert Words(cmd)[1..] == ["", arg];
  }

  /** Two spaces after `cd` make an empty first argument, so even a known page gives the usage error. */
  lemma CdWithTwoSpaces(c: Console, arg: string, hasOnClose: bool)
    requires Valid(c) && arg != [] && !IsWhitespace(arg[|arg| - 1]) && Lacks(arg, ' ')
    ensures var r := Executed(c, "cd  " + arg, hasOnClose);
            && r.path == c.path && r.timers == c.timers
            && r.history == c.history + [Echo(c.path, "cd  " + arg), UsageLine]
  {
    CdTwoSpacesLine(c, arg, hasOnClose);
    OneLineApplied(c, "cd  " + arg, Cd(["", arg]));
  }

  // ---------------------------------------------------------------------------
  // Keys
  // ---------------------------------------------------------------------------

  datatype Key = Key(name: string, ctrl: bool)

  const ArrowUp := Key("ArrowUp", false)
  const ArrowDown := Key("ArrowDown", false)

  /** The recall entry an index shows: the newest entry at index 0. */
  function Recalled(commandHistory: seq<string>, index: int): string
    requires -1 <= index < |commandHistory|
  {
    if index == -1 then "" else commandHistory[|commandHistory| - 1 - index]
  }

  /**
   * A key press in the input. The arrows walk the recall list: up goes to
   * older entries and stops at the oldest, down goes to newer ones and from the
   * newest back to an empty input. Enter runs the line and empties the input.
   * Ctrl+L empties the log. Every other key is left to the input's own editing.
   */
  function KeyPressed(c: Console, key: Key, hasOnClose: bool): (r: Console)
    requires Valid(c)
    ensures Valid(r) && r.position == c.position && r.dragging == c.dragging
    ensures key.name in {"ArrowUp", "ArrowDown"} ==>
      && r.commandHistory == c.commandHistory && r.history == c.history
      && (r.historyIndex != c.historyIndex ==> r.input == Recalled(r.commandHistory, r.historyIndex))
      && (r.historyIndex != c.historyIndex ==>
            r == c.(historyIndex := r.historyIndex, input := Recalled(c.commandHistory, r.historyIndex)))
      && (r.historyIndex == c.historyIndex ==> r == c)
    ensures key.name == "ArrowUp" ==>
      r.historyIndex == if 0 < |c.commandHistory| && c.historyIndex < |c.commandHistory| - 1 then c.historyIndex + 1 else c.historyIndex
    ensures key.name == "ArrowDown" ==>
      r.historyIndex == if c.historyIndex >= 0 then c.historyIndex - 1 else -1
    ensures key.name == "Enter" ==>
      && r == Executed(c, c.input, hasOnClose).(input := "")
      && (!AllWhitespace(c.input) ==> r.commandHistory == c.commandHistory + [Trim(c.input)] && r.historyIndex == -1)
    ensures key.name !in {"ArrowUp", "ArrowDown", "Enter"} && !(key.name == "l" && key.ctrl) ==> r == c
  {
    var n := |c.commandHistory|;
    if key.name == "ArrowUp" then
      if n > 0 && c.historyIndex < n - 1 then
        c.(historyIndex := c.historyIndex + 1, input := c.commandHistory[n - 1 - (c.historyIndex + 1)])
      else c
    else if key.name == "ArrowDown" then
      if c.historyIndex > 0 then
        c.(historyIndex := c.historyIndex - 1, input := c.commandHistory[n - 1 - (c.historyIndex - 1)])
      else if c.historyIndex == 0 then
        c.(historyIndex := -1, input := "")
      else c
    else if key.name == "Enter" then
      Executed(c, c.input, hasOnClose).(input := "")
    else if key.name == "l" && key.ctrl then
      c.(history := [])
    else c
  }

  /** Ctrl+L empties the log and nothing else. */
  lemma CtrlLClearsLog(c: Console, hasOnClose: bool)
    requires Valid(c)
    ensures KeyPressed(c, Key("l", true), hasOnClose) == c.(history := [])
  {
  }

  /** The input's own editing. */
  function Typed(c: Console, text: string): (r: Console)
    ensures r.input == text && r.(input := c.input) == c
  {
    c.(input := text)
  }

  /** `count` presses of the same key. */
  function Presses(c: Console, key: Key, count: nat, hasOnClose: bool): (r: Console)
    requires Valid(c)
    ensures Valid(r)
    decreases count
  {
    if count == 0 then c else Presses(KeyPressed(c, key, hasOnClose), key, count - 1, hasOnClose)
  }

  /**
   * While the input shows the recalled entry, `count` presses of ArrowUp
   * move the index up by `count` but no further than the oldest entry, and
   * show that entry.
   */
  lemma {:induction false} UpStopsAtOldest(c: Console, count: nat, hasOnClose: bool)
    requires Valid(c) && |c.commandHistory| > 0
    requires c.historyIndex >= 0 ==> c.input == Recalled(c.commandHistory, c.historyIndex)
    ensures var n := |c.commandHistory|;
            var r := Presses(c, ArrowUp, count, hasOnClose);
            var target := if c.historyIndex + count < n - 1 then c.historyIndex + count else n - 1;
            && r.historyIndex == target
            && r.commandHistory == c.commandHistory
            && (count > 0 ==> r.input == c.commandHistory[n - 1 - target])
            && (count == 0 ==> r == c)
    decreases count
  {
    if count > 0 {
      var next := KeyPressed(c, ArrowUp, hasOnClose);
      UpStopsAtOldest(next, count - 1, hasOnClose);
    }
  }

  /** ArrowDown undoes an ArrowUp that moved: the index and the shown input come back. */
  lemma DownUndoesUp(c: Console, hasOnClose: bool)
    requires Valid(c) && c.historyIndex < |c.commandHistory| - 1
    requires c.historyIndex == -1 ==> c.input == ""
    requires c.historyIndex >= 0 ==> c.input == Recalled(c.commandHistory, c.historyIndex)
    ensures KeyPressed(KeyPressed(c, ArrowUp, hasOnClose), ArrowDown, hasOnClose) == c
  {
    var n := |c.commandHistory|;
    var up := KeyPressed(c, ArrowUp, hasOnClose);
    assert up == c.(historyIndex := c.historyIndex + 1, input := c.commandHistory[n - 1 - (c.historyIndex + 1)]);
    assert |ArrowDown.name| != |"ArrowUp"|;
    var down := KeyPressed(up, ArrowDown, hasOnClose);
    if c.historyIndex == -1 {
      assert down == up.(historyIndex := -1, input := "");
    } else {
      assert down == up.(historyIndex := c.historyIndex, input := c.commandHistory[n - 1 - c.historyIndex]);
    }
  }

  // ---------------------------------------------------------------------------
  // Dragging
  // ---------------------------------------------------------------------------

  /** `Math.max(0, Math.min(high, v))`. */
  function Clamp(high: int, v: int): (r: int)
    ensures r >= 0
    ensures high >= 0 ==> r <= high
    ensures 0 <= v <= high ==> r == v
    ensures 0 <= high < v ==> r == high
    ensures v < 0 || high < 0 ==> r == 0
  {
    if high < v then (if high < 0 then 0 else high) else (if v < 0 then 0 else v)
  }

  /** A press on the title bar starts a drag and records where the cursor holds the window. */
  function MouseDown(c: Console, onTitleBar: bool, clientX: int, clientY: int): (r: Console)
    ensures !onTitleBar ==> r == c
    ensures onTitleBar ==> r.dragging && r.position.x + r.offset.x == clientX && r.position.y + r.offset.y == clientY
    ensures onTitleBar ==> r == c.(dragging := true, offset := Point(clientX - c.position.x, clientY - c.position.y))
  {
    if onTitleBar then
      c.(dragging := true, offset := Point(clientX - c.position.x, clientY - c.position.y))
    else c
  }

  /** While dragging, the window follows the cursor, clamped to the viewport. */
  function MouseMoved(c: Console, clientX: int, clientY: int, viewWidth: int, viewHeight: int): (r: Console)
    ensures !c.dragging ==> r == c
    ensures c.dragging ==>
      && r.position.x >= 0 && r.position.y >= 0
      && (viewWidth >= Width ==> r.position.x + Width <= viewWidth)
      && (viewHeight >= Height ==> r.position.y + Height <= viewHeight)
      && (0 <= clientX - c.offset.x <= viewWidth - Width ==> r.position.x == clientX - c.offset.x)
      && (0 <= clientY - c.offset.y <= viewHeight - Height ==> r.position.y == clientY - c.offset.y)
    ensures c.dragging ==>
      r == c.(position := Point(Clamp(viewWidth - Width, clientX - c.offset.x), Clamp(viewHeight - Height, clientY - c.offset.y)))
  {
    if c.dragging then
      c.(position := Point(Clamp(viewWidth - Width, clientX - c.offset.x), Clamp(viewHeight - Height, clientY - c.offset.y)))
    else c
  }

  function MouseUp(c: Console): (r: Console)
    ensures !r.dragging && r.position == c.position
    ensures r == c.(dragging := false)
  {
    c.(dragging := false)
  }

  /** Grabbing the title bar and moving nowhere leaves an on-screen window where it was. */
  lemma GrabWithoutJump(c: Console, clientX: int, clientY: int, viewWidth: int, viewHeight: int)
    requires 0 <= c.position.x <= viewWidth - Width && 0 <= c.position.y <= viewHeight - Height
    ensures MouseMoved(MouseDown(c, true, clientX, clientY), clientX, clientY, viewWidth, viewHeight).position == c.position
  {
  }

  // ---------------------------------------------------------------------------
  // The component's state, updated in place
  // ---------------------------------------------------------------------------

  /** The component's state hooks; `hasOnClose` is whether the parent passed a close callback. */
  class TerminalWindow {
    const hasOnClose: bool
    var input: string
    var history: seq<Line>
    var path: string
    var commandHistory: seq<string>
    var historyIndex: int
    var position: Point
    var dragging: bool
    var offset: Point
    var timers: seq<Timer>

    function Snapshot(): Console
      reads this
    {
      Console(input, history, path, commandHistory, historyIndex, position, dragging, offset, timers)
    }

    constructor(hasOnClose: bool)
      ensures Snapshot() == Initial() && this.hasOnClose == hasOnClose
    {
      this.hasOnClose := hasOnClose;
      input, history, path, commandHistory, historyIndex := "", [], "~", [], -1;
      position, dragging, offset, timers := Point(100, 100), false, Point(0, 0), [];
    }

    /** Runs a command line; a blank one changes nothing. */
    method ExecuteCommand(cmd: string)
      requires Valid(Snapshot())
      modifies this
      ensures Snapshot() == Executed(old(Snapshot()), cmd, hasOnClose)
    {
      var trimmed := Trim(cmd);
      if trimmed == [] {
        return;
      }
      var words := Split(trimmed, ' ');
      var out := Run(words[0], words[1..], hasOnClose);
      Apply(trimmed, out);
    }

    /** The updates a non-blank command line queues, in the order it queues them. */
    method Apply(trimmed: string, out: Outcome)
      modifies this
      ensures Snapshot() == Applied(old(Snapshot()), trimmed, out)
    {
      ghost var target := Applied(Snapshot(), trimmed, out);
      var echo := Echo(path, trimmed);
      commandHistory := commandHistory + [trimmed];
      historyIndex := -1;
      history := history + [echo];
      if out.clears {
        history := [];
      }
      if out.path.Some? {
        path := out.path.value;
      }
      timers := timers + out.timers;
      history := history + out.lines;
      assert Snapshot() == target;
    }

    method KeyDown(key: Key)
      requires Valid(Snapshot())
      modifies this
      ensures Snapshot() == KeyPressed(old(Snapshot()), key, hasOnClose)
    {
      var n := |commandHistory|;
      if key.name == "ArrowUp" {
        if n > 0 && historyIndex < n - 1 {
          var newIndex := historyIndex + 1;
          historyIndex := newIndex;
          input := commandHistory[n - 1 - newIndex];
        }
      } else if key.name == "ArrowDown" {
        if historyIndex > 0 {
          var newIndex := historyIndex - 1;
          historyIndex := newIndex;
          input := commandHistory[n - 1 - newIndex];
        } else if historyIndex == 0 {
          historyIndex := -1;
          input := "";
        }
      } else if key.name == "Enter" {
        ExecuteCommand(input);
        input := "";
      } else if key.name == "l" && key.ctrl {
        history := [];
      }
    }

    method Change(text: string)
      modifies this
      ensures Snapshot() == Typed(old(Snapshot()), text)
    {
      input := text;
    }

    method PressMouse(onTitleBar: bool, clientX: int, clientY: int)
      modifies this
      ensures Snapshot() == MouseDown(old(Snapshot()), onTitleBar, clientX, clientY)
    {
      if onTitleBar {
        dragging := true;
        offset := Point(clientX - position.x, clientY - position.y);
      }
    }

    method MoveMouse(clientX: int, clientY: int, viewWidth: int, viewHeight: int)
      modifies this
      ensures Snapshot() == MouseMoved(old(Snapshot()), clientX, clientY, viewWidth, viewHeight)
    {
      if dragging {
        position := Point(Clamp(viewWidth - Width, clientX - offset.x), Clamp(viewHeight - Height, clientY - offset.y));
      }
    }

    method ReleaseMouse()
      modifies this
      ensures Snapshot() == MouseUp(old(Snapshot()))
    {
      dragging := false;
    }
  }
}
