/** src/messageParser.cpp, namespace Parser: the text command protocol of the firmware.
  * A message is scanned character by character by a four-state machine (START, NUMBER, SEPARATOR,
  * CMD): arguments are comma-terminated, a command is upper case and ends with '\n'. Every complete
  * command is rebuilt as an "atomic command string", interpreted, and, when it succeeded, kept as
  * the last good command and appended to the script being recorded.
  *
  * The scanner is specified by the pure `StepChar` and `Run`; the bookkeeping of one interpreted
  * command by `Interpret` and `Execute`. `Parser.ParseStringMessage` is proved against both.
  * `interpretCommand` is modelled by its command table (names and accepted argument counts), the
  * script and verbose commands, and an abstract outcome for the commands that drive hardware. */
module MessageParser {
  import opened IntWidth
  import Utils

  const ARG_SEPARATOR := ','
  const END_CMD := '\n'
  const LINE_FEED_IGNORE := '\r'
  /** `SIZE_CMD_STACK`: the capacity of the argument stack. */
  const SIZE_CMD_STACK := 50
  /** The loop index of `parseStringMessage` is a uint8_t: it never reaches a longer length. */
  const MAX_MESSAGE_LENGTH := 255

  const REPEAT_COMMAND := "REPEAT"
  const START_REC_SCRIPT := "BEGIN_PRM"
  const END_REC_SCRIPT := "END_PRM"
  const ADD_REC_SCRIPT := "ADD_PRM"
  const LOAD_SCRIPT := "LOAD_PRM"
  const EXECUTE_SCRIPT := "EXE_PRM"
  const SAVE_SCRIPT := "SAVE_PRM"
  const VERBOSE_MODE := "VERBOSE"
  const RESET_BOARD := "RESET"

  datatype Option<T> = None | Some(value: T)

  datatype ParserState = Start | Number | Separator | Cmd

  /** Characters of an argument: '-' to '9' except '/', and the lower-case letters. */
  predicate IsArgChar(c: char)
  {
    (('-' <= c <= '9') || ('a' <= c <= 'z')) && c != '/'
  }

  /** Characters of a command name: the upper-case letters and '_'. */
  predicate IsCmdChar(c: char)
  {
    ('A' <= c <= 'Z') || c == '_'
  }

  predicate AllArgChars(s: string) { forall k :: 0 <= k < |s| ==> IsArgChar(s[k]) }
  predicate AllCmdChars(s: string) { forall k :: 0 <= k < |s| ==> IsCmdChar(s[k]) }

  // ---------------------------------------------------------------------------------------------
  // Conversion helpers

  /** `toBool`: a number gives `toInt() > 0`, "on" gives 1, "off" gives 0, anything else -1.
    * `String::toInt` is not part of this model: it is the parameter `toInt`. */
  function ToBool(s: string, toInt: string -> int): (val: int)
    ensures val == -1 || val == 0 || val == 1
    ensures val == -1 <==> !Utils.IsNumber(s) && s != "on" && s != "off"
    ensures val == 1 <==> (Utils.IsNumber(s) && toInt(s) > 0) || (!Utils.IsNumber(s) && s == "on")
  {
    if Utils.IsNumber(s) then (if toInt(s) > 0 then 1 else 0)
    else if s == "on" then 1
    else if s == "off" then 0
    else -1
  }

  /** `toClassID`: a number is taken as is (truncated to int8_t), a lower-case name is looked up in
    * the class names, anything else gives 0. The range check `val < 0 && val >= N` can never
    * hold, so a negative or too large numeric id passes through unchanged. `isSmallCaps` has no
    * return statement in the source: it is the parameter `isSmallCaps`. The int8_t search index
    * needs at most 127 names to terminate. */
  method ToClassID(s: string, toInt: string -> int, isSmallCaps: string -> bool, classNames: seq<string>)
    returns (val: int)
    requires |classNames| <= 127
    ensures Utils.IsNumber(s) ==> val == WrapInt8(toInt(s))
    ensures !Utils.IsNumber(s) && isSmallCaps(s) && s in classNames ==>
              0 <= val < |classNames| && classNames[val] == s && forall j :: 0 <= j < val ==> classNames[j] != s
    ensures !Utils.IsNumber(s) && !(isSmallCaps(s) && s in classNames) ==> val == 0
  {
    val := 0;
    if Utils.IsNumber(s) {
      val := WrapInt8(toInt(s));
    } else if isSmallCaps(s) {
      var k := Utils.LinearSearch(classNames, s);
      if k < |classNames| {
        val := k;
      }
    }
    if val < 0 && val >= |classNames| {
      val := -1;
    }
  }

  /** The search shared by `toLaserID` and `toTrgMode`: a number is taken as is, a lower-case name
    * is looked up, and anything else gives -1. */
  method ToTableID(s: string, toInt: string -> int, isSmallCaps: string -> bool, names: seq<string>)
    returns (val: int)
    requires |names| <= 127
    ensures Utils.IsNumber(s) ==> val == WrapInt8(toInt(s))
    ensures !Utils.IsNumber(s) && isSmallCaps(s) && s in names ==>
              0 <= val < |names| && names[val] == s && forall j :: 0 <= j < val ==> names[j] != s
    ensures !Utils.IsNumber(s) && !(isSmallCaps(s) && s in names) ==> val == -1
  {
    val := -1;
    if Utils.IsNumber(s) {
      val := WrapInt8(toInt(s));
    } else if isSmallCaps(s) {
      var k := Utils.LinearSearch(names, s);
      if k < |names| {
        val := k;
      }
    }
  }

  /** `toLaserID`: an unknown laser name gives -1. */
  method ToLaserID(s: string, toInt: string -> int, isSmallCaps: string -> bool, laserNames: seq<string>)
    returns (val: int)
    requires |laserNames| <= 127
    ensures Utils.IsNumber(s) ==> val == WrapInt8(toInt(s))
    ensures !Utils.IsNumber(s) && isSmallCaps(s) && s in laserNames ==> 0 <= val < |laserNames| && laserNames[val] == s
    ensures !Utils.IsNumber(s) && !(isSmallCaps(s) && s in laserNames) ==> val == -1
  {
    val := ToTableID(s, toInt, isSmallCaps, laserNames);
  }

  /** `toTrgMode`: an unknown trigger mode name gives -1. */
  method ToTrgMode(s: string, toInt: string -> int, isSmallCaps: string -> bool, trgModeNames: seq<string>)
    returns (val: int)
    requires |trgModeNames| <= 127
    ensures Utils.IsNumber(s) ==> val == WrapInt8(toInt(s))
    ensures !Utils.IsNumber(s) && isSmallCaps(s) && s in trgModeNames ==> 0 <= val < |trgModeNames| && trgModeNames[val] == s
    ensures !Utils.IsNumber(s) && !(isSmallCaps(s) && s in trgModeNames) ==> val == -1
  {
    val := ToTableID(s, toInt, isSmallCaps, trgModeNames);
  }

  // ---------------------------------------------------------------------------------------------
  // The scanner

  /** One command as handed to `interpretCommand`: its name and its arguments. */
  datatype Atomic = Atomic(cmd: string, args: seq<string>)

  /** The arguments of the atomic command string: each one followed by the separator. */
  function ArgsString(args: seq<string>): string
  {
    if args == [] then [] else ArgsString(args[..|args| - 1]) + args[|args| - 1] + [ARG_SEPARATOR]
  }

  /** The atomic command string: `arg0,arg1,...,CMD\n`. */
  function AtomicString(a: Atomic): string
  {
    ArgsString(a.args) + a.cmd + [END_CMD]
  }

  /** A command the scanner can produce: a non-empty upper-case name and at most SIZE_CMD_STACK
    * non-empty arguments. */
  predicate WellFormed(a: Atomic)
  {
    a.cmd != [] && AllCmdChars(a.cmd) && |a.args| <= SIZE_CMD_STACK
    && forall j :: 0 <= j < |a.args| ==> a.args[j] != [] && AllArgChars(a.args[j])
  }

  /** The scanner variables: `myState`, `argStack`, `numArgs` and `cmdString`. */
  datatype Scan = Scan(state: ParserState, argStack: seq<string>, numArgs: nat, cmdString: string)

  /** What `resetParser` leaves. */
  function ResetScan(): Scan
  {
    Scan(Start, EmptyStack(), 0, "")
  }

  /** The stack has its fixed size and the index stays within it; in the NUMBER state the
    * argument being read has a slot. */
  predicate ScanOk(sc: Scan)
  {
    |sc.argStack| == SIZE_CMD_STACK && sc.numArgs <= SIZE_CMD_STACK
    && (sc.state == Number ==> sc.numArgs < SIZE_CMD_STACK)
  }

  /** What the scanner has read so far is well formed: every slot holds argument characters, the
    * closed arguments are non-empty, and the command holds command characters (at least one in
    * the CMD state). */
  predicate ScanWf(sc: Scan)
  {
    ScanOk(sc)
    && (forall j :: 0 <= j < |sc.argStack| ==> AllArgChars(sc.argStack[j]))
    && (forall j :: 0 <= j < sc.numArgs ==> sc.argStack[j] != [])
    && (sc.state == Number ==> sc.argStack[sc.numArgs] != [])
    && AllCmdChars(sc.cmdString) && (sc.state == Cmd ==> sc.cmdString != [])
  }

  /** The outcome of one character: go on with new scanner variables, interpret a complete command
    * (after which the scanner is reset), abort the rest of the message, or write past the end of
    * the argument stack (undefined behaviour in the source). */
  datatype Step = Continue(next: Scan) | Dispatch(a: Atomic) | Abort | Overflow

  /** One turn of the parsing loop. */
  function StepChar(sc: Scan, c: char): (r: Step)
    requires ScanOk(sc)
    ensures r.Continue? ==> ScanOk(r.next)
  {
    if IsArgChar(c) then
      var st := if sc.state == Start || sc.state == Separator then Number else sc.state;
      if st != Number then Abort
      else if sc.numArgs >= SIZE_CMD_STACK then Overflow
      else Continue(sc.(state := Number, argStack := sc.argStack[sc.numArgs := sc.argStack[sc.numArgs] + [c]]))
    else if IsCmdChar(c) then
      var st := if sc.state == Start || sc.state == Separator then Cmd else sc.state;
      if st == Cmd then Continue(sc.(state := Cmd, cmdString := sc.cmdString + [c])) else Abort
    else if c == ARG_SEPARATOR then
      if sc.state == Number then Continue(sc.(state := Separator, numArgs := sc.numArgs + 1)) else Abort
    else if c == END_CMD then
      if sc.state == Start then Continue(sc)
      else if sc.state == Cmd then Dispatch(Atomic(sc.cmdString, sc.argStack[..sc.numArgs]))
      else Abort
    else if c == LINE_FEED_IGNORE || c == ' ' then Continue(sc)
    else Abort
  }

  /** How a scan ends: at the end of the message, on a malformed character, or on a write past the
    * argument stack. */
  datatype End = Completed | Aborted | Overflowed

  /** The commands interpreted, in order, how the scan ended, and the scanner variables at the end. */
  datatype RunResult = RunResult(cmds: seq<Atomic>, end: End, final: Scan)

  /** The scan of `s` from the scanner variables `sc`. */
  function Run(s: string, sc: Scan): (r: RunResult)
    requires ScanOk(sc)
    ensures ScanOk(r.final)
    decreases |s|
  {
    if s == [] then RunResult([], Completed, sc)
    else
      match StepChar(sc, s[0])
      case Continue(next) => Run(s[1..], next)
      case Dispatch(a) => var rest := Run(s[1..], ResetScan()); rest.(cmds := [a] + rest.cmds)
      case Abort => RunResult([], Aborted, sc)
      case Overflow => RunResult([], Overflowed, sc)
  }

  /** The scan of a whole message, which starts from a reset parser. */
  function Tokenize(msg: string): RunResult
  {
    Run(msg, ResetScan())
  }

  /** `r` with `done` in front of its commands. */
  function Prefixed(done: seq<Atomic>, r: RunResult): RunResult
  {
    r.(cmds := done + r.cmds)
  }

  // ---------------------------------------------------------------------------------------------
  // The command table of interpretCommand

  /** The argument counts a command accepts: one count, one of two counts (the figure commands,
    * `EXE_PRM`), or any even count (`SET_SEQ`). */
  datatype Arity = Exactly(n: nat) | EitherOf(a: nat, b: nat) | EvenCount

  predicate ArityOk(ar: Arity, n: nat)
  {
    match ar
    case Exactly(k) => n == k
    case EitherOf(a, b) => n == a || n == b
    case EvenCount => n % 2 == 0
  }

  /** A command table: names with the argument counts they accept. */
  type Table = seq<(string, Arity)>

  /** The commands of `interpretCommand` that drive the hardware or report status, with the
    * argument counts each accepts, in the order of its if-else chain. `SET_STATE` is the name the
    * commented-out definition of `SET_STATE_MODULE` gives. The script commands, `REPEAT`,
    * `VERBOSE` and `RESET` are handled by `Accepted` and `Interpret` themselves. */
  const HARDWARE_COMMANDS: Table := [
    ("PWLASERALL", Exactly(1)), ("PWLASER", Exactly(2)), ("SWLASERALL", Exactly(1)), ("SWLASER", Exactly(2)),
    ("CARRIERALL", Exactly(1)), ("CARRIER", Exactly(2)), ("SHUTTER", Exactly(1)), ("TSTLASERS", Exactly(0)),
    ("SET_PERIOD_CLK", Exactly(2)), ("START_CLK", Exactly(1)), ("STOP_CLK", Exactly(1)),
    ("SET_STATE_CLK", Exactly(2)), ("SET_STATE_CLK_ALL", Exactly(1)), ("RST_CLK", Exactly(1)),
    ("RST_CLK_ALL", Exactly(0)), ("SET_TRG", Exactly(5)), ("SET_PUL", Exactly(3)),
    ("SET_STATE_SEQ", Exactly(1)), ("START_SEQ", Exactly(0)), ("STOP_SEQ", Exactly(0)), ("RST_SEQ", Exactly(0)),
    ("ADD_SEQ_MODULE", Exactly(2)), ("SET_LNK_SEQ", Exactly(4)), ("SET_SEQ", EvenCount),
    ("CLEAR_SEQ", Exactly(0)), ("STATUS_SEQ", Exactly(0)), ("SET_STATE", Exactly(3)),
    ("PWOPTOALL", Exactly(1)), ("PWOPTO", Exactly(2)),
    ("START", Exactly(0)), ("STOP", Exactly(0)), ("DT", Exactly(1)), ("STATUS", Exactly(0)),
    ("RSTPOSE", Exactly(0)), ("ANGLE", Exactly(1)), ("CENTER", Exactly(2)), ("SCALE", Exactly(1)),
    ("COLOR", Exactly(1)), ("CLEAR", Exactly(0)), ("CLMODE", Exactly(1)),
    ("BLANKALL", Exactly(1)), ("BLANK", Exactly(2)), ("PTBLANK", Exactly(1)),
    ("LINE", EitherOf(3, 5)), ("CIRCLE", EitherOf(2, 4)), ("RECT", EitherOf(4, 6)),
    ("SQUARE", EitherOf(2, 4)), ("ZIGZAG", EitherOf(4, 6)), ("SPIRAL", EitherOf(5, 3)),
    ("LITEST", Exactly(0)), ("CITEST", Exactly(0)), ("SQTEST", Exactly(0)), ("MIRE", Exactly(0)),
    ("SETPIN", Exactly(2)), ("WDIG_A", Exactly(1)), ("WDIG_B", Exactly(1)),
    ("RDIG_A", Exactly(0)), ("RDIG_B", Exactly(0)), ("WANA_A", Exactly(1)), ("WANA_B", Exactly(1)),
    ("RANA_A", Exactly(0)), ("RANA_B", Exactly(0)),
    ("SQRANGE", Exactly(1)), ("CIRANGE", Exactly(1)), ("CRRANGE", Exactly(1)),
    ("SAVE_PRM", Exactly(1)), ("LIST_SD_PRM", Exactly(0)), ("SHOW_PRM", Exactly(0))
  ]

  /** The commands handled by the parser itself. */
  const PARSER_COMMANDS: seq<string> := [REPEAT_COMMAND, LOAD_SCRIPT, EXECUTE_SCRIPT, START_REC_SCRIPT,
                                         END_REC_SCRIPT, ADD_REC_SCRIPT, VERBOSE_MODE, RESET_BOARD]

  /** The accepted argument counts of the first table entry named `cmd`, or None for a name the
    * table does not hold. */
  function LookupArity(table: Table, cmd: string): (r: Option<Arity>)
    ensures r.None? <==> forall i :: 0 <= i < |table| ==> table[i].0 != cmd
    ensures r.Some? ==> exists i :: 0 <= i < |table| && table[i] == (cmd, r.value)
  {
    if table == [] then None
    else if table[0].0 == cmd then Some(table[0].1)
    else
      var r := LookupArity(table[1..], cmd);
      assert r.Some? ==> exists i :: 0 <= i < |table[1..]| && table[1..][i] == (cmd, r.value);
      r
  }

  /** A command name `interpretCommand` knows. */
  predicate IsKnown(table: Table, cmd: string)
  {
    cmd in PARSER_COMMANDS || LookupArity(table, cmd).Some?
  }

  /** The globals the parser changes: `recordingScript`, `scriptStringInMemory`,
    * `oldAtomicCommandString`, and `Utils::verboseMode` (set by `VERBOSE`). */
  datatype Globals = Globals(recordingScript: bool, scriptStringInMemory: string,
                             oldAtomicCommandString: string, verboseMode: bool)

  /** What lies outside the parser: the outcome of the commands that drive hardware (their
    * argument-format checks included), the files on the SD card, and `String::toInt`. */
  datatype Env = Env(outcome: (string, seq<string>) -> bool, files: map<string, string>, toInt: string -> int)

  /** `readScript`: the file `name.txt`, or "error" when it cannot be opened. */
  function ReadScript(files: map<string, string>, name: string): string
  {
    if name + ".txt" in files then files[name + ".txt"] else "error"
  }

  /** Whether `interpretCommand` reports success: never for an unknown command or a wrong number of
    * arguments. The recording commands and `REPEAT` take no argument and always succeed,
    * `LOAD_PRM name` and `EXE_PRM name` fail when the file cannot be read, `EXE_PRM` succeeds
    * otherwise (the nested parse always returns true), `VERBOSE` and `RESET` never report success,
    * and every other command reports the outcome of its hardware action. */
  function Accepted(a: Atomic, table: Table, env: Env): bool
  {
    var n := |a.args|;
    if a.cmd == REPEAT_COMMAND || a.cmd == START_REC_SCRIPT || a.cmd == END_REC_SCRIPT || a.cmd == ADD_REC_SCRIPT then
      n == 0
    else if a.cmd == LOAD_SCRIPT then n == 1 && ReadScript(env.files, a.args[0]) != "error"
    else if a.cmd == EXECUTE_SCRIPT then n == 0 || (n == 1 && ReadScript(env.files, a.args[0]) != "error")
    else if a.cmd == VERBOSE_MODE || a.cmd == RESET_BOARD then false
    else
      match LookupArity(table, a.cmd)
      case None => false
      case Some(ar) => ArityOk(ar, n) && env.outcome(a.cmd, a.args)
  }

  /** `interpretCommand`: the globals after the command and its success flag. An unknown command
    * fails and changes nothing; only the recording commands, a successful `LOAD_PRM` and
    * `VERBOSE` change the globals, and none of them the last good command. */
  function Interpret(g: Globals, a: Atomic, table: Table, env: Env): (r: (Globals, bool))
    ensures r.1 == Accepted(a, table, env)
    ensures !IsKnown(table, a.cmd) ==> r == (g, false)
    ensures a.cmd !in [START_REC_SCRIPT, END_REC_SCRIPT, ADD_REC_SCRIPT, LOAD_SCRIPT, VERBOSE_MODE] ==> r.0 == g
    ensures r.0.oldAtomicCommandString == g.oldAtomicCommandString
  {
    var n := |a.args|;
    if a.cmd == START_REC_SCRIPT && n == 0 then (g.(scriptStringInMemory := "", recordingScript := true), true)
    else if a.cmd == END_REC_SCRIPT && n == 0 then (g.(recordingScript := false), true)
    else if a.cmd == ADD_REC_SCRIPT && n == 0 then (g.(recordingScript := true), true)
    else if a.cmd == LOAD_SCRIPT && n == 1 && ReadScript(env.files, a.args[0]) != "error" then
      (g.(scriptStringInMemory := ReadScript(env.files, a.args[0])), true)
    else if a.cmd == VERBOSE_MODE && n == 1 then (g.(verboseMode := ToBool(a.args[0], env.toInt) != 0), false)
    else (g, Accepted(a, table, env))
  }

  /** A successful command is remembered and recorded unless it is `REPEAT` or a recording command. */
  predicate Recordable(cmd: string)
  {
    cmd != REPEAT_COMMAND && cmd != START_REC_SCRIPT && cmd != END_REC_SCRIPT && cmd != ADD_REC_SCRIPT
  }

  /** One interpreted command with the parser's bookkeeping: a successful recordable command
    * becomes the last good command and, while recording, is appended to the script. */
  function Execute(g: Globals, a: Atomic, table: Table, env: Env): (r: Globals)
    ensures Accepted(a, table, env) && Recordable(a.cmd) ==> r.oldAtomicCommandString == AtomicString(a)
    ensures !(Accepted(a, table, env) && Recordable(a.cmd)) ==> r.oldAtomicCommandString == g.oldAtomicCommandString
    ensures r.recordingScript == Interpret(g, a, table, env).0.recordingScript
    ensures r.verboseMode == Interpret(g, a, table, env).0.verboseMode
  {
    var (g1, ok) := Interpret(g, a, table, env);
    if ok && Recordable(a.cmd) then
      g1.(oldAtomicCommandString := AtomicString(a),
          scriptStringInMemory := if g1.recordingScript then g1.scriptStringInMemory + AtomicString(a)
                                  else g1.scriptStringInMemory)
    else g1
  }

  /** The globals after a sequence of interpreted commands. */
  function ExecuteAll(g: Globals, cmds: seq<Atomic>, table: Table, env: Env): Globals
  {
    if cmds == [] then g else Execute(ExecuteAll(g, cmds[..|cmds| - 1], table, env), cmds[|cmds| - 1], table, env)
  }

  lemma ExecuteAllSnoc(g: Globals, cmds: seq<Atomic>, a: Atomic, table: Table, env: Env)
    ensures ExecuteAll(g, cmds + [a], table, env) == Execute(ExecuteAll(g, cmds, table, env), a, table, env)
  {
    assert (cmds + [a])[..|cmds|] == cmds;
  }

  // ---------------------------------------------------------------------------------------------
  // The parser's globals and parseStringMessage

  class Parser {
    var recordingScript: bool
    var scriptStringInMemory: string
    var oldAtomicCommandString: string
    /** `Utils::verboseMode`, which the `VERBOSE` command sets. */
    const verbosity: Utils.Verbosity
    /** The hardware commands `interpretCommand` knows: `HARDWARE_COMMANDS`. */
    const commands: Table
    /** Every command handed to `interpretCommand`, in order. */
    ghost var interpreted: seq<Atomic>

    function G(): Globals
      reads this, verbosity
    {
      Globals(recordingScript, scriptStringInMemory, oldAtomicCommandString, verbosity.verboseMode)
    }

    /** The globals' initialisers: not recording, empty script, no last command. */
    constructor (v: Utils.Verbosity)
      ensures verbosity == v && commands == HARDWARE_COMMANDS && interpreted == []
      ensures !recordingScript && scriptStringInMemory == "" && oldAtomicCommandString == ""
    {
      verbosity := v;
      commands := HARDWARE_COMMANDS;
      recordingScript := false;
      scriptStringInMemory := "";
      oldAtomicCommandString := "";
      interpreted := [];
    }

    /** `beginRecordingScript`: clears the script and turns recording on. */
    method BeginRecordingScript()
      modifies this`scriptStringInMemory, this`recordingScript
      ensures scriptStringInMemory == "" && recordingScript
    {
      scriptStringInMemory := "";
      recordingScript := true;
    }

    /** `endRecordingScript`: only turns recording off. */
    method EndRecordingScript()
      modifies this`recordingScript
      ensures !recordingScript
    {
      recordingScript := false;
    }

    /** `addRecordingScript`: turns recording on and keeps the script. */
    method AddRecordingScript()
      modifies this`recordingScript
      ensures recordingScript
    {
      recordingScript := true;
    }

    /** `interpretCommand(cmdString, numArgs, argStack)`. */
    method InterpretCommand(cmdString: string, numArgs: nat, argStack: seq<string>, env: Env) returns (execFlag: bool)
      requires numArgs <= |argStack|
      modifies this`recordingScript, this`scriptStringInMemory, verbosity
      ensures (G(), execFlag) == Interpret(old(G()), Atomic(cmdString, argStack[..numArgs]), commands, env)
    {
      var a := Atomic(cmdString, argStack[..numArgs]);
      execFlag := false;
      if cmdString == START_REC_SCRIPT {
        if numArgs == 0 {
          BeginRecordingScript();
          execFlag := true;
        }
      } else if cmdString == END_REC_SCRIPT {
        if numArgs == 0 {
          EndRecordingScript();
          execFlag := true;
        }
      } else if cmdString == ADD_REC_SCRIPT {
        if numArgs == 0 {
          AddRecordingScript();
          execFlag := true;
        }
      } else if cmdString == LOAD_SCRIPT {
        if numArgs == 1 {
          var msgString := ReadScript(env.files, argStack[0]);
          if msgString != "error" {
            scriptStringInMemory := msgString;
            execFlag := true;
          }
        }
      } else if cmdString == VERBOSE_MODE {
        if numArgs == 1 {
          verbosity.SetVerboseMode(ToBool(argStack[0], env.toInt) != 0);
          execFlag := false;
        }
      } else {
        execFlag := Accepted(a, commands, env);
      }
    }

    /** The handling of one complete command inside `parseStringMessage`: build its atomic
      * command string, interpret it, and when it succeeded and is recordable, keep it as the last
      * good command and append it to the script being recorded. */
    method ExecuteAtomicCommand(cmdString: string, numArgs: nat, argStack: seq<string>, env: Env)
      returns (cmdExecuted: bool)
      requires numArgs <= |argStack|
      modifies this, verbosity
      ensures cmdExecuted == Accepted(Atomic(cmdString, argStack[..numArgs]), commands, env)
      ensures G() == Execute(old(G()), Atomic(cmdString, argStack[..numArgs]), commands, env)
      ensures interpreted == old(interpreted) + [Atomic(cmdString, argStack[..numArgs])]
    {
      var atomicCommandString := "";
      for k := 0 to numArgs
        invariant atomicCommandString == ArgsString(argStack[..k])
      {
        assert argStack[..k + 1][..k] == argStack[..k];
        atomicCommandString := atomicCommandString + argStack[k] + [ARG_SEPARATOR];
      }
      atomicCommandString := atomicCommandString + cmdString + [END_CMD];
      cmdExecuted := InterpretCommand(cmdString, numArgs, argStack, env);
      if cmdExecuted {
        if Recordable(cmdString) {
          oldAtomicCommandString := atomicCommandString;
          if recordingScript {
            scriptStringInMemory := scriptStringInMemory + atomicCommandString;
          }
        }
      }
      interpreted := interpreted + [Atomic(cmdString, argStack[..numArgs])];
    }

    /** `parseStringMessage`: scans the message, interprets each complete command as soon as its
      * '\n' arrives, and stops at the first malformed character; the commands interpreted before
      * it stay executed. It always returns true: `scriptExecuted` is only ANDed with a flag that
      * is true. A message longer than 255 characters never ends (uint8_t index), and a 51st
      * argument in one command writes past the argument stack; both are excluded. */
    method ParseStringMessage(msg: string, env: Env) returns (scriptExecuted: bool)
      requires |msg| <= MAX_MESSAGE_LENGTH
      requires Tokenize(msg).end != Overflowed
      modifies this, verbosity
      ensures scriptExecuted
      ensures G() == ExecuteAll(old(G()), Tokenize(msg).cmds, commands, env)
      ensures interpreted == old(interpreted) + Tokenize(msg).cmds
    {
      var myState: ParserState, numArgs: nat, argStack: seq<string>, cmdString: string := Start, 0, EmptyStack(), "";
      scriptExecuted := true;
      ghost var done: seq<Atomic> := [];
      ghost var g0 := G();
      ghost var total := Tokenize(msg);
      var i := 0;
      while i < |msg|
        invariant i <= |msg|
        invariant ScanOk(Scan(myState, argStack, numArgs, cmdString))
        invariant total == Prefixed(done, Run(msg[i..], Scan(myState, argStack, numArgs, cmdString)))
        invariant G() == ExecuteAll(g0, done, commands, env)
        invariant interpreted == old(interpreted) + done
        invariant scriptExecuted
      {
        ghost var sc := Scan(myState, argStack, numArgs, cmdString);
        NoOverflowAhead(total, done, msg, i, sc);
        var turn;
        myState, numArgs, argStack, cmdString, turn := ScanCharacter(msg[i], myState, numArgs, argStack, cmdString);
        if turn == AbortParse {
          AdvanceOnAbort(total, done, msg, i, sc);
          break;
        } else if turn == InterpretCmd {
          var a := Atomic(cmdString, argStack[..numArgs]);
          AdvanceOnDispatch(total, done, msg, i, sc, a);
          var cmdExecuted := ExecuteAtomicCommand(cmdString, numArgs, argStack, env);
          if cmdExecuted {
            scriptExecuted := scriptExecuted && cmdExecuted;
          }
          ExecuteAllSnoc(g0, done, a, commands, env);
          done := done + [a];
          // resetParser
          myState, numArgs, argStack, cmdString := Start, 0, EmptyStack(), "";
        } else {
          AdvanceOnContinue(total, done, msg, i, sc, Scan(myState, argStack, numArgs, cmdString));
        }
        i := i + 1;
      }
      if i == |msg| {
        assert msg[i..] == [];
        assert total.cmds == done + [] == done;
      }
    }
  }

  /** What one character asks of the parsing loop: go on, interpret the command read, or stop. */
  datatype Turn = Proceed | InterpretCmd | AbortParse

  /** `resetParser`'s argument stack: SIZE_CMD_STACK empty strings. */
  function EmptyStack(): (stack: seq<string>)
    ensures |stack| == SIZE_CMD_STACK && forall j :: 0 <= j < |stack| ==> stack[j] == ""
  {
    seq(SIZE_CMD_STACK, _ => "")
  }

  /** One turn of the loop of `parseStringMessage` short of interpreting: the character's class and
    * the state decide. It follows `StepChar`: on `Proceed` the variables are the next scanner
    * variables, on `InterpretCmd` they are unchanged and the command is the one `StepChar`
    * dispatches, on `AbortParse` the message is malformed there. A write past the argument stack
    * is excluded. */
  method ScanCharacter(val: char, myState: ParserState, numArgs: nat, argStack: seq<string>, cmdString: string)
    returns (state': ParserState, numArgs': nat, argStack': seq<string>, cmdString': string, turn: Turn)
    requires ScanOk(Scan(myState, argStack, numArgs, cmdString))
    requires StepChar(Scan(myState, argStack, numArgs, cmdString), val) != Overflow
    ensures turn == Proceed <==> StepChar(Scan(myState, argStack, numArgs, cmdString), val).Continue?
    ensures turn == Proceed ==>
              StepChar(Scan(myState, argStack, numArgs, cmdString), val) == Continue(Scan(state', argStack', numArgs', cmdString'))
    ensures turn == InterpretCmd <==> StepChar(Scan(myState, argStack, numArgs, cmdString), val).Dispatch?
    ensures turn == InterpretCmd ==>
              StepChar(Scan(myState, argStack, numArgs, cmdString), val) == Dispatch(Atomic(cmdString, argStack[..numArgs]))
    ensures turn != Proceed ==> state' == myState && numArgs' == numArgs && argStack' == argStack && cmdString' == cmdString
  {
    state', numArgs', argStack', cmdString', turn := myState, numArgs, argStack, cmdString, Proceed;
    if IsArgChar(val) {
      if state' == Start || state' == Separator {
        state' := Number;
      }
      if state' == Number {
        argStack' := argStack'[numArgs' := argStack'[numArgs'] + [val]];
      } else {
        turn := AbortParse;
      }
    } else if IsCmdChar(val) {
      if state' == Start || state' == Separator {
        state' := Cmd;
      }
      if state' == Cmd {
        cmdString' := cmdString' + [val];
      } else {
        turn := AbortParse;
      }
    } else if val == ARG_SEPARATOR {
      if state' == Number {
        numArgs' := numArgs' + 1;
        state' := Separator;
      } else {
        turn := AbortParse;
      }
    } else if val == END_CMD {
      if state' == Start {
        // an empty line: nothing to interpret, parsing goes on
      } else if state' == Cmd {
        turn := InterpretCmd;
      } else {
        turn := AbortParse;
      }
    } else if val == LINE_FEED_IGNORE || val == ' ' {
      // skipped
    } else {
      turn := AbortParse;
    }
  }

  /** The loop of `parseStringMessage` after a character that continues the scan. */
  lemma AdvanceOnContinue(total: RunResult, done: seq<Atomic>, msg: string, i: nat, sc: Scan, next: Scan)
    requires ScanOk(sc) && i < |msg| && total == Prefixed(done, Run(msg[i..], sc))
    requires StepChar(sc, msg[i]) == Continue(next)
    ensures total == Prefixed(done, Run(msg[i + 1..], next))
  {
    RunStep(msg[i..], sc);
    assert msg[i..][0] == msg[i] && msg[i..][1..] == msg[i + 1..];
  }

  /** The loop of `parseStringMessage` after a '\n' that completes a command. */
  lemma AdvanceOnDispatch(total: RunResult, done: seq<Atomic>, msg: string, i: nat, sc: Scan, a: Atomic)
    requires ScanOk(sc) && i < |msg| && total == Prefixed(done, Run(msg[i..], sc))
    requires StepChar(sc, msg[i]) == Dispatch(a)
    ensures total == Prefixed(done + [a], Run(msg[i + 1..], ResetScan()))
  {
    var rest := msg[i..];
    assert rest[0] == msg[i] && rest[1..] == msg[i + 1..];
    RunStep(rest, sc);
    var r := Run(msg[i + 1..], ResetScan());
    assert Run(rest, sc) == Prefixed([a], r);
    PrefixedTwice(done, [a], r);
  }

  lemma PrefixedTwice(done: seq<Atomic>, more: seq<Atomic>, r: RunResult)
    ensures Prefixed(done, Prefixed(more, r)) == Prefixed(done + more, r)
  {
    assert done + (more + r.cmds) == (done + more) + r.cmds;
  }

  /** The loop of `parseStringMessage` on a malformed character: the commands so far are all. */
  lemma AdvanceOnAbort(total: RunResult, done: seq<Atomic>, msg: string, i: nat, sc: Scan)
    requires ScanOk(sc) && i < |msg| && total == Prefixed(done, Run(msg[i..], sc))
    requires StepChar(sc, msg[i]) == Abort
    ensures total.cmds == done
  {
    RunStep(msg[i..], sc);
    assert msg[i..][0] == msg[i];
    assert done + [] == done;
  }

  /** The loop of `parseStringMessage` never writes past the argument stack. */
  lemma NoOverflowAhead(total: RunResult, done: seq<Atomic>, msg: string, i: nat, sc: Scan)
    requires ScanOk(sc) && i < |msg| && total == Prefixed(done, Run(msg[i..], sc)) && total.end != Overflowed
    ensures StepChar(sc, msg[i]) != Overflow
  {
    RunStep(msg[i..], sc);
    assert msg[i..][0] == msg[i];
  }

  /** One step of `Run`. */
  lemma RunStep(s: string, sc: Scan)
    requires ScanOk(sc) && s != []
    ensures StepChar(sc, s[0]).Continue? ==> Run(s, sc) == Run(s[1..], StepChar(sc, s[0]).next)
    ensures StepChar(sc, s[0]).Dispatch? ==> Run(s, sc) == Prefixed([StepChar(sc, s[0]).a], Run(s[1..], ResetScan()))
    ensures StepChar(sc, s[0]).Abort? ==> Run(s, sc) == RunResult([], Aborted, sc)
    ensures StepChar(sc, s[0]).Overflow? ==> Run(s, sc).end == Overflowed
  {
  }

  // ---------------------------------------------------------------------------------------------
  // Properties of the scanner

  /** A scan that reaches the end of `a` goes on with `b` from where it stopped: the commands of a
    * concatenation are those of the first part followed by those of the second. */
  lemma {:induction false} RunAppend(a: string, b: string, sc: Scan)
    requires ScanOk(sc) && Run(a, sc).end == Completed
    ensures Run(a + b, sc) == Prefixed(Run(a, sc).cmds, Run(b, Run(a, sc).final))
    decreases |a|
  {
    if a != [] {
      assert (a + b)[0] == a[0] && (a + b)[1..] == a[1..] + b;
      RunStep(a, sc);
      RunStep(a + b, sc);
      match StepChar(sc, a[0])
      case Continue(next) =>
        RunAppend(a[1..], b, next);
      case Dispatch(x) =>
        var r1 := Run(a[1..], ResetScan());
        RunAppend(a[1..], b, ResetScan());
        var r2 := Run(b, r1.final);
        assert Run(a, sc) == Prefixed([x], r1);
        assert Run(a + b, sc) == Prefixed([x], Prefixed(r1.cmds, r2));
        assert [x] + (r1.cmds + r2.cmds) == ([x] + r1.cmds) + r2.cmds;
      case Abort =>
      case Overflow =>
    } else {
      assert a + b == b;
      assert [] + Run(b, sc).cmds == Run(b, sc).cmds;
    }
  }

  /** A character outside the protocol aborts the rest of the message; the commands completed
    * before it stay interpreted and nothing after it is. */
  lemma BadCharacterAborts(a: string, c: char, b: string)
    requires Tokenize(a).end == Completed
    requires !IsArgChar(c) && !IsCmdChar(c) && c !in [ARG_SEPARATOR, END_CMD, LINE_FEED_IGNORE, ' ']
    ensures Tokenize(a + [c] + b).cmds == Tokenize(a).cmds
    ensures Tokenize(a + [c] + b).end == Aborted
  {
    RunAppend(a, [c] + b, ResetScan());
    assert a + [c] + b == a + ([c] + b);
    assert ([c] + b)[0] == c;
  }

  /** An argument character while reading a command, or a command character while reading an
    * argument, aborts the rest of the message. */
  lemma ClassClashAborts(sc: Scan, c: char, rest: string)
    requires ScanOk(sc)
    requires (sc.state == Cmd && IsArgChar(c)) || (sc.state == Number && IsCmdChar(c))
    ensures Run([c] + rest, sc) == RunResult([], Aborted, sc)
  {
    assert ([c] + rest)[0] == c;
  }

  /** '\n' depends on the state: in START it is skipped, in CMD it interprets the command with
    * exactly the arguments collected and resets the parser, in NUMBER or SEPARATOR it aborts. */
  lemma EndOfCommand(sc: Scan, rest: string)
    requires ScanOk(sc)
    ensures sc.state == Start ==> Run([END_CMD] + rest, sc) == Run(rest, sc)
    ensures sc.state == Cmd ==>
              Run([END_CMD] + rest, sc) == Prefixed([Atomic(sc.cmdString, sc.argStack[..sc.numArgs])], Run(rest, ResetScan()))
    ensures sc.state in {Number, Separator} ==> Run([END_CMD] + rest, sc) == RunResult([], Aborted, sc)
  {
    assert ([END_CMD] + rest)[0] == END_CMD && ([END_CMD] + rest)[1..] == rest;
  }

  /** The separator is accepted only after an argument character: it closes that argument. */
  lemma SeparatorOnlyAfterArgument(sc: Scan, rest: string)
    requires ScanOk(sc)
    ensures sc.state == Number ==>
              Run([ARG_SEPARATOR] + rest, sc) == Run(rest, sc.(state := Separator, numArgs := sc.numArgs + 1))
    ensures sc.state != Number ==> Run([ARG_SEPARATOR] + rest, sc) == RunResult([], Aborted, sc)
  {
    assert ([ARG_SEPARATOR] + rest)[0] == ARG_SEPARATOR && ([ARG_SEPARATOR] + rest)[1..] == rest;
  }

  function CountChar(s: string, c: char): nat
  {
    if s == [] then 0 else (if s[0] == c then 1 else 0) + CountChar(s[1..], c)
  }

  /** Within one command (no '\n'), the argument count grows by exactly the number of separators. */
  lemma {:induction false} NumArgsCountsSeparators(s: string, sc: Scan)
    requires ScanOk(sc) && END_CMD !in s && Run(s, sc).end == Completed
    ensures Run(s, sc).cmds == []
    ensures Run(s, sc).final.numArgs == sc.numArgs + CountChar(s, ARG_SEPARATOR)
    decreases |s|
  {
    if s != [] {
      assert s[0] in s;
      assert forall k :: 0 <= k < |s[1..]| ==> s[1..][k] == s[k + 1];
      assert END_CMD !in s[1..];
      match StepChar(sc, s[0])
      case Continue(next) => NumArgsCountsSeparators(s[1..], next);
      case Dispatch(x) =>
      case Abort =>
      case Overflow =>
    }
  }

  /** A message with fewer separators than slots left never writes past the argument stack. */
  lemma {:induction false} FewSeparatorsNeverOverflow(s: string, sc: Scan)
    requires ScanOk(sc) && sc.numArgs + CountChar(s, ARG_SEPARATOR) < SIZE_CMD_STACK
    ensures Run(s, sc).end != Overflowed
    decreases |s|
  {
    if s != [] {
      match StepChar(sc, s[0])
      case Continue(next) => FewSeparatorsNeverOverflow(s[1..], next);
      case Dispatch(x) => FewSeparatorsNeverOverflow(s[1..], ResetScan());
      case Abort =>
      case Overflow =>
    }
  }

  /** Argument characters are appended to the argument in the current slot. */
  lemma {:induction false} ReadArgChars(s: string, t: string, sc: Scan)
    requires ScanOk(sc) && sc.numArgs < SIZE_CMD_STACK && AllArgChars(s)
    requires sc.state == Number || (s != [] && sc.state in {Start, Separator})
    ensures Run(s + t, sc)
            == Run(t, sc.(state := Number, argStack := sc.argStack[sc.numArgs := sc.argStack[sc.numArgs] + s]))
    decreases |s|
  {
    var n := sc.numArgs;
    if s == [] {
      assert sc.argStack[n] + s == sc.argStack[n];
      assert sc.argStack[n := sc.argStack[n] + s] == sc.argStack;
      assert s + t == t;
    } else {
      assert (s + t)[0] == s[0] && (s + t)[1..] == s[1..] + t;
      assert IsArgChar(s[0]);
      var next := sc.(state := Number, argStack := sc.argStack[n := sc.argStack[n] + [s[0]]]);
      assert StepChar(sc, s[0]) == Continue(next);
      ReadArgChars(s[1..], t, next);
      assert next.argStack[n := next.argStack[n] + s[1..]] == sc.argStack[n := sc.argStack[n] + s] by {
        assert sc.argStack[n] + [s[0]] + s[1..] == sc.argStack[n] + s;
      }
    }
  }

  /** Command characters are appended to the command name. */
  lemma {:induction false} ReadCmdChars(s: string, t: string, sc: Scan)
    requires ScanOk(sc) && AllCmdChars(s)
    requires sc.state == Cmd || (s != [] && sc.state in {Start, Separator})
    ensures Run(s + t, sc) == Run(t, sc.(state := Cmd, cmdString := sc.cmdString + s))
    decreases |s|
  {
    if s == [] {
      assert s + t == t && sc.cmdString + s == sc.cmdString;
    } else {
      assert (s + t)[0] == s[0] && (s + t)[1..] == s[1..] + t;
      assert IsCmdChar(s[0]) && !IsArgChar(s[0]);
      var next := sc.(state := Cmd, cmdString := sc.cmdString + [s[0]]);
      assert StepChar(sc, s[0]) == Continue(next);
      ReadCmdChars(s[1..], t, next);
      assert sc.cmdString + [s[0]] + s[1..] == sc.cmdString + s;
    }
  }

  /** The scanner variables after the argument part of an atomic command string, read from a
    * reset parser. */
  function ArgsRead(args: seq<string>): (sc: Scan)
    requires |args| <= SIZE_CMD_STACK
    ensures ScanOk(sc)
  {
    Scan(if args == [] then Start else Separator, args + EmptyStack()[|args|..], |args|, "")
  }

  lemma StackAfterOneMore(init: seq<string>, last: string)
    requires |init| < SIZE_CMD_STACK
    ensures (init + EmptyStack()[|init|..])[|init| := last] == (init + [last]) + EmptyStack()[|init| + 1..]
  {
    var l := (init + EmptyStack()[|init|..])[|init| := last];
    var r := (init + [last]) + EmptyStack()[|init| + 1..];
    assert |l| == |r|;
    forall j | 0 <= j < |l| ensures l[j] == r[j] {
    }
  }

  /** One argument and its separator fill the current, empty, slot. */
  lemma ReadOneArg(s: string, t: string, sc: Scan)
    requires ScanOk(sc) && sc.state in {Start, Separator} && sc.numArgs < SIZE_CMD_STACK
    requires sc.argStack[sc.numArgs] == "" && s != [] && AllArgChars(s)
    ensures Run(s + [ARG_SEPARATOR] + t, sc)
            == Run(t, sc.(state := Separator, argStack := sc.argStack[sc.numArgs := s], numArgs := sc.numArgs + 1))
  {
    var n := sc.numArgs;
    assert s + [ARG_SEPARATOR] + t == s + ([ARG_SEPARATOR] + t);
    ReadArgChars(s, [ARG_SEPARATOR] + t, sc);
    assert sc.argStack[n] + s == s;
    SeparatorOnlyAfterArgument(sc.(state := Number, argStack := sc.argStack[n := s]), t);
  }

  /** The argument part of an atomic command string fills the first slots of the stack. */
  lemma {:induction false} ReadArgs(args: seq<string>, t: string)
    requires |args| <= SIZE_CMD_STACK
    requires forall j :: 0 <= j < |args| ==> args[j] != [] && AllArgChars(args[j])
    ensures Run(ArgsString(args) + t, ResetScan()) == Run(t, ArgsRead(args))
    decreases |args|
  {
    if args == [] {
      assert ArgsString(args) + t == t;
      assert args + EmptyStack()[0..] == EmptyStack();
    } else {
      var init, last := args[..|args| - 1], args[|args| - 1];
      assert ArgsString(args) + t == ArgsString(init) + (last + [ARG_SEPARATOR] + t);
      ReadArgs(init, last + [ARG_SEPARATOR] + t);
      ReadOneArg(last, t, ArgsRead(init));
      StackAfterOneMore(init, last);
      assert init + [last] == args;
    }
  }

  /** Round trip: re-parsing the atomic command string of a well-formed command interprets exactly
    * that command, with the same name and the same arguments, and leaves the parser reset. */
  lemma AtomicStringRoundTrip(a: Atomic)
    requires WellFormed(a)
    ensures Tokenize(AtomicString(a)) == RunResult([a], Completed, ResetScan())
  {
    var n := |a.args|;
    assert AtomicString(a) == ArgsString(a.args) + (a.cmd + [END_CMD]);
    ReadArgs(a.args, a.cmd + [END_CMD]);
    var sc1 := ArgsRead(a.args);
    ReadCmdChars(a.cmd, [END_CMD], sc1);
    assert sc1.cmdString + a.cmd == a.cmd;
    var sc2 := sc1.(state := Cmd, cmdString := a.cmd);
    EndOfCommand(sc2, []);
    assert [END_CMD] + [] == [END_CMD];
    assert sc2.argStack[..n] == a.args;
  }

  /** Every command the scanner interprets is well formed. */
  lemma {:induction false} RunDispatchesWellFormed(s: string, sc: Scan)
    requires ScanWf(sc)
    ensures forall k :: 0 <= k < |Run(s, sc).cmds| ==> WellFormed(Run(s, sc).cmds[k])
    decreases |s|
  {
    if s != [] {
      var c := s[0];
      match StepChar(sc, c)
      case Continue(next) =>
        if IsArgChar(c) {
          var n := sc.numArgs;
          assert AllArgChars(sc.argStack[n] + [c]);
          assert forall j :: 0 <= j < |next.argStack| ==> AllArgChars(next.argStack[j]);
        }
        if IsCmdChar(c) && !IsArgChar(c) {
          assert AllCmdChars(sc.cmdString + [c]);
        }
        assert ScanWf(next);
        RunDispatchesWellFormed(s[1..], next);
      case Dispatch(x) =>
        assert WellFormed(x);
        assert ScanWf(ResetScan());
        RunDispatchesWellFormed(s[1..], ResetScan());
      case Abort =>
      case Overflow =>
    }
  }

  /** So `REPEAT` re-parses the last good command exactly: the atomic string of every command a
    * message interprets scans back to that same command. */
  lemma RepeatReparsesSameCommand(msg: string, k: nat)
    requires k < |Tokenize(msg).cmds|
    ensures Tokenize(AtomicString(Tokenize(msg).cmds[k])).cmds == [Tokenize(msg).cmds[k]]
  {
    assert ScanWf(ResetScan());
    RunDispatchesWellFormed(msg, ResetScan());
    AtomicStringRoundTrip(Tokenize(msg).cmds[k]);
  }

  // ---------------------------------------------------------------------------------------------
  // Properties of the bookkeeping

  /** The atomic strings of the commands that succeed and are recordable, in order. */
  function Recorded(cmds: seq<Atomic>, table: Table, env: Env): string
  {
    if cmds == [] then []
    else
      var a := cmds[|cmds| - 1];
      Recorded(cmds[..|cmds| - 1], table, env) + (if Accepted(a, table, env) && Recordable(a.cmd) then AtomicString(a) else [])
  }

  /** Commands that neither restart, stop nor replace the recording. */
  predicate KeepsRecording(cmds: seq<Atomic>)
  {
    forall k :: 0 <= k < |cmds| ==> KeepsRecordingCmd(cmds[k].cmd)
  }

  predicate KeepsRecordingCmd(cmd: string)
  {
    cmd != START_REC_SCRIPT && cmd != END_REC_SCRIPT && cmd != LOAD_SCRIPT
  }

  /** One command while recording. */
  lemma ExecuteWhileRecording(g: Globals, a: Atomic, table: Table, env: Env)
    requires g.recordingScript && KeepsRecordingCmd(a.cmd)
    ensures Execute(g, a, table, env).recordingScript
    ensures Execute(g, a, table, env).scriptStringInMemory
            == g.scriptStringInMemory + (if Accepted(a, table, env) && Recordable(a.cmd) then AtomicString(a) else [])
  {
    var (g1, ok) := Interpret(g, a, table, env);
    assert g1.recordingScript && g1.scriptStringInMemory == g.scriptStringInMemory;
  }

  /** While recording, the script grows by the atomic string of each successful recordable
    * command, in order, and by nothing else. */
  lemma {:induction false} RecordingAppendsGoodCommands(g: Globals, cmds: seq<Atomic>, table: Table, env: Env)
    requires g.recordingScript && KeepsRecording(cmds)
    ensures ExecuteAll(g, cmds, table, env).recordingScript
    ensures ExecuteAll(g, cmds, table, env).scriptStringInMemory == g.scriptStringInMemory + Recorded(cmds, table, env)
    decreases |cmds|
  {
    if cmds != [] {
      var init, a := cmds[..|cmds| - 1], cmds[|cmds| - 1];
      assert KeepsRecording(init) by {
        forall k | 0 <= k < |init| ensures KeepsRecordingCmd(init[k].cmd) {
          assert init[k] == cmds[k];
        }
      }
      RecordingAppendsGoodCommands(g, init, table, env);
      assert KeepsRecordingCmd(a.cmd);
      ExecuteWhileRecording(ExecuteAll(g, init, table, env), a, table, env);
    }
  }

  /** Commands that neither start nor replace the recording. */
  predicate KeepsScript(cmds: seq<Atomic>)
  {
    forall k :: 0 <= k < |cmds| ==> KeepsScriptCmd(cmds[k].cmd)
  }

  predicate KeepsScriptCmd(cmd: string)
  {
    cmd != START_REC_SCRIPT && cmd != ADD_REC_SCRIPT && cmd != LOAD_SCRIPT
  }

  /** One command while not recording. */
  lemma ExecuteWhileNotRecording(g: Globals, a: Atomic, table: Table, env: Env)
    requires !g.recordingScript && KeepsScriptCmd(a.cmd)
    ensures !Execute(g, a, table, env).recordingScript
    ensures Execute(g, a, table, env).scriptStringInMemory == g.scriptStringInMemory
  {
    var (g1, ok) := Interpret(g, a, table, env);
    assert !g1.recordingScript && g1.scriptStringInMemory == g.scriptStringInMemory;
  }

  /** When not recording, the script does not change. */
  lemma {:induction false} NotRecordingKeepsScript(g: Globals, cmds: seq<Atomic>, table: Table, env: Env)
    requires !g.recordingScript && KeepsScript(cmds)
    ensures !ExecuteAll(g, cmds, table, env).recordingScript
    ensures ExecuteAll(g, cmds, table, env).scriptStringInMemory == g.scriptStringInMemory
    decreases |cmds|
  {
    if cmds != [] {
      var init := cmds[..|cmds| - 1];
      assert KeepsScript(init) by {
        forall k | 0 <= k < |init| ensures KeepsScriptCmd(init[k].cmd) {
          assert init[k] == cmds[k];
        }
      }
      NotRecordingKeepsScript(g, init, table, env);
      assert KeepsScriptCmd(cmds[|cmds| - 1].cmd);
      ExecuteWhileNotRecording(ExecuteAll(g, init, table, env), cmds[|cmds| - 1], table, env);
    }
  }

  /** The last command of `cmds` that succeeded and is recordable. */
  function LastGood(cmds: seq<Atomic>, table: Table, env: Env): Option<Atomic>
  {
    if cmds == [] then None
    else
      var a := cmds[|cmds| - 1];
      if Accepted(a, table, env) && Recordable(a.cmd) then Some(a) else LastGood(cmds[..|cmds| - 1], table, env)
  }

  /** The last good command is the atomic string of the last successful recordable command; failed
    * commands, `REPEAT` and the recording commands leave it as it was. */
  lemma {:induction false} LastGoodCommandKept(g: Globals, cmds: seq<Atomic>, table: Table, env: Env)
    ensures ExecuteAll(g, cmds, table, env).oldAtomicCommandString
            == match LastGood(cmds, table, env) case None => g.oldAtomicCommandString case Some(a) => AtomicString(a)
    decreases |cmds|
  {
    if cmds != [] {
      LastGoodCommandKept(g, cmds[..|cmds| - 1], table, env);
    }
  }
}
