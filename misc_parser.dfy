/** misc/parser.hpp and misc/parser.cpp: an alternative command parser built on a dictionary.
  * A `Command` binds a name and an argument count to a function; a `CmdDictionnary` holds up to 25
  * of them and dispatches to the first whose name and count match and whose function succeeds.
  * `Parser::parseStringMessage` scans a C string in which arguments ('-' to '9' except '/') and
  * command names (any other character) are ended by '/', '\n', '\r' or the NUL terminator.
  *
  * `Command` has value semantics in the source (the dictionary stores copies), so it is a datatype
  * here and its setters return the updated value. Function pointers are identifiers, and what a
  * function returns on an argument stack is the parameter `run`. */
module MiscParser {
  const MAX_NUM_CMDS_DICT := 25
  const MAX_CMD_STR_LENGTH := 16
  const MAX_LENGTH_STACK := 5
  const MAX_VALUE_STR_LENGTH := 6
  /** `StackArgs` is `char[MAX_LENGTH_STACK][MAX_VALUE_STR_LENGTH]`, laid out row after row. */
  const STACK_SIZE := MAX_LENGTH_STACK * MAX_VALUE_STR_LENGTH
  const NUL: char := '\0'
  const DELIMITER: char := '/'

  /** The text of the C string stored in `s`: its characters before the first NUL. */
  function CString(s: seq<char>): (t: seq<char>)
    ensures NUL !in t && |t| <= |s| && t == s[..|t|]
    ensures |t| < |s| ==> s[|t|] == NUL
  {
    if s == [] || s[0] == NUL then [] else [s[0]] + CString(s[1..])
  }

  /** A C string ends at its first NUL. */
  lemma {:induction false} CStringUpTo(s: seq<char>, index: nat)
    requires index < |s| && s[index] == NUL
    requires forall k :: 0 <= k < index ==> s[k] != NUL
    ensures CString(s) == s[..index]
  {
    if index > 0 {
      CStringUpTo(s[1..], index - 1);
      assert s[..index] == [s[0]] + s[1..][..index - 1];
    }
  }

  lemma CStringOfTerminated(t: seq<char>, rest: seq<char>)
    requires NUL !in t
    ensures CString(t + [NUL] + rest) == t
  {
    var s := t + [NUL] + rest;
    CStringUpTo(s, |t|);
    assert s[..|t|] == t;
  }

  // ---------------------------------------------------------------------------------------------
  // Command

  /** A function pointer of the command table, as an identifier. */
  type FunctionId = nat

  /** What calling a command's function returns on the argument stack it is given. */
  type Runner = (FunctionId, seq<char>) -> bool

  /** A command: its name (the text of its C string), its argument count and its function. */
  datatype Command = Command(name: string, numArgs: nat, fctPtr: FunctionId)

  /** A command whose fields the setters could have produced: a name of at most 15 characters and
    * at most MAX_LENGTH_STACK arguments. */
  predicate CmdOk(c: Command)
  {
    NUL !in c.name && |c.name| < MAX_CMD_STR_LENGTH && c.numArgs <= MAX_LENGTH_STACK
  }

  /** A default-constructed command; the source leaves its fields uninitialised. */
  function DefaultCommand(): (c: Command)
    ensures CmdOk(c)
  {
    Command("", 0, 0)
  }

  /** Whether `setName` accepts the C string `raw`: a NUL among its first MAX_CMD_STR_LENGTH characters. */
  predicate NameAccepted(raw: seq<char>)
  {
    exists k :: 0 <= k < MAX_CMD_STR_LENGTH && k < |raw| && raw[k] == NUL
  }

  /** `setName`: the name is taken only when the string ends within MAX_CMD_STR_LENGTH characters;
    * otherwise the command keeps its name. The loop reads no further than the first NUL or the
    * 16th character, which must exist. */
  method SetName(c: Command, raw: seq<char>) returns (c': Command, ok: bool)
    requires NUL in raw || |raw| >= MAX_CMD_STR_LENGTH
    ensures ok == NameAccepted(raw)
    ensures ok ==> c' == c.(name := CString(raw)) && |c'.name| < MAX_CMD_STR_LENGTH
    ensures !ok ==> c' == c
  {
    var index := 0;
    while index < MAX_CMD_STR_LENGTH
      invariant index <= MAX_CMD_STR_LENGTH
      invariant forall k :: 0 <= k < index ==> k < |raw| && raw[k] != NUL
    {
      if raw[index] == NUL {
        break;
      }
      index := index + 1;
    }
    if index == MAX_CMD_STR_LENGTH {
      return c, false;
    }
    CStringUpTo(raw, index);
    return c.(name := CString(raw)), true;
  }

  /** `setNumArgs`: a count above MAX_LENGTH_STACK is refused and leaves the command as it was. */
  function SetNumArgs(c: Command, n: nat): (r: (Command, bool))
    ensures r.1 <==> n <= MAX_LENGTH_STACK
    ensures r.1 ==> r.0 == c.(numArgs := n)
    ensures !r.1 ==> r.0 == c
  {
    if n <= MAX_LENGTH_STACK then (c.(numArgs := n), true) else (c, false)
  }

  /** The constructor `Command(name, numArgs, fctPtr)`: set the name, the function, the count. A
    * field whose setter refuses keeps its default. */
  method MakeCommand(raw: seq<char>, n: nat, f: FunctionId) returns (c: Command)
    requires NUL in raw || |raw| >= MAX_CMD_STR_LENGTH
    ensures CmdOk(c) && c.fctPtr == f
    ensures c.name == if NameAccepted(raw) then CString(raw) else ""
    ensures c.numArgs == if n <= MAX_LENGTH_STACK then n else 0
  {
    var ok;
    c, ok := SetName(DefaultCommand(), raw);
    c := c.(fctPtr := f);
    var r := SetNumArgs(c, n);
    c := r.0;
  }

  /** The assignment operator: the name (through `setName`), the function and the count of
    * `other`. A well-formed command is copied exactly; a field `other` cannot pass through its
    * setter keeps the target's value. */
  method AssignCommand(target: Command, other: Command) returns (r: Command)
    ensures CmdOk(other) ==> r == other
    ensures CmdOk(target) ==> CmdOk(r)
    ensures r.fctPtr == other.fctPtr
  {
    var ok;
    r, ok := SetName(target, other.name + [NUL]);
    if CmdOk(other) {
      assert NameAccepted(other.name + [NUL]) by {
        assert (other.name + [NUL])[|other.name|] == NUL;
      }
      CStringOfTerminated(other.name, []);
      assert other.name + [NUL] + [] == other.name + [NUL];
    }
    r := r.(fctPtr := other.fctPtr);
    var s := SetNumArgs(r, other.numArgs);
    r := s.0;
  }

  /** `checkCmd`: the names are the same text (`strcmp` is 0) and the counts are equal. */
  predicate CheckCmd(c: Command, name: string, n: nat)
  {
    c.name == name && c.numArgs == n
  }

  /** `tryCmd`: the function is run only when the command matches, and then its result is returned;
    * otherwise false without running it. */
  function TryCmd(c: Command, name: string, n: nat, stack: seq<char>, run: Runner): (r: bool)
    ensures r ==> CheckCmd(c, name, n)
    ensures CheckCmd(c, name, n) ==> r == run(c.fctPtr, stack)
  {
    if CheckCmd(c, name, n) then run(c.fctPtr, stack) else false
  }

  // ---------------------------------------------------------------------------------------------
  // CmdDictionnary

  /** Whether some command of `entries` runs successfully on the call. */
  predicate DictAccepts(entries: seq<Command>, name: string, n: nat, stack: seq<char>, run: Runner)
  {
    exists i :: 0 <= i < |entries| && TryCmd(entries[i], name, n, stack, run)
  }

  /** The index of the first command whose `tryCmd` succeeds, or |entries| if none does. */
  function FirstSuccess(entries: seq<Command>, name: string, n: nat, stack: seq<char>, run: Runner): (k: nat)
    ensures k <= |entries|
    ensures k < |entries| ==> TryCmd(entries[k], name, n, stack, run)
    ensures forall j :: 0 <= j < k ==> !TryCmd(entries[j], name, n, stack, run)
  {
    if entries == [] then 0
    else if TryCmd(entries[0], name, n, stack, run) then 0
    else
      var k := FirstSuccess(entries[1..], name, n, stack, run);
      assert forall j :: 1 <= j < k + 1 ==> entries[j] == entries[1..][j - 1];
      k + 1
  }

  /** The indexes below `upto` of the commands that match the name and the count, in order. */
  function Matching(entries: seq<Command>, name: string, n: nat, upto: nat): seq<nat>
    requires upto <= |entries|
  {
    if upto == 0 then []
    else Matching(entries, name, n, upto - 1) + (if CheckCmd(entries[upto - 1], name, n) then [upto - 1] else [])
  }

  class CmdDictionnary {
    var numCmds: nat
    const cmdArray: array<Command>

    /** The table has its fixed capacity, holds at most that many commands, and every slot holds a
      * command the setters could have produced. */
    ghost predicate Valid()
      reads this, cmdArray
    {
      cmdArray.Length == MAX_NUM_CMDS_DICT && numCmds <= MAX_NUM_CMDS_DICT
      && forall i :: 0 <= i < cmdArray.Length ==> CmdOk(cmdArray[i])
    }

    /** The commands of the dictionary, in order. */
    function Entries(): seq<Command>
      reads this, cmdArray
      requires Valid()
    {
      cmdArray[..numCmds]
    }

    /** `CmdDictionnary()`: no command. */
    constructor ()
      ensures Valid() && Entries() == [] && fresh(cmdArray)
    {
      numCmds := 0;
      cmdArray := new Command[MAX_NUM_CMDS_DICT](_ => DefaultCommand());
    }

    /** The copy constructor: a dictionary of its own with the same commands. */
    constructor Copy(other: CmdDictionnary)
      requires other.Valid()
      ensures Valid() && Entries() == other.Entries() && fresh(cmdArray)
    {
      numCmds := other.numCmds;
      var a := new Command[MAX_NUM_CMDS_DICT](_ => DefaultCommand());
      for indexCmd := 0 to other.numCmds
        invariant forall i :: 0 <= i < a.Length ==> CmdOk(a[i])
        invariant a[..indexCmd] == other.cmdArray[..indexCmd]
      {
        var c := AssignCommand(a[indexCmd], other.cmdArray[indexCmd]);
        a[indexCmd] := c;
        assert a[..indexCmd + 1] == a[..indexCmd] + [c];
      }
      cmdArray := a;
    }

    /** The assignment operator: the same number of commands, and the first `numCmds` entries
      * copied. Each dictionary owns its table. */
    method Assign(other: CmdDictionnary)
      requires Valid() && other.Valid() && (other == this || other.cmdArray != cmdArray)
      modifies this, cmdArray
      ensures Valid() && Entries() == old(other.Entries())
    {
      numCmds := other.numCmds;
      for indexCmd := 0 to numCmds
        invariant Valid() && numCmds == other.numCmds
        invariant other.Valid()
        invariant other.cmdArray[..numCmds] == old(other.cmdArray[..other.numCmds])
        invariant cmdArray[..indexCmd] == other.cmdArray[..indexCmd]
      {
        var c := AssignCommand(cmdArray[indexCmd], other.cmdArray[indexCmd]);
        cmdArray[indexCmd] := c;
        assert cmdArray[..indexCmd + 1] == cmdArray[..indexCmd] + [c];
      }
    }

    /** `addCommand`: a copy of the command goes after the others while there is room; a full
      * dictionary refuses it and does not change. */
    method AddCommand(newCmd: Command) returns (ok: bool)
      requires Valid()
      modifies this, cmdArray
      ensures Valid()
      ensures ok <==> old(numCmds) < MAX_NUM_CMDS_DICT
      ensures ok && CmdOk(newCmd) ==> Entries() == old(Entries()) + [newCmd]
      ensures ok ==> |Entries()| == old(|Entries()|) + 1 && Entries()[..old(numCmds)] == old(Entries())
      ensures !ok ==> Entries() == old(Entries()) && numCmds == old(numCmds)
    {
      if numCmds < MAX_NUM_CMDS_DICT {
        var c := AssignCommand(cmdArray[numCmds], newCmd);
        cmdArray[numCmds] := c;
        numCmds := numCmds + 1;
        assert Entries() == old(Entries()) + [c];
        return true;
      }
      return false;
    }

    /** `interpretCommand`: the commands are tried in order and the first whose `tryCmd` succeeds
      * ends the search with true; false when none does. `ran` lists the commands whose function
      * was run: every matching one up to the first success, and no other. */
    method InterpretCommand(name: string, n: nat, stack: seq<char>, run: Runner) returns (ok: bool, ghost ran: seq<nat>)
      requires Valid()
      ensures ok == DictAccepts(Entries(), name, n, stack, run)
      ensures ok ==> ran == Matching(Entries(), name, n, FirstSuccess(Entries(), name, n, stack, run) + 1)
      ensures !ok ==> ran == Matching(Entries(), name, n, |Entries()|)
    {
      ghost var entries := Entries();
      ghost var first := FirstSuccess(entries, name, n, stack, run);
      ran := [];
      for indexCmd := 0 to numCmds
        invariant indexCmd <= first
        invariant ran == Matching(entries, name, n, indexCmd)
      {
        assert cmdArray[indexCmd] == entries[indexCmd];
        if CheckCmd(cmdArray[indexCmd], name, n) {
          ran := ran + [indexCmd];
        }
        if TryCmd(cmdArray[indexCmd], name, n, stack, run) {
          return true, ran;
        }
      }
      return false, ran;
    }

    /** `isInDictionnary`: whether some command has the name and the count; no function is run. */
    method IsInDictionnary(name: string, n: nat) returns (found: bool)
      requires Valid()
      ensures found <==> exists i :: 0 <= i < |Entries()| && CheckCmd(Entries()[i], name, n)
    {
      for indexCmd := 0 to numCmds
        invariant forall i :: 0 <= i < indexCmd ==> !CheckCmd(cmdArray[i], name, n)
      {
        if CheckCmd(cmdArray[indexCmd], name, n) {
          assert Entries()[indexCmd] == cmdArray[indexCmd];
          return true;
        }
      }
      return false;
    }
  }

  // ---------------------------------------------------------------------------------------------
  // The scanner of Parser::parseStringMessage

  datatype ParserState = Start | Number | Cmd

  /** Argument characters: '-' to '9' except '/'. */
  predicate IsArgChar(c: char)
  {
    '-' <= c <= '9' && c != DELIMITER
  }

  /** Command characters: anything else except the delimiters NUL, '/', '\n' and '\r'. */
  predicate IsCmdChar(c: char)
  {
    !IsArgChar(c) && c != NUL && c != DELIMITER && c != '\n' && c != '\r'
  }

  /** The variables that outlive a call: the static `numArgs`, `indexArgString` and
    * `indexCmdString`, and the `argStack` and `cmdString` buffers. */
  datatype MScan = MScan(numArgs: nat, indexArg: nat, indexCmd: nat, argStack: seq<char>, cmdString: seq<char>)

  /** The buffers have their sizes, the indexes stay within one past them, and the characters of
    * the command read so far are not NUL. */
  predicate MScanOk(ms: MScan)
  {
    |ms.argStack| == STACK_SIZE && |ms.cmdString| == MAX_CMD_STR_LENGTH
    && ms.numArgs <= MAX_LENGTH_STACK && ms.indexArg <= MAX_VALUE_STR_LENGTH && ms.indexCmd <= MAX_CMD_STR_LENGTH
    && forall k :: 0 <= k < ms.indexCmd ==> ms.cmdString[k] != NUL
  }

  /** `argStack[numArgs][indexArgString]` in the row-after-row layout. */
  function ArgSlot(ms: MScan): nat
  {
    ms.numArgs * MAX_VALUE_STR_LENGTH + ms.indexArg
  }

  /** A call of the dictionary's `interpretCommand`: the command's name, the argument count and the
    * argument stack. */
  datatype Call = Call(name: string, numArgs: nat, args: seq<char>)

  /** The outcome of one character: go on, call the dictionary and go on, or write past a buffer
    * (undefined behaviour in the source). */
  datatype MStep = Next(ms: MScan, st: ParserState) | Dispatch(ms: MScan, st: ParserState, call: Call) | Overflow

  /** One turn of the parsing loop. With `restart` false this is the source; with `restart` true
    * the state goes back to START after a delimiter has closed an argument or a command, which is
    * what the comment on a delimiter "with nothing before" intends. */
  function MStepChar(ms: MScan, st: ParserState, c: char, restart: bool): (r: MStep)
    requires MScanOk(ms)
    ensures !r.Overflow? ==> MScanOk(r.ms)
  {
    if IsArgChar(c) then
      if ms.numArgs < MAX_LENGTH_STACK && ms.indexArg < MAX_VALUE_STR_LENGTH then
        Next(ms.(argStack := ms.argStack[ArgSlot(ms) := c], indexArg := ms.indexArg + 1), Number)
      else Overflow
    else if IsCmdChar(c) then
      if ms.indexCmd < MAX_CMD_STR_LENGTH then
        Next(ms.(cmdString := ms.cmdString[ms.indexCmd := c], indexCmd := ms.indexCmd + 1), Cmd)
      else Overflow
    else if st == Number then
      if ms.numArgs < MAX_LENGTH_STACK && ms.indexArg < MAX_VALUE_STR_LENGTH then
        Next(ms.(argStack := ms.argStack[ArgSlot(ms) := NUL], indexArg := 0, numArgs := ms.numArgs + 1),
             if restart then Start else Number)
      else Overflow
    else if st == Cmd then
      if ms.indexCmd < MAX_CMD_STR_LENGTH then
        var cs := ms.cmdString[ms.indexCmd := NUL];
        Dispatch(ms.(cmdString := cs, indexCmd := 0, numArgs := 0), if restart then Start else Cmd,
                 Call(CString(cs), ms.numArgs, ms.argStack))
      else Overflow
    else Next(ms, st)
  }

  /** The calls made, the variables at the end, and whether a buffer was overrun. */
  datatype MRunResult = MRunResult(calls: seq<Call>, final: MScan, state: ParserState, overflow: bool)

  function MRun(s: seq<char>, ms: MScan, st: ParserState, restart: bool): (r: MRunResult)
    requires MScanOk(ms)
    ensures MScanOk(r.final)
    decreases |s|
  {
    if s == [] then MRunResult([], ms, st, false)
    else
      match MStepChar(ms, st, s[0], restart)
      case Next(ms', st') => MRun(s[1..], ms', st', restart)
      case Dispatch(ms', st', call) =>
        var r := MRun(s[1..], ms', st', restart);
        r.(calls := [call] + r.calls)
      case Overflow => MRunResult([], ms, st, true)
  }

  /** `parseStringMessage` as written: the characters of the C string and its NUL terminator,
    * scanned from START with the variables left by the previous call. */
  function Parse(raw: seq<char>, ms: MScan): MRunResult
    requires MScanOk(ms)
  {
    MRun(raw + [NUL], ms, Start, false)
  }

  /** `parseStringMessage` with the state reset after each delimiter that closes something. */
  function ParseCorrected(raw: seq<char>, ms: MScan): MRunResult
    requires MScanOk(ms)
  {
    MRun(raw + [NUL], ms, Start, true)
  }

  /** Whether the dictionary accepts every call. */
  predicate AllSucceed(entries: seq<Command>, calls: seq<Call>, run: Runner)
  {
    forall i :: 0 <= i < |calls| ==> DictAccepts(entries, calls[i].name, calls[i].numArgs, calls[i].args, run)
  }

  function CallsBefore(done: seq<Call>, r: MRunResult): MRunResult
  {
    r.(calls := done + r.calls)
  }

  // ---------------------------------------------------------------------------------------------
  // Parser

  class Parser {
    var myCmdDic: CmdDictionnary
    /** Where the scan is: one past the terminator once a message has been parsed. */
    var readingHead: nat
    const cmdString: array<char>
    const argStack: array<char>
    /** The static locals of `parseStringMessage`. */
    var numArgs: nat
    var indexArgString: nat
    var indexCmdString: nat

    ghost predicate Valid()
      reads this, myCmdDic, myCmdDic.cmdArray
    {
      cmdString.Length == MAX_CMD_STR_LENGTH && argStack.Length == STACK_SIZE && myCmdDic.Valid()
    }

    /** The variables that outlive a call. */
    function MS(): MScan
      reads this, cmdString, argStack
    {
      MScan(numArgs, indexArgString, indexCmdString, argStack[..], cmdString[..])
    }

    /** `Parser(CmdDictionnary*)`. The global parser has static storage: its buffers and the
      * static counters start at zero. */
    constructor (d: CmdDictionnary)
      requires d.Valid()
      ensures Valid() && myCmdDic == d && readingHead == 0
      ensures MS() == MScan(0, 0, 0, seq(STACK_SIZE, _ => NUL), seq(MAX_CMD_STR_LENGTH, _ => NUL))
      ensures MScanOk(MS())
    {
      myCmdDic := d;
      readingHead := 0;
      cmdString := new char[MAX_CMD_STR_LENGTH](_ => NUL);
      argStack := new char[STACK_SIZE](_ => NUL);
      numArgs, indexArgString, indexCmdString := 0, 0, 0;
    }

    /** `setCmdDict(CmdDictionnary*)`: the parser uses that dictionary from now on. */
    method SetCmdDict(d: CmdDictionnary)
      modifies this`myCmdDic
      ensures myCmdDic == d
    {
      myCmdDic := d;
    }

    /** One character of the loop of `parseStringMessage`, short of the dictionary call: the
      * writes into the buffers and the counters that `MStepChar` describes, with the call it
      * makes. */
    method ScanCharacter(val: char, myState: ParserState) returns (state': ParserState, dispatch: bool, call: Call)
      requires cmdString.Length == MAX_CMD_STR_LENGTH && argStack.Length == STACK_SIZE
      requires MScanOk(MS()) && !MStepChar(MS(), myState, val, false).Overflow?
      modifies this`numArgs, this`indexArgString, this`indexCmdString, cmdString, argStack
      ensures !dispatch ==> MStepChar(old(MS()), myState, val, false) == Next(MS(), state')
      ensures dispatch ==> MStepChar(old(MS()), myState, val, false) == Dispatch(MS(), state', call)
    {
      state', dispatch, call := myState, false, Call("", 0, []);
      if IsArgChar(val) {
        argStack[numArgs * MAX_VALUE_STR_LENGTH + indexArgString] := val;
        indexArgString := indexArgString + 1;
        state' := Number;
      } else if IsCmdChar(val) {
        cmdString[indexCmdString] := val;
        indexCmdString := indexCmdString + 1;
        state' := Cmd;
      } else if myState == Number {
        argStack[numArgs * MAX_VALUE_STR_LENGTH + indexArgString] := NUL;
        indexArgString := 0;
        numArgs := numArgs + 1;
      } else if myState == Cmd {
        cmdString[indexCmdString] := NUL;
        indexCmdString := 0;
        call := Call(CString(cmdString[..]), numArgs, argStack[..]);
        dispatch := true;
        numArgs := 0;
      }
    }

    /** One turn of the loop of `parseStringMessage`: scan the character and, when it closes a
      * command, call the dictionary and note a failure in the result. */
    method ParseTurn(val: char, myState: ParserState, result: bool, run: Runner,
                     ghost rest: seq<char>, ghost done: seq<Call>, ghost total: MRunResult)
      returns (myState': ParserState, result': bool, ghost done': seq<Call>)
      requires Valid() && MScanOk(MS()) && rest != [] && rest[0] == val
      requires total == CallsBefore(done, MRun(rest, MS(), myState, false)) && !total.overflow
      requires result == AllSucceed(myCmdDic.Entries(), done, run)
      modifies this`numArgs, this`indexArgString, this`indexCmdString, cmdString, argStack
      ensures Valid() && MScanOk(MS())
      ensures total == CallsBefore(done', MRun(rest[1..], MS(), myState', false))
      ensures result' == AllSucceed(myCmdDic.Entries(), done', run)
    {
      MStepOf(total, done, rest, 0, MS(), myState);
      assert rest[0..] == rest;
      var dispatch, call;
      myState', dispatch, call := ScanCharacter(val, myState);
      result', done' := result, done;
      if dispatch {
        var ok, ran := myCmdDic.InterpretCommand(call.name, call.numArgs, call.args, run);
        if !ok {
          result' := false;
        }
        AllSucceedSnoc(myCmdDic.Entries(), done, call, run);
        done' := done + [call];
      }
    }

    /** `parseStringMessage`: scans the C string including its terminator, calls the dictionary for
      * each command as soon as it is closed, and returns false exactly when one of those calls
      * failed. The counters and buffers carry over to the next call. The uint8_t reading head
      * never passes a 255-character string, and a buffer overrun is excluded. */
    method ParseStringMessage(raw: seq<char>, run: Runner) returns (result: bool)
      requires Valid() && NUL !in raw && |raw| < 255
      requires MScanOk(MS()) && !Parse(raw, MS()).overflow
      modifies this`readingHead, this`numArgs, this`indexArgString, this`indexCmdString, cmdString, argStack
      ensures Valid() && MScanOk(MS())
      ensures MS() == Parse(raw, old(MS())).final
      ensures result == AllSucceed(myCmdDic.Entries(), Parse(raw, old(MS())).calls, run)
      ensures readingHead == |raw| + 1
    {
      var copyRawString := raw + [NUL];
      result := true;
      var myState := Start;
      ghost var total := Parse(raw, MS());
      ghost var done: seq<Call> := [];
      readingHead := 0;
      while readingHead <= |raw|
        invariant readingHead <= |raw| + 1 && Valid() && MScanOk(MS())
        invariant total == CallsBefore(done, MRun(copyRawString[readingHead..], MS(), myState, false))
        invariant result == AllSucceed(myCmdDic.Entries(), done, run)
      {
        ghost var rest := copyRawString[readingHead..];
        myState, result, done := ParseTurn(copyRawString[readingHead], myState, result, run, rest, done, total);
        assert rest[1..] == copyRawString[readingHead + 1..];
        readingHead := readingHead + 1;
      }
      assert copyRawString[readingHead..] == [];
      assert done + [] == done;
    }
  }

  // ---------------------------------------------------------------------------------------------
  // Lemmas

  /** One turn of the loop of `ParseStringMessage`: no overrun, and the remaining scan continues
    * from the next state, after the call when there is one. */
  lemma MStepOf(total: MRunResult, done: seq<Call>, s: seq<char>, i: nat, ms: MScan, st: ParserState)
    requires MScanOk(ms) && i < |s| && total == CallsBefore(done, MRun(s[i..], ms, st, false)) && !total.overflow
    ensures !MStepChar(ms, st, s[i], false).Overflow?
    ensures MStepChar(ms, st, s[i], false).Next? ==>
              total == CallsBefore(done, MRun(s[i + 1..], MStepChar(ms, st, s[i], false).ms, MStepChar(ms, st, s[i], false).st, false))
    ensures MStepChar(ms, st, s[i], false).Dispatch? ==>
              total == CallsBefore(done + [MStepChar(ms, st, s[i], false).call],
                                   MRun(s[i + 1..], MStepChar(ms, st, s[i], false).ms, MStepChar(ms, st, s[i], false).st, false))
  {
    assert s[i..][0] == s[i] && s[i..][1..] == s[i + 1..];
    var step := MStepChar(ms, st, s[i], false);
    if step.Dispatch? {
      var r := MRun(s[i + 1..], step.ms, step.st, false);
      assert done + ([step.call] + r.calls) == done + [step.call] + r.calls;
    }
  }

  lemma AllSucceedSnoc(entries: seq<Command>, done: seq<Call>, call: Call, run: Runner)
    ensures AllSucceed(entries, done + [call], run)
            == (AllSucceed(entries, done, run) && DictAccepts(entries, call.name, call.numArgs, call.args, run))
  {
    var all := done + [call];
    assert all[|done|] == call;
    assert forall i :: 0 <= i < |done| ==> all[i] == done[i];
  }


  // Properties of the scanner

  /** A delimiter with nothing open before it is ignored. */
  lemma LeadingDelimiterIgnored(d: char, rest: seq<char>, ms: MScan, restart: bool)
    requires MScanOk(ms) && !IsArgChar(d) && !IsCmdChar(d)
    ensures MRun([d] + rest, ms, Start, restart) == MRun(rest, ms, Start, restart)
  {
    assert ([d] + rest)[0] == d && ([d] + rest)[1..] == rest;
  }

  /** Command characters are stored one after the other in `cmdString`; nothing else changes. */
  lemma {:induction false} ReadCmdChars(s: seq<char>, t: seq<char>, ms: MScan, st: ParserState, restart: bool)
    returns (ms': MScan)
    requires MScanOk(ms) && s != [] && ms.indexCmd + |s| <= MAX_CMD_STR_LENGTH
    requires forall k :: 0 <= k < |s| ==> IsCmdChar(s[k])
    ensures MScanOk(ms') && MRun(s + t, ms, st, restart) == MRun(t, ms', Cmd, restart)
    ensures ms'.indexCmd == ms.indexCmd + |s|
    ensures forall k :: 0 <= k < |s| ==> ms'.cmdString[ms.indexCmd + k] == s[k]
    ensures forall k :: 0 <= k < ms.indexCmd ==> ms'.cmdString[k] == ms.cmdString[k]
    ensures ms'.numArgs == ms.numArgs && ms'.indexArg == ms.indexArg && ms'.argStack == ms.argStack
    decreases |s|
  {
    var ms1 := ms.(cmdString := ms.cmdString[ms.indexCmd := s[0]], indexCmd := ms.indexCmd + 1);
    assert MStepChar(ms, st, s[0], restart) == Next(ms1, Cmd);
    assert (s + t)[0] == s[0] && (s + t)[1..] == s[1..] + t;
    if |s| == 1 {
      assert s[1..] + t == t;
      ms' := ms1;
    } else {
      ms' := ReadCmdChars(s[1..], t, ms1, Cmd, restart);
      assert forall k :: 1 <= k < |s| ==> s[k] == s[1..][k - 1];
    }
  }

  /** Argument characters are stored one after the other in the current row of `argStack`; nothing
    * else changes. */
  lemma {:induction false} ReadArgChars(s: seq<char>, t: seq<char>, ms: MScan, st: ParserState, restart: bool)
    returns (ms': MScan)
    requires MScanOk(ms) && s != [] && ms.numArgs < MAX_LENGTH_STACK && ms.indexArg + |s| <= MAX_VALUE_STR_LENGTH
    requires forall k :: 0 <= k < |s| ==> IsArgChar(s[k])
    ensures MScanOk(ms') && MRun(s + t, ms, st, restart) == MRun(t, ms', Number, restart)
    ensures ms'.numArgs == ms.numArgs && ms'.indexCmd == ms.indexCmd && ms'.cmdString == ms.cmdString
    ensures ms'.indexArg == ms.indexArg + |s|
    ensures forall k :: 0 <= k < |s| ==> ms'.argStack[ArgSlot(ms) + k] == s[k]
    ensures forall k :: 0 <= k < ArgSlot(ms) ==> ms'.argStack[k] == ms.argStack[k]
    ensures forall k :: ArgSlot(ms') <= k < STACK_SIZE ==> ms'.argStack[k] == ms.argStack[k]
    decreases |s|
  {
    var ms1 := ms.(argStack := ms.argStack[ArgSlot(ms) := s[0]], indexArg := ms.indexArg + 1);
    assert MStepChar(ms, st, s[0], restart) == Next(ms1, Number);
    assert (s + t)[0] == s[0] && (s + t)[1..] == s[1..] + t;
    if |s| == 1 {
      assert s[1..] + t == t;
      ms' := ms1;
    } else {
      ms' := ReadArgChars(s[1..], t, ms1, Number, restart);
      assert forall k :: 1 <= k < |s| ==> s[k] == s[1..][k - 1];
    }
  }

  /** A command name followed by a delimiter calls the dictionary once with that name, the
    * arguments read so far and the argument stack; the count and the command index restart at
    * zero. */
  lemma CommandThenDelimiter(cmd: seq<char>, d: char, t: seq<char>, ms: MScan, st: ParserState, restart: bool)
    returns (ms': MScan)
    requires MScanOk(ms) && ms.indexCmd == 0 && cmd != [] && |cmd| < MAX_CMD_STR_LENGTH
    requires forall k :: 0 <= k < |cmd| ==> IsCmdChar(cmd[k])
    requires !IsArgChar(d) && !IsCmdChar(d)
    ensures MScanOk(ms') && ms'.indexCmd == 0 && ms'.numArgs == 0
    ensures ms'.indexArg == ms.indexArg && ms'.argStack == ms.argStack
    ensures MRun(cmd + [d] + t, ms, st, restart)
            == CallsBefore([Call(cmd, ms.numArgs, ms.argStack)], MRun(t, ms', if restart then Start else Cmd, restart))
  {
    assert cmd + [d] + t == cmd + ([d] + t);
    var ms1 := ReadCmdChars(cmd, [d] + t, ms, st, restart);
    var cs := ms1.cmdString[|cmd| := NUL];
    assert cs[..|cmd|] == cmd;
    CStringUpTo(cs, |cmd|);
    ms' := ms1.(cmdString := cs, indexCmd := 0, numArgs := 0);
    assert MStepChar(ms1, Cmd, d, restart)
           == Dispatch(ms', if restart then Start else Cmd, Call(cmd, ms.numArgs, ms.argStack));
    assert ([d] + t)[0] == d && ([d] + t)[1..] == t;
  }

  /** The terminator dispatches a command still open at the end of the message. */
  lemma TrailingCommandDispatched(cmd: seq<char>, ms: MScan)
    requires MScanOk(ms) && ms.indexCmd == 0 && cmd != [] && |cmd| < MAX_CMD_STR_LENGTH
    requires forall k :: 0 <= k < |cmd| ==> IsCmdChar(cmd[k])
    ensures !Parse(cmd, ms).overflow
    ensures Parse(cmd, ms).calls == [Call(cmd, ms.numArgs, ms.argStack)]
    ensures Parse(cmd, ms).final.numArgs == 0 && Parse(cmd, ms).final.indexCmd == 0
  {
    var ms' := CommandThenDelimiter(cmd, NUL, [], ms, Start, false);
    assert cmd + [NUL] + [] == cmd + [NUL];
  }

  /** An argument alone in a message is closed by the terminator and stays on the stack: the count
    * kept in the static `numArgs` goes up by one and the argument's row holds it as a C string. */
  lemma ArgumentCarriesOver(arg: seq<char>, ms: MScan)
    requires MScanOk(ms) && ms.indexArg == 0 && ms.numArgs < MAX_LENGTH_STACK
    requires arg != [] && |arg| < MAX_VALUE_STR_LENGTH && forall k :: 0 <= k < |arg| ==> IsArgChar(arg[k])
    ensures !Parse(arg, ms).overflow && Parse(arg, ms).calls == []
    ensures Parse(arg, ms).final.numArgs == ms.numArgs + 1 && Parse(arg, ms).final.indexArg == 0
    ensures Parse(arg, ms).final.indexCmd == ms.indexCmd
    ensures CString(Parse(arg, ms).final.argStack[ArgSlot(ms)..]) == arg
  {
    var ms1 := ReadArgChars(arg, [NUL], ms, Start, false);
    var ms2 := ms1.(argStack := ms1.argStack[ArgSlot(ms1) := NUL], indexArg := 0, numArgs := ms1.numArgs + 1);
    assert MStepChar(ms1, Number, NUL, false) == Next(ms2, Number);
    assert [NUL][1..] == [];
    var row := ms2.argStack[ArgSlot(ms)..];
    assert row[..|arg|] == arg;
    CStringUpTo(row, |arg|);
  }

  /** So the next message's command is called with that argument counted. */
  lemma ArgumentCountedByNextMessage(arg: seq<char>, cmd: seq<char>, ms: MScan)
    requires MScanOk(ms) && ms.indexArg == 0 && ms.indexCmd == 0 && ms.numArgs < MAX_LENGTH_STACK
    requires arg != [] && |arg| < MAX_VALUE_STR_LENGTH && forall k :: 0 <= k < |arg| ==> IsArgChar(arg[k])
    requires cmd != [] && |cmd| < MAX_CMD_STR_LENGTH && forall k :: 0 <= k < |cmd| ==> IsCmdChar(cmd[k])
    ensures Parse(cmd, Parse(arg, ms).final).calls
            == [Call(cmd, ms.numArgs + 1, Parse(arg, ms).final.argStack)]
  {
    ArgumentCarriesOver(arg, ms);
    TrailingCommandDispatched(cmd, Parse(arg, ms).final);
  }

  // Finding: after a delimiter has closed something the state is not reset, so a second
  // delimiter closes again, and the terminator after a trailing '/' dispatches a nameless command.

  /** As written: "SET/" dispatches SET, then the empty name with no arguments. */
  lemma AsWrittenTrailingDelimiterDispatchesEmptyName(cmd: seq<char>, ms: MScan)
    requires MScanOk(ms) && ms.indexCmd == 0 && cmd != [] && |cmd| < MAX_CMD_STR_LENGTH
    requires forall k :: 0 <= k < |cmd| ==> IsCmdChar(cmd[k])
    ensures !Parse(cmd + [DELIMITER], ms).overflow
    ensures Parse(cmd + [DELIMITER], ms).calls == [Call(cmd, ms.numArgs, ms.argStack), Call("", 0, ms.argStack)]
  {
    var ms' := CommandThenDelimiter(cmd, DELIMITER, [NUL], ms, Start, false);
    assert cmd + [DELIMITER] + [NUL] == (cmd + [DELIMITER]) + [NUL];
    var cs := ms'.cmdString[0 := NUL];
    CStringUpTo(cs, 0);
    assert MStepChar(ms', Cmd, NUL, false) == Dispatch(ms'.(cmdString := cs), Cmd, Call("", 0, ms.argStack));
    assert [NUL][1..] == [];
  }

  /** As written, such a message reports failure whenever no command has the empty name, even
    * when the command it names succeeds. */
  lemma AsWrittenTrailingDelimiterFails(cmd: seq<char>, ms: MScan, entries: seq<Command>, run: Runner)
    requires MScanOk(ms) && ms.indexCmd == 0 && cmd != [] && |cmd| < MAX_CMD_STR_LENGTH
    requires forall k :: 0 <= k < |cmd| ==> IsCmdChar(cmd[k])
    requires forall i :: 0 <= i < |entries| ==> entries[i].name != ""
    ensures !AllSucceed(entries, Parse(cmd + [DELIMITER], ms).calls, run)
  {
    AsWrittenTrailingDelimiterDispatchesEmptyName(cmd, ms);
    var calls := Parse(cmd + [DELIMITER], ms).calls;
    assert !DictAccepts(entries, calls[1].name, calls[1].numArgs, calls[1].args, run);
  }

  /** Corrected: a trailing delimiter changes nothing, so the message succeeds exactly when its
    * command does. */
  lemma CorrectedTrailingDelimiter(cmd: seq<char>, ms: MScan, entries: seq<Command>, run: Runner)
    requires MScanOk(ms) && ms.indexCmd == 0 && cmd != [] && |cmd| < MAX_CMD_STR_LENGTH
    requires forall k :: 0 <= k < |cmd| ==> IsCmdChar(cmd[k])
    ensures !ParseCorrected(cmd + [DELIMITER], ms).overflow
    ensures ParseCorrected(cmd + [DELIMITER], ms).calls == ParseCorrected(cmd, ms).calls
            == [Call(cmd, ms.numArgs, ms.argStack)]
    ensures AllSucceed(entries, ParseCorrected(cmd + [DELIMITER], ms).calls, run)
            == DictAccepts(entries, cmd, ms.numArgs, ms.argStack, run)
  {
    var ms1 := CommandThenDelimiter(cmd, DELIMITER, [NUL], ms, Start, true);
    assert cmd + [DELIMITER] + [NUL] == (cmd + [DELIMITER]) + [NUL];
    assert [NUL][1..] == [];
    var ms2 := CommandThenDelimiter(cmd, NUL, [], ms, Start, true);
    assert cmd + [NUL] + [] == cmd + [NUL];
    var calls := ParseCorrected(cmd + [DELIMITER], ms).calls;
    assert calls[0] == Call(cmd, ms.numArgs, ms.argStack);
  }

  /** Corrected: no command with an empty name is ever dispatched, whatever the message. */
  lemma {:induction false} CorrectedNamesNonEmpty(s: seq<char>, ms: MScan, st: ParserState)
    requires MScanOk(ms) && (st == Cmd ==> ms.indexCmd > 0)
    ensures forall i :: 0 <= i < |MRun(s, ms, st, true).calls| ==> MRun(s, ms, st, true).calls[i].name != ""
    decreases |s|
  {
    if s != [] {
      match MStepChar(ms, st, s[0], true)
      case Next(ms', st') =>
        CorrectedNamesNonEmpty(s[1..], ms', st');
      case Dispatch(ms', st', call) =>
        var cs := ms.cmdString[ms.indexCmd := NUL];
        assert cs[0] != NUL;
        assert call.name != "";
        CorrectedNamesNonEmpty(s[1..], ms', st');
      case Overflow =>
    }
  }

  /** Hence the corrected parser never dispatches an empty name for any message. */
  lemma CorrectedParseNamesNonEmpty(raw: seq<char>, ms: MScan)
    requires MScanOk(ms)
    ensures forall i :: 0 <= i < |ParseCorrected(raw, ms).calls| ==> ParseCorrected(raw, ms).calls[i].name != ""
  {
    CorrectedNamesNonEmpty(raw + [NUL], ms, Start);
  }
}
