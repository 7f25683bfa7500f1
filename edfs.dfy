/**
 * The command surface of the EDFS emulator (homework-2/edfs.py): the command-line
 * argument parser, the emulator object with its fixed command table, the check on
 * the command made while constructing it, the dispatcher, and the path check of
 * `mkdir`.
 *
 * What a command does to the outside world is returned as an `Effect`: the lines it
 * prints and the library calls it attempts. Python's exceptions are the
 * `Error` datatype, rendered by `Str` as Python's `str()` renders them.
 */
module Edfs {

  /** Python's `s.startswith(prefix)`. */
  predicate StartsWith(s: string, prefix: string)
  {
    |prefix| <= |s| && s[..|prefix|] == prefix
  }

  // ---------------------------------------------------------------------------
  // Exceptions and results
  // ---------------------------------------------------------------------------

  /** The exceptions the modelled code raises. `CallFailure` is what the attempted
      `requests.put()` raises, known only by its message. */
  datatype Error =
    | AssertionError(message: string)
    | KeyError(key: string)
    | IndexError(message: string)
    | CallFailure(message: string)

  /** `str(e)`: the message, except that a `KeyError` shows the quoted key. */
  function Str(e: Error): string
  {
    match e
    case AssertionError(m) => m
    case KeyError(k) => "'" + k + "'"
    case IndexError(m) => m
    case CallFailure(m) => m
  }

  datatype Result<T> = Ok(value: T) | Err(error: Error)

  const CommandMessage := "Command must start with -"
  const PathMessage := "Path must start with /"
  const IndexMessage := "list index out of range"
  const BaseUri := "https://test-5681a-default-rtdb.firebaseio.com"

  // ---------------------------------------------------------------------------
  // Command-line arguments
  // ---------------------------------------------------------------------------

  /** The dictionary `parse_args` returns, with keys `file`, `command`, `action_item`. */
  datatype Args = Args(file: string, command: string, actionItem: string)

  /** `parse_args(line)`: positions 0, 1 and 2 of argv name the script, the command and
      the path; a shorter argv raises `IndexError`, and anything after position 2 is
      ignored. */
  function ParseArgs(line: seq<string>): (r: Result<Args>)
    ensures r.Ok? <==> |line| >= 3
    ensures r.Ok? ==> r.value.file == line[0] && r.value.command == line[1]
                      && r.value.actionItem == line[2]
    ensures r.Err? ==> r.error == IndexError(IndexMessage)
  {
    if |line| < 3 then Err(IndexError(IndexMessage))
    else Ok(Args(line[0], line[1], line[2]))
  }

  /** Extra arguments after the path never change what `parse_args` returns. */
  lemma ParseArgsIgnoresExtra(line: seq<string>, extra: seq<string>)
    requires |line| >= 3
    ensures ParseArgs(line + extra) == ParseArgs(line)
  {
  }

  // ---------------------------------------------------------------------------
  // The command table
  // ---------------------------------------------------------------------------

  /** The six handler methods the table refers to. */
  datatype Handler = Ls | Mkdir | Rmdir | Create | Rm | Export

  /** `function_list` as the constructor builds it. */
  const FunctionList: map<string, Handler> :=
    map["-ls" := Ls, "-mkdir" := Mkdir, "-rmdir" := Rmdir,
        "-create" := Create, "-rm" := Rm, "-export" := Export]

  /** The command string each handler is registered under. */
  function CommandOf(h: Handler): (c: string)
    ensures c in FunctionList && FunctionList[c] == h
  {
    match h
    case Ls => "-ls"
    case Mkdir => "-mkdir"
    case Rmdir => "-rmdir"
    case Create => "-create"
    case Rm => "-rm"
    case Export => "-export"
  }

  /** The table knows exactly the six commands, registers each handler under exactly
      one of them, and every command it knows passes the constructor's check. */
  lemma FunctionListIsOneToOne()
    ensures forall c :: c in FunctionList <==>
      c in {"-ls", "-mkdir", "-rmdir", "-create", "-rm", "-export"}
    ensures forall c :: c in FunctionList ==> CommandOf(FunctionList[c]) == c
    ensures forall c :: c in FunctionList ==> StartsWith(c, "-")
  {
  }

  // ---------------------------------------------------------------------------
  // The emulator
  // ---------------------------------------------------------------------------

  /** `_verify_input_command`: the assertion that the command starts with `-`. */
  function VerifyInputCommand(command: string): (r: Result<()>)
    ensures r.Ok? <==> StartsWith(command, "-")
    ensures r.Err? ==> r.error == AssertionError(CommandMessage)
  {
    if StartsWith(command, "-") then Ok(()) else Err(AssertionError(CommandMessage))
  }

  /** A library call attempted by a command. `mkdir` calls the function
      `requests.put()` with no arguments: it raises `TypeError` for the missing URL
      before any request is sent, and the store client (`FirebaseClient`) is never
      used. */
  datatype Call = RequestsPut

  /** What running a command does outside the object: the lines printed, in order,
      and the library calls attempted, in order. */
  datatype Effect = Effect(printed: seq<string>, calls: seq<Call>)

  class HDFSEmulator {
    var baseUri: string
    var command: string
    var actionItem: string
    var functionList: map<string, Handler>

    /** What every constructed emulator satisfies: its command passed the check and
        its table is the fixed one. */
    ghost predicate Valid()
      reads this
    {
      StartsWith(command, "-") && functionList == FunctionList
    }

    /** `__init__` once its assertion has passed: the fields, the table and the base
        URI the `FirebaseClient` constructor sets. */
    constructor (command: string, actionItem: string)
      requires VerifyInputCommand(command).Ok?
      ensures Valid()
      ensures this.command == command && this.actionItem == actionItem
      ensures this.functionList == FunctionList && this.baseUri == BaseUri
    {
      this.command := command;
      this.actionItem := actionItem;
      this.functionList := FunctionList;
      this.baseUri := BaseUri;
    }

    /** `HDFSEmulator(command, action_item)` in full: a command that does not start
        with `-` fails the assertion before the table is built, and no emulator is
        returned. */
    static method New(command: string, actionItem: string) returns (r: Result<HDFSEmulator>)
      ensures r.Err? <==> !StartsWith(command, "-")
      ensures r.Err? ==> r.error == AssertionError(CommandMessage)
      ensures r.Ok? ==> fresh(r.value) && r.value.Valid()
      ensures r.Ok? ==> r.value.command == command && r.value.actionItem == actionItem
    {
      var check := VerifyInputCommand(command);
      if check.Err? {
        return Err(check.error);
      }
      var fs := new HDFSEmulator(command, actionItem);
      return Ok(fs);
    }

    /** `mkdir`: a path that does not start with `/` is reported and no call is
        attempted; otherwise `requests.put()` is attempted, and what it raises
        (`callFailure`: as written, the call has no URL, so it always raises before
        sending anything) is reported. */
    method Mkdir(callFailure: string) returns (out: Effect)
      ensures out.calls != [] <==> StartsWith(actionItem, "/")
      ensures !StartsWith(actionItem, "/") ==>
        out == Effect(["Error: " + Str(AssertionError(PathMessage))], [])
      ensures StartsWith(actionItem, "/") ==>
        out == Effect(["Error: " + Str(CallFailure(callFailure))], [RequestsPut])
    {
      if !StartsWith(actionItem, "/") {
        out := Effect(["Error: " + Str(AssertionError(PathMessage))], []);
      } else {
        out := Effect(["Error: " + Str(CallFailure(callFailure))], [RequestsPut]);
      }
    }

    /** `execute`: the handler registered for the command runs; a command the table
        does not know raises `KeyError`, which is reported as "Command not found"
        and runs no handler. `ls`, `rmdir`, `create`, `rm` and `export` have empty
        bodies, so only `-mkdir` prints or calls anything. */
    method Execute(callFailure: string) returns (out: Effect)
      requires Valid()
      ensures command !in FunctionList ==>
        out == Effect(["Command not found: " + command, "Error: " + Str(KeyError(command))], [])
      ensures command in FunctionList && command != "-mkdir" ==> out == Effect([], [])
      ensures command == "-mkdir" && !StartsWith(actionItem, "/") ==>
        out == Effect(["Error: " + Str(AssertionError(PathMessage))], [])
      ensures command == "-mkdir" && StartsWith(actionItem, "/") ==>
        out == Effect(["Error: " + Str(CallFailure(callFailure))], [RequestsPut])
      ensures out.calls != [] <==> command == "-mkdir" && StartsWith(actionItem, "/")
    {
      if command in functionList {
        match functionList[command] {
          case Mkdir =>
            out := Mkdir(callFailure);
          case Ls | Rmdir | Create | Rm | Export =>
            out := Effect([], []);
        }
      } else {
        out := Effect(["Command not found: " + command, "Error: " + Str(KeyError(command))], []);
      }
    }
  }
}
