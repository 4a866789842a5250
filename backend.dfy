/**
 * Choice of the external clipboard tool and the commands built from it.
 *
 * At start-up xclip is preferred, then xsel; with neither on the search
 * path the package is marked unsupported, keeping the xsel arguments.
 * Reading and writing fail with the missing-commands error before any
 * command is built when the package is unsupported.
 */
module Backend {
  import opened Wrappers

  const Xsel := "xsel"
  const Xclip := "xclip"

  const XselPasteArgs: seq<string> := [Xsel, "--output", "--clipboard"]
  const XselCopyArgs: seq<string> := [Xsel, "--input", "--clipboard"]

  const XclipPasteArgs: seq<string> := [Xclip, "-out", "-selection", "clipboard"]
  const XclipCopyArgs: seq<string> := [Xclip, "-in", "-selection", "clipboard"]

  /**
   * The errors reading or writing can end with: no tool available ("No
   * clipboard utilities available. Please install xsel or xclip."), or a
   * failure while running the command.
   */
  datatype Error =
    | MissingCommands
    | ExecFailed(message: string)

  /** A command to run: the program name and its arguments. */
  datatype Command = Command(name: string, args: seq<string>)

  /** One of the two supported tools. */
  datatype Tool = XclipTool | XselTool

  function PasteArgsOf(t: Tool): (args: seq<string>)
  {
    match t
    case XclipTool => XclipPasteArgs
    case XselTool => XselPasteArgs
  }

  function CopyArgsOf(t: Tool): (args: seq<string>)
  {
    match t
    case XclipTool => XclipCopyArgs
    case XselTool => XselCopyArgs
  }

  /** The package's configuration variables: the chosen argument lists, the Primary switch and the Unsupported flag. */
  class Config {
    var primary: bool
    var pasteArgs: seq<string>
    var copyArgs: seq<string>
    var unsupported: bool
    /** The tool the argument lists were taken from. */
    ghost var tool: Tool

    /** Both argument lists are non-empty prefixes of the chosen tool's lists, so both name that tool. */
    ghost predicate Valid()
      reads this
    {
      0 < |pasteArgs| && pasteArgs <= PasteArgsOf(tool) &&
      0 < |copyArgs| && copyArgs <= CopyArgsOf(tool)
    }

    /** The variables as the program starts, before initialisation: all zero. */
    constructor ()
      ensures !primary && !unsupported && pasteArgs == [] && copyArgs == []
    {
      primary := false;
      pasteArgs := [];
      copyArgs := [];
      unsupported := false;
      tool := XclipTool;
    }

    /**
     * Package initialisation against the set of programs found on the
     * search path: xclip if present, otherwise xsel, and if neither is
     * present Unsupported is raised with the xsel lists in place.
     */
    method Init(onPath: set<string>)
      modifies this`pasteArgs, this`copyArgs, this`unsupported, this`tool
      ensures Valid()
      ensures Xclip in onPath ==>
                tool == XclipTool && pasteArgs == XclipPasteArgs && copyArgs == XclipCopyArgs
      ensures Xclip !in onPath ==>
                tool == XselTool && pasteArgs == XselPasteArgs && copyArgs == XselCopyArgs
      ensures unsupported <==> old(unsupported) || (Xclip !in onPath && Xsel !in onPath)
      ensures pasteArgs[0] == copyArgs[0]
    {
      pasteArgs := XclipPasteArgs;
      copyArgs := XclipCopyArgs;
      tool := XclipTool;

      if Xclip in onPath {
        return;
      }

      pasteArgs := XselPasteArgs;
      copyArgs := XselCopyArgs;
      tool := XselTool;

      if Xsel in onPath {
        return;
      }

      unsupported := true;
    }

    /**
     * The command that prints the clipboard.  With Primary set the stored
     * paste arguments are cut down to the program name, for this call and
     * every later one.
     */
    method GetPasteCommand() returns (cmd: Command)
      requires Valid()
      modifies this`pasteArgs
      ensures Valid()
      ensures pasteArgs == if primary then old(pasteArgs)[..1] else old(pasteArgs)
      ensures cmd.name == old(pasteArgs)[0]
      ensures cmd.args == if primary then [] else old(pasteArgs)[1..]
      ensures cmd == Command(pasteArgs[0], pasteArgs[1..])
    {
      if primary {
        pasteArgs := pasteArgs[..1];
      }
      cmd := Command(pasteArgs[0], pasteArgs[1..]);
    }

    /** The command that sets the clipboard from its standard input; Primary cuts the copy arguments in the same way. */
    method GetCopyCommand() returns (cmd: Command)
      requires Valid()
      modifies this`copyArgs
      ensures Valid()
      ensures copyArgs == if primary then old(copyArgs)[..1] else old(copyArgs)
      ensures cmd.name == old(copyArgs)[0]
      ensures cmd.args == if primary then [] else old(copyArgs)[1..]
      ensures cmd == Command(copyArgs[0], copyArgs[1..])
    {
      if primary {
        copyArgs := copyArgs[..1];
      }
      cmd := Command(copyArgs[0], copyArgs[1..]);
    }

    /**
     * Reads the clipboard.  `output` stands for running a command and
     * collecting its standard output, or the message of the failure.  When
     * unsupported, nothing is built or run and the missing-commands error
     * is returned; that error comes from nowhere else.
     */
    method ReadAll(output: Command -> Result<string, string>) returns (r: Result<string, Error>, built: Option<Command>)
      requires Valid()
      modifies this`pasteArgs
      ensures Valid()
      ensures old(unsupported) ==>
                r == Failure(MissingCommands) && built == None && pasteArgs == old(pasteArgs)
      ensures !old(unsupported) ==>
                built.Some? && built.value.name == old(pasteArgs)[0] &&
                built.value == Command(pasteArgs[0], pasteArgs[1..]) &&
                pasteArgs == (if primary then old(pasteArgs)[..1] else old(pasteArgs)) &&
                r == (match output(built.value)
                      case Success(text) => Success(text)
                      case Failure(message) => Failure(ExecFailed(message)))
      ensures r == Failure(MissingCommands) <==> old(unsupported)
    {
      if unsupported {
        return Failure(MissingCommands), None;
      }
      var pasteCmd := GetPasteCommand();
      built := Some(pasteCmd);
      var out := output(pasteCmd);
      if out.Failure? {
        return Failure(ExecFailed(out.error)), built;
      }
      r := Success(out.value);
    }

    /**
     * Writes `text` to the clipboard.  `deliver` stands for starting the
     * command, writing `text` to its standard input and waiting for it;
     * it gives the message of the first failure on that way, if any.  When
     * unsupported, nothing is built or run and the missing-commands error
     * is returned; that error comes from nowhere else.
     */
    method WriteAll(text: string, deliver: (Command, string) -> Option<string>) returns (err: Option<Error>, built: Option<Command>)
      requires Valid()
      modifies this`copyArgs
      ensures Valid()
      ensures old(unsupported) ==>
                err == Some(MissingCommands) && built == None && copyArgs == old(copyArgs)
      ensures !old(unsupported) ==>
                built.Some? && built.value.name == old(copyArgs)[0] &&
                built.value == Command(copyArgs[0], copyArgs[1..]) &&
                copyArgs == (if primary then old(copyArgs)[..1] else old(copyArgs)) &&
                err == (match deliver(built.value, text)
                        case None => None
                        case Some(message) => Some(ExecFailed(message)))
      ensures err == Some(MissingCommands) <==> old(unsupported)
    {
      if unsupported {
        return Some(MissingCommands), None;
      }
      var copyCmd := GetCopyCommand();
      built := Some(copyCmd);
      var failure := deliver(copyCmd, text);
      if failure.Some? {
        return Some(ExecFailed(failure.value)), built;
      }
      err := None;
    }
  }

  /**
   * With Primary set, the cut to the program name persists and a second
   * paste command equals the first: the cut is idempotent.
   */
  method RepeatedPasteCommand(c: Config) returns (first: Command, second: Command)
    requires c.Valid() && c.primary
    modifies c`pasteArgs
    ensures c.Valid()
    ensures first == second == Command(old(c.pasteArgs)[0], [])
    ensures c.pasteArgs == [old(c.pasteArgs)[0]]
  {
    first := c.GetPasteCommand();
    second := c.GetPasteCommand();
  }
}
