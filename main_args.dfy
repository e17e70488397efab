/**
 * The hand-written argv scanner of src/main.c. Options are read from argv[1]
 * on; "--" ends them and the rest of argv is the command; -h, -r, --cpus and
 * --memory each take the next token as value; anything else is a usage error.
 * atoi and atol are inputs.
 */
module MainArgs {
  import opened Wrappers
  import opened Config

  const DefaultArgs: ContainerArgs :=
    ContainerArgs("tinydocker", "./rootfs", Some(["/bin/sh"]), 1, 1024 * 1024 * 1024)

  /** The record, or the usage error after which main exits with EXIT_FAILURE. */
  datatype ScanResult = Parsed(args: ContainerArgs) | UsageError

  predicate IsValueFlag(token: string)
  {
    token == "-h" || token == "-r" || token == "--cpus" || token == "--memory"
  }

  /** The record after `flag` was given `value`. */
  function SetOption(args: ContainerArgs, flag: string, value: string, atoi: string -> int, atol: string -> int)
    : ContainerArgs
    requires IsValueFlag(flag)
  {
    if flag == "-h" then args.(hostname := value)
    else if flag == "-r" then args.(rootfs := value)
    else if flag == "--cpus" then args.(maxCpus := atoi(value))
    else args.(maxMemory := atol(value))
  }

  /** The scan from position i, with `args` the record built so far. */
  function ScanFrom(argv: seq<string>, i: nat, args: ContainerArgs, atoi: string -> int, atol: string -> int)
    : (r: ScanResult)
    ensures r.Parsed? && NoTerminator(argv, i) ==> r.args.command == args.command
    decreases |argv| - i
  {
    if i >= |argv| then Parsed(args)
    else if argv[i] == "--" then Parsed(args.(command := Some(argv[i + 1..])))
    else if IsValueFlag(argv[i]) && i + 1 < |argv| then
      ScanFrom(argv, i + 2, SetOption(args, argv[i], argv[i + 1], atoi, atol), atoi, atol)
    else UsageError
  }

  /** argv[from..], or nothing when `from` is past the end. */
  function Suffix(argv: seq<string>, from: nat): (r: seq<string>)
    ensures |r| == if from <= |argv| then |argv| - from else 0
    ensures forall k :: 0 <= k < |r| ==> r[k] == argv[from + k]
  {
    if from <= |argv| then argv[from..] else []
  }

  /**
   * The scan from position i never meets "--" where it expects an option;
   * a "--" given as a flag's value is allowed.
   */
  predicate NoTerminator(argv: seq<string>, i: nat)
    decreases |argv| - i
  {
    i >= |argv| || (argv[i] != "--" && NoTerminator(argv, i + 2))
  }

  /**
   * A prefix of options that scans cleanly leaves the scan of a longer argv
   * at its end, with the record it built: what follows is read afresh.
   */
  lemma {:induction false} ScanAppend(opts: seq<string>, rest: seq<string>, i: nat, args: ContainerArgs,
                                      atoi: string -> int, atol: string -> int)
    requires i <= |opts| && NoTerminator(opts, i)
    requires ScanFrom(opts, i, args, atoi, atol).Parsed?
    ensures ScanFrom(opts + rest, i, args, atoi, atol)
         == ScanFrom(opts + rest, |opts|, ScanFrom(opts, i, args, atoi, atol).args, atoi, atol)
    decreases |opts| - i
  {
    if i < |opts| {
      var argv := opts + rest;
      assert argv[i] == opts[i] && argv[i + 1] == opts[i + 1];
      ScanAppend(opts, rest, i + 2, SetOption(args, opts[i], opts[i + 1], atoi, atol), atoi, atol);
    }
  }

  /** "--" ends the options: the command is exactly what follows it, possibly nothing. */
  lemma TerminatorEndsOptions(opts: seq<string>, command: seq<string>, i: nat, args: ContainerArgs,
                              atoi: string -> int, atol: string -> int)
    requires i <= |opts| && NoTerminator(opts, i)
    requires ScanFrom(opts, i, args, atoi, atol).Parsed?
    ensures ScanFrom(opts + ["--"] + command, i, args, atoi, atol)
         == Parsed(ScanFrom(opts, i, args, atoi, atol).args.(command := Some(command)))
  {
    var argv := opts + ["--"] + command;
    assert argv == opts + (["--"] + command);
    ScanAppend(opts, ["--"] + command, i, args, atoi, atol);
    assert argv[|opts|] == "--";
    assert argv[|opts| + 1..] == command;
  }

  /** A flag followed by a value sets that option, whatever earlier occurrences set: the last one wins. */
  lemma LastOptionWins(opts: seq<string>, flag: string, value: string, i: nat, args: ContainerArgs,
                       atoi: string -> int, atol: string -> int)
    requires i <= |opts| && NoTerminator(opts, i) && IsValueFlag(flag)
    requires ScanFrom(opts, i, args, atoi, atol).Parsed?
    ensures ScanFrom(opts + [flag, value], i, args, atoi, atol)
         == Parsed(SetOption(ScanFrom(opts, i, args, atoi, atol).args, flag, value, atoi, atol))
  {
    ScanAppend(opts, [flag, value], i, args, atoi, atol);
    var argv := opts + [flag, value];
    assert argv[|opts|] == flag && argv[|opts| + 1] == value;
  }

  /**
   * A token where an option is expected that is neither "--" nor a flag with
   * a value after it (an unknown token, or a flag at the end) is a usage error.
   */
  lemma BadTokenIsUsageError(opts: seq<string>, token: string, rest: seq<string>, i: nat, args: ContainerArgs,
                             atoi: string -> int, atol: string -> int)
    requires i <= |opts| && NoTerminator(opts, i)
    requires ScanFrom(opts, i, args, atoi, atol).Parsed?
    requires token != "--" && (!IsValueFlag(token) || rest == [])
    ensures ScanFrom(opts + [token] + rest, i, args, atoi, atol) == UsageError
  {
    var argv := opts + [token] + rest;
    assert argv == opts + ([token] + rest);
    ScanAppend(opts, [token] + rest, i, args, atoi, atol);
    assert argv[|opts|] == token;
  }

  /**
   * The command of a parsed record is the one it started with, or the tokens
   * after a "--" of argv; so it is never NULL when it started as a command.
   */
  lemma {:induction false} ParsedCommand(argv: seq<string>, i: nat, args: ContainerArgs,
                                         atoi: string -> int, atol: string -> int)
    requires ScanFrom(argv, i, args, atoi, atol).Parsed?
    ensures var command := ScanFrom(argv, i, args, atoi, atol).args.command;
            command == args.command ||
            exists k :: i <= k < |argv| && argv[k] == "--" && command == Some(argv[k + 1..])
    decreases |argv| - i
  {
    if i < |argv| {
      if argv[i] != "--" {
        var next := SetOption(args, argv[i], argv[i + 1], atoi, atol);
        ParsedCommand(argv, i + 2, next, atoi, atol);
        var command := ScanFrom(argv, i, args, atoi, atol).args.command;
        if command != args.command {
          var k :| i + 2 <= k < |argv| && argv[k] == "--" && command == Some(argv[k + 1..]);
          assert i <= k;
        }
      }
    }
  }

  /**
   * The scanning loop of main, then the copy of argv[command_offset..] into
   * the command array.
   */
  method ScanArgv(argv: seq<string>, atoi: string -> int, atol: string -> int) returns (r: ScanResult)
    ensures r == ScanFrom(argv, 1, DefaultArgs, atoi, atol)
    ensures |argv| <= 1 ==> r == Parsed(DefaultArgs)
  {
    var args := DefaultArgs;
    var current := 1;
    var commandOffset: nat := 0;
    while current < |argv|
      invariant 1 <= current
      invariant 0 <= commandOffset <= |argv|
      invariant ScanFrom(argv, 1, DefaultArgs, atoi, atol)
             == if commandOffset == 0 then ScanFrom(argv, current, args, atoi, atol)
                else Parsed(args.(command := Some(Suffix(argv, commandOffset))))
      decreases |argv| - current, if commandOffset == 0 then 1 else 0
    {
      if argv[current] == "--" {
        commandOffset := current + 1;
        break;
      } else if argv[current] == "-h" && current + 1 < |argv| {
        current := current + 1;
        args := args.(hostname := argv[current]);
      } else if argv[current] == "-r" && current + 1 < |argv| {
        current := current + 1;
        args := args.(rootfs := argv[current]);
      } else if argv[current] == "--cpus" && current + 1 < |argv| {
        current := current + 1;
        args := args.(maxCpus := atoi(argv[current]));
      } else if argv[current] == "--memory" && current + 1 < |argv| {
        current := current + 1;
        args := args.(maxMemory := atol(argv[current]));
      } else {
        return UsageError;
      }
      current := current + 1;
    }
    if commandOffset > 0 {
      var commandLength := |argv| - commandOffset;
      var command: seq<string> := [];
      for j := 0 to commandLength
        invariant command == argv[commandOffset..commandOffset + j]
      {
        command := command + [argv[commandOffset + j]];
      }
      assert argv[commandOffset..commandOffset + commandLength] == Suffix(argv, commandOffset);
      args := args.(command := Some(command));
    }
    return Parsed(args);
  }
}
