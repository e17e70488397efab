/**
 * parse_args of src/cli/cli.c: the option handling that follows getopt_long.
 * getopt_long itself is not modelled; its decoded results are the input, as
 * a sequence of (option code, optarg) items followed by the final optind.
 * strtol and atol are inputs too.
 */
module Cli {
  import opened Wrappers
  import opened Config

  const DefaultHostname: string := "container"
  const DefaultRootfs: string := "./rootfs"
  const DefaultCpus: int := 1
  const MiB: int := 1024 * 1024
  const DefaultMemory: int := 512 * MiB
  const DefaultCommand: seq<string> := ["/bin/sh"]

  /** One value returned by getopt_long, with the optarg it set. */
  datatype GetoptItem = GetoptItem(opt: char, optarg: string)

  /** The optarg of the last item with option code `opt`. */
  function LastArg(items: seq<GetoptItem>, opt: char): (r: Option<string>)
    ensures r.Some? ==> exists i :: 0 <= i < |items| && items[i] == GetoptItem(opt, r.value)
    ensures r.None? ==> forall i :: 0 <= i < |items| ==> items[i].opt != opt
    decreases |items|
  {
    if items == [] then None
    else if items[|items| - 1].opt == opt then Some(items[|items| - 1].optarg)
    else LastArg(items[..|items| - 1], opt)
  }

  /** An item the switch accepts without returning EXIT_FAILURE. */
  predicate Accepted(item: GetoptItem, strtol: string -> int, atol: string -> int)
  {
    match item.opt
    case 'h' => true
    case 'r' => true
    case 'c' => strtol(item.optarg) > 0
    case 'm' => atol(item.optarg) * MiB > 0
    case _ => false
  }

  /**
   * The fields after the switch has handled `items`: each option's last value,
   * converted, or the default; the command still NULL.
   */
  function OptionsApplied(items: seq<GetoptItem>, strtol: string -> int, atol: string -> int): (r: ContainerArgs)
    ensures r.command == None
    ensures (forall k :: 0 <= k < |items| ==> Accepted(items[k], strtol, atol)) ==> r.maxCpus >= 1 && r.maxMemory > 0
  {
    ContainerArgs(
      LastArg(items, 'h').GetOr(DefaultHostname),
      LastArg(items, 'r').GetOr(DefaultRootfs),
      None,
      match LastArg(items, 'c') case None => DefaultCpus case Some(v) => strtol(v),
      match LastArg(items, 'm') case None => DefaultMemory case Some(v) => atol(v) * MiB)
  }

  /** The switch's assignment for one item. */
  function ApplyItem(args: ContainerArgs, item: GetoptItem, strtol: string -> int, atol: string -> int): ContainerArgs
  {
    match item.opt
    case 'h' => args.(hostname := item.optarg)
    case 'r' => args.(rootfs := item.optarg)
    case 'c' => args.(maxCpus := strtol(item.optarg))
    case 'm' => args.(maxMemory := atol(item.optarg) * MiB)
    case _ => args
  }

  /** Handling one more item is one more assignment. */
  lemma OptionsAppliedSnoc(items: seq<GetoptItem>, item: GetoptItem, strtol: string -> int, atol: string -> int)
    ensures OptionsApplied(items + [item], strtol, atol) == ApplyItem(OptionsApplied(items, strtol, atol), item, strtol, atol)
  {
    assert (items + [item])[..|items|] == items;
  }

  /** The command: argv[optind..], or /bin/sh when no operand is left. */
  function CommandOf(argv: seq<string>, optind: nat): (command: seq<string>)
    ensures |command| > 0
    ensures optind < |argv| ==> command == argv[optind..]
    ensures optind >= |argv| ==> command == ["/bin/sh"]
  {
    if optind >= |argv| then DefaultCommand else argv[optind..]
  }

  /** Of several occurrences of an option, the last one decides its value. */
  lemma {:induction false} LaterOccurrenceWins(items: seq<GetoptItem>, k: nat, opt: char)
    requires k < |items| && items[k].opt == opt
    requires forall j :: k < j < |items| ==> items[j].opt != opt
    ensures LastArg(items, opt) == Some(items[k].optarg)
    decreases |items|
  {
    if k < |items| - 1 {
      var init := items[..|items| - 1];
      assert init[k] == items[k];
      LaterOccurrenceWins(init, k, opt);
    }
  }

  /**
   * parse_args. Returns EXIT_SUCCESS exactly when every option was accepted,
   * and then the record holds the last value of each option (or its default)
   * and the command; on EXIT_FAILURE the record is as the switch left it at
   * the first rejected item, with the command still NULL.
   */
  method ParseArgs(argv: seq<string>, items: seq<GetoptItem>, optind: nat,
                   strtol: string -> int, atol: string -> int)
    returns (status: int, args: ContainerArgs)
    ensures status == EXIT_SUCCESS || status == EXIT_FAILURE
    ensures status == EXIT_SUCCESS <==> forall i :: 0 <= i < |items| ==> Accepted(items[i], strtol, atol)
    ensures status == EXIT_SUCCESS ==>
              args == OptionsApplied(items, strtol, atol).(command := Some(CommandOf(argv, optind)))
    ensures status == EXIT_SUCCESS ==> args.maxCpus >= 1 && args.maxMemory > 0
    ensures status == EXIT_FAILURE ==>
              exists k :: 0 <= k < |items| && !Accepted(items[k], strtol, atol) &&
                          (forall j :: 0 <= j < k ==> Accepted(items[j], strtol, atol)) &&
                          args == OptionsApplied(items[..k + 1], strtol, atol)
  {
    args := ContainerArgs(DefaultHostname, DefaultRootfs, None, DefaultCpus, DefaultMemory);
    var i := 0;
    while i < |items|
      invariant 0 <= i <= |items|
      invariant forall j :: 0 <= j < i ==> Accepted(items[j], strtol, atol)
      invariant args == OptionsApplied(items[..i], strtol, atol)
      invariant args.maxCpus >= 1 && args.maxMemory > 0
    {
      var item := items[i];
      assert items[..i + 1] == items[..i] + [item];
      OptionsAppliedSnoc(items[..i], item, strtol, atol);
      match item.opt {
      case 'h' =>
        args := args.(hostname := item.optarg);
      case 'r' =>
        args := args.(rootfs := item.optarg);
      case 'c' =>
        args := args.(maxCpus := strtol(item.optarg));
        if args.maxCpus <= 0 {
          return EXIT_FAILURE, args;
        }
      case 'm' =>
        args := args.(maxMemory := atol(item.optarg) * MiB);
        if args.maxMemory <= 0 {
          return EXIT_FAILURE, args;
        }
      case '?' =>
        return EXIT_FAILURE, args;
      case _ =>
        return EXIT_FAILURE, args;
      }
      i := i + 1;
    }
    assert items[..i] == items;
    if optind >= |argv| {
      args := args.(command := Some(DefaultCommand));
    } else {
      args := args.(command := Some(argv[optind..]));
    }
    status := EXIT_SUCCESS;
  }
}
