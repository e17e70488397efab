/**
 * init_container of src/container/container.c: the code the cloned process
 * runs inside its new namespaces. The kernel is an environment whose system
 * calls succeed or fail as an oracle `o: Event -> bool` decides; each call is
 * appended to a trace of events. The forked child runs while its parent
 * blocks in waitpid, so the two processes' calls are traced in that order.
 */
module Container {
  import opened Wrappers
  import opened Config
  import opened Traces

  /** The cloned process that runs init_container, and the child it forks for the command. */
  datatype Proc = Supervisor | Shell

  datatype Event =
    | SetHostname(name: string)
    | Chroot(path: string)
    | Chdir(path: string)
    | MkdirProc
    | MountProc
    | Fork
    | Exec(argv: seq<string>)
    | Umount(proc: Proc)
    | Wait

  /** How a child ended, as waitpid reports it: WIFEXITED with WEXITSTATUS, or killed by a signal. */
  datatype WaitStatus = Exited(code: ExitCode) | Signaled(signal: int)

  /** The container's view: hostname, filesystem root, working directory, whether /proc is mounted. */
  datatype EnvState = EnvState(hostname: string, root: string, cwd: string, procMounted: bool, events: seq<Event>)

  /** The directory a chroot argument names; only "." is resolved (to the working directory). */
  function Resolve(cwd: string, path: string): string
  {
    if path == "." then cwd else path
  }

  /** One system call, let through or refused by the kernel; umount2 also fails when /proc is not mounted. */
  function Perform(s: EnvState, e: Event, ok: bool): (EnvState, bool)
  {
    var success := ok && (!e.Umount? || s.procMounted);
    (EnvState(if success && e.SetHostname? then e.name else s.hostname,
              if success && e.Chroot? then Resolve(s.cwd, e.path) else s.root,
              if success && e.Chdir? then e.path else s.cwd,
              if success && e.MountProc? then true else if success && e.Umount? then false else s.procMounted,
              s.events + [e]),
     success)
  }

  /** A call whose outcome the oracle decides. */
  function Run(s: EnvState, e: Event, o: Event -> bool): (EnvState, bool)
  {
    Perform(s, e, o(e))
  }

  class Env {
    var hostname: string
    var root: string
    var cwd: string
    var procMounted: bool
    var events: seq<Event>

    function State(): EnvState
      reads this
    {
      EnvState(hostname, root, cwd, procMounted, events)
    }

    constructor (hostname: string, root: string, cwd: string)
      ensures State() == EnvState(hostname, root, cwd, false, [])
    {
      this.hostname := hostname;
      this.root := root;
      this.cwd := cwd;
      this.procMounted := false;
      this.events := [];
    }

    method Syscall(e: Event, ok: bool) returns (success: bool)
      modifies this
      ensures (State(), success) == Perform(old(State()), e, ok)
    {
      events := events + [e];
      success := ok && (e.Umount? ==> procMounted);
      if success {
        match e {
          case SetHostname(n) => hostname := n;
          case Chroot(p) => root := Resolve(cwd, p);
          case Chdir(p) => cwd := p;
          case MountProc => procMounted := true;
          case Umount(_) => procMounted := false;
          case _ =>
        }
      }
    }
  }

  /** The setup steps of init_container, in order, each stopping the run when it fails. */
  function SetupPlan(args: ContainerArgs): seq<Event>
  {
    [SetHostname(args.hostname), Chroot(args.rootfs), Chdir("/"), MountProc, Fork]
  }

  /** The exit code the parent returns for a child: WEXITSTATUS if it exited, EXIT_FAILURE otherwise. */
  function StatusCode(w: WaitStatus): (code: int)
    ensures 0 <= code < 256
    ensures code == EXIT_SUCCESS <==> w == Exited(EXIT_SUCCESS)
    ensures w.Exited? ==> code == w.code
  {
    if w.Exited? then w.code else EXIT_FAILURE
  }

  /** Hostname, root, working directory and /proc: the state after them and whether all succeeded. */
  function PrepareSpec(s: EnvState, args: ContainerArgs, o: Event -> bool): (EnvState, bool)
  {
    var (s1, ok1) := Run(s, SetHostname(args.hostname), o);
    if !ok1 then (s1, false) else
    var (s2, ok2) := Run(s1, Chroot(args.rootfs), o);
    if !ok2 then (s2, false) else
    var (s3, ok3) := Run(s2, Chdir("/"), o);
    if !ok3 then (s3, false) else
    Run(s3, MountProc, o)
  }

  /** What follows a successful mount: the fork, the child's exec, the parent's wait and unmount. */
  function SuperviseSpec(s: EnvState, argv: seq<string>, o: Event -> bool, commandStatus: WaitStatus)
    : (EnvState, int)
  {
    var (s1, forked) := Run(s, Fork, o);
    if !forked then (Run(s1, Umount(Supervisor), o).0, EXIT_FAILURE) else
    // the child: exec the command; if that fails, unmount and return EXIT_FAILURE
    var (s2, execOk) := Run(s1, Exec(argv), o);
    var s3 := if execOk then s2 else Run(s2, Umount(Shell), o).0;
    var childStatus := if execOk then commandStatus else Exited(EXIT_FAILURE);
    // the parent: wait for the child, unmount, report how the child ended
    var s4 := Run(s3, Wait, o).0;
    var s5 := Run(s4, Umount(Supervisor), o).0;
    (s5, StatusCode(childStatus))
  }

  /** The effect and return value of init_container (in the cloned process), as a function of the old state. */
  function InitContainerSpec(s: EnvState, args: ContainerArgs, o: Event -> bool, commandStatus: WaitStatus)
    : (r: (EnvState, int))
    requires args.command.Some?
    ensures |r.0.events| > |s.events| && r.0.events[..|s.events|] == s.events
    ensures r.0.events[|s.events|] == SetHostname(args.hostname)
    ensures r.1 == EXIT_FAILURE || r.1 == StatusCode(commandStatus)
  {
    var (s1, mounted) := PrepareSpec(s, args, o);
    if !mounted then (s1, EXIT_FAILURE) else SuperviseSpec(s1, args.command.value, o, commandStatus)
  }

  /** The events of a run in which every setup step succeeded. */
  function FullRunEvents(args: ContainerArgs, o: Event -> bool): seq<Event>
    requires args.command.Some?
  {
    SetupPlan(args) + AfterForkEvents(args.command.value, o)
  }

  /** The child's exec (and unmount, if exec failed), then the parent's wait and unmount. */
  function AfterForkEvents(argv: seq<string>, o: Event -> bool): seq<Event>
  {
    [Exec(argv)] + (if o(Exec(argv)) then [] else [Umount(Shell)]) + [Wait, Umount(Supervisor)]
  }

  /**
   * init_container. Its trace and result are those of InitContainerSpec; the
   * lemmas below state what that means.
   */
  method InitContainer(args: ContainerArgs, env: Env, o: Event -> bool, commandStatus: WaitStatus)
    returns (status: int)
    requires args.command.Some?
    modifies env
    ensures (env.State(), status) == InitContainerSpec(old(env.State()), args, o, commandStatus)
  {
    var ok := env.Syscall(SetHostname(args.hostname), o(SetHostname(args.hostname)));
    if !ok {
      return EXIT_FAILURE;
    }
    ok := env.Syscall(Chroot(args.rootfs), o(Chroot(args.rootfs)));
    if !ok {
      return EXIT_FAILURE;
    }
    ok := env.Syscall(Chdir("/"), o(Chdir("/")));
    if !ok {
      return EXIT_FAILURE;
    }
    ok := env.Syscall(MountProc, o(MountProc));
    if !ok {
      return EXIT_FAILURE;
    }
    ok := env.Syscall(Fork, o(Fork));
    if !ok {
      var _ := env.Syscall(Umount(Supervisor), o(Umount(Supervisor)));
      return EXIT_FAILURE;
    }
    // child
    var argv := args.command.value;
    var execOk := env.Syscall(Exec(argv), o(Exec(argv)));
    var childStatus := commandStatus;
    if !execOk {
      var _ := env.Syscall(Umount(Shell), o(Umount(Shell)));
      childStatus := Exited(EXIT_FAILURE);
    }
    // parent
    var _ := env.Syscall(Wait, o(Wait));
    var _ := env.Syscall(Umount(Supervisor), o(Umount(Supervisor)));
    status := StatusCode(childStatus);
  }

  /**
   * Setup short-circuits: when step k of sethostname, chroot, chdir, mount,
   * fork is the first to fail, exactly steps 0..k ran, then (only after a
   * successful mount, i.e. when fork failed) one unmount; the result is
   * EXIT_FAILURE.
   */
  lemma SetupShortCircuit(s: EnvState, args: ContainerArgs, o: Event -> bool, commandStatus: WaitStatus, k: nat)
    requires args.command.Some?
    requires k < 5 && !o(SetupPlan(args)[k])
    requires forall j :: 0 <= j < k ==> o(SetupPlan(args)[j])
    ensures var r := InitContainerSpec(s, args, o, commandStatus);
            r.1 == EXIT_FAILURE &&
            r.0.events == s.events + SetupPlan(args)[..k + 1] + (if k == 4 then [Umount(Supervisor)] else [])
  {
    var plan := SetupPlan(args);
    if k < 4 {
      PrepareFails(s, args, o, k);
    } else {
      PrepareSucceeds(s, args, o);
      assert plan[..5] == plan[..4] + [Fork];
    }
  }

  /** A setup step before the fork that fails first ends the preparation after it. */
  lemma PrepareFails(s: EnvState, args: ContainerArgs, o: Event -> bool, k: nat)
    requires k < 4 && !o(SetupPlan(args)[k])
    requires forall j :: 0 <= j < k ==> o(SetupPlan(args)[j])
    ensures !PrepareSpec(s, args, o).1 && PrepareSpec(s, args, o).0.events == s.events + SetupPlan(args)[..k + 1]
  {
    var plan := SetupPlan(args);
    if k == 0 {
      assert plan[..1] == [plan[0]];
    } else if k == 1 {
      assert o(plan[0]);
      assert plan[..2] == [plan[0], plan[1]];
    } else if k == 2 {
      assert o(plan[0]) && o(plan[1]);
      assert plan[..3] == [plan[0], plan[1], plan[2]];
    } else {
      assert o(plan[0]) && o(plan[1]) && o(plan[2]);
      assert plan[..4] == [plan[0], plan[1], plan[2], plan[3]];
    }
  }

  /** When every setup step succeeds, the child execs, the parent waits and unmounts, and the result is the child's. */
  lemma FullRun(s: EnvState, args: ContainerArgs, o: Event -> bool, commandStatus: WaitStatus)
    requires args.command.Some?
    requires forall j :: 0 <= j < 5 ==> o(SetupPlan(args)[j])
    ensures var r := InitContainerSpec(s, args, o, commandStatus);
            r.0.events == s.events + FullRunEvents(args, o) &&
            r.1 == (if o(Exec(args.command.value)) then StatusCode(commandStatus) else EXIT_FAILURE)
  {
    var plan := SetupPlan(args);
    assert o(plan[0]) && o(plan[1]) && o(plan[2]) && o(plan[3]) && o(plan[4]);
    PrepareSucceeds(s, args, o);
    var s1 := PrepareSpec(s, args, o).0;
    var argv := args.command.value;
    assert InitContainerSpec(s, args, o, commandStatus) == SuperviseSpec(s1, argv, o, commandStatus);
    SuperviseFull(s1, argv, o, commandStatus);
    AppendLast(s.events, plan[..4], Fork, AfterForkEvents(argv, o));
    assert plan[..4] + [Fork] == plan;
  }

  lemma AppendLast<T>(a: seq<T>, b: seq<T>, x: T, c: seq<T>)
    ensures a + b + [x] + c == a + (b + [x] + c)
  {
  }

  /** After a successful fork: exec, an unmount by the child if exec failed, then wait and unmount by the parent. */
  lemma SuperviseFull(s: EnvState, argv: seq<string>, o: Event -> bool, commandStatus: WaitStatus)
    requires o(Fork)
    ensures var r := SuperviseSpec(s, argv, o, commandStatus);
            r.0.events == s.events + [Fork] + AfterForkEvents(argv, o) &&
            r.1 == (if o(Exec(argv)) then StatusCode(commandStatus) else EXIT_FAILURE)
  {
  }

  lemma PrepareSucceeds(s: EnvState, args: ContainerArgs, o: Event -> bool)
    requires forall j :: 0 <= j < 4 ==> o(SetupPlan(args)[j])
    ensures PrepareSpec(s, args, o)
         == (s.(hostname := args.hostname, root := Resolve(s.cwd, args.rootfs), cwd := "/", procMounted := true,
                events := s.events + SetupPlan(args)[..4]), true)
  {
    var plan := SetupPlan(args);
    assert o(plan[0]) && o(plan[1]) && o(plan[2]) && o(plan[3]);
    assert s.events + [plan[0]] + [plan[1]] + [plan[2]] + [plan[3]] == s.events + plan[..4];
  }

  /** The numbers of unmount attempts by each process in a trace. */
  predicate UnmountsAre(tail: seq<Event>, bySupervisor: nat, byShell: nat)
  {
    Count(tail, Umount(Supervisor)) == bySupervisor && Count(tail, Umount(Shell)) == byShell
  }

  /**
   * umount2 is attempted only after /proc was mounted, and then exactly once
   * by the cloned process, plus once by the child when its exec failed.
   */
  lemma UnmountObligations(s: EnvState, args: ContainerArgs, o: Event -> bool, commandStatus: WaitStatus)
    requires args.command.Some?
    ensures var mounted := o(SetHostname(args.hostname)) && o(Chroot(args.rootfs)) && o(Chdir("/")) && o(MountProc);
            exists tail :: InitContainerSpec(s, args, o, commandStatus).0.events == s.events + tail &&
              UnmountsAre(tail, if mounted then 1 else 0,
                          if mounted && o(Fork) && !o(Exec(args.command.value)) then 1 else 0)
  {
    var plan := SetupPlan(args);
    var k: nat := if !o(plan[0]) then 0 else if !o(plan[1]) then 1 else if !o(plan[2]) then 2
                  else if !o(plan[3]) then 3 else if !o(plan[4]) then 4 else 5;
    if k < 5 {
      EarlyFailureUnmounts(s, args, o, commandStatus, k);
    } else {
      FullRunUnmounts(s, args, o, commandStatus);
    }
  }

  lemma EarlyFailureUnmounts(s: EnvState, args: ContainerArgs, o: Event -> bool, commandStatus: WaitStatus, k: nat)
    requires args.command.Some?
    requires k < 5 && !o(SetupPlan(args)[k])
    requires forall j :: 0 <= j < k ==> o(SetupPlan(args)[j])
    ensures exists tail :: InitContainerSpec(s, args, o, commandStatus).0.events == s.events + tail &&
              UnmountsAre(tail, if k == 4 then 1 else 0, 0)
  {
    SetupShortCircuit(s, args, o, commandStatus, k);
    var tail := SetupPlan(args)[..k + 1] + (if k == 4 then [Umount(Supervisor)] else []);
    EarlyEventsUnmounts(args, k);
    assert InitContainerSpec(s, args, o, commandStatus).0.events == s.events + tail;
  }

  /** A run that stops at setup step k unmounts only when the mount succeeded, and only in the parent. */
  lemma EarlyEventsUnmounts(args: ContainerArgs, k: nat)
    requires k < 5
    ensures UnmountsAre(SetupPlan(args)[..k + 1] + (if k == 4 then [Umount(Supervisor)] else []),
                        if k == 4 then 1 else 0, 0)
  {
    var plan := SetupPlan(args);
    var after: seq<Event> := if k == 4 then [Umount(Supervisor)] else [];
    NoUmountIn(plan[..k + 1]);
    CountAppend(plan[..k + 1], after, Umount(Supervisor));
    CountAppend(plan[..k + 1], after, Umount(Shell));
  }

  lemma FullRunUnmounts(s: EnvState, args: ContainerArgs, o: Event -> bool, commandStatus: WaitStatus)
    requires args.command.Some?
    requires forall j :: 0 <= j < 5 ==> o(SetupPlan(args)[j])
    ensures exists tail :: InitContainerSpec(s, args, o, commandStatus).0.events == s.events + tail &&
              UnmountsAre(tail, 1, if o(Exec(args.command.value)) then 0 else 1)
  {
    FullRun(s, args, o, commandStatus);
    FullRunEventsUnmounts(args, o);
    var tail := FullRunEvents(args, o);
    assert InitContainerSpec(s, args, o, commandStatus).0.events == s.events + tail;
  }

  /** A full run unmounts once in the parent, and once more in the child when exec failed. */
  lemma FullRunEventsUnmounts(args: ContainerArgs, o: Event -> bool)
    requires args.command.Some?
    ensures UnmountsAre(FullRunEvents(args, o), 1, if o(Exec(args.command.value)) then 0 else 1)
  {
    var plan := SetupPlan(args);
    var argv := args.command.value;
    var mid: seq<Event> := if o(Exec(argv)) then [] else [Umount(Shell)];
    var tail := FullRunEvents(args, o);
    assert tail == plan + ([Exec(argv)] + mid) + [Wait, Umount(Supervisor)];
    NoUmountIn(plan);
    CountAppend(plan + ([Exec(argv)] + mid), [Wait, Umount(Supervisor)], Umount(Supervisor));
    CountAppend(plan + ([Exec(argv)] + mid), [Wait, Umount(Supervisor)], Umount(Shell));
    CountAppend(plan, [Exec(argv)] + mid, Umount(Supervisor));
    CountAppend(plan, [Exec(argv)] + mid, Umount(Shell));
  }

  lemma NoUmountIn(events: seq<Event>)
    requires forall i :: 0 <= i < |events| ==> !events[i].Umount?
    ensures Count(events, Umount(Supervisor)) == 0 && Count(events, Umount(Shell)) == 0
  {
  }

  /** Whether an unmount succeeds is only reported: it never changes what init_container returns. */
  lemma UnmountOutcomeIgnored(s: EnvState, args: ContainerArgs, o: Event -> bool, o': Event -> bool,
                              commandStatus: WaitStatus)
    requires args.command.Some?
    requires forall e: Event :: !e.Umount? ==> o(e) == o'(e)
    ensures InitContainerSpec(s, args, o, commandStatus).1 == InitContainerSpec(s, args, o', commandStatus).1
  {
  }

  /** After a successful setup the hostname is the configured one, the root is the configured rootfs and the working directory is the new root. */
  lemma SetupEffects(s: EnvState, args: ContainerArgs, o: Event -> bool, commandStatus: WaitStatus)
    requires args.command.Some?
    requires forall j :: 0 <= j < 5 ==> o(SetupPlan(args)[j])
    ensures var r := InitContainerSpec(s, args, o, commandStatus);
            r.0.hostname == args.hostname && r.0.root == Resolve(s.cwd, args.rootfs) && r.0.cwd == "/"
  {
    PrepareSucceeds(s, args, o);
    SuperviseKeepsView(PrepareSpec(s, args, o).0, args.command.value, o, commandStatus);
  }

  /** The fork, exec, wait and unmounts change neither hostname, root nor working directory. */
  lemma SuperviseKeepsView(s: EnvState, argv: seq<string>, o: Event -> bool, commandStatus: WaitStatus)
    ensures var r := SuperviseSpec(s, argv, o, commandStatus).0;
            r.hostname == s.hostname && r.root == s.root && r.cwd == s.cwd
  {
  }
}
