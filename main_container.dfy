/**
 * init_container of src/main.c, the variant the tinydocker binary clones
 * into. It differs from src/container/container.c: it enters the root with
 * chdir(rootfs) then chroot("."), attempts mkdir("/proc") and ignores the
 * result, does not unmount /proc when fork fails, lets an exec failure end
 * the child without unmounting, and returns EXIT_SUCCESS after the child
 * whatever the child's status, unless the final umount2 fails.
 */
module MainContainer {
  import opened Config
  import opened Container

  /** The steps before /proc is mounted, in order, each stopping the run when it fails. */
  function MainSetupPlan(args: ContainerArgs): seq<Event>
  {
    [SetHostname(args.hostname), Chdir(args.rootfs), Chroot("."), Chdir("/")]
  }

  /** The four setup steps: the state after them and whether all succeeded. */
  function MainSetupSpec(s: EnvState, args: ContainerArgs, o: Event -> bool): (EnvState, bool)
  {
    var (s1, ok1) := Run(s, SetHostname(args.hostname), o);
    if !ok1 then (s1, false) else
    var (s2, ok2) := Run(s1, Chdir(args.rootfs), o);
    if !ok2 then (s2, false) else
    var (s3, ok3) := Run(s2, Chroot("."), o);
    if !ok3 then (s3, false) else
    Run(s3, Chdir("/"), o)
  }

  /** What follows a successful setup: /proc, the fork, the child's exec, the parent's wait and unmount. */
  function MainRunSpec(s: EnvState, argv: seq<string>, o: Event -> bool): (EnvState, int)
  {
    var s1 := Run(s, MkdirProc, o).0;
    var (s2, mounted) := Run(s1, MountProc, o);
    if !mounted then (s2, EXIT_FAILURE) else
    var (s3, forked) := Run(s2, Fork, o);
    if !forked then (s3, EXIT_FAILURE) else
    // the child: exec the command, or exit(EXIT_FAILURE), which the parent never reads
    var s4 := Run(s3, Exec(argv), o).0;
    // the parent: wait for the child, then unmount
    var s5 := Run(s4, Wait, o).0;
    var (s6, unmounted) := Run(s5, Umount(Supervisor), o);
    (s6, if unmounted then EXIT_SUCCESS else EXIT_FAILURE)
  }

  /** The effect and return value of main.c's init_container. */
  function MainInitContainerSpec(s: EnvState, args: ContainerArgs, o: Event -> bool): (r: (EnvState, int))
    requires args.command.Some?
    ensures |r.0.events| > |s.events| && r.0.events[..|s.events|] == s.events
    ensures r.0.events[|s.events|] == SetHostname(args.hostname)
    ensures r.1 == EXIT_SUCCESS || r.1 == EXIT_FAILURE
  {
    var (s1, ready) := MainSetupSpec(s, args, o);
    if !ready then (s1, EXIT_FAILURE) else MainRunSpec(s1, args.command.value, o)
  }

  /** main.c's init_container. */
  method MainInitContainer(args: ContainerArgs, env: Env, o: Event -> bool) returns (status: int)
    requires args.command.Some?
    modifies env
    ensures (env.State(), status) == MainInitContainerSpec(old(env.State()), args, o)
  {
    var ok := env.Syscall(SetHostname(args.hostname), o(SetHostname(args.hostname)));
    if !ok {
      return EXIT_FAILURE;
    }
    ok := env.Syscall(Chdir(args.rootfs), o(Chdir(args.rootfs)));
    if ok {
      ok := env.Syscall(Chroot("."), o(Chroot(".")));
    }
    if !ok {
      return EXIT_FAILURE;
    }
    ok := env.Syscall(Chdir("/"), o(Chdir("/")));
    if !ok {
      return EXIT_FAILURE;
    }
    var _ := env.Syscall(MkdirProc, o(MkdirProc));
    ok := env.Syscall(MountProc, o(MountProc));
    if !ok {
      return EXIT_FAILURE;
    }
    ok := env.Syscall(Fork, o(Fork));
    if !ok {
      return EXIT_FAILURE;
    }
    // child
    var argv := args.command.value;
    var _ := env.Syscall(Exec(argv), o(Exec(argv)));
    // parent
    var _ := env.Syscall(Wait, o(Wait));
    ok := env.Syscall(Umount(Supervisor), o(Umount(Supervisor)));
    if !ok {
      return EXIT_FAILURE;
    }
    return EXIT_SUCCESS;
  }

  /**
   * When step k of sethostname, chdir(rootfs), chroot("."), chdir("/") is
   * the first to fail, exactly steps 0..k ran, nothing was mounted and the
   * result is EXIT_FAILURE.
   */
  lemma MainSetupShortCircuit(s: EnvState, args: ContainerArgs, o: Event -> bool, k: nat)
    requires args.command.Some?
    requires k < 4 && !o(MainSetupPlan(args)[k])
    requires forall j :: 0 <= j < k ==> o(MainSetupPlan(args)[j])
    ensures var r := MainInitContainerSpec(s, args, o);
            r.1 == EXIT_FAILURE && r.0.events == s.events + MainSetupPlan(args)[..k + 1] &&
            r.0.procMounted == s.procMounted
  {
    var plan := MainSetupPlan(args);
    if k == 0 {
      assert plan[..1] == [plan[0]];
    } else if k == 1 {
      assert o(plan[0]);
      assert plan[..2] == [plan[0], plan[1]];
    } else if k == 2 {
      assert o(plan[0]) && o(plan[1]);
      assert plan[..3] == [plan[0], plan[1], plan[2]];
    } else {
      assert o(plan[0]) && o(plan[1]) && o(plan[2]);
      assert plan[..4] == plan;
    }
  }

  /**
   * The result is EXIT_SUCCESS exactly when every setup step, the mount, the
   * fork and the final umount2 succeeded: neither the mkdir of /proc nor the
   * command (its exec or its exit status) has any say.
   */
  lemma MainInitStatus(s: EnvState, args: ContainerArgs, o: Event -> bool)
    requires args.command.Some?
    ensures MainInitContainerSpec(s, args, o).1 == EXIT_SUCCESS <==>
              (forall j :: 0 <= j < 4 ==> o(MainSetupPlan(args)[j])) &&
              o(MountProc) && o(Fork) && o(Umount(Supervisor))
    ensures MainInitContainerSpec(s, args, o).1 == EXIT_SUCCESS || MainInitContainerSpec(s, args, o).1 == EXIT_FAILURE
  {
    var plan := MainSetupPlan(args);
    if o(plan[0]) && o(plan[1]) && o(plan[2]) && o(plan[3]) {
      assert forall j :: 0 <= j < 4 ==> o(plan[j]);
      MainSetupSucceeds(s, args, o);
      MainRunStatus(MainSetupSpec(s, args, o).0, args.command.value, o);
    } else {
      assert !MainSetupSpec(s, args, o).1;
    }
  }

  lemma MainRunStatus(s: EnvState, argv: seq<string>, o: Event -> bool)
    ensures MainRunSpec(s, argv, o).1 == EXIT_SUCCESS <==> o(MountProc) && o(Fork) && o(Umount(Supervisor))
    ensures MainRunSpec(s, argv, o).1 == EXIT_SUCCESS || MainRunSpec(s, argv, o).1 == EXIT_FAILURE
  {
  }

  /** Two kernels that differ only on mkdir("/proc") and on exec give the same run. */
  lemma MainInitIgnoresMkdirAndExec(s: EnvState, args: ContainerArgs, o: Event -> bool, o': Event -> bool)
    requires args.command.Some?
    requires forall e: Event :: !e.MkdirProc? && !e.Exec? ==> o(e) == o'(e)
    ensures MainInitContainerSpec(s, args, o).1 == MainInitContainerSpec(s, args, o').1
    ensures MainInitContainerSpec(s, args, o).0.events == MainInitContainerSpec(s, args, o').0.events
  {
    assert o(SetHostname(args.hostname)) == o'(SetHostname(args.hostname));
    assert o(Chdir(args.rootfs)) == o'(Chdir(args.rootfs));
    assert o(Chroot(".")) == o'(Chroot("."));
    assert o(Chdir("/")) == o'(Chdir("/"));
    assert MainSetupSpec(s, args, o) == MainSetupSpec(s, args, o');
    MainRunIgnoresMkdirAndExec(MainSetupSpec(s, args, o).0, args.command.value, o, o');
  }

  lemma MainRunIgnoresMkdirAndExec(s: EnvState, argv: seq<string>, o: Event -> bool, o': Event -> bool)
    requires forall e: Event :: !e.MkdirProc? && !e.Exec? ==> o(e) == o'(e)
    ensures MainRunSpec(s, argv, o).1 == MainRunSpec(s, argv, o').1
    ensures MainRunSpec(s, argv, o).0.events == MainRunSpec(s, argv, o').0.events
  {
    assert o(MountProc) == o'(MountProc) && o(Fork) == o'(Fork);
    assert o(Wait) == o'(Wait) && o(Umount(Supervisor)) == o'(Umount(Supervisor));
    assert Run(s, MkdirProc, o).0 == Run(s, MkdirProc, o').0;
  }

  /**
   * After the four setup steps the hostname is the configured one, the root
   * is the configured rootfs (chroot(".") after chdir(rootfs)) and the
   * working directory is the new root.
   */
  lemma MainSetupEffects(s: EnvState, args: ContainerArgs, o: Event -> bool)
    requires args.command.Some?
    requires forall j :: 0 <= j < 4 ==> o(MainSetupPlan(args)[j])
    ensures var r := MainInitContainerSpec(s, args, o).0;
            r.hostname == args.hostname && r.root == args.rootfs && r.cwd == "/"
  {
    MainSetupSucceeds(s, args, o);
    MainRunKeepsView(MainSetupSpec(s, args, o).0, args.command.value, o);
  }

  /** Mounting, forking, exec, wait and unmount change neither hostname, root nor working directory. */
  lemma MainRunKeepsView(s: EnvState, argv: seq<string>, o: Event -> bool)
    ensures var r := MainRunSpec(s, argv, o).0;
            r.hostname == s.hostname && r.root == s.root && r.cwd == s.cwd
  {
  }

  /**
   * Once /proc is mounted, a failed fork returns EXIT_FAILURE with /proc
   * still mounted and no unmount attempted (container.c unmounts here).
   */
  lemma MainForkFailureKeepsProc(s: EnvState, args: ContainerArgs, o: Event -> bool)
    requires args.command.Some?
    requires forall j :: 0 <= j < 4 ==> o(MainSetupPlan(args)[j])
    requires o(MountProc) && !o(Fork)
    ensures var r := MainInitContainerSpec(s, args, o);
            r.1 == EXIT_FAILURE && r.0.procMounted &&
            r.0.events == s.events + MainSetupPlan(args) + [MkdirProc, MountProc, Fork]
  {
    MainSetupSucceeds(s, args, o);
  }

  /**
   * When setup, mount and fork succeed: the child execs, the parent waits,
   * then unmounts once; /proc stays mounted exactly when that unmount fails.
   */
  lemma MainFullRun(s: EnvState, args: ContainerArgs, o: Event -> bool)
    requires args.command.Some?
    requires forall j :: 0 <= j < 4 ==> o(MainSetupPlan(args)[j])
    requires o(MountProc) && o(Fork)
    ensures var r := MainInitContainerSpec(s, args, o);
            r.0.events == s.events + MainSetupPlan(args)
                          + [MkdirProc, MountProc, Fork, Exec(args.command.value), Wait, Umount(Supervisor)] &&
            r.0.procMounted == !o(Umount(Supervisor))
  {
    MainSetupSucceeds(s, args, o);
    var s1 := MainSetupSpec(s, args, o).0;
    MainRunFull(s1, args.command.value, o);
  }

  lemma MainRunFull(s: EnvState, argv: seq<string>, o: Event -> bool)
    requires o(MountProc) && o(Fork)
    ensures var r := MainRunSpec(s, argv, o);
            r.0.events == s.events + [MkdirProc, MountProc, Fork, Exec(argv), Wait, Umount(Supervisor)] &&
            r.0.procMounted == !o(Umount(Supervisor))
  {
  }

  lemma MainSetupSucceeds(s: EnvState, args: ContainerArgs, o: Event -> bool)
    requires forall j :: 0 <= j < 4 ==> o(MainSetupPlan(args)[j])
    ensures MainSetupSpec(s, args, o)
         == (s.(hostname := args.hostname, root := args.rootfs, cwd := "/", events := s.events + MainSetupPlan(args)), true)
  {
    var plan := MainSetupPlan(args);
    assert o(plan[0]) && o(plan[1]) && o(plan[2]) && o(plan[3]);
    assert s.events + [plan[0]] + [plan[1]] + [plan[2]] + [plan[3]] == s.events + plan;
  }
}
