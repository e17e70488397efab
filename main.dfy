/**
 * main of src/main.c: parse argv, clone the container process, put it into
 * the cgroup "tinydocker-<hostname>", wait for it, remove the cgroup. The
 * cloned process runs init_container (MainContainer) concurrently; its side of
 * the run is not part of this sequence.
 */
module TinyDocker {
  import opened Config
  import opened Host
  import opened Cgroup
  import opened MainArgs
  import opened MainCgroup

  const GroupPrefix: string := "tinydocker-"

  /** The cgroup name of a container: "tinydocker-<hostname>". */
  function GroupName(hostname: string): (name: string)
    ensures |name| == |GroupPrefix| + |hostname|
    ensures name[..|GroupPrefix|] == "tinydocker-" && name[|GroupPrefix|..] == hostname
  {
    GroupPrefix + hostname
  }

  /** Containers with different hostnames get different cgroups. */
  lemma GroupNameInjective(hostname1: string, hostname2: string)
    requires GroupName(hostname1) == GroupName(hostname2)
    ensures hostname1 == hostname2
  {
    assert hostname1 == GroupName(hostname1)[|GroupPrefix|..];
    assert hostname2 == GroupName(hostname2)[|GroupPrefix|..];
  }

  /** How each host call main makes turns out, where the host state does not decide it. */
  datatype MainOracle = MainOracle(cloneOk: bool, childPid: int, cgroup: CgroupOracle, waitOk: bool,
                                   rmdirPermitted: bool)

  /** The effect of main on the host and its exit status. */
  function MainSpec(s: HostState, argv: seq<string>, atoi: string -> int, atol: string -> int, o: MainOracle)
    : (r: (HostState, int))
    ensures r.1 == EXIT_SUCCESS || r.1 == EXIT_FAILURE
    ensures |r.0.calls| >= |s.calls| && r.0.calls[..|s.calls|] == s.calls
    ensures |r.0.calls| == |s.calls| <==> ScanFrom(argv, 1, DefaultArgs, atoi, atol).UsageError?
  {
    match ScanFrom(argv, 1, DefaultArgs, atoi, atol)
    case UsageError => (s, EXIT_FAILURE)
    case Parsed(args) =>
      var s1 := s.(calls := s.calls + [CloneCall]);
      if !o.cloneOk then (s1, EXIT_FAILURE) else
      var groupName := GroupName(args.hostname);
      InitCgroupExtendsCalls(s1, o.childPid, groupName, args.maxCpus, args.maxMemory, o.cgroup);
      var (s2, st) := InitCgroupSpec(s1, o.childPid, groupName, args.maxCpus, args.maxMemory, o.cgroup);
      if st == EXIT_FAILURE then (s2, EXIT_FAILURE) else
      var s3 := s2.(calls := s2.calls + [WaitpidCall(o.childPid)]);
      if !o.waitOk then (s3, EXIT_FAILURE) else
      (DestroySpec(s3, CgroupPath(groupName), o.rmdirPermitted).0, EXIT_SUCCESS)
  }

  /** main. */
  method RunMain(argv: seq<string>, atoi: string -> int, atol: string -> int, host: Host, o: MainOracle)
    returns (exitCode: int)
    requires o.childPid > 0
    modifies host
    ensures (host.State(), exitCode) == MainSpec(old(host.State()), argv, atoi, atol, o)
  {
    var parsed := ScanArgv(argv, atoi, atol);
    if parsed.UsageError? {
      return EXIT_FAILURE;
    }
    var args := parsed.args;
    var pid := host.Clone(o.cloneOk, o.childPid);
    if pid == -1 {
      return EXIT_FAILURE;
    }
    var groupName := GroupName(args.hostname);
    var status := InitCgroup(pid, groupName, args.maxCpus, args.maxMemory, host, o.cgroup);
    if status == EXIT_FAILURE {
      return EXIT_FAILURE;
    }
    var waited := host.Waitpid(pid, o.waitOk);
    if waited == -1 {
      return EXIT_FAILURE;
    }
    var _ := DestroyCgroup(groupName, host, o.rmdirPermitted);
    return EXIT_SUCCESS;
  }

  /** A usage error exits with EXIT_FAILURE before any host call. */
  lemma UsageErrorMakesNoCall(s: HostState, argv: seq<string>, atoi: string -> int, atol: string -> int, o: MainOracle)
    requires ScanFrom(argv, 1, DefaultArgs, atoi, atol) == UsageError
    ensures MainSpec(s, argv, atoi, atol, o) == (s, EXIT_FAILURE)
  {
  }

  /**
   * main exits with EXIT_SUCCESS exactly when argv parses, clone succeeds,
   * every step of init_cgroup succeeds and waitpid succeeds; whether the
   * cgroup could be removed afterwards has no say.
   */
  lemma MainExitStatus(s: HostState, argv: seq<string>, atoi: string -> int, atol: string -> int, o: MainOracle)
    ensures var r := MainSpec(s, argv, atoi, atol, o);
            r.1 == EXIT_SUCCESS || r.1 == EXIT_FAILURE
    ensures var r := MainSpec(s, argv, atoi, atol, o);
            var scan := ScanFrom(argv, 1, DefaultArgs, atoi, atol);
            r.1 == EXIT_SUCCESS <==>
              scan.Parsed? && o.cloneOk &&
              (CgroupPath(GroupName(scan.args.hostname)) in s.dirs || o.cgroup.mkdirPermitted) &&
              o.cgroup.cpuWrite == Written && o.cgroup.memoryWrite == Written && o.cgroup.procsWrite == Written &&
              o.waitOk
  {
  }

  /**
   * The host calls of main, once argv parsed and clone succeeded: init_cgroup's
   * calls up to its first failure; only when all of them succeeded, waitpid;
   * only when that succeeded too, the rmdir of the group, as the last call.
   */
  lemma MainCallOrder(s: HostState, argv: seq<string>, atoi: string -> int, atol: string -> int, o: MainOracle,
                      args: ContainerArgs, k: nat)
    requires ScanFrom(argv, 1, DefaultArgs, atoi, atol) == Parsed(args) && o.cloneOk
    requires k <= 4
    requires forall j :: 0 <= j < k ==> InitCgroupOks(s, GroupName(args.hostname), o.cgroup)[j]
    requires k < 4 ==> !InitCgroupOks(s, GroupName(args.hostname), o.cgroup)[k]
    ensures var r := MainSpec(s, argv, atoi, atol, o);
            var groupName := GroupName(args.hostname);
            var plan := InitCgroupPlan(o.childPid, groupName, args.maxCpus, args.maxMemory);
            r.0.calls == s.calls + [CloneCall] + plan[..if k < 4 then k + 1 else 4]
                         + (if k < 4 then [] else [WaitpidCall(o.childPid)])
                         + (if k < 4 || !o.waitOk then [] else [RmdirCall(CgroupPath(groupName))])
  {
    var s1 := s.(calls := s.calls + [CloneCall]);
    var groupName := GroupName(args.hostname);
    assert InitCgroupOks(s1, groupName, o.cgroup) == InitCgroupOks(s, groupName, o.cgroup);
    InitCgroupShortCircuit(s1, o.childPid, groupName, args.maxCpus, args.maxMemory, o.cgroup, k);
  }

  /** A failed clone ends main after that one call. */
  lemma CloneFailureEndsMain(s: HostState, argv: seq<string>, atoi: string -> int, atol: string -> int, o: MainOracle)
    requires ScanFrom(argv, 1, DefaultArgs, atoi, atol).Parsed? && !o.cloneOk
    ensures MainSpec(s, argv, atoi, atol, o) == (s.(calls := s.calls + [CloneCall]), EXIT_FAILURE)
  {
  }

  /**
   * A successful run leaves no cgroup directory behind unless the kernel
   * refused to remove it; no other directory is touched.
   */
  lemma MainCleansUp(s: HostState, argv: seq<string>, atoi: string -> int, atol: string -> int, o: MainOracle)
    requires MainSpec(s, argv, atoi, atol, o).1 == EXIT_SUCCESS
    ensures var r := MainSpec(s, argv, atoi, atol, o).0;
            var dir := CgroupPath(GroupName(ScanFrom(argv, 1, DefaultArgs, atoi, atol).args.hostname));
            (dir in r.dirs <==> !o.rmdirPermitted) &&
            r.dirs - {dir} == s.dirs - {dir}
  {
    var args := ScanFrom(argv, 1, DefaultArgs, atoi, atol).args;
    var s1 := s.(calls := s.calls + [CloneCall]);
    InitCgroupEffects(s1, o.childPid, GroupName(args.hostname), args.maxCpus, args.maxMemory, o.cgroup);
  }
}
