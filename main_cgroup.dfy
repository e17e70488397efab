/**
 * init_cgroup and destroy_cgroup of src/main.c: the supervisor's own cgroup
 * set-up, written out in one function rather than through the CGroup record
 * of src/cgroup/cgroup.c, with the same files and formats.
 */
module MainCgroup {
  import opened Wrappers
  import opened Config
  import opened Decimal
  import opened Host
  import opened Cgroup

  /** "/sys/fs/cgroup/<group_name>". */
  function CgroupPath(groupName: string): (path: string)
    ensures path == GroupPath(groupName)
  {
    "/sys/fs/cgroup/" + groupName
  }

  /** How each host call of init_cgroup turns out, where the host state does not decide it. */
  datatype CgroupOracle = CgroupOracle(mkdirPermitted: bool, cpuWrite: WriteOutcome,
                                       memoryWrite: WriteOutcome, procsWrite: WriteOutcome)

  /** The host calls of init_cgroup in order; each runs only if the ones before it succeeded. */
  function InitCgroupPlan(pid: int, groupName: string, maxCpus: int, maxMemory: int): seq<Call>
  {
    var dir := CgroupPath(groupName);
    [MkdirCall(dir), WriteCall(CpuMaxPath(dir), CpuMaxText(maxCpus)),
     WriteCall(MemoryMaxPath(dir), MemoryMaxText(maxMemory)), WriteCall(ProcsPath(dir), ProcsText(pid))]
  }

  /** Which of those calls succeed: mkdir when the directory exists already or the kernel permits it. */
  function InitCgroupOks(s: HostState, groupName: string, o: CgroupOracle): seq<bool>
  {
    [CgroupPath(groupName) in s.dirs || o.mkdirPermitted,
     o.cpuWrite == Written, o.memoryWrite == Written, o.procsWrite == Written]
  }

  /** The effect and return value of init_cgroup. */
  function InitCgroupSpec(s: HostState, pid: int, groupName: string, maxCpus: int, maxMemory: int, o: CgroupOracle)
    : (r: (HostState, int))
    ensures r.1 == EXIT_SUCCESS || r.1 == EXIT_FAILURE
    ensures r.1 == EXIT_SUCCESS <==>
              (CgroupPath(groupName) in s.dirs || o.mkdirPermitted) &&
              o.cpuWrite == Written && o.memoryWrite == Written && o.procsWrite == Written
  {
    var dir := CgroupPath(groupName);
    var (s1, made) := MkdirSpec(s, dir, o.mkdirPermitted);
    if made.Failure? && made.errno != EEXIST then (s1, EXIT_FAILURE) else
    var (s2, cpu) := WriteSpec(s1, CpuMaxPath(dir), CpuMaxText(maxCpus), o.cpuWrite);
    if cpu == EXIT_FAILURE then (s2, EXIT_FAILURE) else
    var (s3, memory) := WriteSpec(s2, MemoryMaxPath(dir), MemoryMaxText(maxMemory), o.memoryWrite);
    if memory == EXIT_FAILURE then (s3, EXIT_FAILURE) else
    var (s4, procs) := WriteSpec(s3, ProcsPath(dir), ProcsText(pid), o.procsWrite);
    if procs == EXIT_FAILURE then (s4, EXIT_FAILURE) else (s4, EXIT_SUCCESS)
  }

  /**
   * init_cgroup short-circuits: when call k of mkdir, cpu.max, memory.max,
   * cgroup.procs is the first to fail (k == 4: none fails), exactly the calls
   * up to and including it are made, and the result is EXIT_SUCCESS only when
   * none failed. In particular the pid is written to cgroup.procs only after
   * both limits were.
   */
  lemma InitCgroupShortCircuit(s: HostState, pid: int, groupName: string, maxCpus: int, maxMemory: int,
                               o: CgroupOracle, k: nat)
    requires k <= 4
    requires forall j :: 0 <= j < k ==> InitCgroupOks(s, groupName, o)[j]
    requires k < 4 ==> !InitCgroupOks(s, groupName, o)[k]
    ensures var r := InitCgroupSpec(s, pid, groupName, maxCpus, maxMemory, o);
            r.0.calls == s.calls + InitCgroupPlan(pid, groupName, maxCpus, maxMemory)[..if k < 4 then k + 1 else 4] &&
            (r.1 == EXIT_SUCCESS <==> k == 4)
  {
    if k < 4 {
      InitCgroupStopsAt(s, pid, groupName, maxCpus, maxMemory, o, k);
    } else {
      InitCgroupRunsAll(s, pid, groupName, maxCpus, maxMemory, o);
    }
  }

  lemma InitCgroupStopsAt(s: HostState, pid: int, groupName: string, maxCpus: int, maxMemory: int,
                          o: CgroupOracle, k: nat)
    requires k < 4
    requires forall j :: 0 <= j < k ==> InitCgroupOks(s, groupName, o)[j]
    requires !InitCgroupOks(s, groupName, o)[k]
    ensures var r := InitCgroupSpec(s, pid, groupName, maxCpus, maxMemory, o);
            r.0.calls == s.calls + InitCgroupPlan(pid, groupName, maxCpus, maxMemory)[..k + 1] && r.1 == EXIT_FAILURE
  {
    var plan := InitCgroupPlan(pid, groupName, maxCpus, maxMemory);
    var oks := InitCgroupOks(s, groupName, o);
    if k == 0 {
      assert plan[..1] == [plan[0]];
    } else if k == 1 {
      assert oks[0];
      assert plan[..2] == [plan[0], plan[1]];
    } else if k == 2 {
      assert oks[0] && oks[1];
      assert plan[..3] == [plan[0], plan[1], plan[2]];
    } else {
      assert oks[0] && oks[1] && oks[2];
      assert plan[..4] == plan;
    }
  }

  lemma InitCgroupRunsAll(s: HostState, pid: int, groupName: string, maxCpus: int, maxMemory: int, o: CgroupOracle)
    requires forall j :: 0 <= j < 4 ==> InitCgroupOks(s, groupName, o)[j]
    ensures var r := InitCgroupSpec(s, pid, groupName, maxCpus, maxMemory, o);
            r.0.calls == s.calls + InitCgroupPlan(pid, groupName, maxCpus, maxMemory)[..4] && r.1 == EXIT_SUCCESS
  {
    var plan := InitCgroupPlan(pid, groupName, maxCpus, maxMemory);
    var oks := InitCgroupOks(s, groupName, o);
    assert oks[0] && oks[1] && oks[2] && oks[3];
    assert plan[..4] == plan;
  }

  /** init_cgroup makes at least one call and keeps the calls made before it. */
  lemma InitCgroupExtendsCalls(s: HostState, pid: int, groupName: string, maxCpus: int, maxMemory: int,
                               o: CgroupOracle)
    ensures var r := InitCgroupSpec(s, pid, groupName, maxCpus, maxMemory, o).0;
            |r.calls| > |s.calls| && r.calls[..|s.calls|] == s.calls
  {
    var oks := InitCgroupOks(s, groupName, o);
    var k: nat := if !oks[0] then 0 else if !oks[1] then 1 else if !oks[2] then 2 else if !oks[3] then 3 else 4;
    InitCgroupShortCircuit(s, pid, groupName, maxCpus, maxMemory, o, k);
    var made := InitCgroupPlan(pid, groupName, maxCpus, maxMemory)[..if k < 4 then k + 1 else 4];
    assert (s.calls + made)[..|s.calls|] == s.calls;
  }

  /**
   * After a successful init_cgroup the group directory exists and its three
   * control files hold the cpu limit, the memory limit and the pid; no other
   * file and no other directory changed.
   */
  lemma InitCgroupEffects(s: HostState, pid: int, groupName: string, maxCpus: int, maxMemory: int, o: CgroupOracle)
    requires InitCgroupSpec(s, pid, groupName, maxCpus, maxMemory, o).1 == EXIT_SUCCESS
    ensures var r := InitCgroupSpec(s, pid, groupName, maxCpus, maxMemory, o).0;
            var dir := CgroupPath(groupName);
            r.dirs == s.dirs + {dir} &&
            CpuMaxPath(dir) in r.files && r.files[CpuMaxPath(dir)] == CpuMaxText(maxCpus) &&
            MemoryMaxPath(dir) in r.files && r.files[MemoryMaxPath(dir)] == MemoryMaxText(maxMemory) &&
            ProcsPath(dir) in r.files && r.files[ProcsPath(dir)] == ProcsText(pid) &&
            forall p :: p != CpuMaxPath(dir) && p != MemoryMaxPath(dir) && p != ProcsPath(dir) ==>
              (p in r.files <==> p in s.files) && (p in s.files ==> r.files[p] == s.files[p])
  {
    var oks := InitCgroupOks(s, groupName, o);
    assert oks[0] && oks[1] && oks[2] && oks[3];
    ControlPathsDistinct(CgroupPath(groupName));
  }

  /**
   * The files init_cgroup writes read back as the limits and the pid it was
   * given: cpu.max as the quota for max_cpus whole CPUs per 100000 us period
   * (no quota when max_cpus <= 0), memory.max and cgroup.procs as decimals.
   */
  lemma InitCgroupReadsBack(s: HostState, pid: int, groupName: string, maxCpus: int, maxMemory: int, o: CgroupOracle)
    requires InitCgroupSpec(s, pid, groupName, maxCpus, maxMemory, o).1 == EXIT_SUCCESS
    ensures var r := InitCgroupSpec(s, pid, groupName, maxCpus, maxMemory, o).0;
            var dir := CgroupPath(groupName);
            CpuMaxPath(dir) in r.files && MemoryMaxPath(dir) in r.files && ProcsPath(dir) in r.files &&
            ParseCpuMax(r.files[CpuMaxPath(dir)])
              == Some(CpuMax(if maxCpus > 0 then Some(maxCpus * CpuPeriod) else None, CpuPeriod)) &&
            ParseDecimalLine(r.files[MemoryMaxPath(dir)]) == Some(maxMemory) &&
            ParseDecimalLine(r.files[ProcsPath(dir)]) == Some(pid)
  {
    InitCgroupEffects(s, pid, groupName, maxCpus, maxMemory, o);
    CpuMaxRoundTrip(maxCpus);
    MemoryMaxRoundTrip(maxMemory);
    ProcsRoundTrip(pid);
  }

  /**
   * What cgroup_create, cgroup_apply_limits and cgroup_add_process of
   * src/cgroup/cgroup.c do in sequence, each run only after the one before
   * succeeded.
   */
  function CgroupApiSetup(s: HostState, pid: int, groupName: string, maxCpus: int, maxMemory: int, o: CgroupOracle)
    : (HostState, int)
  {
    var (s1, created) := CreateSpec(s, groupName, o.mkdirPermitted);
    if !created then (s1, EXIT_FAILURE) else
    var (s2, limited) := ApplyLimitsSpec(s1, GroupPath(groupName), maxCpus, maxMemory, o.cpuWrite, o.memoryWrite);
    if limited != EXIT_SUCCESS then (s2, limited) else
    WriteSpec(s2, ProcsPath(GroupPath(groupName)), ProcsText(pid), o.procsWrite)
  }

  /** main's hand-written init_cgroup does exactly what the cgroup module's three operations do in sequence. */
  lemma InitCgroupMatchesCgroupApi(s: HostState, pid: int, groupName: string, maxCpus: int, maxMemory: int,
                                   o: CgroupOracle)
    ensures InitCgroupSpec(s, pid, groupName, maxCpus, maxMemory, o)
         == CgroupApiSetup(s, pid, groupName, maxCpus, maxMemory, o)
  {
  }

  /** init_cgroup. */
  method InitCgroup(pid: int, groupName: string, maxCpus: int, maxMemory: int, host: Host, o: CgroupOracle)
    returns (status: int)
    modifies host
    ensures (host.State(), status) == InitCgroupSpec(old(host.State()), pid, groupName, maxCpus, maxMemory, o)
  {
    var pathToCgroup := "/sys/fs/cgroup/" + groupName;
    var made := host.Mkdir(pathToCgroup, o.mkdirPermitted);
    if made.Failure? && made.errno != EEXIST {
      return EXIT_FAILURE;
    }
    var pathToCpuMax := pathToCgroup + "/cpu.max";
    var pathToMemoryMax := pathToCgroup + "/memory.max";
    var pathToProcs := pathToCgroup + "/cgroup.procs";
    if maxCpus > 0 {
      status := host.WriteStr(pathToCpuMax, IntToString(maxCpus * 100000) + " " + IntToString(100000) + "\n", o.cpuWrite);
    } else {
      status := host.WriteStr(pathToCpuMax, "max 100000\n", o.cpuWrite);
    }
    if status == EXIT_FAILURE {
      return EXIT_FAILURE;
    }
    status := host.WriteStr(pathToMemoryMax, IntToString(maxMemory) + "\n", o.memoryWrite);
    if status == EXIT_FAILURE {
      return EXIT_FAILURE;
    }
    status := host.WriteStr(pathToProcs, IntToString(pid) + "\n", o.procsWrite);
    if status == EXIT_FAILURE {
      return EXIT_FAILURE;
    }
    return EXIT_SUCCESS;
  }

  /** destroy_cgroup: rmdir of the group directory, where a missing one counts as success. */
  method DestroyCgroup(groupName: string, host: Host, rmdirPermitted: bool) returns (status: int)
    modifies host
    ensures (host.State(), status) == DestroySpec(old(host.State()), CgroupPath(groupName), rmdirPermitted)
  {
    var pathToCgroup := "/sys/fs/cgroup/" + groupName;
    var r := host.Rmdir(pathToCgroup, rmdirPermitted);
    if r.Failure? && r.errno != ENOENT {
      return EXIT_FAILURE;
    }
    return EXIT_SUCCESS;
  }
}
