/**
 * The cgroup v2 file protocol of src/cgroup/cgroup.c: a group is a directory
 * under /sys/fs/cgroup; its limits are written to cpu.max and memory.max and a
 * process joins it by writing its pid to cgroup.procs.
 */
module Cgroup {
  import opened Wrappers
  import opened Config
  import opened Decimal
  import opened Host

  const BasePath: string := "/sys/fs/cgroup"
  /** The CFS period written to cpu.max, in microseconds. */
  const CpuPeriod: int := 100000

  /** A group's directory: "/sys/fs/cgroup/" followed by its name, from which the name can be read back. */
  function GroupPath(name: string): (path: string)
    ensures |path| == |BasePath| + 1 + |name|
    ensures path[..|BasePath| + 1] == "/sys/fs/cgroup/" && path[|BasePath| + 1..] == name
  {
    BasePath + "/" + name
  }

  function CpuMaxPath(dir: string): string { dir + "/cpu.max" }
  function MemoryMaxPath(dir: string): string { dir + "/memory.max" }
  function ProcsPath(dir: string): string { dir + "/cgroup.procs" }

  /** cpu.max content: "<max_cpus*100000> 100000\n", or "max 100000\n" (no limit) when max_cpus <= 0. */
  function CpuMaxText(maxCpus: int): string
  {
    if maxCpus > 0 then IntToString(maxCpus * CpuPeriod) + " " + IntToString(CpuPeriod) + "\n"
    else "max 100000\n"
  }

  /** memory.max content: the byte count in decimal. */
  function MemoryMaxText(maxMemory: int): string
  {
    IntToString(maxMemory) + "\n"
  }

  /** cgroup.procs content: the pid in decimal. */
  function ProcsText(pid: int): string
  {
    IntToString(pid) + "\n"
  }

  /** A single line: ends in a newline and holds no other. */
  predicate OneLine(text: string)
  {
    |text| > 0 && text[|text| - 1] == '\n' && forall k :: 0 <= k < |text| - 1 ==> text[k] != '\n'
  }

  /**
   * cpu.max holds one line, and it is the no-quota line "max 100000\n"
   * exactly when max_cpus is not positive.
   */
  lemma CpuMaxTextFormat(maxCpus: int)
    ensures OneLine(CpuMaxText(maxCpus))
    ensures CpuMaxText(maxCpus) == "max 100000\n" <==> maxCpus <= 0
  {
    if maxCpus > 0 {
      var quota := IntToString(maxCpus * CpuPeriod);
      var text := CpuMaxText(maxCpus);
      assert text == quota + " " + IntToString(CpuPeriod) + "\n";
      assert text[0] == quota[0] && IsDigit(quota[0]) && !IsDigit("max 100000\n"[0]);
      DecimalHasNoNewline(quota);
      DecimalHasNoNewline(IntToString(CpuPeriod));
    }
  }

  /** The decimal text of an integer followed by a newline is one line, with a '-' first exactly for a negative. */
  lemma DecimalLineFormat(i: int)
    ensures OneLine(IntToString(i) + "\n") && |IntToString(i) + "\n"| >= 2
    ensures (IntToString(i) + "\n")[0] == '-' <==> i < 0
  {
    DecimalHasNoNewline(IntToString(i));
  }

  /** memory.max holds one line: the byte count, with a '-' first exactly for a negative count. */
  lemma MemoryMaxTextFormat(maxMemory: int)
    ensures OneLine(MemoryMaxText(maxMemory)) && |MemoryMaxText(maxMemory)| >= 2
    ensures MemoryMaxText(maxMemory)[0] == '-' <==> maxMemory < 0
  {
    DecimalLineFormat(maxMemory);
  }

  /** cgroup.procs receives one line: the pid, with a '-' first exactly for a negative pid. */
  lemma ProcsTextFormat(pid: int)
    ensures OneLine(ProcsText(pid)) && |ProcsText(pid)| >= 2
    ensures ProcsText(pid)[0] == '-' <==> pid < 0
  {
    DecimalLineFormat(pid);
  }

  lemma DecimalHasNoNewline(s: string)
    requires |s| > 0 && (s[0] == '-' ==> AllDigits(s[1..])) && (s[0] != '-' ==> AllDigits(s))
    ensures forall k :: 0 <= k < |s| ==> s[k] != '\n'
  {
    forall k | 0 <= k < |s|
      ensures s[k] != '\n'
    {
      if s[0] == '-' && k > 0 {
        assert s[k] == s[1..][k - 1];
      }
    }
  }

  /** The three control files of a group are three different files. */
  lemma ControlPathsDistinct(dir: string)
    ensures CpuMaxPath(dir) != MemoryMaxPath(dir)
    ensures CpuMaxPath(dir) != ProcsPath(dir)
    ensures MemoryMaxPath(dir) != ProcsPath(dir)
  {
    assert CpuMaxPath(dir)[|dir| + 1] == 'c';
    assert MemoryMaxPath(dir)[|dir| + 1] == 'm';
    assert ProcsPath(dir)[|dir| + 1] == 'c';
    assert CpuMaxPath(dir)[|dir| + 2] == 'p';
    assert ProcsPath(dir)[|dir| + 2] == 'g';
  }

  // ---------------------------------------------------------------------------
  // How the kernel reads cpu.max back: "<quota> <period>\n" or "max <period>\n".

  /** The quota in microseconds per period; None is "max", no limit. */
  datatype CpuMax = CpuMax(quota: Option<int>, period: int)

  /** Index of the first `c` in `s`. */
  function Find(s: string, c: char): (r: Option<nat>)
    ensures r.Some? ==> r.value < |s| && s[r.value] == c && c !in s[..r.value]
    ensures r.None? ==> c !in s
  {
    if s == [] then None
    else if s[0] == c then Some(0)
    else match Find(s[1..], c)
      case None => None
      case Some(i) => Some(i + 1)
  }

  function ParseCpuMax(s: string): Option<CpuMax>
  {
    if s == [] || s[|s| - 1] != '\n' then None
    else
      var line := s[..|s| - 1];
      match Find(line, ' ')
      case None => None
      case Some(i) =>
        var (quota, period) := (line[..i], line[i + 1..]);
        match ParseDecimal(period)
        case None => None
        case Some(p) =>
          if quota == "max" then Some(CpuMax(None, p))
          else match ParseDecimal(quota)
            case None => None
            case Some(q) => Some(CpuMax(Some(q), p))
  }

  lemma FindAfter(a: string, b: string, c: char)
    requires c !in a
    ensures Find(a + [c] + b, c) == Some(|a|)
  {
    var s := a + [c] + b;
    assert s[|a|] == c;
    assert s[..|a|] == a;
  }

  lemma DigitsHaveNoSpace(s: string)
    requires AllDigits(s)
    ensures ' ' !in s
  {
  }

  /** What cgroup_apply_limits writes to cpu.max reads back as the quota max_cpus*100000 per 100000 us, or no limit. */
  lemma CpuMaxRoundTrip(maxCpus: int)
    ensures ParseCpuMax(CpuMaxText(maxCpus))
         == Some(CpuMax(if maxCpus > 0 then Some(maxCpus * CpuPeriod) else None, CpuPeriod))
  {
    var period := IntToString(CpuPeriod);
    var quota := if maxCpus > 0 then IntToString(maxCpus * CpuPeriod) else "max";
    assert CpuMaxText(maxCpus) == quota + " " + period + "\n" by {
      if maxCpus <= 0 {
        assert period == "100000";
      }
    }
    var line := quota + [' '] + period;
    assert CpuMaxText(maxCpus)[..|CpuMaxText(maxCpus)| - 1] == line;
    if maxCpus > 0 {
      DigitsHaveNoSpace(quota);
    }
    FindAfter(quota, period, ' ');
    assert line[..|quota|] == quota;
    assert line[|quota| + 1..] == period;
    DecimalRoundTrip(CpuPeriod);
    if maxCpus > 0 {
      DecimalRoundTrip(maxCpus * CpuPeriod);
      assert quota != "max";
    }
  }

  /** memory.max reads back as the byte count given. */
  lemma MemoryMaxRoundTrip(maxMemory: int)
    ensures ParseDecimalLine(MemoryMaxText(maxMemory)) == Some(maxMemory)
  {
    DecimalLineRoundTrip(maxMemory);
  }

  /** cgroup.procs reads back as the pid given. */
  lemma ProcsRoundTrip(pid: int)
    ensures ParseDecimalLine(ProcsText(pid)) == Some(pid)
  {
    DecimalLineRoundTrip(pid);
  }

  // ---------------------------------------------------------------------------
  // The effect of each operation on the host, as a function of the old state.

  /** cgroup_create's filesystem step: mkdir, where an existing directory counts as success. */
  function CreateSpec(s: HostState, name: string, permitted: bool): (r: (HostState, bool))
    ensures r.1 <==> GroupPath(name) in s.dirs || permitted
    ensures r.1 ==> r.0.dirs == s.dirs + {GroupPath(name)}
    ensures !r.1 ==> r.0.dirs == s.dirs
    ensures r.0.files == s.files && r.0.calls == s.calls + [MkdirCall(GroupPath(name))]
  {
    var (s1, res) := MkdirSpec(s, GroupPath(name), permitted);
    (s1, res == Success || res == Failure(EEXIST))
  }

  /**
   * cgroup_apply_limits on a group at `dir`: cpu.max first, then memory.max
   * only if that succeeded. Nothing written is undone.
   */
  function ApplyLimitsSpec(s: HostState, dir: string, maxCpus: int, maxMemory: int,
                           cpuWrite: WriteOutcome, memoryWrite: WriteOutcome): (r: (HostState, int))
    ensures r.1 == EXIT_SUCCESS <==> cpuWrite == Written && memoryWrite == Written
    ensures r.1 == EXIT_SUCCESS || r.1 == EXIT_FAILURE
    ensures r.0.dirs == s.dirs
    // only the two limit files change
    ensures forall p :: p != CpuMaxPath(dir) && p != MemoryMaxPath(dir) ==>
              (p in r.0.files <==> p in s.files) && (p in s.files ==> r.0.files[p] == s.files[p])
    ensures cpuWrite == Written ==> CpuMaxPath(dir) in r.0.files && r.0.files[CpuMaxPath(dir)] == CpuMaxText(maxCpus)
    ensures memoryWrite == Written && cpuWrite == Written ==> MemoryMaxPath(dir) in r.0.files && r.0.files[MemoryMaxPath(dir)] == MemoryMaxText(maxMemory)
    // a failed cpu.max write stops before memory.max
    ensures cpuWrite != Written ==>
              r.0.calls == s.calls + [WriteCall(CpuMaxPath(dir), CpuMaxText(maxCpus))] &&
              (MemoryMaxPath(dir) in r.0.files <==> MemoryMaxPath(dir) in s.files) &&
              (MemoryMaxPath(dir) in s.files ==> r.0.files[MemoryMaxPath(dir)] == s.files[MemoryMaxPath(dir)])
    ensures cpuWrite == Written ==>
              r.0.calls == s.calls + [WriteCall(CpuMaxPath(dir), CpuMaxText(maxCpus)),
                                      WriteCall(MemoryMaxPath(dir), MemoryMaxText(maxMemory))]
  {
    ControlPathsDistinct(dir);
    var (s1, status) := WriteSpec(s, CpuMaxPath(dir), CpuMaxText(maxCpus), cpuWrite);
    if status == EXIT_SUCCESS then WriteSpec(s1, MemoryMaxPath(dir), MemoryMaxText(maxMemory), memoryWrite)
    else (s1, status)
  }

  /** cgroup_destroy on a group at `dir`: rmdir, where a missing directory counts as success. */
  function DestroySpec(s: HostState, dir: string, permitted: bool): (r: (HostState, int))
    ensures r.1 == EXIT_SUCCESS <==> dir !in s.dirs || permitted
    ensures r.1 == EXIT_SUCCESS || r.1 == EXIT_FAILURE
    ensures r.1 == EXIT_SUCCESS ==> r.0.dirs == s.dirs - {dir}
    ensures r.1 != EXIT_SUCCESS ==> r.0.dirs == s.dirs
    ensures r.0.files == s.files && r.0.calls == s.calls + [RmdirCall(dir)]
  {
    var (s1, res) := RmdirSpec(s, dir, permitted);
    (s1, if res == Success || res == Failure(ENOENT) then EXIT_SUCCESS else EXIT_FAILURE)
  }

  /** Creating a group that a successful create already made succeeds again, whatever the kernel would permit, and changes no directory. */
  lemma CreateIdempotent(s: HostState, name: string, permitted: bool, again: bool)
    requires CreateSpec(s, name, permitted).1
    ensures var s1 := CreateSpec(s, name, permitted).0;
            CreateSpec(s1, name, again).1 && CreateSpec(s1, name, again).0.dirs == s1.dirs
  {
  }

  /** A destroy after a successful destroy, or of a group never created, succeeds without any effect on the directories. */
  lemma DestroyIdempotent(s: HostState, dir: string, permitted: bool, again: bool)
    requires DestroySpec(s, dir, permitted).1 == EXIT_SUCCESS
    ensures var s1 := DestroySpec(s, dir, permitted).0;
            dir !in s1.dirs && DestroySpec(s1, dir, again).1 == EXIT_SUCCESS &&
            DestroySpec(s1, dir, again).0.dirs == s1.dirs
  {
  }

  // ---------------------------------------------------------------------------
  // The CGroup record and its operations. A NULL group is a null reference.

  class CGroup {
    var name: string
    var path: string
    var maxCpus: int
    var maxMemory: int
    var pid: int

    /** The fields as cgroup_create fills them before its mkdir. */
    constructor (name: string, maxCpus: int, maxMemory: int)
      ensures this.name == name && path == GroupPath(name)
      ensures this.maxCpus == maxCpus && this.maxMemory == maxMemory && pid == 0
    {
      this.name := name;
      this.path := BasePath + "/" + name;
      this.maxCpus := maxCpus;
      this.maxMemory := maxMemory;
      this.pid := 0;
    }
  }

  /** cgroup_create: a new group record, or null when mkdir failed for any reason but EEXIST. */
  method Create(name: string, maxCpus: int, maxMemory: int, host: Host, mkdirPermitted: bool)
    returns (g: CGroup?)
    modifies host
    ensures host.State() == CreateSpec(old(host.State()), name, mkdirPermitted).0
    ensures g != null <==> CreateSpec(old(host.State()), name, mkdirPermitted).1
    ensures g != null ==> fresh(g) && g.name == name && g.path == GroupPath(name)
    ensures g != null ==> g.maxCpus == maxCpus && g.maxMemory == maxMemory && g.pid == 0
  {
    g := new CGroup(name, maxCpus, maxMemory);
    var r := host.Mkdir(g.path, mkdirPermitted);
    if r.Failure? && r.errno != EEXIST {
      g := null;
    }
  }

  /** cgroup_add_process: writes "<pid>\n" to cgroup.procs and records the pid only if the write succeeded. */
  method AddProcess(g: CGroup?, pid: int, host: Host, procsWrite: WriteOutcome) returns (status: int)
    modifies host, g
    ensures g == null ==> status == EXIT_FAILURE && host.State() == old(host.State())
    ensures g != null ==>
              (host.State(), status) == WriteSpec(old(host.State()), ProcsPath(g.path), ProcsText(pid), procsWrite)
    ensures g != null ==> g.pid == (if status == EXIT_SUCCESS then pid else old(g.pid))
    ensures g != null ==> g.name == old(g.name) && g.path == old(g.path)
    ensures g != null ==> g.maxCpus == old(g.maxCpus) && g.maxMemory == old(g.maxMemory)
  {
    if g == null {
      return EXIT_FAILURE;
    }
    status := host.WriteStr(g.path + "/cgroup.procs", ProcsText(pid), procsWrite);
    if status == EXIT_SUCCESS {
      g.pid := pid;
    }
  }

  /** cgroup_apply_limits: the group record is only read. */
  method ApplyLimits(g: CGroup?, host: Host, cpuWrite: WriteOutcome, memoryWrite: WriteOutcome)
    returns (status: int)
    modifies host
    ensures g == null ==> status == EXIT_FAILURE && host.State() == old(host.State())
    ensures g != null ==>
              (host.State(), status)
              == ApplyLimitsSpec(old(host.State()), g.path, g.maxCpus, g.maxMemory, cpuWrite, memoryWrite)
  {
    if g == null {
      return EXIT_FAILURE;
    }
    var cpuMaxPath := g.path + "/cpu.max";
    var memoryMaxPath := g.path + "/memory.max";
    status := EXIT_SUCCESS;
    if g.maxCpus > 0 {
      status := host.WriteStr(cpuMaxPath, IntToString(g.maxCpus * CpuPeriod) + " " + IntToString(CpuPeriod) + "\n", cpuWrite);
    } else {
      status := host.WriteStr(cpuMaxPath, "max 100000\n", cpuWrite);
    }
    if status == EXIT_SUCCESS {
      status := host.WriteStr(memoryMaxPath, MemoryMaxText(g.maxMemory), memoryWrite);
    }
  }

  /** cgroup_destroy. */
  method Destroy(g: CGroup?, host: Host, rmdirPermitted: bool) returns (status: int)
    modifies host
    ensures g == null ==> status == EXIT_FAILURE && host.State() == old(host.State())
    ensures g != null ==> (host.State(), status) == DestroySpec(old(host.State()), g.path, rmdirPermitted)
  {
    if g == null {
      return EXIT_FAILURE;
    }
    var r := host.Rmdir(g.path, rmdirPermitted);
    if r.Failure? && r.errno != ENOENT {
      return EXIT_FAILURE;
    }
    return EXIT_SUCCESS;
  }
}
