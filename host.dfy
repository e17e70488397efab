/**
 * The host kernel as the supervisor process sees it: a filesystem abstracted
 * to a set of directories and a map from file path to content, plus the
 * clone/waitpid process calls. Every call the supervisor makes is appended
 * to `calls`, so that the order of operations can be stated. Whether a call
 * fails for a reason the model does not track (privilege, a busy directory,
 * an I/O error) is an input: an oracle argument of each operation.
 */
module Host {
  import opened Config

  datatype Errno = EEXIST | ENOENT | EACCES | EBUSY

  /** A syscall's outcome: 0, or -1 with errno set. */
  datatype SysResult = Success | Failure(errno: Errno)

  /**
   * How write_str_to_file (fopen, vfprintf, fclose) ends: the file holds the
   * text; fopen failed and nothing changed; or vfprintf failed after fopen
   * had already truncated the file.
   */
  datatype WriteOutcome = Written | OpenFailed | PrintFailed

  datatype Call =
    | MkdirCall(path: string)
    | WriteCall(path: string, text: string)
    | RmdirCall(path: string)
    | CloneCall
    | WaitpidCall(pid: int)

  datatype HostState = HostState(dirs: set<string>, files: map<string, string>, calls: seq<Call>)

  /** mkdir(path): EEXIST when the directory is there, otherwise it is created if the kernel permits. */
  function MkdirSpec(s: HostState, path: string, permitted: bool): (HostState, SysResult)
  {
    var s1 := s.(calls := s.calls + [MkdirCall(path)]);
    if path in s.dirs then (s1, Failure(EEXIST))
    else if permitted then (s1.(dirs := s.dirs + {path}), Success)
    else (s1, Failure(EACCES))
  }

  /** rmdir(path): ENOENT when the directory is absent, otherwise it is removed if the kernel permits. */
  function RmdirSpec(s: HostState, path: string, permitted: bool): (HostState, SysResult)
  {
    var s1 := s.(calls := s.calls + [RmdirCall(path)]);
    if path !in s.dirs then (s1, Failure(ENOENT))
    else if permitted then (s1.(dirs := s.dirs - {path}), Success)
    else (s1, Failure(EBUSY))
  }

  /** write_str_to_file(path, text): EXIT_SUCCESS exactly when the file then holds `text`. */
  function WriteSpec(s: HostState, path: string, text: string, outcome: WriteOutcome): (HostState, int)
  {
    var s1 := s.(calls := s.calls + [WriteCall(path, text)]);
    match outcome
    case Written => (s1.(files := s.files[path := text]), EXIT_SUCCESS)
    case OpenFailed => (s1, EXIT_FAILURE)
    case PrintFailed => (s1.(files := s.files[path := ""]), EXIT_FAILURE)
  }

  class Host {
    var dirs: set<string>
    var files: map<string, string>
    var calls: seq<Call>

    function State(): HostState
      reads this
    {
      HostState(dirs, files, calls)
    }

    constructor (dirs: set<string>, files: map<string, string>)
      ensures State() == HostState(dirs, files, [])
    {
      this.dirs := dirs;
      this.files := files;
      this.calls := [];
    }

    method Mkdir(path: string, permitted: bool) returns (r: SysResult)
      modifies this
      ensures (State(), r) == MkdirSpec(old(State()), path, permitted)
    {
      calls := calls + [MkdirCall(path)];
      if path in dirs {
        r := Failure(EEXIST);
      } else if permitted {
        dirs := dirs + {path};
        r := Success;
      } else {
        r := Failure(EACCES);
      }
    }

    method Rmdir(path: string, permitted: bool) returns (r: SysResult)
      modifies this
      ensures (State(), r) == RmdirSpec(old(State()), path, permitted)
    {
      calls := calls + [RmdirCall(path)];
      if path !in dirs {
        r := Failure(ENOENT);
      } else if permitted {
        dirs := dirs - {path};
        r := Success;
      } else {
        r := Failure(EBUSY);
      }
    }

    method WriteStr(path: string, text: string, outcome: WriteOutcome) returns (status: int)
      modifies this
      ensures (State(), status) == WriteSpec(old(State()), path, text, outcome)
    {
      calls := calls + [WriteCall(path, text)];
      match outcome
      case Written =>
        files := files[path := text];
        status := EXIT_SUCCESS;
      case OpenFailed =>
        status := EXIT_FAILURE;
      case PrintFailed =>
        files := files[path := ""];
        status := EXIT_FAILURE;
    }

    /** clone(): the new child's pid, or -1 when the kernel refuses. */
    method Clone(ok: bool, childPid: int) returns (pid: int)
      requires childPid > 0
      modifies this
      ensures pid == (if ok then childPid else -1)
      ensures State() == old(State()).(calls := old(calls) + [CloneCall])
    {
      calls := calls + [CloneCall];
      pid := if ok then childPid else -1;
    }

    /** waitpid(pid, NULL, 0): `pid` once the child has ended, or -1. */
    method Waitpid(pid: int, ok: bool) returns (r: int)
      modifies this
      ensures r == (if ok then pid else -1)
      ensures State() == old(State()).(calls := old(calls) + [WaitpidCall(pid)])
    {
      calls := calls + [WaitpidCall(pid)];
      r := if ok then pid else -1;
    }
  }
}
