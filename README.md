# tinydocker in Dafny

A model of the core of tinydocker, a small container launcher. The model covers four parts:

- **Control groups.** A cgroup is created under `/sys/fs/cgroup`. Its `cpu.max` and `memory.max` limits are written, the container's pid is bound through `cgroup.procs`, and the group is removed. There are two versions of this code: the `CGroup` record and its operations in `src/cgroup/cgroup.c`, and the monolithic `init_cgroup`/`destroy_cgroup` in `src/main.c`.
- **Command-line handling.** This is the hand-written argv scanner of `src/main.c` and the option switch of `parse_args` in `src/cli/cli.c`. Both fill a `ContainerArgs` record.
- **Container start-up.** This is `init_container`, the code the cloned process runs inside its new namespaces. It sets the hostname, enters the new root, mounts `/proc`, forks the command and waits for it, then unmounts `/proc`. There are two variants, in `src/container/container.c` and in `src/main.c`.
- **The supervisor.** `main` in `src/main.c` parses argv, clones the container, sets up the cgroup, waits for the container and removes the cgroup.

Every kernel interaction is abstract.

- **The host** (module `Host`) is a set of directories, a map from file path to content, and a trace of the calls made.
  - `mkdir` fails with `EEXIST` exactly when the directory is present.
  - `rmdir` fails with `ENOENT` exactly when the directory is absent.
  - Any other failure of these two, and the outcome of each file write, is an input: an oracle argument of the operation.
- **The container's view** (module `Container`) is a hostname, a root, a working directory, a flag saying whether `/proc` is mounted, and a trace of system calls.
  - An oracle `Event -> bool` decides which calls succeed.
  - `umount2` also fails when `/proc` is not mounted.

Each imperative routine of the source is a method:

- on a class whose fields the routine updates (`Host`, `Env`, `CGroup`);
- or a method with a loop (the two argument parsers).

Each method's `ensures` ties the new state and the result to a pure function of the old state. The lemmas state what the source promises about those functions: orders of calls, short-circuiting, idempotence, exit codes, and round trips of the control-file formats.

Some behaviour of the code is easy to miss, and some of it differs from the code's own comments. The model does what the code does:

- **Cgroup failure.** When cgroup set-up fails after the clone, `main` exits with `EXIT_FAILURE`. It does not terminate the child and does not remove the group (`src/main.c:325-330`).
- **Exit status.** `main` returns `EXIT_SUCCESS` whatever the container's exit status (`src/main.c:344`).
- **Removal.** The cgroup is removed only after a successful `waitpid` (`src/main.c:332-338`).
- **Rootfs.** Nothing checks that rootfs exists before the clone.
- **`cpu.max`.** It is `"max 100000\n"` for every `max_cpus <= 0`, not only for the 0 that `src/cgroup/cgroup.h:10` documents as unlimited. Every control file line ends in `"\n"`.
- **`/proc` mount point.** `src/container/container.c` never creates it. `src/main.c` attempts `mkdir("/proc")` and ignores the result.
- **Failed unmount.** In `src/main.c`, a failed final unmount makes `init_container` return `EXIT_FAILURE`.
- **Empty command.** A trailing `--` gives an empty command (`src/main.c:283-296`).

The two `init_container` variants also differ from each other:

- After a failed fork, the `src/main.c` variant leaves `/proc` mounted. The `container.c` variant unmounts it.
- The `src/main.c` variant enters the root by `chdir(rootfs)` and then `chroot(".")`.

## Model

| member | source | states |
|---|---|---|
| Decimal.NatToString | src/cgroup/cgroup.c:141-142 | the `%d` text of a non-negative number is a non-empty run of digits, with a leading `0` only for zero |
| Decimal.IntToString | src/cgroup/cgroup.c:151-152 | the `%ld` text is a non-empty run of digits, preceded by `-` exactly for a negative number |
| Decimal.ParseNatToString | src/cgroup/cgroup.c:141-142 | reading the digits of a non-negative number gives the number back |
| Decimal.DecimalRoundTrip | src/cgroup/cgroup.c:151-152 | the decimal text of every integer parses back to that integer |
| Decimal.DecimalLineRoundTrip | src/cgroup/cgroup.c:89 | a decimal followed by a newline, as written to a control file, parses back to the integer |
| Host.Host.Mkdir | src/cgroup/cgroup.c:57 | mkdir fails with EEXIST exactly when the directory exists; otherwise it creates the directory if the kernel permits and fails with no change if not; the call is traced |
| Host.Host.Rmdir | src/cgroup/cgroup.c:165 | rmdir fails with ENOENT exactly when the directory is absent; otherwise it removes the directory if the kernel permits; the call is traced |
| Host.Host.WriteStr | src/utils/utils.c:9-30 | success exactly when the outcome is a completed write, and then the file holds the text; after a failed fopen nothing changed; after a failed vfprintf the file is left truncated; no other file changes |
| Host.Host.Clone | src/main.c:301-310 | returns the child's pid or -1; only the call trace changes |
| Host.Host.Waitpid | src/main.c:332-336 | returns the pid waited for or -1; only the call trace changes |
| Cgroup.GroupPath | src/cgroup/cgroup.c:32-43 | a group's directory is `/sys/fs/cgroup/` followed by the group name, so the name can be read back from the path |
| Cgroup.CpuMaxTextFormat | src/cgroup/cgroup.c:139-147 | the `cpu.max` text is a single newline-terminated line, and it is the no-quota line `max 100000` exactly when `max_cpus <= 0` |
| Cgroup.MemoryMaxTextFormat | src/cgroup/cgroup.c:151-152 | the `memory.max` text is a single newline-terminated line, starting with `-` exactly for a negative byte count |
| Cgroup.ProcsTextFormat | src/cgroup/cgroup.c:89 | the `cgroup.procs` text is a single newline-terminated line, starting with `-` exactly for a negative pid |
| Cgroup.ControlPathsDistinct | src/cgroup/cgroup.c:103-136 | `cpu.max`, `memory.max` and `cgroup.procs` of a group are three different paths |
| Cgroup.CpuMaxRoundTrip | src/cgroup/cgroup.c:138-147 | the `cpu.max` text reads back as quota `max_cpus*100000` per period 100000 when `max_cpus > 0`, and as no quota per period 100000 otherwise |
| Cgroup.MemoryMaxRoundTrip | src/cgroup/cgroup.c:149-153 | the `memory.max` text reads back as exactly the byte count given |
| Cgroup.ProcsRoundTrip | src/cgroup/cgroup.c:89 | the `cgroup.procs` text reads back as the pid given |
| Cgroup.CreateSpec | src/cgroup/cgroup.c:57-62 | create succeeds exactly when the group directory already existed or mkdir was permitted; on success the directory exists; files are untouched; one mkdir is traced |
| Cgroup.ApplyLimitsSpec | src/cgroup/cgroup.c:138-157 | success exactly when both writes succeed; `cpu.max` is written first, and `memory.max` only after `cpu.max` succeeded; a failed `cpu.max` write leaves `memory.max` as it was; no file but the two and no directory changes; nothing is rolled back |
| Cgroup.DestroySpec | src/cgroup/cgroup.c:165-171 | destroy succeeds exactly when the directory was absent or rmdir was permitted; on success the directory is gone, otherwise unchanged; files are untouched |
| Cgroup.CreateIdempotent | src/cgroup/cgroup.c:57-62 | creating a group that was just created succeeds again, whatever the kernel permits, and changes no directory |
| Cgroup.DestroyIdempotent | src/cgroup/cgroup.c:160-171 | after a successful destroy the directory is absent, and a second destroy succeeds without changing any directory |
| Cgroup.CGroup.constructor | src/cgroup/cgroup.c:24-55 | the record holds the name, path `/sys/fs/cgroup/<name>`, the limits given and pid 0 |
| Cgroup.Create | src/cgroup/cgroup.c:15-65 | returns a fresh record with those fields exactly when CreateSpec succeeds (else null), with the host changed as CreateSpec says |
| Cgroup.AddProcess | src/cgroup/cgroup.c:67-96 | a null group fails with no effect; otherwise `"<pid>\n"` is written to `cgroup.procs`, and the record's pid is set only on success, with no other field changed |
| Cgroup.ApplyLimits | src/cgroup/cgroup.c:98-158 | a null group fails with no effect; otherwise the host changes as ApplyLimitsSpec says, and the record is not modified |
| Cgroup.Destroy | src/cgroup/cgroup.c:160-172 | a null group fails with no effect; otherwise the host changes as DestroySpec says |
| Cli.OptionsApplied | src/cli/cli.c:58-94 | the switch leaves the command NULL; when every item is accepted, `max_cpus >= 1` and `max_memory > 0` |
| Cli.CommandOf | src/cli/cli.c:96-106 | the command is never empty: the operands from `optind` on, or `["/bin/sh"]` when there are none |
| Cli.LastArg | src/cli/cli.c:62-69 | the value found is the optarg of some item with that option code; none is found exactly when no item has that code |
| Cli.LaterOccurrenceWins | src/cli/cli.c:58-94 | of several occurrences of an option, the last one decides its value |
| Cli.ParseArgs | src/cli/cli.c:37-109 | `EXIT_SUCCESS` exactly when every option is accepted (`-c` positive, `-m`·MiB positive, no `?` or other code); then each field is its option's last value or the default (`container`, `./rootfs`, 1, 512 MiB), the command is `argv[optind..]` or `["/bin/sh"]`, `max_cpus >= 1` and `max_memory > 0`; on failure the record is as left at the first rejected option |
| Container.StatusCode | src/container/container.c:93 | the parent returns an exit code in 0..255: the child's `WEXITSTATUS` if it exited, `EXIT_FAILURE` otherwise; so `EXIT_SUCCESS` exactly when the child exited with 0 |
| Container.InitContainerSpec | src/container/container.c:19-95 | every run appends to the trace, with sethostname first; the result is `EXIT_FAILURE` or the status code of the command |
| Container.Env.Syscall | src/container/container.c:24-52 | a system call is traced; if it succeeds, it changes the hostname, root, working directory or `/proc` flag it is about; umount fails when nothing is mounted |
| Container.InitContainer | src/container/container.c:19-95 | the trace and result are those of the step machine InitContainerSpec |
| Container.SetupShortCircuit | src/container/container.c:24-64 | when step k of sethostname, chroot, chdir, mount, fork fails first, exactly steps 0..k run, plus one unmount if the fork failed; the result is `EXIT_FAILURE` |
| Container.FullRun | src/container/container.c:66-94 | when setup succeeds, the child execs (and unmounts if exec failed), then the parent waits and unmounts; the result is the command's exit code if it exited, `EXIT_FAILURE` if it was signalled or exec failed |
| Container.UnmountObligations | src/container/container.c:48-91 | umount2 is attempted only after a successful mount; then the parent attempts it exactly once, and the child once more only when its exec failed |
| Container.EarlyFailureUnmounts | src/container/container.c:54-64 | when setup fails, there is one unmount if the fork was the step that failed, and none otherwise |
| Container.FullRunUnmounts | src/container/container.c:66-91 | after a full setup, the parent unmounts once, and the child unmounts once exactly when its exec failed |
| Container.UnmountOutcomeIgnored | src/container/container.c:59-93 | kernels that differ only on the outcome of umount2 give the same result |
| Container.SetupEffects | src/container/container.c:23-45 | after a successful setup, the hostname is the configured one, the root is the configured rootfs and the working directory is `/` |
| MainArgs.ScanFrom | src/main.c:247-296 | a scan that meets no `--` at an option position leaves the command as it was |
| MainArgs.ScanArgv | src/main.c:237-297 | the record is what the scan gives from `argv[1]` on, starting from the defaults; with no arguments the defaults are `tinydocker`, `./rootfs`, `["/bin/sh"]`, 1 CPU and 1 GiB |
| MainArgs.ScanAppend | src/main.c:247-281 | an option prefix without `--` that scans cleanly hands the rest of argv to the scan with the record it built |
| MainArgs.TerminatorEndsOptions | src/main.c:249-296 | `--` ends the options, and the command is exactly the tokens after it (empty for a trailing `--`) |
| MainArgs.LastOptionWins | src/main.c:254-271 | `-h`, `-r`, `--cpus` and `--memory` with a following value set their field, overriding earlier occurrences |
| MainArgs.BadTokenIsUsageError | src/main.c:272-279 | an unknown token, or a flag with no token after it, is a usage error |
| MainArgs.ParsedCommand | src/main.c:240-296 | the parsed command is the default or the tokens after some `--`, so it is never NULL |
| MainCgroup.CgroupPath | src/main.c:114-122 | main's group path `/sys/fs/cgroup/<name>` is the cgroup module's path |
| MainCgroup.InitCgroupSpec | src/main.c:111-210 | the result is `EXIT_SUCCESS` or `EXIT_FAILURE`, and `EXIT_SUCCESS` exactly when mkdir was tolerated and all three writes completed |
| MainCgroup.InitCgroupShortCircuit | src/main.c:124-202 | mkdir (tolerating EEXIST), `cpu.max`, `memory.max`, `cgroup.procs` run in this order up to the first failure, and the result is `EXIT_SUCCESS` only when none failed; so the pid is bound only after both limits are written |
| MainCgroup.InitCgroupEffects | src/main.c:147-202 | after success, the group directory exists, its three control files hold the limits and the pid, and nothing else changed |
| MainCgroup.InitCgroupReadsBack | src/main.c:153-194 | after success, the three control files read back as the cpu quota, the byte count and the pid given |
| MainCgroup.InitCgroupMatchesCgroupApi | src/main.c:111-210 | init_cgroup has the same effect and result as cgroup_create, cgroup_apply_limits and cgroup_add_process in sequence |
| MainCgroup.InitCgroup | src/main.c:111-210 | the host changes and the result are InitCgroupSpec's; success exactly when mkdir was tolerated and all three writes succeeded |
| MainCgroup.DestroyCgroup | src/main.c:212-233 | the host changes and the result are those of the cgroup module's destroy; an absent directory is a success |
| MainContainer.MainInitContainerSpec | src/main.c:28-86 | every run appends to the trace, with sethostname first; the result is `EXIT_SUCCESS` or `EXIT_FAILURE` |
| MainContainer.MainInitContainer | src/main.c:28-86 | the trace and result are those of the step machine MainInitContainerSpec |
| MainContainer.MainSetupShortCircuit | src/main.c:32-51 | when step k of sethostname, chdir(rootfs), chroot("."), chdir("/") fails first, exactly steps 0..k run, nothing is mounted and the result is `EXIT_FAILURE` |
| MainContainer.MainInitStatus | src/main.c:53-85 | `EXIT_SUCCESS` exactly when setup, mount, fork and the final umount2 succeed; the command's outcome has no say |
| MainContainer.MainInitIgnoresMkdirAndExec | src/main.c:54-74 | kernels that differ only on mkdir("/proc") and exec give the same trace and result |
| MainContainer.MainSetupEffects | src/main.c:32-51 | after setup, the hostname is the configured one, the root is rootfs and the working directory is `/` |
| MainContainer.MainSetupSucceeds | src/main.c:32-51 | a successful setup makes exactly its four calls and leaves hostname, root and working directory set |
| MainContainer.MainForkFailureKeepsProc | src/main.c:53-66 | a failed fork returns `EXIT_FAILURE` with `/proc` still mounted and no unmount attempted |
| MainContainer.MainFullRun | src/main.c:61-85 | after a successful fork, the child execs, the parent waits and then unmounts once; `/proc` stays mounted exactly when that unmount fails |
| TinyDocker.GroupName | src/main.c:314-323 | the group name is `tinydocker-` followed by the hostname |
| TinyDocker.MainSpec | src/main.c:235-345 | the exit status is `EXIT_SUCCESS` or `EXIT_FAILURE`; main only appends host calls, and makes none exactly when argv is a usage error |
| TinyDocker.GroupNameInjective | src/main.c:314-323 | different hostnames give different group names `tinydocker-<hostname>` |
| TinyDocker.RunMain | src/main.c:235-345 | the host changes and the exit code are MainSpec's: scan, clone, init_cgroup, waitpid, destroy_cgroup |
| TinyDocker.UsageErrorMakesNoCall | src/main.c:272-279 | a usage error exits with `EXIT_FAILURE` before any host call |
| TinyDocker.MainExitStatus | src/main.c:301-344 | exit 0 exactly when argv parses and clone, every init_cgroup step and waitpid succeed; the rmdir outcome and the container's status have no say |
| TinyDocker.MainCallOrder | src/main.c:301-338 | after clone: init_cgroup's calls up to the first failure; waitpid only if all succeeded; rmdir only after that and only if waitpid succeeded, as the last call; on a cgroup failure the group is neither waited on nor removed |
| TinyDocker.CloneFailureEndsMain | src/main.c:301-310 | a failed clone exits with `EXIT_FAILURE` after that one call |
| TinyDocker.MainCleansUp | src/main.c:332-344 | after a successful run, the group directory is gone unless rmdir was refused, and no other directory changed |

## Left out

- Cgroup.ApplyLimits: `max_cpus * 100000` is computed on unbounded integers. The source multiplies in C `int`, which overflows for `max_cpus` above 21474.
- MainCgroup.InitCgroup: has the same unbounded `max_cpus * 100000` (`src/main.c:156`).
- Cli.ParseArgs: the `-c` and `-m` values are unbounded integers. The source stores `strtol`'s `long` result in an `int` and multiplies `atol(optarg)` by 1024·1024 in `long`; both can overflow.
- Cli.ParseArgs: `getopt_long` is not modelled, including argument permutation and long-option matching. Its decoded `(option, optarg)` items and the final `optind` are the inputs. `strtol` and `atol` are function inputs.
- MainArgs.ScanArgv: `atoi` and `atol` are function inputs. The exit on a failed `malloc` of the command array is not modelled.
- Host.Host.WriteStr: a failed `vfprintf` is modelled as leaving the file empty. A real partial write could leave some of the text.
- Host.Host.WriteStr: the result of `fclose` is not checked (`src/utils/utils.c:28`, `src/main.c:107`). With stdio buffering, a write the kernel rejects (for example `"-5\n"` to `memory.max`) can fail only at that flush, so the source returns `EXIT_SUCCESS` while the file does not hold the text. The model has no such outcome: a completed write always holds the text.
- Cgroup.ApplyLimitsSpec: after success it promises the limit files hold the text. That rests on the `Host.Host.WriteStr` assumption above.
- Cgroup.AddProcess: after success it promises `cgroup.procs` holds the pid. That rests on the same assumption.
- MainCgroup.InitCgroupEffects: after success it promises the three control files hold the limits and the pid. That rests on the same assumption.
- MainCgroup.InitCgroupReadsBack: after success it promises the three control files read back as the values given. That rests on the same assumption.
- Container.InitContainer: the parent's `waitpid` result is not checked in the source. If it failed, `status` would be uninitialized. The model always takes the child's status as given.
- Container.Resolve: only `"."` is resolved against the working directory. Other relative rootfs paths are kept as written.
- TinyDocker.RunMain: the cloned process runs `init_container` concurrently with `main`. The model takes its outcome only through the `waitpid` oracle and does not interleave the two traces.
- TinyDocker.RunMain: the exit on a failed `malloc` of the group name is not modelled.
- All allocation failures and frees: in `src/cgroup/cgroup.c` (`malloc`, `strdup`, the `snprintf` length checks) and in `init_cgroup`/`destroy_cgroup`. Memory management is outside the model, and so are the leaks it allows.
- `cgroup_free`: only releases memory.
- Kernel semantics: namespaces and the clone flags, the real effect of `sethostname`, `chroot`, `mount`, `umount2` with `MNT_DETACH`, `fork`, `execvp` and `waitpid`, and the 1 MiB child stack. Each is an oracle outcome with abstract effects. What the command does once exec'd is also outside the model: its exit status is an input.
- The removal of a cgroup directory does not remove its control files from the file map. The kernel's cgroupfs does that itself.
- Diagnostics: `printf`, `perror`, `fprintf` and `print_usage` output are not modelled.
- `src/utils/utils.c` and main.c's copy of `write_str_to_file` (`src/main.c:88-109`) are modelled only as the abstract write `Host.Host.WriteStr`.
- `docs/navtreedata.js`: generated documentation data with no behaviour.
- The mismatch of header declarations (`command` versus `process`, and the missing `CGroup` type in `cgroup.h`) is outside the model. The model uses `command` for both.
