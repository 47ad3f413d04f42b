# Verified model of rules_vmtest

This project models the parts of rules_vmtest whose behaviour is more than a call to another program, and proves
properties of them with Dafny 4.11. `dafny verify dfyconfig.toml` checks everything.

**Output lines** (`LineStream`, `LineStreamProofs`). `AttachTagged` reads QEMU's output in pieces of any size, passes
them through an escape-sequence processor that may hold back an unfinished tail, and prints tagged lines. The processor
belongs to another repository, so it is a parameter that must satisfy one law, `Streaming`: processing `a + b` gives the
output of `a` followed by what processing resumes to. A stripper of escape sequences is proved to satisfy it. The loop is
proved against "split the whole stream on newline": when no line has more than 4097 bytes (4096 for a last line that an
unfinished tail follows), all ways of cutting the input print the plain lines. The bound is exact for every processor that
puts out at most one byte for each byte it is given, the stripper among them: one byte more can be torn, since a flush
takes at least 4097 bytes. Without any assumption on lengths the printed bodies conserve every byte.

**Configuration as a compiler** (`Shell`, `TestRunner`, `VmTest`, `VmTestPipeline`, `EnvConfig`, `EnvPrograms`,
`EnvLimits`, `EnvRules`, `EnvDecoder`, `Numbers`). `vm_test.bzl` turns attributes into an argument list and that into a
line of bash; the line is read back by the word grammar of POSIX.1-2017 (Shell Command Language, sections 2.2.1-2.2.3,
2.3 and 2.6.7) and by the rules of Go's `flag` package, with what bash adds to the grammar (brace expansion, and tildes
after `=` and `:`) left outside the fragment. `config.bzl` and `vm_go_test.bzl` go through generated Go source and bash
exports to `buildVMOptsFromEnv`. Each encoding is proved to mean its attributes, with exact conditions for when a value
survives its quoting. Three results a maintainer may want to know: an empty `memory` (or one of tabs) vanishes from the
line, `--memory` then takes `--cpus` as its value, and CPUs, timeout, TPM, network and share are silently the defaults;
a value with a tab, an expansion or another special character but no space or single quote is not quoted at all, so that
`root=~/x` arrives expanded; and the environment encodings lose values too. The exports lose those with a double quote,
a backquote, a dollar sign that begins an expansion, or a backslash before a character that it escapes (the closing
quote included); the Go init those with a double quote, a backslash, a newline, a NUL or a byte order mark. That these
are all is proved of whole scripts, in which an unsafe value could swallow other lines and make up for them. The rules
also differ on firmware: `vm_test.bzl` passes the toolchain's firmware even when it boots a kernel, the other two do
not; each model follows its own rule.

**Run lifecycle** (`ProcessManagement`, `Lifecycle` and the five modules named after it). `ProcessManagement` has the
process manager as a class, for every history of registrations. `Lifecycle` is the protocol between main, the Run
goroutine, the waiter, the readers, signals, the timer, QEMU and the cleanup as a state machine of 27 kinds of steps. For
every interleaving: main finishes only after Run has returned, no sender blocks, QEMU gets no signal unless main was
signalled or a build timed out, the TPM emulator gets TERM and KILL
once, registered commands are reaped before the deferred cleanup looks at them, tagged mode has shown every byte, every
run ends, and no state is stuck unless QEMU runs. `LifecycleLimits` proves where the protocol falls short, and in exactly
which modes: build mode can finish with QEMU running (it never registers the command, and a timeout only sends TERM);
build mode can lose output (`Wait` closes the pipes before the readers have drained them); tagged mode reports success
whatever QEMU's status; and a signal makes a failed Run exit with code zero.

**Orchestrator** (`Jobs`, `Orchestrator`, `OrchestratorProofs`). The cluster macros' strings give one job per target;
the ensure phase, `--run` and the teardown are proved against lists of windows. Tearing down closes a window that was
there before if a job has its name.

**Polling, artifacts, addresses, arguments** (`Polling`, `Artifacts`, `MacAddress`, `QemuArgs`, `QemuReferences`,
`QemuCommandLine`). The
Wait loops against a monotone clock; the files of build and run mode over every history; MAC addresses of taps
(IEEE Std 802-2014, clause 8); and the ids, references and boot order that QEMU reads from the command line which the
source's format strings make. Run mode does not insist on a disk: it makes a blank one and goes on.

**Small facts.** Texts, constants, defaults and single branches that several functions share are fixed by lemmas beside
them, which need no row: the generated lines (`EnvPrograms.LinesAsWritten`, `HeaderAsWritten`, `RlocationPaths`,
`EscapesRead`), the flag table, its defaults and the end of the flags (`TestRunner.SetSetsOne`, `NoArguments`,
`FlagsEnd`), number prefixes (`Numbers.PrefixesRead`), backslashes and comments (`Shell.BackslashRead`, `HashesRead`),
the orchestrator without `--run`, with a path of no job, and without a session (`OrchestratorProofs.WithoutRun`,
`RunOther`, `NoSession`), and what the steps of the protocol are open to (`LifecycleProgress.WorldIsFree`, `RunCanFail`,
`LifecycleSignals.CleanupStopsACommand`).

Clocks, files, processes, tmux and QEMU are modelled by their effect on the state; what they do on their own is a
parameter (observations, durations, failures, resolution of runfiles) over which every theorem quantifies.

## Model

| member | source | states |
|---|---|---|
| LineStream.AttachTagged | runner/process_manager.go:103-156 | Prints one line for each body of the run's specification, in order: tag, space, body, newline, for every reader and processor |
| LineStream.DrainLines | runner/process_manager.go:128-137 | Prints every complete non-empty line in order and keeps what follows the last newline |
| LineStreamProofs.LoopHeadInvariant | runner/process_manager.go:117-143 | At each loop head the buffer is newline-free and at most 4096 bytes, and printed plus buffered bytes are the processed stream without newlines |
| LineStreamProofs.EveryRunCutsTheSegments | runner/process_manager.go:117-154 | With no length assumption, the bodies are the segments of the whole stream in order, each cut into non-empty pieces of which all but the last exceed 4096 bytes |
| LineStreamProofs.EveryRunConservesBytes | runner/process_manager.go:117-154 | The bodies together are the processed stream minus newlines plus the final pending bytes |
| LineStreamProofs.BodiesAreWithinLines | runner/process_manager.go:117-154 | No printed body holds a newline, exactly if the incomplete tail at the end holds none |
| LineStreamProofs.OutputReadsBack | runner/process_manager.go:103-156 | Read line by line, the output is one line for each body, which is the tag, a space and the body, and nothing else |
| LineStreamProofs.RunPrintsTheLines | runner/process_manager.go:117-154 | When no segment can overflow, the bodies are exactly the non-empty segments of the whole stream |
| LineStreamProofs.ChunkingDoesNotMatter | runner/process_manager.go:117-154 | Then the output is the same for every way of cutting the input into reads |
| LineStreamProofs.ExactLineLimit | runner/process_manager.go:139-142 | For every streaming processor with at most one byte out per byte in: all ways of reading print the plain lines if and only if no line exceeds 4097 bytes, or 4096 before a tail |
| LineStreamProofs.LongLineIsTorn | runner/process_manager.go:139-142 | Otherwise a reader that delivers byte after byte prints more bodies than there are lines |
| LineStreamProofs.StripEscapesIsStreaming | runner/process_manager.go:120-124 | The law asked of the processor has an instance that carries unfinished sequences over |
| LineStreamProofs.StripEscapesKeepsPace | runner/process_manager.go:120-124 | That instance puts out at most one byte for each byte it is given |
| Numbers.DecimalRoundTrip | vmtest/cmd/testrunner/main.go:26-31 | A printed decimal is read back by base-0 and by base-10 parsing, exactly within 64 bits |
| Numbers.BaseZeroAgreesIff | vmtest/cmd/testrunner/main.go:26-31 | flag.Int reads a digit string like Atoi if and only if it has no leading zero, or only zeros before a last digit below eight |
| Numbers.SignsRead | vmtest/cmd/testrunner/main.go:26-31 | A plus sign changes nothing, and a sign alone is no number |
| Numbers.PortsRoundTrip | machine/machine.go:909-919 | Every non-empty list of ports survives printing, joining, splitting, trimming and parsing, in order |
| Numbers.TrimsToCore | runner/process_manager.go:54-54 | Trimming takes off all space around a text, and nothing else |
| Numbers.PaddedPortsParse | machine/machine.go:909-919 | A list of ports with any space around its numbers is read as these numbers |
| Shell.ShellQuoteIsLiteral | machine/machine.go:833-835 | In any unquoted context, before and after other text, the shell adds exactly the quoted string to the word |
| Shell.QuotingsAgree | vmtest/vm_test.bzl:116-122 | The quoting of machine.go and that of vm_test.bzl denote the same single word, the string itself |
| Shell.LineDecodesIff | vmtest/vm_test.bzl:116-133 | Every argument list is read back from its line if and only if each argument is quoted, or not empty, without a `#` in front and made of characters, tildes and dollar signs that stand for themselves; text outside the modelled fragment counts as lost (see Left out) |
| Shell.SpecialIsUnsafe | vmtest/vm_test.bzl:116-133 | Unquoted, an argument is unsafe with any of the listed special characters, an expansion, or a tilde that bash expands |
| Shell.OrdinaryIsSafe | vmtest/vm_test.bzl:116-133 | Letters, digits and the usual punctuation are safe and stay unquoted, and so are tildes and dollar signs elsewhere |
| Shell.LineKeepsSafeArgs | vmtest/vm_test.bzl:116-133 | Empty and tab-only arguments leave the list, however many, and the safe ones arrive in order |
| Shell.AssignmentDecodesIff | vmtest/vm_go_test.bzl:16-22 | A value survives the unescaped double quotes of an export exactly when nothing in it stays special there: no double quote or backquote, no dollar sign before a character that makes an expansion of it, no backslash before one that it escapes |
| TestRunner.BuildOptions | vmtest/cmd/testrunner/main.go:15-108 | The options appended are those of the parsed flags, in order; a flag error yields none; the next rows say what is parsed |
| TestRunner.FlagWithValue | vmtest/cmd/testrunner/main.go:17-39 | A flag and a value consume two words and set that flag only |
| TestRunner.FlagWithEquals | vmtest/cmd/testrunner/main.go:17-39 | `-name=v` and `--name=v` set the flag to all that is behind the first `=`, the empty value and further `=` included, or fail as the value does |
| TestRunner.FlagThenValue | vmtest/cmd/testrunner/main.go:17-39 | `-name v` and `--name v` set it to the next word; without one they are an error |
| TestRunner.TpmForms | vmtest/cmd/testrunner/main.go:27-39 | The switch alone sets it; `=` and one of Go's twelve spellings sets or clears it, and any other text is an error |
| TestRunner.OthersAreErrors | vmtest/cmd/testrunner/main.go:39-39 | Unknown names, empty names and a third dash are errors |
| VmTest.VmTestImpl | vmtest/vm_test.bzl:9-133 | The script line is the quoted rendering of the settings that the attributes ask for |
| VmTest.SettingsApplied | vmtest/vm_test.bzl:13-111 | Setting these flags one after the other gives the flag values that the attributes denote |
| VmTest.ParseSettings | vmtest/cmd/testrunner/main.go:39-39 | Go's parser, on the arguments of any list of settings, sets each in turn and goes on with the rest |
| VmTestPipeline.ScriptDecodesIff | vmtest/vm_test.bzl:116-133 | The argument list of every target is read back from the script exactly when every value on it is safe, in the sense of Shell.LineDecodesIff |
| VmTestPipeline.ScriptParsesLike | vmtest/vm_test.bzl:124-133 | Arguments added to the script are parsed on top of what the attributes denote |
| VmTestPipeline.FirmwareMeant | vmtest/vm_test.bzl:39-47 | File by file, explicit firmware wins over the toolchain's, with a kernel or without, and UEFI is configured exactly if both files are there |
| VmTestPipeline.ScriptMeansItsAttributes | vmtest/vm_test.bzl:13-133 | For every target with safe values, shell and flag parser turn the script into exactly the machine options and timeout that the attributes mean |
| VmTestPipeline.EmptyMemoryVanishes | vmtest/vm_test.bzl:57-133 | From the whole script of a target whose memory is empty or tabs, the runner gets all arguments but the memory size |
| VmTestPipeline.EmptyMemoryStopsTheParser | vmtest/cmd/testrunner/main.go:25-39 | What that script is parsed to: the next flag's name as memory size, defaults for all that comes later, or an error for negative CPUs |
| EnvConfig.GrantedMeaning | machine/machine.go:838-922 | An environment that holds what the attributes ask for is decoded to exactly the options they mean |
| EnvConfig.ToLowerMeans | machine/machine.go:894-894 | The network mode is lowered letter by letter before it is compared: A to Z become theirs, and other characters stay |
| EnvDecoder.BuildVMOptsFromEnv | machine/machine.go:838-922 | The options appended branch by branch, or a failure on a malformed number |
| EnvDecoder.CollectForwards | machine/machine.go:911-919 | One forward per port in order, and a failure exactly if some item is not a number |
| EnvPrograms.SetenvDecodesIff | vmtest/config.bzl:105-106 | A value survives the unescaped Go string literal exactly when it has no double quote, backslash, newline, NUL or byte order mark |
| EnvPrograms.InitAssigns | vmtest/config.bzl:98-106 | The generated init assigns exactly the bindings, files resolved first, whatever their keys |
| EnvPrograms.ExportsAssign | vmtest/vm_go_test.bzl:16-98 | Run by the shell, the export lines of safe values assign exactly the bindings in any environment |
| EnvLimits.ExportsDecodeIff | vmtest/vm_go_test.bzl:16-98 | For every list of bindings, the script makes exactly its assignments in order if and only if double quotes protect every value |
| EnvLimits.ExportsAssignIff | vmtest/vm_go_test.bzl:16-98 | With distinct variables, none of them set before, the exports have the effect of the bindings if and only if double quotes protect every value |
| EnvLimits.LossCanBeHidden | vmtest/vm_go_test.bzl:16-98 | If a variable is set before this can fail: two unsafe values whose second export is lost, unnoticed because the variable had its value |
| EnvLimits.InitAssignsIff | vmtest/config.bzl:98-106 | With distinct variables and no file under two names, the init has the effect of the bindings if and only if every value can stand unescaped in a Go string |
| EnvRules.VmtestConfigImpl | vmtest/config.bzl:26-106 | The init lines are those of the bindings that the attributes ask for, in the rule's order |
| EnvRules.VmGoTestImpl | vmtest/vm_go_test.bzl:9-98 | The export lines are those of the bindings that the attributes ask for, in the rule's order |
| EnvRules.FirmwareMeant | vmtest/config.bzl:48-58 | File by file, explicit firmware wins, the toolchain's takes its place only without a kernel, and the decoder configures UEFI exactly if both files are there |
| EnvRules.VariablesHold | vmtest/config.bzl:26-96 | What each variable holds after the lines of either rule, in terms of the attributes alone, the bridge included, which the decoder ignores |
| EnvRules.GoTestAssignsIff | vmtest/vm_go_test.bzl:9-98 | The rule's own export lines have their effect if and only if every value is safe, no VMTEST variable being set before |
| EnvRules.ConfigAssignsIff | vmtest/config.bzl:26-106 | The same for the rule's own init lines and Go strings, in any environment |
| EnvRules.ConfigMeansItsAttributes | vmtest/config.bzl:26-106 | The generated init makes the decoder return exactly what the attributes mean, up to path resolution |
| EnvRules.GoTestMeansItsAttributes | vmtest/vm_go_test.bzl:16-98 | The generated exports make the decoder return exactly what the attributes mean |
| EnvRules.EncodingsAgree | vmtest/config.bzl:98-106 | Wherever the runfiles put the files, both encodings give the decoder the same options, but for the files that one names by short path and the other by what that resolves to |
| ProcessManagement.ProcessManager.CleanupPIDFile | runner/process_manager.go:52-61 | TERM then KILL to the pid of a readable file, and the file is gone |
| ProcessManagement.PidFileIsRead | runner/process_manager.go:53-58 | A pid file that holds a 64-bit pid with any space around it, such as a final newline, brings TERM and then KILL to that pid |
| ProcessManagement.OtherFilesAreNot | runner/process_manager.go:53-54 | One that is missing, or holds anything but space, digits and signs, brings no signal |
| ProcessManagement.ProcessManager.CleanupAll | runner/process_manager.go:63-83 | For every history of registrations: every pid file is signalled in order and removed; a running command, whatever it was sent before, gets TERM, then KILL unless it was reaped in between, and is reaped once; others are left alone |
| ProcessManagement.EachPidOnce | runner/process_manager.go:63-71 | However often a pid file is registered, its process gets TERM and KILL exactly once |
| ProcessManagement.CleanupTwiceIsQuiet | runner/process_manager.go:63-71 | A second visit to a cleaned pid file signals nobody |
| LifecycleProofs.StepKeeps | runner/runner.go:97-364 | Every step of every goroutine keeps the protocol's invariant, conserves output and brings the run nearer to its end |
| LifecycleSafety.MainFinishesAfterRun | vmtest/cmd/main.go:174-201 | main finishes only after Run has returned, with the code of its outcome or zero after a signal |
| LifecycleSafety.SendersNeverBlock | vmtest/cmd/main.go:184-187 | A goroutine with a result can always send it at once |
| LifecycleSafety.NeverMoreThanTermThenKill | runner/runner.go:217-273 | At no point has the emulator got more than one TERM and then one KILL |
| LifecycleSafety.SwtpmIsCleanedOnce | runner/runner.go:217-273 | With cleanup, on every exit path after the emulator was up, its pid file is gone and it got TERM and KILL once |
| LifecycleSafety.NoCleanupLeavesSwtpm | runner/runner.go:132-142 | Without cleanup, only a successful build and a failed direct start clean up, and all other exits leave the emulator alone |
| LifecycleSafety.CleanupFindsCommandsReaped | runner/runner.go:319-361 | Registered commands are reaped before the deferred cleanup starts, so it signals none of them |
| LifecycleSafety.QemuAtTheEnd | runner/runner.go:248-271 | Run modes, and successful builds, have reaped QEMU when main finishes; other builds have at least sent TERM |
| LifecycleSignals.QemuIsLeftAlone | runner/runner.go:230-271 | In every run QEMU is killed only after a cancellation and told to terminate only by build mode, after a cancellation or its timeout, each at most once; undisturbed it gets no signal |
| LifecycleSignals.CancelNeedsASignal | vmtest/cmd/main.go:183-199 | main cancels only after a signal that it took, never in the foreground mode; only build mode has a timeout |
| LifecycleSignals.KilledIsNoSuccess | runner/runner.go:248-271 | A QEMU that was killed is never reported as successful, except by tagged mode, which ignores the status |
| LifecycleSafety.ExitCodeMeaning | runner/runner.go:248-265 | What exit code zero says about QEMU in each mode |
| LifecycleSafety.BytesAreConserved | runner/runner.go:232-246 | Every byte of an output stream is unwritten, in the pipe, shown or lost, in every run |
| LifecycleSafety.ReadersShow | runner/runner.go:232-246 | Nothing is shown before a reader is attached, and without pipes no byte goes through one |
| LifecycleSafety.TaggedShowsEverything | runner/runner.go:332-340 | In tagged mode every byte that QEMU wrote has been shown when main finishes |
| LifecycleProgress.RunsAreBounded | vmtest/cmd/main.go:174-201 | No run takes more steps than its first state allows |
| LifecycleProgress.NoDeadlock | runner/runner.go:248-271 | When the program can take no step, main has finished or Run waits for a running QEMU |
| LifecycleProgress.CancelReachesQemu | runner/runner.go:266-269 | After a cancellation the program is stuck only on a QEMU that was sent KILL, and never in build mode |
| LifecycleProgress.CanFinish | vmtest/cmd/main.go:174-201 | From every reachable state main can finish if QEMU stops |
| LifecycleLimits.QemuCanOutliveMain | runner/runner.go:263-269 | main can finish while QEMU runs in build mode, and in no other |
| LifecycleLimits.OutputCanBeLost | runner/runner.go:245-254 | Output, of either stream, can be lost in build mode, and in no other |
| LifecycleLimits.FailureCanPassForSuccess | runner/runner.go:339-340 | With no signal, exit code zero can stand for a failed QEMU in tagged mode, and in no other |
| LifecycleLimits.SignalCanHideFailure | vmtest/cmd/main.go:196-199 | A signal can turn a failed Run into exit code zero exactly where main waits for signals |
| Jobs.ReadJobs | orchestrator/main.go:51-88 | One job per non-blank path of the list and one for the primary, in order, and none if a path does not resolve |
| Jobs.LastPartOfPath | orchestrator/main.go:61-62 | The window name of a path is what follows its last slash |
| Jobs.PaddedPathsAreRead | orchestrator/main.go:51-59 | A dependency string with space around its paths and blank entries is read as its paths, in order |
| Jobs.ByNameFinds | orchestrator/main.go:51-78 | With distinct names the map finds the path of each job and nothing else |
| Jobs.ClusterTargets | vmtest/rules.bzl:282-335 | The dependency string and the primary of a cluster: the BGP server first if one is given, then the nodes but the last, which is the primary; no nodes is a failure |
| Jobs.NodeNamesDistinct | vmtest/rules.bzl:284-284 | Two nodes of a cluster never share a name |
| Jobs.ClusterJobs | vmtest/rules.bzl:314-331 | The orchestrator reads one job per target from the macro's string, in order, the BGP server first |
| Jobs.ClusterNames | vmtest/rules.bzl:314-331 | The window names are distinct if and only if the server's is not that of a node |
| Orchestrator.TmuxSession.Ensure | orchestrator/main.go:116-152 | The windows afterwards are those of before and those of the missing jobs whose command stays up, in order; only a session that cannot be created is an error |
| Orchestrator.TmuxSession.CreateWindow | orchestrator/main.go:231-261 | Reports an error exactly when tmux does not open the window or no window of the name is left |
| Orchestrator.TmuxSession.Teardown | orchestrator/main.go:176-180 | Removes one window per ensured job |
| Orchestrator.FilterJobs | orchestrator/main.go:90-112 | Drops the jobs of the window that `--run` names, by itself or as the last part of a path |
| Orchestrator.Orchestrate | orchestrator/main.go:29-192 | Outcome and windows at the end, for all inputs, errors included |
| OrchestratorProofs.EnsureMeetsTheJobs | orchestrator/main.go:116-152 | When every command stays up: existing windows stay in place, the windows are those and the jobs', and ensuring again creates nothing |
| OrchestratorProofs.EnsureCreatesOnce | orchestrator/main.go:140-151 | Whichever of the commands stay up: no name comes to exist twice exactly when no missing job that stays is listed twice |
| OrchestratorProofs.TeardownUndoesEnsure | orchestrator/main.go:140-182 | After the teardown the windows are the first ones minus the ensured names, and unchanged only if none of these was there |
| OrchestratorProofs.RunByName | orchestrator/main.go:90-174 | `--run` with a job's name runs that job's command and ensures all others |
| OrchestratorProofs.RunByPath | orchestrator/main.go:90-174 | `--run` with a path runs what the path resolves to, and does not ensure the job of that name |
| OrchestratorProofs.RunLeavesOthers | orchestrator/main.go:90-182 | From start to end: the command that runs and the windows that are left |
| Polling.WaitUntilSucceeds | machine/machine.go:224-247 | Refines the generic poll and reports the last observation |
| Polling.WaitForUnit | machine/machine.go:250-268 | Refines the generic poll, with an early stop on a failed unit |
| Polling.WaitForOpenPort | machine/machine.go:271-284 | Refines the generic poll; WaitForFile at 303-316 is the same loop |
| Polling.WaitForClosedPort | machine/machine.go:287-300 | Refines the generic poll |
| Polling.WaitUntilOutput | machine/machine.go:389-413 | Refines the generic poll |
| Polling.WaitForHTTP | machine/machine.go:509-529 | Refines the generic poll |
| Polling.WaitForLog | machine/machine.go:694-714 | Refines the generic poll and returns the first matching line |
| Polling.ApplyRetryOpts | machine/machine.go:104-113 | The last option of each kind counts, whatever the order between the kinds |
| Polling.RetryMeans | machine/machine.go:95-113 | An option that none of its kind follows counts; the defaults are a minute and a second |
| Polling.EndedIsUnique | machine/machine.go:224-247 | Outcome, number of calls and end are determined by clock and observations |
| Polling.FirstObservationDecides | machine/machine.go:224-247 | The first deciding observation is returned, and a timeout reported exactly if none is made before the deadline |
| Polling.SuccessMeans | machine/machine.go:224-247 | WaitUntilSucceeds returns the output of the first command that ran and exited with zero |
| Polling.OutputMeans | machine/machine.go:389-413 | WaitUntilOutput also asks for output that the matcher accepts |
| Polling.UnitMeans | machine/machine.go:250-268 | WaitForUnit ends on the first answer that is active or failed, and other states and errors go on |
| Polling.PortMeans | machine/machine.go:271-300 | The port loops end on the first answer of the kind they wait for; an error is no answer |
| Polling.ResponseMeans | machine/machine.go:509-529 | WaitForHTTP returns the first response of the status and, if a text is wanted, with it somewhere in the body |
| Polling.LogMeans | machine/machine.go:694-714 | WaitForLog returns the first matching line of the first readable journal that has one |
| Polling.CallsAreBounded | machine/machine.go:224-247 | At most the timeout divided by the interval, rounded up, and exactly as many when calls take no time |
| Polling.EndsInTime | machine/machine.go:224-247 | The end is before the deadline plus the longest call plus the interval and the delay of a pause |
| Artifacts.Runner.SetupTPMState | runner/runner.go:149-172 | The TPM state is new or a copy of the pristine one, which is made on first use |
| Artifacts.Runner.SetupRunArtifacts | runner/runner.go:366-401 | For any source disk, what is made or copied, and success exactly if all three artifacts are there |
| Artifacts.PreparedDisk | runner/runner.go:371-389 | For any source disk: copied if the own disk is missing or older, else left, made blank if there is neither, and no other file changes |
| Artifacts.Runner.SetupRun | runner/runner.go:282-300 | With source and destination the same disk nothing is copied, since no file is newer than itself |
| Artifacts.Runner.SetupBuild | runner/runner.go:183-214 | Which files a build replaces, also when it fails half-way |
| Artifacts.RunsSucceedAfterBuild | runner/runner.go:290-299 | After a successful build and any history, every run's setup succeeds and changes no file |
| Artifacts.BlankDisk | runner/runner.go:197-206 | A build, and a run that finds no disk, makes a blank one of the configured size, or of 50G |
| Artifacts.BuildMakes | runner/runner.go:183-214 | A successful build leaves variables from the template and, without a pristine one, a new TPM state |
| Artifacts.PristineIff | runner/runner.go:149-169 | A pristine TPM state is never changed by any history exactly if its directory is not the work directory's own |
| Artifacts.BuildsStartAlike | runner/runner.go:149-169 | All builds start from the same TPM content, whatever happened in between |
| MacAddress.AddressOfTap | machine/machine.go:53-62 | Every address is locally administered and unicast, and well-formed exactly for an index from 0 to 255 |
| MacAddress.AddressesDiffer | machine/machine.go:53-62 | Two taps share an address exactly if they share an index |
| MacAddress.NoIndex | machine/machine.go:53-62 | A name without `tap`, or without a number behind the last one, has index zero |
| MacAddress.CanonicalTaps | machine/machine.go:50-62 | The same for taps named by any prefix, `tap` and a decimal |
| QemuCommandLine.BuildQEMUArgs | runner/qemu.go:31-122 | The words that the format strings make, branch by branch, are those of the structured arguments, and QEMU reads these from them exactly if the inputs hold no comma |
| QemuArgs.ReadInvertsWordsIff | runner/qemu.go:57-122 | Every such command line is read as meant exactly if no property holds a comma |
| QemuCommandLine.MachineOnTheLine | runner/qemu.go:31-64 | On the line name, machine type, memory, processors and processor model are given once each, with the defaults 6G, 2 and the host's type |
| QemuCommandLine.ReferencesResolve | runner/qemu.go:67-112 | On the line as QEMU reads it, every netdev, chardev, TPM and drive that is referred to is declared exactly once, and the other way round |
| QemuCommandLine.BusResolves | runner/qemu.go:101-105 | The bus that is used on the line belongs to a controller declared exactly once |
| QemuCommandLine.AddressesDistinct | runner/qemu.go:67-112 | No two devices on the line are given the same PCI address; those without one get theirs from QEMU |
| QemuCommandLine.BootOrderDistinct | runner/qemu.go:100-112 | No two devices on the line share a boot index |
| QemuCommandLine.FirstBootDevice | runner/qemu.go:100-112 | Boot index 0 on the line is the CD exactly when an image is booted, and else the disk |

## Left out

- The vm package of rules_qemu: starting a machine, QMP, the agent, the serial console, copying files and starting swtpm. It is not part of this model; each function used has the effect stated where it is used.
- Numbers.TrimSpace: the space characters beyond ASCII are not trimmed; the texts that are trimmed are pids, ports and paths.
- Numbers.ParseInt0: underscores between digits, which base 0 permits, are read as an error; printed decimals have none.
- Shell.Words: expansions, substitutions, operators, globs, brace expansion and tildes at the start of a word, after `=` or, behind an `=`, after `:` are outside the fragment, and a line that has one unquoted reads as nothing, so a value that is written unquoted with one is unsafe in every theorem. Other tildes, and dollar signs that begin no expansion, stand for themselves.
- Shell.LineDecodesIff: the only-if half is relative to this fragment, which counts as lost some text that bash may pass unchanged: a brace that makes no expansion, a pattern that matches no file, a tilde after the `=` of a word that is no assignment or before an unknown user's name, an expansion that yields its own text. Strings are taken to hold no NUL, which bash drops and no argument list can carry.
- VmTestPipeline.ScriptDecodesIff: the same.
- Shell.AssignmentDecodesIff: an expansion counts as lost whatever it yields, even its own text.
- VmTestPipeline.ScriptMeansItsAttributes: the other lines of the script are fixed text and are not modelled; `"$@"` is.
- EnvRules.ConfigMeansItsAttributes: the ambient environment is assumed to set no VMTEST variable; the text around the init lines is not modelled.
- EnvPrograms.SetenvDecodesIff: of Go's escapes in string literals `\a`, `\b`, `\f`, `\v` and the numeric ones are read as errors; no literal value is denoted by an escape of itself, so the equivalence does not depend on it.
- EnvLimits.InitAssignsIff: source that leaves the fragment counts as not having the effect, such as a value that closes the call and adds a statement. The body is read line by line.
- EnvLimits.ExportsAssignIff: a text that leaves the fragment counts as not having the effect, as for Shell.Words; LossCanBeHidden shows why no variable may be set before.
- Lifecycle.Apply: the default action of signals in the foreground mode, in which main installs no handler, is not a step; unreadable pid files, failing removals and reuse of pids are assumed away.
- ProcessManagement.ProcessManager.CleanupAll: the mutex; in the pause after its TERM the watchdog may kill a command and another goroutine may wait for it, while commands that are not being cleaned stand still.
- LineStream.AttachTagged: `AttachFilter`, `MatchSync` and the wait groups themselves; the groups appear in Lifecycle.
- Orchestrator.Orchestrate: how tmux matches a window by prefix or pattern, windows that close by themselves later, the foreground command's exit code and `strings.Fields`.
- Jobs.ClusterJobs: Bazel's expansion of a label is a function whose last path part is the target's name; attributes of the nodes do not reach the orchestrator.
- Polling.WaitForHTTP: folding the HTTP options repeats ApplyRetryOpts with two more fields.
- Artifacts.Runner.SetupTPMState: a TPM directory is its state file; other files in it are not modelled, and a tool that fails leaves nothing behind.
- QemuCommandLine.BuildQEMUArgs: the values of `-name`, `-machine`, `-global` and other arguments that refer to nothing are words that are not read further.
- Checks of bridges and taps, log and error texts, Bazel providers, runfiles merging and lock files: calls to other programs or fixed text.
- `machine.New`, `Execute` and the other agent wrappers: one remote call each.
