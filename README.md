# ACM cable update test, modelled in Dafny

`acm_update_test.py` drives a firmware-update soak test of an active cable
(ACM). It checks the cable type given on the command line against a fixed
table of three types, then runs up to 100 trials. The table's keys are
`ure`, `utt` and `upp12`. The usage line and the `-c` help text say `upp`,
but `-c upp` is refused with `exit(-1)` before any trial, and the model
does the same. Each trial:

1. makes a random serial number of 1 to 100 alphanumeric characters;
2. builds a `.dfu` artifact named after the cable type and that serial
   number with `perl dfu_util.pl`;
3. flashes the artifact with `dfu-util` at the cable's `VID:PID`;
4. waits 5 seconds;
5. lists the cable with `lsusb`.

The first command that exits with a non-zero code ends the process with that
code. If every command succeeds, `main` returns 1, and 1 becomes the exit
status.

The model has six modules, one per concern of the script:

- `Strings`: helpers (first index, prefix stripping, split at a separator).
- `SerialNumbers`: `create_serialnumber`. The random choices come in as a
  `Draw`: the length `randint` returned and one alphabet index per position
  that `choice` picked.
- `Cables`: the `CABLE_VID_PIDS_DICT` table and the membership test on it.
- `Commands`: the artifact name and the three argument vectors, together
  with parsers that read the serial number, cable type, artifact and device
  address back out of them.
- `Execution`: `execute_command`. The child process is an oracle: it either
  exits with a return code and an output, or cannot be started.
- `Trials`: `main`. `Run` is a reference definition: the 400 planned steps
  are taken in order until one halts the process. `RunTrials` is the
  script's nested loop, proved equal to `Run`. The lemmas about `Run` state
  the ordering, the halt on the first failure, the trial bound and the exit
  status.

The external tools are the parameter `tool`. It gives the child-process
outcome for the command started as step `j` of the run. The random module is
the parameter `draws`. It gives trial `k` its draw.

The script exits with 1, not 0, when every trial completes. It never checks
the descriptors it lists. It never deletes a trial's artifact. It never
assembles an update-package configuration.

## Model

| member | source | states |
|---|---|---|
| `SerialNumbers.JoinPicks` | acm_update_test.py:72 | the joined string has one character per choice, and character `i` is the alphabet symbol chosen at position `i` |
| `SerialNumbers.CreateSerialNumber` | acm_update_test.py:63-73 | a generated serial number has the drawn length, lies within 1..`SERIAL_NUMBER_SIZE` (100), and each character is the chosen symbol of `ascii_letters + digits` |
| `SerialNumbers.EverySerialNumberReachable` | acm_update_test.py:69-72 | every string of 1 to 100 alphanumeric characters is produced by some sequence of random choices |
| `SerialNumbers.GeneratorRange` | acm_update_test.py:69-72 | a string is a possible output of the generator if and only if it has 1 to 100 characters, all from the 62-symbol alphabet |
| `Cables.LookupVidPid` | acm_update_test.py:32 | the table lookup succeeds exactly for `ure`, `utt` and `upp12`, and yields the table's own address for each: `1901:0020`, `1901:002f` and `1901:0029` respectively, each a `1901:xxxx` address |
| `Cables.TableShape` | acm_update_test.py:32 | every table address has vendor `1901`; no cable type holds `_` and no address holds `,`, so the names and arguments built from them can be parsed back |
| `Execution.ExecuteCommand` | acm_update_test.py:41-61 | output comes back exactly when the child exits with 0; a non-zero return code `r` ends the process with `exit(r)`; a child that cannot be started ends it abnormally; the process never ends with `exit(0)` here |
| `Commands.DfuFileName` | acm_update_test.py:153 | the artifact name starts with `sn_` and is 8 characters longer than cable type plus serial number |
| `Commands.DfuFileNameRoundTrip` | acm_update_test.py:153 | for a cable type without `_`, the cable type and the serial number are read back from the artifact name between the `sn_` prefix and the `.dfu` suffix |
| `Commands.DfuFileNameInjective` | acm_update_test.py:153 | two trials produce the same artifact name only for the same cable type and serial number |
| `Commands.BuildCommand` | acm_update_test.py:154 | the build runs `perl dfu_util.pl ... -v`, and its `-s `, `-a` and `-o ` arguments carry the serial number, the cable type and the artifact name |
| `Commands.FlashCommand` | acm_update_test.py:163-165 | the flash runs `dfu-util -v`; its `-d ` argument names the `VID:PID` twice, separated by a comma; its ` -D ` argument carries the artifact |
| `Commands.EnumerateCommand` | acm_update_test.py:174 | the enumeration runs `lsusb -v` with a `-d ` argument that carries the `VID:PID` |
| `Trials.PlannedTrial` | acm_update_test.py:148-175 | planned steps `4k` to `4k+3` are trial `k`: the build, the flash, the 5-second wait and the enumeration, all for the serial number of the `k`-th draw |
| `Trials.TrialSerial` | acm_update_test.py:148-154 | trial `k` builds with the serial number of the `k`-th draw, which is 1 to 100 alphanumeric characters long |
| `Trials.TrialArtifacts` | acm_update_test.py:153-174 | a trial runs build, flash, a 5-second wait, then enumerate. The build's output file and the flash's input file are the same artifact, and that artifact names the trial's cable type and serial number. Flash and enumerate both address the cable's `VID:PID` |
| `Trials.RunTrialAddresses` | acm_update_test.py:148-175 | in trial `k` of a run for a known cable type, the flash loads the file the build wrote; that file names the cable type and the serial number of the `k`-th draw; the flash and the enumeration both address the table's `VID:PID` for that cable type |
| `Trials.RunFromPrefix` | acm_update_test.py:148-209 | once some planned steps have all returned, the run goes on exactly as the run from the start |
| `Trials.Halt` | acm_update_test.py:148-209 | a command that halts after a prefix of returned planned steps ends the whole run, with that command's termination, and with that prefix and the command as the steps taken |
| `Trials.RunFromShape` | acm_update_test.py:148-209 | a run continued after some returned steps keeps them as its start and takes at most 400 steps, in plan order; every step but the last returned; a last step that returned means all 400 steps ran and the result is `exit(1)`; a last step that halted gives the run its termination |
| `Trials.RunFromStart` | acm_update_test.py:148-209 | a run takes 1 to 400 steps, in plan order; every step but the last returned; the last step either halted the run with its own termination, or all steps returned and the run ends with `exit(1)` |
| `Trials.RunHaltsOnFirstFailure` | acm_update_test.py:148-209 | with a known cable type, at most 100 trials begin. The steps are the planned ones in order, and no step follows one that failed. A failed command's exit code is the run's. A run where everything succeeded took all 400 steps and returns 1 |
| `Trials.RunFromExit` | acm_update_test.py:148-219 | for any plan, a run takes at least one step, never ends with `exit(0)`, and ends with `exit(1)` exactly when every step returned or the last child exited with 1 |
| `Trials.ExitStatus` | acm_update_test.py:140-219 | once the arguments are parsed, the value passed to `exit()` is never 0. An unknown cable type exits with -1 before any step, and it is the only way a run takes no step. A run ends with `exit(1)` exactly when every command succeeded or the last child exited with 1 |
| `Trials.RunTrials` | acm_update_test.py:140-209 | the script's loop ends exactly as the reference run `Run` does: same termination, same steps in the same order |

## Left out

- Descriptor verification: the `iManufacture`/`iProduct`/`iSerial` filter
  sits inside a string literal (acm_update_test.py:181-197), and the three
  verify steps are empty comments. The script never compares descriptors,
  so the `lsusb` output is discarded.
- `build_dfu` has no body. `DNLD_LIST` and `DFU_BUILD_CONFIG` are declared
  but never used. The script builds no update-package configuration.
- Process spawning and UTF-8 decoding are foreign calls. The child's output
  arrives already decoded. A decode error, which would end the process with
  a traceback, is not modelled.
- The `OSError` and bare `except` handlers are modelled only as abnormal
  termination. The first one concatenates an integer to a string, and the
  second one uses `sys`, which is never imported. So each raises before
  reaching its `exit(-1)` / `exit(-2)`, and neither exit code is claimed.
- Argument parsing, the log-level check, log-file setup and console
  printing are I/O. `--version` and `-h` end the process with status 0,
  and a missing `-c` or an invalid `--log` level ends it, all before any
  step. The exit-status lemmas speak only of runs that got past these.
- An uncaught exception on the `Abnormal` paths (the `TypeError` at
  acm_update_test.py:53, the `NameError` at acm_update_test.py:57) gives the
  process status 1. That is a third way, besides success and a child that
  exited with 1, for the process to end with status 1. The model records
  these ends only as `Abnormal`.
- A child that never exits hangs the script, because `check_output` has no
  timeout. The `tool` oracle assumes every child terminates, so the run
  lemmas (1 to 400 steps, how a run ends) speak only of runs whose children
  all exit.
- The 5-second `sleep` is an inert `Sleep(5)` step. No time passes in the
  model.
- The uniformity of `randint` and `choice` is probabilistic. The model
  proves only length and alphabet facts about the drawn values.
- `Trials.RunTrials` records the value passed to `exit()`. It does not
  model the operating system reducing that value to 8 bits, so `exit(-1)`
  is not shown as status 255.
- The model does not prove that distinct draws give distinct serial
  numbers.
