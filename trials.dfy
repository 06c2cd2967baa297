/**
 * The `main` trial loop: up to 100 trials, each one building a serial-number
 * artifact, flashing it, waiting, and enumerating the cable, in that order;
 * the first command that fails ends the process.
 */
module Trials {
  import opened SerialNumbers
  import opened Cables
  import opened Commands
  import opened Execution
  import opened Strings

  const TrialCount: nat := 100
  /** Build, flash, wait, enumerate. */
  const StepsPerTrial: nat := 4
  /** TrialCount * StepsPerTrial: the steps of a run in which nothing fails. */
  const TotalSteps: nat := 400
  /** The fixed delay that lets the cable reset and enumerate. */
  const ResetDelaySeconds: nat := 5

  /** One observable action of the run: an external command, or a delay. */
  datatype Step = Execute(argv: seq<string>) | Sleep(seconds: nat)

  /**
   * The external tools: what the child process does when the command `argv`
   * is started as step number `j` of the run.
   */
  type Tool = (nat, seq<string>) -> ChildProcess

  /** How the run ends and every step it took, in order. */
  datatype RunResult = RunResult(termination: Termination, steps: seq<Step>)

  /** The four steps of the trial that uses serial number `sn`, for a cable at `vidPid`. */
  function TrialSteps(cableType: string, vidPid: string, sn: string): (steps: seq<Step>)
  {
    var dfuFileName := DfuFileName(cableType, sn);
    [ Execute(BuildCommand(cableType, sn, dfuFileName)),
      Execute(FlashCommand(vidPid, dfuFileName)),
      Sleep(ResetDelaySeconds),
      Execute(EnumerateCommand(vidPid)) ]
  }

  /** Step `j` of an uninterrupted run: phase `j % 4` of trial `j / 4`. */
  function PlannedStep(cableType: string, vidPid: string, draws: nat -> Draw, j: nat): Step
  {
    TrialSteps(cableType, vidPid, CreateSerialNumber(draws(j / StepsPerTrial)))[j % StepsPerTrial]
  }

  /** Every step of an uninterrupted run, by position. */
  function Plan(cableType: string, vidPid: string, draws: nat -> Draw): nat -> Step
  {
    (j: nat) => PlannedStep(cableType, vidPid, draws, j)
  }

  /** Taking one step: a command goes through `execute_command`, a delay always returns. */
  function Perform(step: Step, tool: Tool, j: nat): CommandOutcome
  {
    match step
    case Execute(argv) => ExecuteCommand(tool(j, argv))
    case Sleep(_) => Returned("")
  }

  /**
   * The run once the steps `done` have been taken: the next planned step is
   * taken, and the run goes on while steps return, until the plan is used up.
   */
  function RunFrom(plan: nat -> Step, tool: Tool, done: seq<Step>): RunResult
    requires |done| <= TotalSteps
    decreases TotalSteps - |done|
  {
    if |done| == TotalSteps then RunResult(Exit(1), done)
    else
      var step := plan(|done|);
      match Perform(step, tool, |done|)
      case Returned(_) => RunFrom(plan, tool, done + [step])
      case Halted(t) => RunResult(t, done + [step])
  }

  /**
   * The whole program: an unknown cable type exits with -1 before anything
   * runs; otherwise the planned steps run until a command halts the process,
   * and `main`'s return value 1 becomes the exit status when none does.
   */
  function Run(cableType: string, draws: nat -> Draw, tool: Tool): RunResult
  {
    match LookupVidPid(cableType)
    case None => RunResult(Exit(-1), [])
    case Some(vidPid) => RunFrom(Plan(cableType, vidPid, draws), tool, [])
  }

  /** `done` is the start of `plan`, and every step of it returned. */
  predicate ReturnedPrefix(plan: nat -> Step, tool: Tool, done: seq<Step>)
  {
    forall j :: 0 <= j < |done| ==> done[j] == plan(j) && Perform(done[j], tool, j).Returned?
  }

  /** Every step of `r` returned control to the loop. */
  predicate AllReturned(r: RunResult, tool: Tool)
  {
    forall j :: 0 <= j < |r.steps| ==> Perform(r.steps[j], tool, j).Returned?
  }

  /**
   * Steps `4k` to `4k+3` of the plan are trial `k`: build, flash, wait and
   * enumerate, all for the serial number of the `k`-th draw.
   */
  lemma PlannedTrial(cableType: string, vidPid: string, draws: nat -> Draw, k: nat)
    ensures var sn := CreateSerialNumber(draws(k));
      var dfuFileName := DfuFileName(cableType, sn);
      var plan := Plan(cableType, vidPid, draws);
      && plan(StepsPerTrial * k) == Execute(BuildCommand(cableType, sn, dfuFileName))
      && plan(StepsPerTrial * k + 1) == Execute(FlashCommand(vidPid, dfuFileName))
      && plan(StepsPerTrial * k + 2) == Sleep(ResetDelaySeconds)
      && plan(StepsPerTrial * k + 3) == Execute(EnumerateCommand(vidPid))
  {
    var sn := CreateSerialNumber(draws(k));
    var dfuFileName := DfuFileName(cableType, sn);
    var t := TrialSteps(cableType, vidPid, sn);
    var b := StepsPerTrial * k;
    assert b / StepsPerTrial == k && b % StepsPerTrial == 0;
    assert (b + 1) / StepsPerTrial == k && (b + 1) % StepsPerTrial == 1;
    assert (b + 2) / StepsPerTrial == k && (b + 2) % StepsPerTrial == 2;
    assert (b + 3) / StepsPerTrial == k && (b + 3) % StepsPerTrial == 3;
  }

  /** Taking the next planned step either continues the run or ends it right there. */
  lemma TakeStep(plan: nat -> Step, tool: Tool, done: seq<Step>, step: Step)
    requires |done| < TotalSteps && step == plan(|done|)
    ensures Perform(step, tool, |done|).Returned? ==>
              RunFrom(plan, tool, done) == RunFrom(plan, tool, done + [step])
    ensures Perform(step, tool, |done|).Halted? ==>
              RunFrom(plan, tool, done) == RunResult(Perform(step, tool, |done|).termination, done + [step])
  {
  }

  lemma ReturnedPrefixExtend(plan: nat -> Step, tool: Tool, done: seq<Step>, step: Step)
    requires ReturnedPrefix(plan, tool, done)
    requires step == plan(|done|) && Perform(step, tool, |done|).Returned?
    ensures ReturnedPrefix(plan, tool, done + [step])
  {
  }

  /** A step that halts, taken after a prefix of returned planned steps, ends the whole run. */
  lemma Halt(plan: nat -> Step, tool: Tool, done: seq<Step>, step: Step)
    requires |done| < TotalSteps && ReturnedPrefix(plan, tool, done)
    requires step == plan(|done|) && Perform(step, tool, |done|).Halted?
    ensures RunFrom(plan, tool, []) == RunResult(Perform(step, tool, |done|).termination, done + [step])
  {
    RunFromPrefix(plan, tool, done);
    TakeStep(plan, tool, done, step);
  }

  /** After a prefix of returned planned steps, the run is still the run from the start. */
  lemma {:induction false} RunFromPrefix(plan: nat -> Step, tool: Tool, done: seq<Step>)
    requires |done| <= TotalSteps && ReturnedPrefix(plan, tool, done)
    ensures RunFrom(plan, tool, []) == RunFrom(plan, tool, done)
    decreases |done|
  {
    if done != [] {
      var front := done[..|done| - 1];
      assert front + [done[|done| - 1]] == done;
      assert ReturnedPrefix(plan, tool, front);
      RunFromPrefix(plan, tool, front);
      TakeStep(plan, tool, front, done[|done| - 1]);
    }
  }

  /** The run ended because its last step's child exited with return code `code`. */
  predicate LastChildExited(r: RunResult, tool: Tool, code: int)
  {
    && r.steps != []
    && r.steps[|r.steps| - 1].Execute?
    && tool(|r.steps| - 1, r.steps[|r.steps| - 1].argv).Exited?
    && tool(|r.steps| - 1, r.steps[|r.steps| - 1].argv).returncode == code
  }

  /**
   * A run that has taken the returned steps `done` takes the planned steps
   * after them in order, every one but the last returned, and it ends either
   * with the termination of a last step that halted it, or, after all 400
   * steps returned, with `exit(1)`.
   */
  lemma {:induction false} RunFromShape(plan: nat -> Step, tool: Tool, done: seq<Step>)
    requires |done| <= TotalSteps && ReturnedPrefix(plan, tool, done)
    ensures var r := RunFrom(plan, tool, done);
      && done <= r.steps && |r.steps| <= TotalSteps
      && (r.steps == done ==> |done| == TotalSteps && r.termination == Exit(1))
      && (r.steps != done ==>
            && ReturnedPrefix(plan, tool, r.steps[..|r.steps| - 1])
            && r.steps[|r.steps| - 1] == plan(|r.steps| - 1)
            && (Perform(r.steps[|r.steps| - 1], tool, |r.steps| - 1).Returned? ==>
                  |r.steps| == TotalSteps && r.termination == Exit(1))
            && (Perform(r.steps[|r.steps| - 1], tool, |r.steps| - 1).Halted? ==>
                  Perform(r.steps[|r.steps| - 1], tool, |r.steps| - 1) == Halted(r.termination)))
    decreases TotalSteps - |done|
  {
    if |done| < TotalSteps {
      var step := plan(|done|);
      var next := done + [step];
      assert next[..|next| - 1] == done;
      TakeStep(plan, tool, done, step);
      if Perform(step, tool, |done|).Returned? {
        ReturnedPrefixExtend(plan, tool, done, step);
        RunFromShape(plan, tool, next);
      }
    }
  }

  /** The run from the start: 1 to 400 steps; all but the last returned; the last decides the termination. */
  lemma RunFromStart(plan: nat -> Step, tool: Tool)
    ensures var r := RunFrom(plan, tool, []);
      && 1 <= |r.steps| <= TotalSteps
      && (forall j :: 0 <= j < |r.steps| ==> r.steps[j] == plan(j))
      && (forall j :: 0 <= j < |r.steps| - 1 ==> Perform(r.steps[j], tool, j).Returned?)
      && (AllReturned(r, tool) ==> |r.steps| == TotalSteps && r.termination == Exit(1))
      && (!AllReturned(r, tool) ==> Perform(r.steps[|r.steps| - 1], tool, |r.steps| - 1) == Halted(r.termination))
  {
    RunFromShape(plan, tool, []);
    var r := RunFrom(plan, tool, []);
    var n := |r.steps|;
    var front := r.steps[..n - 1];
    assert forall j :: 0 <= j < n - 1 ==> r.steps[j] == front[j];
    if Perform(r.steps[n - 1], tool, n - 1).Returned? {
      assert AllReturned(r, tool);
    } else {
      assert !AllReturned(r, tool);
    }
  }

  /**
   * With a known cable type, the run takes between 1 and 400 steps, i.e. it
   * begins at most 100 trials; its steps are the planned ones in order; no
   * step follows one that failed; the failing step's termination is the
   * run's; and a run in which every command succeeded took every step and
   * ends with `exit(1)`.
   */
  lemma RunHaltsOnFirstFailure(cableType: string, draws: nat -> Draw, tool: Tool)
    requires LookupVidPid(cableType).Some?
    ensures var r := Run(cableType, draws, tool);
      var plan := Plan(cableType, LookupVidPid(cableType).value, draws);
      && 1 <= |r.steps| <= TotalSteps
      && (|r.steps| + StepsPerTrial - 1) / StepsPerTrial <= TrialCount
      && (forall j :: 0 <= j < |r.steps| ==> r.steps[j] == plan(j))
      && (forall j :: 0 <= j < |r.steps| - 1 ==> Perform(r.steps[j], tool, j).Returned?)
      && (AllReturned(r, tool) ==> |r.steps| == TotalSteps && r.termination == Exit(1))
      && (!AllReturned(r, tool) ==> Perform(r.steps[|r.steps| - 1], tool, |r.steps| - 1) == Halted(r.termination))
  {
    RunFromStart(Plan(cableType, LookupVidPid(cableType).value, draws), tool);
  }

  /**
   * The value passed to `exit()` once the arguments are parsed: never 0; an
   * unknown cable type exits with -1 without taking a step; and the success
   * value 1 is also what a run reports when its last command's child exited
   * with 1, so 1 alone does not tell a passing run from a failing one.
   */
  lemma ExitStatus(cableType: string, draws: nat -> Draw, tool: Tool)
    ensures var r := Run(cableType, draws, tool);
      && r.termination != Exit(0)
      && (r.steps == [] <==> LookupVidPid(cableType).None?)
      && (r.steps == [] ==> r.termination == Exit(-1))
      && (r.steps != [] ==>
            (r.termination == Exit(1) <==> AllReturned(r, tool) || LastChildExited(r, tool, 1)))
  {
    if LookupVidPid(cableType).Some? {
      RunFromExit(Plan(cableType, LookupVidPid(cableType).value, draws), tool);
    }
  }

  /** `ExitStatus` for any plan: the run's status is never 0, and it is 1 exactly when all returned or the last child exited with 1. */
  lemma RunFromExit(plan: nat -> Step, tool: Tool)
    ensures var r := RunFrom(plan, tool, []);
      && r.steps != []
      && r.termination != Exit(0)
      && (r.termination == Exit(1) <==> AllReturned(r, tool) || LastChildExited(r, tool, 1))
  {
    RunFromStart(plan, tool);
    var r := RunFrom(plan, tool, []);
    var n := |r.steps|;
    var last := r.steps[n - 1];
    if !AllReturned(r, tool) && last.Execute? {
      assert Perform(last, tool, n - 1) == ExecuteCommand(tool(n - 1, last.argv));
    }
  }

  /**
   * One trial in order: build, flash, a 5-second wait, enumerate.  The build
   * is given the serial number, the cable type and the artifact name, which
   * in turn names exactly that cable type and serial number; the flash loads
   * the same artifact into the device addressed twice by the cable's
   * `VID:PID`; the enumeration addresses that same device.
   */
  lemma TrialArtifacts(cableType: string, vidPid: string, sn: string)
    requires '_' !in cableType && ',' !in vidPid
    ensures var t := TrialSteps(cableType, vidPid, sn);
      && t[0].Execute? && t[1].Execute? && t[2] == Sleep(ResetDelaySeconds) && t[3].Execute?
      && t[0].argv[0] == "perl" && t[1].argv[0] == "dfu-util" && t[3].argv[0] == "lsusb"
      && StripPrefix(t[0].argv[2], "-s ") == Some(sn)
      && StripPrefix(t[0].argv[3], "-a") == Some(cableType)
      && ParseDeviceList(t[1].argv[2]) == Some((vidPid, vidPid))
      && StripPrefix(t[3].argv[2], "-d ") == Some(vidPid)
      && (exists f ::
            && StripPrefix(t[0].argv[4], "-o ") == Some(f)
            && StripPrefix(t[1].argv[3], " -D ") == Some(f)
            && ParseDfuFileName(f) == Some((cableType, sn)))
  {
    var f := DfuFileName(cableType, sn);
    DfuFileNameRoundTrip(cableType, sn);
    var t := TrialSteps(cableType, vidPid, sn);
    assert StripPrefix(t[0].argv[4], "-o ") == Some(f);
  }

  /**
   * Trial `k` builds with a serial number of its own, made from the `k`-th
   * draw, and that serial number is one the cable accepts.
   */
  lemma TrialSerial(cableType: string, vidPid: string, draws: nat -> Draw, k: nat)
    requires k < TrialCount
    ensures var build := Plan(cableType, vidPid, draws)(StepsPerTrial * k);
      && build.Execute? && |build.argv| == 6
      && StripPrefix(build.argv[2], "-s ") == Some(CreateSerialNumber(draws(k)))
      && IsSerialNumber(CreateSerialNumber(draws(k)))
  {
    PlannedTrial(cableType, vidPid, draws, k);
  }

  /**
   * Trial `k` of a run for a known cable type: the flash loads the very file
   * its build wrote, and that file names the cable type and the trial's serial
   * number; the flash and the enumeration both address the table's `VID:PID`
   * for that cable type.
   */
  lemma RunTrialAddresses(cableType: string, draws: nat -> Draw, k: nat)
    requires LookupVidPid(cableType).Some? && k < TrialCount
    ensures var vidPid := CableVidPids[cableType];
      var plan := Plan(cableType, LookupVidPid(cableType).value, draws);
      var build := plan(StepsPerTrial * k);
      var flash := plan(StepsPerTrial * k + 1);
      var enumerate := plan(StepsPerTrial * k + 3);
      && build.Execute? && flash.Execute? && enumerate.Execute?
      && |build.argv| == 6 && |flash.argv| == 4 && |enumerate.argv| == 3
      && ParseDeviceList(flash.argv[2]) == Some((vidPid, vidPid))
      && StripPrefix(enumerate.argv[2], "-d ") == Some(vidPid)
      && (exists f ::
            && StripPrefix(build.argv[4], "-o ") == Some(f)
            && StripPrefix(flash.argv[3], " -D ") == Some(f)
            && ParseDfuFileName(f) == Some((cableType, CreateSerialNumber(draws(k)))))
  {
    var vidPid := CableVidPids[cableType];
    TableShape(cableType);
    PlannedTrial(cableType, vidPid, draws, k);
    TrialArtifacts(cableType, vidPid, CreateSerialNumber(draws(k)));
  }

  /** `main` together with the final `exit(rv)`. */
  method RunTrials(cableType: string, draws: nat -> Draw, tool: Tool)
    returns (termination: Termination, steps: seq<Step>)
    ensures RunResult(termination, steps) == Run(cableType, draws, tool)
  {
    var lookup := LookupVidPid(cableType);
    if lookup.None? {
      return Exit(-1), [];
    }
    var vidPid := lookup.value;
    ghost var plan := Plan(cableType, vidPid, draws);
    steps := [];
    for i := 0 to TrialCount
      invariant |steps| == StepsPerTrial * i
      invariant ReturnedPrefix(plan, tool, steps)
    {
      var serialNumber := CreateSerialNumber(draws(i));
      var dfuFileName := DfuFileName(cableType, serialNumber);
      PlannedTrial(cableType, vidPid, draws, i);

      // build a serial-number DFU
      var command := BuildCommand(cableType, serialNumber, dfuFileName);
      var outcome := ExecuteCommand(tool(|steps|, command));
      if outcome.Halted? {
        Halt(plan, tool, steps, Execute(command));
        return outcome.termination, steps + [Execute(command)];
      }
      ReturnedPrefixExtend(plan, tool, steps, Execute(command));
      steps := steps + [Execute(command)];

      // program the cable with it
      command := FlashCommand(vidPid, dfuFileName);
      assert |steps| == StepsPerTrial * i + 1;
      outcome := ExecuteCommand(tool(|steps|, command));
      if outcome.Halted? {
        Halt(plan, tool, steps, Execute(command));
        return outcome.termination, steps + [Execute(command)];
      }
      ReturnedPrefixExtend(plan, tool, steps, Execute(command));
      steps := steps + [Execute(command)];

      // wait for the cable to reset and enumerate
      assert |steps| == StepsPerTrial * i + 2;
      ReturnedPrefixExtend(plan, tool, steps, Sleep(ResetDelaySeconds));
      steps := steps + [Sleep(ResetDelaySeconds)];

      // get the enumeration of the cable just programmed
      command := EnumerateCommand(vidPid);
      assert |steps| == StepsPerTrial * i + 3;
      outcome := ExecuteCommand(tool(|steps|, command));
      if outcome.Halted? {
        Halt(plan, tool, steps, Execute(command));
        return outcome.termination, steps + [Execute(command)];
      }
      ReturnedPrefixExtend(plan, tool, steps, Execute(command));
      steps := steps + [Execute(command)];
    }
    RunFromPrefix(plan, tool, steps);
    termination := Exit(1);
  }
}
