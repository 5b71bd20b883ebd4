/**
 * The test-session controller of the test page (src/pages/Test.tsx).
 *
 * The page keeps six state cells — the phase, the countdown in seconds, the
 * number of stimuli shown so far, whether a stimulus is visible, whether it
 * is a target, and the timestamps of the Space presses — and four kinds of
 * callback change them: a one-second countdown tick, a two-second trial
 * tick, a 100 ms hide-stimulus timeout, and the key and button handlers.
 * Each callback is one atomic step method of `TestSession` below. The random
 * draw of the trial tick and the `Date.now()` value of a key press are
 * parameters of their steps.
 */
module Session {
  import Clock
  import opened Wrappers

  /** The four values of `testPhase`; `Practice` is declared but never entered. */
  datatype Phase = Instructions | Practice | Test | Completed

  /** Number of stimuli in one session (`totalTrials`). */
  const TotalTrials: nat := 320

  /** Length of the session countdown, 21 minutes in seconds. */
  const SessionSeconds: nat := 21 * 60

  /** A draw below this value makes the trial a target. */
  const TargetProbability: real := 0.22

  /** The `KeyboardEvent.code` the key handler reacts to. */
  const SpaceCode: string := "Space"

  /**
   * The phase changes any single step may make: stay, start the test from
   * the instructions, or complete the test. No step leaves `Completed` and
   * none enters `Practice`.
   */
  predicate PhaseStep(before: Phase, after: Phase) {
    before == after
    || (before == Instructions && after == Test)
    || (before == Test && after == Completed)
  }

  /** Position of a phase in the session's life; steps never decrease it. */
  function PhaseRank(p: Phase): nat {
    match p
    case Instructions => 0
    case Practice => 1
    case Test => 2
    case Completed => 3
  }

  /** A step never moves the session back, never leaves `Completed` and never enters `Practice`. */
  lemma PhaseStepForward(before: Phase, after: Phase)
    requires PhaseStep(before, after)
    ensures PhaseRank(before) <= PhaseRank(after)
    ensures before == Completed ==> after == Completed
    ensures after == Practice ==> before == Practice
  {
  }

  /** The width of the progress bar, `currentTrial / totalTrials * 100`. */
  function Progress(trial: nat): (p: real)
    requires trial <= TotalTrials
    ensures 0.0 <= p <= 100.0
    ensures p == 0.0 <==> trial == 0
    ensures p == 100.0 <==> trial == TotalTrials
  {
    (trial as real / TotalTrials as real) * 100.0
  }

  class TestSession {
    var phase: Phase
    var timeLeft: int
    var currentTrial: int
    var showStimulus: bool
    var isTarget: bool
    var responses: seq<int>

    /**
     * The session invariant: the phase is never `Practice`, the countdown
     * stays within [0, 21 minutes], the trial counter within
     * [0, TotalTrials], and until the test starts nothing has happened.
     */
    ghost predicate Valid()
      reads this
    {
      && phase != Practice
      && 0 <= timeLeft <= SessionSeconds
      && 0 <= currentTrial <= TotalTrials
      && (phase == Instructions ==>
            timeLeft == SessionSeconds && currentTrial == 0 && !showStimulus && responses == [])
    }

    /** The initial values of the page's state cells. */
    constructor ()
      ensures Valid()
      ensures phase == Instructions && timeLeft == SessionSeconds && currentTrial == 0
      ensures !showStimulus && !isTarget && responses == []
    {
      phase := Instructions;
      timeLeft := SessionSeconds;
      currentTrial := 0;
      showStimulus := false;
      isTarget := false;
      responses := [];
    }

    /**
     * One firing of the countdown interval. The interval exists only while
     * the phase is `Test` and time is left, so outside that state a tick
     * does nothing; inside it, the countdown loses exactly one second.
     */
    method CountdownTick()
      requires Valid()
      modifies this`timeLeft
      ensures Valid()
      ensures old(phase == Test && timeLeft > 0) ==> timeLeft == old(timeLeft) - 1
      ensures !old(phase == Test && timeLeft > 0) ==> timeLeft == old(timeLeft)
    {
      if phase == Test && timeLeft > 0 {
        timeLeft := timeLeft - 1;
      }
    }

    /**
     * The countdown effect re-run after a change of phase or time: when no
     * interval is due and the countdown stands at zero, the test completes.
     */
    method ExpireIfTimeUp()
      requires Valid()
      modifies this`phase
      ensures Valid()
      ensures PhaseStep(old(phase), phase)
      ensures timeLeft == 0 ==> phase == Completed
      ensures timeLeft != 0 ==> phase == old(phase)
    {
      if !(phase == Test && timeLeft > 0) && timeLeft == 0 {
        phase := Completed;
      }
    }

    /**
     * One firing of the two-second trial interval, which exists only in the
     * `Test` phase. Once all trials have been shown it completes the test;
     * otherwise it shows one more stimulus, a target when `draw` (the value
     * of `Math.random()`) is below the target probability.
     */
    method TrialTick(draw: real)
      requires Valid()
      requires 0.0 <= draw < 1.0
      modifies this`phase, this`isTarget, this`showStimulus, this`currentTrial
      ensures Valid()
      ensures PhaseStep(old(phase), phase)
      ensures old(phase) != Test ==>
                phase == old(phase) && currentTrial == old(currentTrial)
                && showStimulus == old(showStimulus) && isTarget == old(isTarget)
      ensures old(phase) == Test && old(currentTrial) >= TotalTrials ==>
                phase == Completed && currentTrial == old(currentTrial)
                && showStimulus == old(showStimulus) && isTarget == old(isTarget)
      ensures old(phase) == Test && old(currentTrial) < TotalTrials ==>
                phase == Test && currentTrial == old(currentTrial) + 1
                && showStimulus && isTarget == (draw < TargetProbability)
    {
      if phase == Test {
        if currentTrial >= TotalTrials {
          phase := Completed;
          return;
        }
        isTarget := draw < TargetProbability;
        showStimulus := true;
        currentTrial := currentTrial + 1;
      }
    }

    /** The 100 ms timeout after a stimulus: it hides the stimulus, whatever else happened. */
    method HideStimulus()
      requires Valid()
      modifies this`showStimulus
      ensures Valid()
      ensures !showStimulus
    {
      showStimulus := false;
    }

    /**
     * A `keydown` event with code `code` at time `now`. The listener is
     * installed only in the `Test` phase and reacts only to Space, which
     * appends one timestamp to the responses.
     */
    method KeyDown(code: string, now: int)
      requires Valid()
      modifies this`responses
      ensures Valid()
      ensures code == SpaceCode && old(phase) == Test ==> responses == old(responses) + [now]
      ensures !(code == SpaceCode && old(phase) == Test) ==> responses == old(responses)
    {
      if code == SpaceCode {
        SpacePress(now);
      }
    }

    /** `handleSpacePress`: records the press time, in the `Test` phase only. */
    method SpacePress(now: int)
      requires Valid()
      modifies this`responses
      ensures Valid()
      ensures old(phase) == Test ==> responses == old(responses) + [now]
      ensures old(phase) != Test ==> responses == old(responses)
    {
      if phase == Test {
        responses := responses + [now];
      }
    }

    /** The start button, rendered only with the instructions. */
    method StartTest()
      requires Valid()
      requires phase == Instructions
      modifies this`phase
      ensures Valid()
      ensures PhaseStep(old(phase), phase)
      ensures phase == Test
    {
      phase := Test;
    }

    /** The emergency-stop button, rendered only during the test. */
    method FinishTest()
      requires Valid()
      requires phase == Test
      modifies this`phase
      ensures Valid()
      ensures PhaseStep(old(phase), phase)
      ensures phase == Completed
    {
      phase := Completed;
    }

    /** The countdown label shown during the test. */
    function TimerLabel(): (text: string)
      reads this
      requires Valid()
      ensures |text| == 5 && text[2] == ':'
      ensures Clock.ClockSeconds(text) == Some(timeLeft)
    {
      Clock.FormatTime(timeLeft)
    }

    /** The progress bar's value during the test. */
    function ProgressValue(): (p: real)
      reads this
      requires Valid()
      ensures 0.0 <= p <= 100.0
    {
      Progress(currentTrial)
    }
  }

  /** A short session driven through every step: start, one target, a press, a stray key, stop. */
  method SessionScenario()
  {
    var s := new TestSession();
    s.KeyDown(SpaceCode, 5);
    assert s.responses == [];
    s.StartTest();
    s.TrialTick(0.1);
    assert s.showStimulus && s.isTarget && s.currentTrial == 1;
    s.HideStimulus();
    s.KeyDown(SpaceCode, 1000);
    s.KeyDown("Enter", 1001);
    assert s.responses == [1000];
    s.CountdownTick();
    assert s.timeLeft == SessionSeconds - 1;
    s.TrialTick(0.5);
    assert !s.isTarget && s.currentTrial == 2;
    s.FinishTest();
    s.TrialTick(0.1);
    s.CountdownTick();
    s.KeyDown(SpaceCode, 3000);
    assert s.phase == Completed && s.currentTrial == 2 && s.responses == [1000];
    assert s.timeLeft == SessionSeconds - 1;
  }
}
