/**
 * The guided-brewing screen's session controller
 * (src/screens/BrewingGuide/index.tsx): the step index, the elapsed-time counter,
 * the running and paused flags and the per-step completion flags, changed by the
 * screen's handlers and by a one-second tick.
 *
 * The transitions are specified as functions on a `Session` value; the class
 * `BrewingGuideSession` holds the same fields as mutable state and each of its
 * methods is proved to move its state by the matching function.
 */
module BrewingGuide {
  import opened Types
  import TimeFormat

  /** The six steps the screen hard-codes, whatever the recipe's own steps are. */
  function GuideSteps(): (steps: seq<BrewingStep>)
    ensures |steps| == 6
  {
    [ BrewingStep(1, "准备工作", "准备器具和咖啡豆，检查研磨度和水温", 30, None, None,
                  Some("确保所有器具清洁干净")),
      BrewingStep(2, "闷蒸", "从中心开始顺时针缓慢注水，观察粉层膨胀", 30, Some(50), Some(92),
                  Some("注水速度要均匀，水流要细")),
      BrewingStep(3, "第一次注水", "继续注水至150ml，保持均匀的水流", 45, Some(100), None,
                  Some("观察萃取颜色变化")),
      BrewingStep(4, "第二次注水", "最后注水至250ml，完成萃取", 60, Some(100), None,
                  Some("注意控制总萃取时间")),
      BrewingStep(5, "等待滤完", "等待咖啡完全滤完，观察咖啡液颜色", 45, None, None,
                  Some("不要按压或搅拌滤杯")),
      BrewingStep(6, "完成", "制作完成！享受您的手冲咖啡", 0, None, None,
                  Some("趁热品尝，感受香气和风味")) ]
  }

  /**
   * The screen's state. `completedSteps` is a JavaScript array created with the
   * recipe's step count but indexed by the guide's own steps; writing past its end
   * grows it, and an unwritten index reads as `undefined` (not completed). It is
   * therefore modelled as a map from index to flag.
   *
   * `skipTimer` is the `timer` value seen by the "skip" button's memoised handler:
   * that handler is rebuilt only when the step index or the flags change, and it
   * carries the completion handler (and so the timer value) of that render.
   */
  datatype Session = Session(
    currentStep: nat,
    timer: nat,
    isRunning: bool,
    isPaused: bool,
    completedSteps: map<nat, bool>,
    skipTimer: nat)

  /** Whether step `i` is shown as completed (`completedSteps[i]` is truthy). */
  predicate IsCompleted(s: Session, i: nat) {
    i in s.completedSteps && s.completedSteps[i]
  }

  /** `new Array(k).fill(false)` as a flag map: indices below `k`, all false. */
  function FalseFlags(k: nat): (m: map<nat, bool>)
    ensures forall i :: i in m ==> i < k && !m[i]
    ensures forall i: nat :: i < k ==> i in m
  {
    if k == 0 then map[] else FalseFlags(k - 1)[k - 1 := false]
  }

  /** The state on entering the screen with a recipe of `recipeStepCount` steps. */
  function Initial(recipeStepCount: nat): Session {
    Session(0, 0, false, false, FalseFlags(recipeStepCount), 0)
  }

  /** `handleStart`: the session runs and is not paused; the step, the flags and the
      timer are kept, so starting again resumes rather than restarts. */
  function Start(s: Session): (r: Session)
    ensures r.isRunning && !r.isPaused
    ensures r.currentStep == s.currentStep && r.timer == s.timer
    ensures r.completedSteps == s.completedSteps
  {
    s.(isRunning := true, isPaused := false)
  }

  /** `handlePause`: flips the paused flag, whether or not the session runs. */
  function Pause(s: Session): (r: Session)
    ensures r.isPaused == !s.isPaused && r.isRunning == s.isRunning
    ensures r.(isPaused := s.isPaused) == s
  {
    s.(isPaused := !s.isPaused)
  }

  /** `handleComplete`, without its dialog: only stops the run. */
  function Complete(s: Session): (r: Session)
    ensures !r.isRunning
    ensures r.(isRunning := s.isRunning) == s
  {
    s.(isRunning := false)
  }

  /** One firing of the one-second interval, which exists only while running and not paused. */
  function TickSession(s: Session): (r: Session)
    ensures s.timer <= r.timer <= s.timer + 1
    ensures r.timer == s.timer + 1 <==> s.isRunning && !s.isPaused
    ensures r.(timer := s.timer) == s
  {
    if s.isRunning && !s.isPaused then s.(timer := s.timer + 1) else s
  }

  /** `handleNextStep` over a guide of `n` steps: before the last step it marks the
      current step done and moves on; on the last step it only stops the run. The
      timer and the pause flag are never touched. */
  function NextStep(s: Session, n: nat): (r: Session)
    ensures s.currentStep + 1 < n ==>
              r.currentStep == s.currentStep + 1 && IsCompleted(r, s.currentStep) &&
              r.isRunning == s.isRunning
    ensures s.currentStep + 1 >= n ==>
              r.currentStep == s.currentStep && r.completedSteps == s.completedSteps && !r.isRunning
    ensures r.timer == s.timer && r.isPaused == s.isPaused
  {
    if s.currentStep + 1 < n then
      s.(completedSteps := s.completedSteps[s.currentStep := true],
         currentStep := s.currentStep + 1,
         skipTimer := s.timer)
    else
      Complete(s)
  }

  /** `handlePreviousStep`: back one step unless on the first; flags are kept. */
  function PreviousStep(s: Session): (r: Session)
    ensures r.currentStep == if s.currentStep > 0 then s.currentStep - 1 else 0
    ensures r.completedSteps == s.completedSteps && r.timer == s.timer
    ensures r.isRunning == s.isRunning && r.isPaused == s.isPaused
  {
    if s.currentStep > 0 then s.(currentStep := s.currentStep - 1, skipTimer := s.timer) else s
  }

  /** The primary button: "开始" (start) when not running, otherwise pause/resume. */
  function PrimaryButton(s: Session): (r: Session)
    ensures !s.isRunning ==> r.isRunning && !r.isPaused
    ensures s.isRunning ==> r.isRunning && r.isPaused == !s.isPaused
    ensures r.currentStep == s.currentStep && r.timer == s.timer
  {
    if s.isRunning then Pause(s) else Start(s)
  }

  /** Everything that can change the session: each handler and the tick. */
  datatype Event = StartPressed | PausePressed | NextPressed | PreviousPressed
                 | CompletePressed | PrimaryPressed | TimerTick

  function Apply(s: Session, e: Event, n: nat): Session {
    match e
    case StartPressed => Start(s)
    case PausePressed => Pause(s)
    case NextPressed => NextStep(s, n)
    case PreviousPressed => PreviousStep(s)
    case CompletePressed => Complete(s)
    case PrimaryPressed => PrimaryButton(s)
    case TimerTick => TickSession(s)
  }

  function Run(s: Session, events: seq<Event>, n: nat): Session
    decreases |events|
  {
    if events == [] then s else Run(Apply(s, events[0], n), events[1..], n)
  }

  /**
   * What holds at every observable point of a guide of `n` steps: the index is a
   * valid step, the completed steps form a prefix that covers every step before
   * the current one, the last step is never marked completed, and the skip
   * handler's timer value is never ahead of the timer.
   */
  ghost predicate Inv(s: Session, n: nat) {
    && 1 <= n
    && s.currentStep < n
    && (forall i: nat :: i < s.currentStep ==> IsCompleted(s, i))
    && (forall i: nat, j: nat :: j <= i && IsCompleted(s, i) ==> IsCompleted(s, j))
    && (forall i: nat :: IsCompleted(s, i) ==> i < n - 1)
    && s.skipTimer <= s.timer
  }

  lemma InitialInv(recipeStepCount: nat, n: nat)
    requires 1 <= n
    ensures Inv(Initial(recipeStepCount), n)
    ensures forall i: nat :: !IsCompleted(Initial(recipeStepCount), i)
  {
  }

  /** Before the last step, "next" marks the current step completed, moves exactly one
      step on and changes no other flag and neither run flag nor the timer. */
  lemma NextStepAdvances(s: Session, n: nat)
    requires s.currentStep + 1 < n
    ensures NextStep(s, n).currentStep == s.currentStep + 1
    ensures IsCompleted(NextStep(s, n), s.currentStep)
    ensures forall i: nat :: i != s.currentStep ==>
              IsCompleted(NextStep(s, n), i) == IsCompleted(s, i)
    ensures NextStep(s, n).timer == s.timer
    ensures NextStep(s, n).isRunning == s.isRunning && NextStep(s, n).isPaused == s.isPaused
  {
  }

  /** On the last step, "next" keeps the step and the flags and only stops the run. */
  lemma NextStepAtLast(s: Session, n: nat)
    requires Inv(s, n) && s.currentStep == n - 1
    ensures NextStep(s, n).currentStep == s.currentStep
    ensures NextStep(s, n).completedSteps == s.completedSteps
    ensures !NextStep(s, n).isRunning
    ensures NextStep(s, n).timer == s.timer && NextStep(s, n).isPaused == s.isPaused
    ensures NextStep(NextStep(s, n), n) == NextStep(s, n)
  {
  }

  /** "Previous" moves back one step only from a step after the first, and never
      touches a completion flag. */
  lemma PreviousStepEffect(s: Session)
    ensures PreviousStep(s).currentStep == if s.currentStep > 0 then s.currentStep - 1 else 0
    ensures s.currentStep == 0 ==> PreviousStep(s) == s
    ensures PreviousStep(s).completedSteps == s.completedSteps
    ensures PreviousStep(s).timer == s.timer && PreviousStep(s).isRunning == s.isRunning
    ensures PreviousStep(s).isPaused == s.isPaused
  {
  }

  /** Start runs and unpauses but does not reset the timer, the step or the flags. */
  lemma StartKeepsProgress(s: Session)
    ensures Start(s).isRunning && !Start(s).isPaused
    ensures Start(s).timer == s.timer && Start(s).currentStep == s.currentStep
    ensures Start(s).completedSteps == s.completedSteps
  {
  }

  /** Pause flips the paused flag whatever the run state, changes nothing else, and
      pressing it twice changes nothing at all. */
  lemma PauseIsInvolution(s: Session)
    ensures Pause(s).isPaused == !s.isPaused
    ensures Pause(s).(isPaused := s.isPaused) == s
    ensures Pause(Pause(s)) == s
  {
  }

  /** A tick adds exactly one second when running and not paused, and nothing otherwise. */
  lemma TickEffect(s: Session)
    ensures TickSession(s).timer == if s.isRunning && !s.isPaused then s.timer + 1 else s.timer
    ensures TickSession(s).(timer := s.timer) == s
  {
  }

  /** Every handler and the tick keep the invariant; only a tick changes the timer,
      and then by at most one. */
  lemma ApplyPreservesInv(s: Session, e: Event, n: nat)
    requires Inv(s, n)
    ensures Inv(Apply(s, e, n), n)
    ensures s.timer <= Apply(s, e, n).timer <= s.timer + 1
    ensures e != TimerTick ==> Apply(s, e, n).timer == s.timer
  {
    if e == NextPressed && s.currentStep + 1 < n {
      var c := s.currentStep;
      var r := NextStep(s, n);
      assert r.completedSteps == s.completedSteps[c := true];
      assert forall i: nat :: i != c ==> (IsCompleted(r, i) <==> IsCompleted(s, i));
      assert IsCompleted(r, c);
      forall i: nat | i < r.currentStep
        ensures IsCompleted(r, i)
      {
        if i != c {
          assert IsCompleted(s, i);
        }
      }
      forall i: nat, j: nat | j <= i && IsCompleted(r, i)
        ensures IsCompleted(r, j)
      {
        if j != c {
          if i == c {
            assert IsCompleted(s, j);
          } else {
            assert IsCompleted(s, i);
            assert IsCompleted(s, j);
          }
        }
      }
      forall i: nat | IsCompleted(r, i)
        ensures i < n - 1
      {
        if i != c {
          assert IsCompleted(s, i);
        }
      }
      assert Apply(s, e, n) == r;
    } else {
      var r := Apply(s, e, n);
      assert r.completedSteps == s.completedSteps && r.currentStep <= s.currentStep;
      assert forall i: nat :: IsCompleted(r, i) == IsCompleted(s, i);
    }
  }

  /** Any sequence of presses and ticks from a valid state keeps the step index in
      range and the flags a prefix, and never makes the timer go back. */
  lemma {:induction false} RunPreservesInv(s: Session, events: seq<Event>, n: nat)
    requires Inv(s, n)
    ensures Inv(Run(s, events, n), n)
    ensures s.timer <= Run(s, events, n).timer
    decreases |events|
  {
    if events != [] {
      ApplyPreservesInv(s, events[0], n);
      RunPreservesInv(Apply(s, events[0], n), events[1..], n);
    }
  }

  /** `k` presses of "next". */
  function Advance(s: Session, k: nat, n: nat): Session
    decreases k
  {
    if k == 0 then s else Advance(NextStep(s, n), k - 1, n)
  }

  /** From a valid state, `k` presses of "next" that stay within the guide move exactly
      `k` steps on, leave every step before the new one completed, and keep the timer
      and the run flags. */
  lemma {:induction false} AdvanceMovesOn(s: Session, k: nat, n: nat)
    requires Inv(s, n) && s.currentStep + k < n
    ensures Advance(s, k, n).currentStep == s.currentStep + k
    ensures forall i: nat :: i < s.currentStep + k ==> IsCompleted(Advance(s, k, n), i)
    ensures Advance(s, k, n).timer == s.timer
    ensures Advance(s, k, n).isRunning == s.isRunning
    ensures Advance(s, k, n).isPaused == s.isPaused
    decreases k
  {
    if k > 0 {
      ApplyPreservesInv(s, NextPressed, n);
      AdvanceMovesOn(NextStep(s, n), k - 1, n);
    }
  }

  /** From the first step, `n - 1` presses of "next" reach the last step with every
      earlier step completed, and one more press stops the run there. */
  lemma WalkThroughGuide(s: Session, n: nat) returns (last: Session)
    requires Inv(s, n) && s.currentStep == 0
    ensures last == Advance(s, n - 1, n)
    ensures last.currentStep == n - 1
    ensures forall i: nat :: i < n - 1 ==> IsCompleted(last, i)
    ensures !NextStep(last, n).isRunning && NextStep(last, n).currentStep == n - 1
  {
    last := Advance(s, n - 1, n);
    AdvanceMovesOn(s, n - 1, n);
  }

  /** `progress`: the share of steps reached, in percent. Kept exact as a `real`. */
  function Progress(currentStep: nat, n: nat): (percent: real)
    requires n >= 1
    ensures percent > 0.0
    ensures percent * n as real == 100.0 * (currentStep + 1) as real
  {
    ((currentStep + 1) as real / n as real) * 100.0
  }

  /** Progress is positive, at most 100, and exactly 100 on the last step only. */
  lemma ProgressBounds(currentStep: nat, n: nat)
    requires currentStep < n
    ensures 0.0 < Progress(currentStep, n) <= 100.0
    ensures Progress(currentStep, n) == 100.0 <==> currentStep == n - 1
  {
    var f := (currentStep + 1) as real / n as real;
    assert f * n as real == (currentStep + 1) as real;
    assert f <= 1.0;
    if f == 1.0 {
      assert (currentStep + 1) as real == n as real;
    }
  }

  /** The "next step" hint under the parameter card. */
  function NextStepHint(steps: seq<BrewingStep>, currentStep: nat): (hint: Option<BrewingStep>)
    ensures hint.Some? <==> currentStep + 1 < |steps|
    ensures hint.Some? ==> hint.value in steps
  {
    if currentStep + 1 < |steps| then Some(steps[currentStep + 1]) else None
  }

  /** The hint is shown exactly when "next" would move to another step, and it names the
      step that "next" moves to; on the last step there is none and "next" stops the run. */
  lemma NextStepHintAnnouncesNext(s: Session, steps: seq<BrewingStep>)
    requires Inv(s, |steps|)
    ensures NextStepHint(steps, s.currentStep).Some? <==> s.currentStep < |steps| - 1
    ensures NextStepHint(steps, s.currentStep).Some? ==>
              NextStepHint(steps, s.currentStep).value == steps[NextStep(s, |steps|).currentStep]
    ensures NextStepHint(steps, s.currentStep).None? ==> !NextStep(s, |steps|).isRunning
  {
  }

  /** The brewing record the completion dialog passes on to the tasting screen. */
  function CompletionRecord(id: string, recipe: BrewingMethod, bean: CoffeeBean, actualTime: nat)
    : BrewingRecord
  {
    BrewingRecord(id, "user1", recipe.id, bean.id, recipe.parameters,
                  BrewingResult(actualTime, recipe.parameters.waterAmount, None, None), 0, "")
  }

  /** The record made when the session is completed, from the current timer. */
  function RecordOnComplete(s: Session, id: string, recipe: BrewingMethod, bean: CoffeeBean)
    : (record: BrewingRecord)
    ensures record.result.actualTime == s.timer
    ensures record.userId == "user1" && record.notes == ""
  {
    CompletionRecord(id, recipe, bean, s.timer)
  }

  /** The record as written when "skip" completes the last step: its completion handler
      is the one captured with the skip handler, so the time is `skipTimer`. */
  function RecordOnSkipAsWritten(s: Session, id: string, recipe: BrewingMethod, bean: CoffeeBean)
    : (record: BrewingRecord)
    ensures record.result.actualTime == s.skipTimer
    ensures record.(result := record.result.(actualTime := s.timer)) ==
            RecordOnComplete(s, id, recipe, bean)
  {
    CompletionRecord(id, recipe, bean, s.skipTimer)
  }

  /** The record reports the elapsed time, the recipe's water amount as yield, the
      recipe's and bean's ids and parameters, and an unrated empty note. */
  lemma RecordOnCompleteFields(s: Session, id: string, recipe: BrewingMethod, bean: CoffeeBean)
    ensures RecordOnComplete(s, id, recipe, bean).result.actualTime == s.timer
    ensures RecordOnComplete(s, id, recipe, bean).result.yieldAmount == recipe.parameters.waterAmount
    ensures RecordOnComplete(s, id, recipe, bean).recipeId == recipe.id
    ensures RecordOnComplete(s, id, recipe, bean).coffeeBeanId == bean.id
    ensures RecordOnComplete(s, id, recipe, bean).parameters == recipe.parameters
    ensures RecordOnComplete(s, id, recipe, bean).rating == 0
  {
  }

  /** Start, reach the last step, let three seconds pass, then press "skip": the record
      as written reports 0 seconds although the timer shows 3. */
  lemma SkipRecordIsStale(id: string, recipe: BrewingMethod, bean: CoffeeBean)
    ensures var s := Run(Initial(0), [StartPressed, NextPressed, NextPressed, NextPressed,
                                      NextPressed, NextPressed, TimerTick, TimerTick,
                                      TimerTick, NextPressed], 6);
            s.timer == 3 && s.currentStep == 5 && !s.isRunning &&
            RecordOnSkipAsWritten(s, id, recipe, bean).result.actualTime == 0 &&
            RecordOnComplete(s, id, recipe, bean).result.actualTime == 3
  {
    var s1 := Start(Initial(0));
    var s6 := Advance(s1, 5, 6);
    AdvanceMovesOn(s1, 5, 6);
    assert s6.skipTimer == 0 && s6.timer == 0 by {
      assert s6 == NextStep(NextStep(NextStep(NextStep(NextStep(s1, 6), 6), 6), 6), 6);
    }
    var s9 := TickSession(TickSession(TickSession(s6)));
    assert s9 == s6.(timer := 3);
    var last := [TimerTick, TimerTick, TimerTick, NextPressed];
    assert Run(s6, last, 6) == NextStep(s9, 6) by {
      assert last[1..] == [TimerTick, TimerTick, NextPressed];
      assert last[1..][1..] == [TimerTick, NextPressed];
      assert last[1..][1..][1..] == [NextPressed];
    }
    RunSplit(Initial(0), [StartPressed] + Nexts(5), last, 6);
    assert ([StartPressed] + Nexts(5))[1..] == Nexts(5);
    RunNexts(s1, 5, 6);
    assert [StartPressed, NextPressed, NextPressed, NextPressed, NextPressed, NextPressed,
            TimerTick, TimerTick, TimerTick, NextPressed] == [StartPressed] + Nexts(5) + last;
  }

  /** `k` presses of "next". */
  function Nexts(k: nat): (events: seq<Event>)
    ensures |events| == k && forall i :: 0 <= i < k ==> events[i] == NextPressed
  {
    if k == 0 then [] else [NextPressed] + Nexts(k - 1)
  }

  /** Running a concatenation runs the parts one after the other. */
  lemma {:induction false} RunSplit(s: Session, a: seq<Event>, b: seq<Event>, n: nat)
    ensures Run(s, a + b, n) == Run(Run(s, a, n), b, n)
    decreases |a|
  {
    if a == [] {
      assert a + b == b;
    } else {
      assert (a + b)[1..] == a[1..] + b;
      RunSplit(Apply(s, a[0], n), a[1..], b, n);
    }
  }

  /** Pressing "next" `k` times is advancing `k` steps. */
  lemma {:induction false} RunNexts(s: Session, k: nat, n: nat)
    ensures Run(s, Nexts(k), n) == Advance(s, k, n)
    decreases k
  {
    if k > 0 {
      RunNexts(NextStep(s, n), k - 1, n);
      assert Nexts(k)[1..] == Nexts(k - 1);
    }
  }

  /** The screen's state as a mutable object. */
  class BrewingGuideSession {
    const recipe: BrewingMethod
    const bean: CoffeeBean
    const steps: seq<BrewingStep>
    var currentStep: nat
    var timer: nat
    var isRunning: bool
    var isPaused: bool
    var completedSteps: map<nat, bool>
    var skipTimer: nat

    function State(): Session
      reads this
    {
      Session(currentStep, timer, isRunning, isPaused, completedSteps, skipTimer)
    }

    ghost predicate Valid()
      reads this
    {
      steps == GuideSteps() && Inv(State(), |steps|)
    }

    /** Entering the screen with a recipe and a bean; the flags are sized by the
        recipe's steps, the guide uses its own six. */
    constructor (recipe: BrewingMethod, bean: CoffeeBean)
      ensures Valid()
      ensures this.recipe == recipe && this.bean == bean
      ensures State() == Initial(|recipe.steps|)
    {
      this.recipe := recipe;
      this.bean := bean;
      steps := GuideSteps();
      currentStep := 0;
      timer := 0;
      isRunning := false;
      isPaused := false;
      completedSteps := FalseFlags(|recipe.steps|);
      skipTimer := 0;
      new;
      InitialInv(|recipe.steps|, 6);
    }

    method HandleStart()
      requires Valid()
      modifies this
      ensures Valid() && State() == Start(old(State()))
    {
      isRunning := true;
      isPaused := false;
      ApplyPreservesInv(old(State()), StartPressed, |steps|);
    }

    method HandlePause()
      requires Valid()
      modifies this
      ensures Valid() && State() == Pause(old(State()))
    {
      isPaused := !isPaused;
      ApplyPreservesInv(old(State()), PausePressed, |steps|);
    }

    method HandleComplete()
      requires Valid()
      modifies this
      ensures Valid() && State() == Complete(old(State()))
    {
      isRunning := false;
      ApplyPreservesInv(old(State()), CompletePressed, |steps|);
    }

    method HandleNextStep()
      requires Valid()
      modifies this
      ensures Valid() && State() == NextStep(old(State()), |steps|)
    {
      if currentStep < |steps| - 1 {
        completedSteps := completedSteps[currentStep := true];
        currentStep := currentStep + 1;
        skipTimer := timer;
      } else {
        HandleComplete();
      }
      ApplyPreservesInv(old(State()), NextPressed, |steps|);
    }

    method HandlePreviousStep()
      requires Valid()
      modifies this
      ensures Valid() && State() == PreviousStep(old(State()))
    {
      if currentStep > 0 {
        currentStep := currentStep - 1;
        skipTimer := timer;
      }
      ApplyPreservesInv(old(State()), PreviousPressed, |steps|);
    }

    method PressPrimaryButton()
      requires Valid()
      modifies this
      ensures Valid() && State() == PrimaryButton(old(State()))
    {
      if isRunning {
        HandlePause();
      } else {
        HandleStart();
      }
    }

    method Tick()
      requires Valid()
      modifies this
      ensures Valid() && State() == TickSession(old(State()))
    {
      if isRunning && !isPaused {
        timer := timer + 1;
      }
      ApplyPreservesInv(old(State()), TimerTick, |steps|);
    }

    /** The brewing record handed to the tasting screen when the session is completed,
        for a given id: it reports the elapsed time shown by the timer. */
    function RecordNow(id: string): (record: BrewingRecord)
      reads this
      ensures record.result.actualTime == timer
      ensures record.result.yieldAmount == recipe.parameters.waterAmount
      ensures record.recipeId == recipe.id && record.coffeeBeanId == bean.id
      ensures record.userId == "user1" && record.rating == 0 && record.notes == ""
    {
      RecordOnComplete(State(), id, recipe, bean)
    }

    /** The timer text in the header, "mm:ss". */
    function ElapsedText(): (t: string)
      reads this
      ensures TimeFormat.ParseTime(t) == Some(timer)
    {
      TimeFormat.FormatTimeRoundTrip(timer);
      TimeFormat.FormatTime(timer)
    }
  }
}
