/** The self-destruct countdown (`DestroyObject`): inactive until `Start`,
    then it accumulates frame time and, on the first frame at or past its
    limit, stops, optionally damages the player, and requests removal. */
module DestroyTimers {
  import opened Basics
  import opened ScoreTracking
  import opened Shootables

  /** `removalRequested` records the `Destroy(gameObject)` of `OnTimerFinished`. */
  datatype TimerState = TimerState(currentTimer: real, isTimerActive: bool, removalRequested: bool)

  datatype TimerResult = TimerResult(state: TimerState, finished: bool)

  datatype TimerRunResult = TimerRunResult(state: TimerState, finishes: nat)

  /** The fields as initialised, before `Start`. */
  const Created := TimerState(0.0, false, false)

  /** `Start`: the countdown becomes active. */
  function StartStep(s: TimerState): (r: TimerState)
    ensures r.isTimerActive
    ensures r.currentTimer == s.currentTimer && r.removalRequested == s.removalRequested
  {
    s.(isTimerActive := true)
  }

  /** `Update` with frame time `dt`, for a countdown of `destroyTimer` seconds. */
  function UpdateStep(destroyTimer: real, s: TimerState, dt: real): (r: TimerResult)
    ensures !s.isTimerActive ==> r == TimerResult(s, false)
    ensures s.isTimerActive ==> r.state.currentTimer == s.currentTimer + dt
    ensures s.isTimerActive ==> (r.finished <==> s.currentTimer + dt >= destroyTimer)
    ensures r.finished ==> !r.state.isTimerActive && r.state.removalRequested
    ensures s.isTimerActive && !r.finished ==> r.state == s.(currentTimer := s.currentTimer + dt)
  {
    if !s.isTimerActive then TimerResult(s, false)
    else
      var s1 := s.(currentTimer := s.currentTimer + dt);
      if s1.currentTimer >= destroyTimer
      then TimerResult(s1.(isTimerActive := false, removalRequested := true), true)
      else TimerResult(s1, false)
  }

  /** What `OnTimerFinished` does to the player: damage only when
      `damagePlayerOnDestroy` is set. */
  function FinishEffect(damagePlayerOnDestroy: bool, damage: int, finished: bool): (e: HitEffect)
    ensures e != NoEffect <==> finished && damagePlayerOnDestroy
    ensures e != NoEffect ==> e == Damage(damage)
  {
    if finished && damagePlayerOnDestroy then Damage(damage) else NoEffect
  }

  function RealSum(xs: seq<real>): real {
    if xs == [] then 0.0 else xs[0] + RealSum(xs[1..])
  }

  /** A series of frames with the given frame times. */
  function UpdateRun(destroyTimer: real, s: TimerState, dts: seq<real>): TimerRunResult
    decreases |dts|
  {
    if dts == [] then TimerRunResult(s, 0)
    else
      var first := UpdateStep(destroyTimer, s, dts[0]);
      var rest := UpdateRun(destroyTimer, first.state, dts[1..]);
      TimerRunResult(rest.state, (if first.finished then 1 else 0) + rest.finishes)
  }

  /** Over any series of frames the countdown finishes at most once, and
      never while inactive: so the damage and the removal happen at most once. */
  lemma {:induction false} FinishesAtMostOnce(destroyTimer: real, s: TimerState, dts: seq<real>)
    ensures UpdateRun(destroyTimer, s, dts).finishes <= (if s.isTimerActive then 1 else 0)
    ensures !s.isTimerActive ==> UpdateRun(destroyTimer, s, dts).state == s
    decreases |dts|
  {
    if dts != [] {
      FinishesAtMostOnce(destroyTimer, UpdateStep(destroyTimer, s, dts[0]).state, dts[1..]);
    }
  }

  /** With non-negative frame times, while the accumulated time stays below
      the limit the countdown does not finish; it has then added exactly the
      frame times. */
  lemma {:induction false} NotFinishedBeforeDue(destroyTimer: real, s: TimerState, dts: seq<real>)
    requires s.isTimerActive
    requires forall i :: 0 <= i < |dts| ==> dts[i] >= 0.0
    requires s.currentTimer + RealSum(dts) < destroyTimer
    ensures UpdateRun(destroyTimer, s, dts).finishes == 0
    ensures UpdateRun(destroyTimer, s, dts).state == s.(currentTimer := s.currentTimer + RealSum(dts))
    decreases |dts|
  {
    if dts != [] {
      assert RealSum(dts) == dts[0] + RealSum(dts[1..]);
      NonNegativeSum(dts[1..]);
      var first := UpdateStep(destroyTimer, s, dts[0]);
      NotFinishedBeforeDue(destroyTimer, first.state, dts[1..]);
    }
  }

  lemma {:induction false} NonNegativeSum(xs: seq<real>)
    requires forall i :: 0 <= i < |xs| ==> xs[i] >= 0.0
    ensures RealSum(xs) >= 0.0
    decreases |xs|
  {
    if xs != [] {
      NonNegativeSum(xs[1..]);
    }
  }

  class DestroyObject {
    const destroyTimer: real
    const damagePlayerOnDestroy: bool
    /** The amount handed to `GetDamage`, whose argument the call site omits. */
    const damage: int
    var currentTimer: real
    var isTimerActive: bool
    var removalRequested: bool
    /** Whether the engine has called `Start` (it does so once per object). */
    ghost var started: bool
    /** How many times `OnTimerFinished` has run. */
    ghost var finishes: nat

    function State(): TimerState
      reads this
    {
      TimerState(currentTimer, isTimerActive, removalRequested)
    }

    /** Inactive before `Start`; finished at most once, after which it is
        inactive and its removal is requested. */
    ghost predicate Valid()
      reads this
    {
      && (!started ==> !isTimerActive && finishes == 0)
      && finishes <= 1
      && (finishes == 1 ==> !isTimerActive && removalRequested)
    }

    constructor (destroyTimer: real, damagePlayerOnDestroy: bool, damage: int)
      ensures Valid() && !started && finishes == 0 && State() == Created
      ensures this.destroyTimer == destroyTimer && this.damagePlayerOnDestroy == damagePlayerOnDestroy
      ensures this.damage == damage
    {
      this.destroyTimer := destroyTimer;
      this.damagePlayerOnDestroy := damagePlayerOnDestroy;
      this.damage := damage;
      currentTimer, isTimerActive, removalRequested := 0.0, false, false;
      started, finishes := false, 0;
    }

    method Start()
      requires Valid() && !started
      modifies this
      ensures Valid() && started && finishes == old(finishes)
      ensures State() == StartStep(old(State()))
    {
      isTimerActive := true;
      started := true;
    }

    method Update(dt: real, score: ScoreManager)
      requires Valid() && score.Valid()
      modifies this, score
      ensures Valid() && score.Valid() && started == old(started)
      ensures State() == UpdateStep(destroyTimer, old(State()), dt).state
      ensures finishes == old(finishes) + if UpdateStep(destroyTimer, old(State()), dt).finished then 1 else 0
      ensures score.State() ==
        ApplyEffect(old(score.State()),
          FinishEffect(damagePlayerOnDestroy, damage, UpdateStep(destroyTimer, old(State()), dt).finished)).state
      ensures score.events == old(score.events) +
        ApplyEffect(old(score.State()),
          FinishEffect(damagePlayerOnDestroy, damage, UpdateStep(destroyTimer, old(State()), dt).finished)).events
    {
      if !isTimerActive {
        return;
      }
      currentTimer := currentTimer + dt;
      if currentTimer >= destroyTimer {
        OnTimerFinished(score);
      }
    }

    method OnTimerFinished(score: ScoreManager)
      requires Valid() && score.Valid() && isTimerActive
      modifies this, score
      ensures Valid() && score.Valid() && started == old(started)
      ensures State() == old(State()).(isTimerActive := false, removalRequested := true)
      ensures finishes == old(finishes) + 1
      ensures score.State() == ApplyEffect(old(score.State()), FinishEffect(damagePlayerOnDestroy, damage, true)).state
      ensures score.events ==
        old(score.events) + ApplyEffect(old(score.State()), FinishEffect(damagePlayerOnDestroy, damage, true)).events
    {
      isTimerActive := false;
      finishes := finishes + 1;
      if damagePlayerOnDestroy {
        score.GetDamage(damage);
      }
      removalRequested := true;
    }
  }
}
