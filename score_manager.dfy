/** The score and lives tracker (`ScoreManager`). One tracker is passed
    explicitly to every component that changes it; its two Unity events are
    recorded, in the order they are raised, in a ghost log. */
module ScoreTracking {
  import opened Basics

  /** A notification raised by the tracker. `ScoreChanged` also records the
      best score a listener reads while the event is being dispatched, which
      is the value before `AddPoints` updates it. */
  datatype ScoreEvent =
    | ScoreChanged(score: int, maxScoreSeen: int)
    | LevelLost(lives: int)

  /** The tracker's counters. */
  datatype ScoreState = ScoreState(currentScore: int, maxScore: int, lives: int)

  /** The counters after an operation and the events it raised. */
  datatype Outcome = Outcome(state: ScoreState, events: seq<ScoreEvent>)

  /** What every operation keeps: the best score is never below the current
      score, nor below its initial value 0. */
  predicate Consistent(s: ScoreState) {
    0 <= s.maxScore && s.currentScore <= s.maxScore
  }

  /** `Reset`: score back to 0, lives back to the configured count, the best
      score kept, one score-changed(0) notification. */
  function ResetStep(s: ScoreState, lifeCount: int): (r: Outcome)
    ensures r.state.currentScore == 0 && r.state.lives == lifeCount
    ensures r.state.maxScore == s.maxScore
    ensures r.events == [ScoreChanged(0, s.maxScore)]
    ensures 0 <= s.maxScore ==> Consistent(r.state)
  {
    Outcome(ScoreState(0, s.maxScore, lifeCount), [ScoreChanged(0, s.maxScore)])
  }

  /** `AddPoints(points)`: the score moves by exactly `points`, the event
      carries the new score and is raised before the best score is updated. */
  function AddPointsStep(s: ScoreState, points: int): (r: Outcome)
    ensures r.state.currentScore == s.currentScore + points
    ensures r.state.lives == s.lives
    ensures r.state.maxScore == Max(s.maxScore, r.state.currentScore)
    ensures r.events == [ScoreChanged(r.state.currentScore, s.maxScore)]
    ensures 0 <= s.maxScore ==> Consistent(r.state)
  {
    var score := s.currentScore + points;
    var best := if score >= s.maxScore then score else s.maxScore;
    Outcome(ScoreState(score, best, s.lives), [ScoreChanged(score, s.maxScore)])
  }

  /** `GetDamage(damage)`: lives drop by exactly `damage`, with no clamp, and
      level-lost is raised whenever the lives end at or below 0. */
  function GetDamageStep(s: ScoreState, damage: int): (r: Outcome)
    ensures r.state.lives == s.lives - damage
    ensures r.state.currentScore == s.currentScore && r.state.maxScore == s.maxScore
    ensures r.events != [] <==> r.state.lives <= 0
    ensures r.events != [] ==> r.events == [LevelLost(r.state.lives)]
  {
    var lives := s.lives - damage;
    Outcome(ScoreState(s.currentScore, s.maxScore, lives), if lives <= 0 then [LevelLost(lives)] else [])
  }

  function Sum(xs: seq<int>): int {
    if xs == [] then 0 else xs[0] + Sum(xs[1..])
  }

  /** Largest of `m` and the elements of `xs`. */
  function MaxOf(m: int, xs: seq<int>): int
    decreases |xs|
  {
    if xs == [] then m else MaxOf(Max(m, xs[0]), xs[1..])
  }

  /** The score after each of a series of `AddPoints` calls starting at `score`. */
  function RunningScores(score: int, ps: seq<int>): seq<int>
    decreases |ps|
  {
    if ps == [] then [] else [score + ps[0]] + RunningScores(score + ps[0], ps[1..])
  }

  /** A series of `AddPoints` calls, with all the events they raise. */
  function AddPointsRun(s: ScoreState, ps: seq<int>): Outcome
    decreases |ps|
  {
    if ps == [] then Outcome(s, [])
    else
      var first := AddPointsStep(s, ps[0]);
      var rest := AddPointsRun(first.state, ps[1..]);
      Outcome(rest.state, first.events + rest.events)
  }

  /** A series of `GetDamage` calls, with all the events they raise. */
  function GetDamageRun(s: ScoreState, ds: seq<int>): Outcome
    decreases |ds|
  {
    if ds == [] then Outcome(s, [])
    else
      var first := GetDamageStep(s, ds[0]);
      var rest := GetDamageRun(first.state, ds[1..]);
      Outcome(rest.state, first.events + rest.events)
  }

  /** Over any series of `AddPoints` calls the best score is the largest
      score ever observed (or the earlier best), the score is the sum of the
      points, and one score-changed event per call reports each new score. */
  lemma {:induction false} MaxScoreIsBestObserved(s: ScoreState, ps: seq<int>)
    ensures AddPointsRun(s, ps).state.maxScore == MaxOf(s.maxScore, RunningScores(s.currentScore, ps))
    ensures AddPointsRun(s, ps).state.currentScore == s.currentScore + Sum(ps)
    ensures AddPointsRun(s, ps).state.lives == s.lives
    ensures |AddPointsRun(s, ps).events| == |ps| == |RunningScores(s.currentScore, ps)|
    ensures forall i :: 0 <= i < |ps| ==>
      AddPointsRun(s, ps).events[i].ScoreChanged? &&
      AddPointsRun(s, ps).events[i].score == RunningScores(s.currentScore, ps)[i]
    decreases |ps|
  {
    if ps != [] {
      var first := AddPointsStep(s, ps[0]);
      MaxScoreIsBestObserved(first.state, ps[1..]);
      var rest := AddPointsRun(first.state, ps[1..]);
      assert AddPointsRun(s, ps).events == first.events + rest.events;
      assert RunningScores(s.currentScore, ps) ==
        [s.currentScore + ps[0]] + RunningScores(first.state.currentScore, ps[1..]);
    }
  }

  /** With non-negative points only, starting from consistent counters, the
      best score after the calls is the earlier best or the final score,
      whichever is larger. */
  lemma {:induction false} NonNegativePointsKeepMaxAtFinal(s: ScoreState, ps: seq<int>)
    requires Consistent(s)
    requires forall i :: 0 <= i < |ps| ==> ps[i] >= 0
    ensures AddPointsRun(s, ps).state.currentScore >= s.currentScore
    ensures AddPointsRun(s, ps).state.maxScore == Max(s.maxScore, AddPointsRun(s, ps).state.currentScore)
    decreases |ps|
  {
    if ps != [] {
      var first := AddPointsStep(s, ps[0]);
      NonNegativePointsKeepMaxAtFinal(first.state, ps[1..]);
      assert AddPointsRun(s, ps).state == AddPointsRun(first.state, ps[1..]).state;
    }
  }

  /** Once lives are at or below 0, every further non-negative damage call
      raises level-lost again: the tracker has no once-only guard. */
  lemma {:induction false} LevelLostOnEveryLaterDamage(s: ScoreState, ds: seq<int>)
    requires s.lives <= 0
    requires forall i :: 0 <= i < |ds| ==> ds[i] >= 0
    ensures GetDamageRun(s, ds).state.lives == s.lives - Sum(ds)
    ensures |GetDamageRun(s, ds).events| == |ds|
    ensures forall i :: 0 <= i < |ds| ==> GetDamageRun(s, ds).events[i].LevelLost?
    decreases |ds|
  {
    if ds != [] {
      var first := GetDamageStep(s, ds[0]);
      LevelLostOnEveryLaterDamage(first.state, ds[1..]);
    }
  }

  /** The tracker object. `lifeCount` is its inspector setting. */
  class ScoreManager {
    const lifeCount: int
    var currentScore: int
    var maxScore: int
    var lives: int
    /** Every notification raised so far, oldest first. */
    ghost var events: seq<ScoreEvent>

    function State(): ScoreState
      reads this
    {
      ScoreState(currentScore, maxScore, lives)
    }

    ghost predicate Valid()
      reads this
    {
      Consistent(State())
    }

    /** The counters start at C#'s default 0 until the first `Reset`. */
    constructor (lifeCount: int)
      ensures Valid() && this.lifeCount == lifeCount
      ensures State() == ScoreState(0, 0, 0) && events == []
    {
      this.lifeCount := lifeCount;
      currentScore, maxScore, lives := 0, 0, 0;
      events := [];
    }

    method Reset()
      requires Valid()
      modifies this
      ensures Valid()
      ensures State() == ResetStep(old(State()), lifeCount).state
      ensures events == old(events) + ResetStep(old(State()), lifeCount).events
    {
      currentScore := 0;
      lives := lifeCount;
      events := events + [ScoreChanged(currentScore, maxScore)];
    }

    method AddPoints(points: int)
      requires Valid()
      modifies this
      ensures Valid()
      ensures State() == AddPointsStep(old(State()), points).state
      ensures events == old(events) + AddPointsStep(old(State()), points).events
    {
      currentScore := currentScore + points;
      events := events + [ScoreChanged(currentScore, maxScore)];
      if currentScore >= maxScore {
        maxScore := currentScore;
      }
    }

    method GetDamage(damage: int)
      requires Valid()
      modifies this
      ensures Valid()
      ensures State() == GetDamageStep(old(State()), damage).state
      ensures events == old(events) + GetDamageStep(old(State()), damage).events
    {
      lives := lives - damage;
      if lives <= 0 {
        events := events + [LevelLost(lives)];
      }
    }
  }
}
