/** The shape shared by everything a projectile can hit (`IShootable`):
    a `CheckHit` that applies the object's effect on the first hit only,
    guarded by an `_isActive` flag, and then marks the object for removal. */
module Shootables {
  import opened ScoreTracking

  /** The two kinds of shootable in the core: a scoring target, and a bomb
      that costs `damage` lives. */
  datatype Kind = TargetKind | BombKind(damage: int)

  /** What one `CheckHit` does to the shared tracker. */
  datatype HitEffect = NoEffect | AddPoints(points: int) | Damage(amount: int)

  /** `_isActive`, and whether the object has been handed to the engine's
      deferred destruction. */
  datatype ShootableState = ShootableState(isActive: bool, markedForRemoval: bool)

  datatype HitResult = HitResult(state: ShootableState, effect: HitEffect)

  /** A freshly spawned shootable. */
  const Spawned := ShootableState(true, false)

  /** The effect a kind applies on its accepted hit: one point through the
      default argument of `AddPoints`, or the bomb's damage. */
  function EffectOf(kind: Kind): (e: HitEffect)
    ensures kind.TargetKind? ==> e == AddPoints(1)
    ensures kind.BombKind? ==> e == Damage(kind.damage)
  {
    match kind
    case TargetKind => AddPoints(1)
    case BombKind(d) => Damage(d)
  }

  /** `CheckHit` followed by `OnValidHit`. The projectile is never inspected,
      so every hit on an active object is accepted. */
  function CheckHitStep(kind: Kind, s: ShootableState): (r: HitResult)
    ensures !r.state.isActive
    ensures r.effect != NoEffect <==> s.isActive
    ensures s.isActive ==> r.effect == EffectOf(kind) && r.state.markedForRemoval
    ensures !s.isActive ==> r.state == s
    ensures kind.TargetKind? ==> !r.effect.Damage?
    ensures kind.BombKind? ==> !r.effect.AddPoints?
  {
    if !s.isActive then HitResult(s, NoEffect)
    else HitResult(ShootableState(false, true), EffectOf(kind))
  }

  /** The change an effect makes to the tracker, with the events it raises. */
  function ApplyEffect(score: ScoreState, e: HitEffect): (r: Outcome)
    ensures e.NoEffect? ==> r == Outcome(score, [])
    ensures e.AddPoints? ==> r == AddPointsStep(score, e.points)
    ensures e.Damage? ==> r == GetDamageStep(score, e.amount)
  {
    match e
    case NoEffect => Outcome(score, [])
    case AddPoints(p) => AddPointsStep(score, p)
    case Damage(d) => GetDamageStep(score, d)
  }

  /** `n` successive `CheckHit` calls on one object, as reported by several
      simultaneous collisions, with the effects they produce. */
  function HitRun(kind: Kind, s: ShootableState, n: nat): (ShootableState, seq<HitEffect>)
    decreases n
  {
    if n == 0 then (s, [])
    else
      var first := CheckHitStep(kind, s);
      var rest := HitRun(kind, first.state, n - 1);
      (rest.0, [first.effect] + rest.1)
  }

  /** How many entries of `es` are real effects. */
  function CountEffects(es: seq<HitEffect>): nat {
    if es == [] then 0 else (if es[0] == NoEffect then 0 else 1) + CountEffects(es[1..])
  }

  /** However many times an object is hit, its effect is applied at most
      once: exactly once if it was active and hit at least once, and that
      effect comes first. */
  lemma {:induction false} EffectAppliedAtMostOnce(kind: Kind, s: ShootableState, n: nat)
    ensures |HitRun(kind, s, n).1| == n
    ensures CountEffects(HitRun(kind, s, n).1) == (if s.isActive && n > 0 then 1 else 0)
    ensures s.isActive && n > 0 ==> HitRun(kind, s, n).1[0] == EffectOf(kind)
    ensures n > 0 ==> !HitRun(kind, s, n).0.isActive
    decreases n
  {
    if n > 0 {
      var first := CheckHitStep(kind, s);
      EffectAppliedAtMostOnce(kind, first.state, n - 1);
      assert CountEffects(HitRun(kind, s, n).1) == CountEffects([first.effect]) + CountEffects(HitRun(kind, first.state, n - 1).1) by {
        assert HitRun(kind, s, n).1 == [first.effect] + HitRun(kind, first.state, n - 1).1;
      }
    }
  }
}
