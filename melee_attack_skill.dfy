/** The melee skill (Assets/Scripts/Combat/MeleeAttackSkill.cs): every
    matching object on the attack line loses the skill's base damage from the
    base of its Life stat, then the cooldown restarts. The line cast is an
    input: the list of hits in the order the physics engine reports them. */
module MeleeAttackSkills {
  import opened StatSystem
  import opened CharacterStatsModel
  import opened Items
  import opened Skills
  import opened LifeDamage

  /** One entry of the line cast: whether it has a collider, whether it is
      the caster itself, the object's tag and its stat table, if any. */
  datatype Hit = Hit(hasCollider: bool, isCaster: bool, tag: string, stats: CharacterStats?)

  /** A hit that the loop turns into damage. */
  predicate Damages(h: Hit, targetType: TargetType)
  {
    h.hasCollider && !h.isCaster && IsCorrectTargetType(targetType, h.tag) && h.stats != null
  }

  /** How many hits of the list damage table `c`. */
  function Count(hits: seq<Hit>, c: CharacterStats, targetType: TargetType): nat
  {
    if hits == [] then 0
    else Count(hits[..|hits| - 1], c, targetType)
         + (if Damages(hits[|hits| - 1], targetType) && hits[|hits| - 1].stats == c then 1 else 0)
  }

  lemma CountStep(hits: seq<Hit>, i: int, c: CharacterStats, targetType: TargetType)
    requires 0 <= i < |hits|
    ensures Count(hits[..i + 1], c, targetType)
            == Count(hits[..i], c, targetType) + (if Damages(hits[i], targetType) && hits[i].stats == c then 1 else 0)
  {
    assert hits[..i + 1][..i] == hits[..i];
  }

  /** A table after `k` hits of `amount` each. */
  function LoweredTimes(v: map<string, StatState>, amount: real, k: nat): map<string, StatState>
  {
    if k == 0 then v else LifeLowered(LoweredTimes(v, amount, k - 1), amount)
  }

  /** The tables the hits carry. */
  ghost function Targets(hits: seq<Hit>): set<CharacterStats>
  {
    set i | 0 <= i < |hits| && hits[i].stats != null :: hits[i].stats
  }

  /** The Stat objects of a set of tables. */
  ghost function StatsOf(ts: set<CharacterStats>): set<Stat>
    reads ts
  {
    set c, s | c in ts && s in c.stats.Values :: s
  }

  /** Distinct tables share no Stat object (each table creates its own). */
  ghost predicate Separate(ts: set<CharacterStats>)
    reads ts
  {
    forall a, b | a in ts && b in ts && a != b :: a.stats.Values !! b.stats.Values
  }

  class MeleeAttackSkill {
    const skill: Skill
    var meleeRange: real
    var baseDamage: real

    constructor (skill: Skill)
      ensures this.skill == skill && meleeRange == 1.5 && baseDamage == 10.0
    {
      this.skill := skill;
      meleeRange := 1.5;
      baseDamage := 10.0;
    }

    /** ActivateSkill over a given hit list. A skill that is not ready does
        nothing. Otherwise each table loses baseDamage once per hit on it that
        is not the caster, matches the target type and carries stats; Life
        is created at 0 when missing and is not floored; the cooldown restarts
        once, even when nothing was hit. */
    method ActivateSkill(hits: seq<Hit>)
      requires forall c | c in Targets(hits) :: c.Valid()
      requires Separate(Targets(hits))
      modifies skill`currentCooldownTime, Targets(hits), StatsOf(Targets(hits))
      ensures forall c | c in Targets(hits) :: c.Valid() && c.Scalars() == old(c.Scalars())
      ensures !old(skill.IsSkillReady()) ==>
                skill.currentCooldownTime == old(skill.currentCooldownTime)
                && forall c | c in Targets(hits) :: c.stats == old(c.stats) && c.View() == old(c.View())
      ensures old(skill.IsSkillReady()) ==>
                skill.currentCooldownTime == skill.baseCooldownTime
                && forall c | c in Targets(hits) ::
                     c.View() == LoweredTimes(old(c.View()), baseDamage, Count(hits, c, skill.targetType))
    {
      if !skill.IsSkillReady() {
        return;
      }
      HitAll(hits, skill.targetType, baseDamage);
      skill.BeginCooldown();
    }
  }

  /** The loop of ActivateSkill: one lowering per damaging hit, in order. */
  method HitAll(hits: seq<Hit>, targetType: TargetType, amount: real)
    requires forall c | c in Targets(hits) :: c.Valid()
    requires Separate(Targets(hits))
    modifies Targets(hits), StatsOf(Targets(hits))
    ensures forall c | c in Targets(hits) :: c.Valid() && c.Scalars() == old(c.Scalars())
    ensures forall c | c in Targets(hits) :: c.View() == LoweredTimes(old(c.View()), amount, Count(hits, c, targetType))
  {
    ghost var targets := Targets(hits);
    ghost var start := map c | c in targets :: c.View();
    assert HitsSoFar(targets, start, hits, 0, targetType, amount) by {
      assert hits[..0] == [];
    }
    var i := 0;
    while i < |hits|
      invariant 0 <= i <= |hits|
      invariant forall c | c in targets :: c.Valid() && c.Scalars() == old(c.Scalars())
      invariant Separate(targets)
      invariant forall c | c in targets :: FreshOrKept(c, old(c.stats))
      invariant HitsSoFar(targets, start, hits, i, targetType, amount)
    {
      HitStep(targets, start, hits, i, targetType, amount);
      i := i + 1;
    }
    assert hits[..i] == hits;
  }

  /** Every table's view is its start view lowered once per damaging hit
      among the first `i`. */
  ghost predicate HitsSoFar(targets: set<CharacterStats>, start: map<CharacterStats, map<string, StatState>>,
                            hits: seq<Hit>, i: int, targetType: TargetType, amount: real)
    requires 0 <= i <= |hits|
    reads targets, StatsOf(targets)
  {
    forall c | c in targets :: c in start && c.View() == LoweredTimes(start[c], amount, Count(hits[..i], c, targetType))
  }

  /** The loop body for hit `i`: a damaging hit lowers its own table once
      more and leaves the others alone; any other hit changes nothing. */
  method HitStep(ghost targets: set<CharacterStats>, ghost start: map<CharacterStats, map<string, StatState>>,
                 hits: seq<Hit>, i: int, targetType: TargetType, amount: real)
    requires 0 <= i < |hits| && (hits[i].stats != null ==> hits[i].stats in targets)
    requires forall c | c in targets :: c.Valid()
    requires Separate(targets)
    requires HitsSoFar(targets, start, hits, i, targetType, amount)
    modifies if Damages(hits[i], targetType) then {hits[i].stats} else {}
    modifies if Damages(hits[i], targetType) then hits[i].stats.stats.Values else {}
    ensures forall c | c in targets :: c.Valid() && c.Scalars() == old(c.Scalars())
    ensures Separate(targets)
    ensures forall c | c in targets && !(Damages(hits[i], targetType) && c == hits[i].stats) :: c.stats == old(c.stats)
    ensures Damages(hits[i], targetType) ==> FreshOrKept(hits[i].stats, old(hits[i].stats.stats))
    ensures HitsSoFar(targets, start, hits, i + 1, targetType, amount)
  {
    if !Damages(hits[i], targetType) {
      MissStep(targets, start, hits, i, targetType, amount);
      return;
    }
    ghost var before := map c | c in targets :: c.View();
    HitOne(targets, hits[i].stats, amount);
    ghost var after := map c | c in targets :: c.View();
    CountsAfterHit(targets, start, before, after, hits, i, targetType, amount);
  }

  /** The bookkeeping of one damaging hit, on views alone. */
  lemma CountsAfterHit(targets: set<CharacterStats>, start: map<CharacterStats, map<string, StatState>>,
                       before: map<CharacterStats, map<string, StatState>>,
                       after: map<CharacterStats, map<string, StatState>>,
                       hits: seq<Hit>, i: int, targetType: TargetType, amount: real)
    requires 0 <= i < |hits| && Damages(hits[i], targetType)
    requires forall c | c in targets :: c in start && c in before && c in after
    requires forall c | c in targets :: before[c] == LoweredTimes(start[c], amount, Count(hits[..i], c, targetType))
    requires forall c | c in targets :: after[c] == if c == hits[i].stats then LifeLowered(before[c], amount) else before[c]
    ensures forall c | c in targets :: after[c] == LoweredTimes(start[c], amount, Count(hits[..i + 1], c, targetType))
  {
    forall c | c in targets
      ensures after[c] == LoweredTimes(start[c], amount, Count(hits[..i + 1], c, targetType))
    {
      CountStep(hits, i, c, targetType);
      var n := Count(hits[..i], c, targetType);
      if c == hits[i].stats {
        assert Count(hits[..i + 1], c, targetType) == n + 1;
        assert LoweredTimes(start[c], amount, n + 1) == LifeLowered(before[c], amount);
      } else {
        assert Count(hits[..i + 1], c, targetType) == n;
      }
    }
  }

  /** Hit `i` damages nothing: the counts do not move. */
  lemma MissStep(targets: set<CharacterStats>, start: map<CharacterStats, map<string, StatState>>,
                 hits: seq<Hit>, i: int, targetType: TargetType, amount: real)
    requires 0 <= i < |hits| && !Damages(hits[i], targetType)
    requires HitsSoFar(targets, start, hits, i, targetType, amount)
    ensures HitsSoFar(targets, start, hits, i + 1, targetType, amount)
  {
    forall c | c in targets
      ensures Count(hits[..i + 1], c, targetType) == Count(hits[..i], c, targetType)
    {
      CountStep(hits, i, c, targetType);
    }
  }

  /** One damaging hit on `target`: only its view changes, by one more
      lowering, and the tables stay separate. */
  method HitOne(ghost targets: set<CharacterStats>, target: CharacterStats, amount: real)
    requires target in targets
    requires forall c | c in targets :: c.Valid()
    requires Separate(targets)
    modifies target, target.stats.Values
    ensures forall c | c in targets :: c.Valid() && c.Scalars() == old(c.Scalars())
    ensures Separate(targets)
    ensures target.View() == LifeLowered(old(target.View()), amount)
    ensures forall c | c in targets && c != target :: c.stats == old(c.stats) && c.View() == old(c.View())
    ensures FreshOrKept(target, old(target.stats))
  {
    var _ := LowerLife(target, amount);
  }

  /** k hits of `amount` take k * amount off Life's base in one go. */
  lemma LoweredTimesClosedForm(v: map<string, StatState>, amount: real, k: nat)
    requires k > 0
    ensures LoweredTimes(v, amount, k) == LifeLowered(v, k as real * amount)
  {
    LoweredTimesTotal(v, amount, k);
    HitsTotalIsProduct(amount, k);
  }

  /** The damage of k hits of `amount`, added up hit by hit. */
  function HitsTotal(amount: real, k: nat): real
  {
    if k == 0 then 0.0 else HitsTotal(amount, k - 1) + amount
  }

  lemma {:induction false} LoweredTimesTotal(v: map<string, StatState>, amount: real, k: nat)
    requires k > 0
    ensures LoweredTimes(v, amount, k) == LifeLowered(v, HitsTotal(amount, k))
  {
    if k > 1 {
      LoweredTimesTotal(v, amount, k - 1);
      LifeLoweredTwice(v, HitsTotal(amount, k - 1), amount);
    } else {
      assert LoweredTimes(v, amount, 0) == v;
      assert HitsTotal(amount, 0) == 0.0;
    }
  }

  lemma {:induction false} HitsTotalIsProduct(amount: real, k: nat)
    ensures HitsTotal(amount, k) == k as real * amount
  {
    if k > 0 {
      HitsTotalIsProduct(amount, k - 1);
      assert (k - 1) as real * amount + amount == k as real * amount;
    }
  }

  /** A table is hit at most once per entry of the list, and not at all when
      no entry carries it. */
  lemma {:induction false} CountBounds(hits: seq<Hit>, c: CharacterStats, targetType: TargetType)
    ensures Count(hits, c, targetType) <= |hits|
    ensures (forall i | 0 <= i < |hits| :: hits[i].stats != c) ==> Count(hits, c, targetType) == 0
  {
    if hits != [] {
      CountBounds(hits[..|hits| - 1], c, targetType);
    }
  }
}
