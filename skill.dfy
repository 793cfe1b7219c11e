/** The base of every skill (Assets/Scripts/Combat/Skill.cs): a cooldown
    timer that counts down with the frame time, is clamped at zero, and is
    restarted at the base cooldown when the skill fires. The concrete skills
    hold a Skill object instead of inheriting from it. */
module Skills {
  import opened Wrappers
  import opened SkillConfig

  /** Who a skill may hit. */
  datatype TargetType = Player | Enemy | Both

  /** IsCorrectTargetType, as Projectile.cs and MeleeAttackSkill.cs both
      write it: Both matches any tag, Player and Enemy match their own tag.
      MeleeAttackSkill.cs tests `TargetType.All`, which the enum does not
      declare; it is read as Both, the value its comment names. */
  predicate IsCorrectTargetType(targetType: TargetType, tag: string)
    ensures IsCorrectTargetType(targetType, tag) && targetType != Both ==> tag == "Player" || tag == "Enemy"
    ensures tag != "Player" && tag != "Enemy" ==> (IsCorrectTargetType(targetType, tag) <==> targetType == Both)
  {
    targetType == Both || (targetType == Player && tag == "Player") || (targetType == Enemy && tag == "Enemy")
  }

  /** The filter in terms of who can be hit: Both hits every tag, Player only
      objects tagged "Player", Enemy only objects tagged "Enemy". */
  lemma TargetFilter(tag: string)
    ensures IsCorrectTargetType(Both, tag)
    ensures IsCorrectTargetType(Player, tag) <==> tag == "Player"
    ensures IsCorrectTargetType(Enemy, tag) <==> tag == "Enemy"
  {
  }

  /** The cooldown after one UpdateSkillCooldown of `dt` seconds. */
  function CooledDown(c: real, dt: real): (r: real)
    ensures c <= 0.0 ==> r == c
    ensures c > 0.0 ==> r >= 0.0
    ensures c > 0.0 && c - dt >= 0.0 ==> r == c - dt
    ensures c > 0.0 && c - dt < 0.0 ==> r == 0.0
    ensures dt >= 0.0 ==> r <= c
  {
    if c > 0.0 then (if c - dt < 0.0 then 0.0 else c - dt) else c
  }

  /** The cooldown after one update per frame time in `dts`, in order. */
  function CooledDownAll(c: real, dts: seq<real>): real
  {
    if dts == [] then c else CooledDown(CooledDownAll(c, dts[..|dts| - 1]), dts[|dts| - 1])
  }

  /** Total time of a sequence of frames. */
  function Elapsed(dts: seq<real>): real
  {
    if dts == [] then 0.0 else Elapsed(dts[..|dts| - 1]) + dts[|dts| - 1]
  }

  function Max0(x: real): real
  {
    if x < 0.0 then 0.0 else x
  }

  class Skill {
    var skillName: string
    var baseCooldownTime: real
    var targetType: TargetType
    var currentCooldownTime: real
    // `skillBaseStats` is read by the subclasses but not declared in Skill.cs;
    // a missing asset is None.
    var skillBaseStats: Option<SkillStats>

    /** Field initializers: named "Skill", one second of cooldown, aimed at
        both sides, ready. */
    constructor (skillBaseStats: Option<SkillStats>)
      ensures skillName == "Skill" && baseCooldownTime == 1.0 && targetType == Both
      ensures currentCooldownTime == 0.0 && IsSkillReady()
      ensures this.skillBaseStats == skillBaseStats
    {
      skillName := "Skill";
      baseCooldownTime := 1.0;
      targetType := Both;
      currentCooldownTime := 0.0;
      this.skillBaseStats := skillBaseStats;
    }

    /** Resets the timer, so the skill is ready. */
    method InitializeSkill()
      modifies this`currentCooldownTime
      ensures currentCooldownTime == 0.0 && IsSkillReady()
    {
      currentCooldownTime := 0.0;
    }

    /** One frame of countdown: only a positive timer moves, and it stops at 0. */
    method UpdateSkillCooldown(dt: real)
      modifies this`currentCooldownTime
      ensures currentCooldownTime == CooledDown(old(currentCooldownTime), dt)
    {
      if currentCooldownTime > 0.0 {
        currentCooldownTime := currentCooldownTime - dt;
        if currentCooldownTime < 0.0 {
          currentCooldownTime := 0.0;
        }
      }
    }

    /** Restarts the timer at the base cooldown (no attack-speed scaling). */
    method BeginCooldown()
      modifies this`currentCooldownTime
      ensures currentCooldownTime == baseCooldownTime
    {
      currentCooldownTime := baseCooldownTime;
    }

    /** The configuration a skill is set up with: its name, base cooldown,
        target type and stats asset. Only the cooldown timer changes after
        construction. */
    function Setup(): (string, real, TargetType, Option<SkillStats>)
      reads this
    {
      (skillName, baseCooldownTime, targetType, skillBaseStats)
    }

    predicate IsSkillReady()
      reads this
      ensures currentCooldownTime >= 0.0 ==> (IsSkillReady() <==> currentCooldownTime == 0.0)
      ensures currentCooldownTime > 0.0 ==> !IsSkillReady()
    {
      currentCooldownTime <= 0.0
    }
  }

  /** Counting down from a non-negative cooldown with non-negative frame
      times leaves max(0, c - elapsed): the timer never goes negative and
      never rises. */
  lemma {:induction false} CooldownClosedForm(c: real, dts: seq<real>)
    requires c >= 0.0
    requires forall i | 0 <= i < |dts| :: dts[i] >= 0.0
    ensures CooledDownAll(c, dts) == Max0(c - Elapsed(dts))
  {
    if dts != [] {
      var init := dts[..|dts| - 1];
      CooldownClosedForm(c, init);
    }
  }

  /** Hence the skill is ready again exactly when the frames add up to the
      cooldown. */
  lemma ReadyExactlyAfterCooldown(c: real, dts: seq<real>)
    requires c >= 0.0
    requires forall i | 0 <= i < |dts| :: dts[i] >= 0.0
    ensures 0.0 <= CooledDownAll(c, dts) <= c
    ensures CooledDownAll(c, dts) <= 0.0 <==> Elapsed(dts) >= c
  {
    CooldownClosedForm(c, dts);
    ElapsedNonNegative(dts);
  }

  lemma {:induction false} ElapsedNonNegative(dts: seq<real>)
    requires forall i | 0 <= i < |dts| :: dts[i] >= 0.0
    ensures Elapsed(dts) >= 0.0
  {
    if dts != [] {
      ElapsedNonNegative(dts[..|dts| - 1]);
    }
  }

  /** A cooldown after `n` updates of `dt`. */
  function CooledDownTimes(c: real, dt: real, n: nat): real
  {
    if n == 0 then c else CooledDown(CooledDownTimes(c, dt, n - 1), dt)
  }

  /** The `foreach (Skill skill in skills) skill.UpdateSkillCooldown()` loop:
      an entry listed n times is updated n times. */
  method CoolDownAll(skills: seq<Skill>, dt: real)
    modifies (set s | s in skills)`currentCooldownTime
    ensures forall s | s in skills :: s.currentCooldownTime == CooledDownTimes(old(s.currentCooldownTime), dt, multiset(skills)[s])
    ensures forall s | s in skills :: s.Setup() == old(s.Setup())
  {
    ghost var start := map s | s in skills :: s.currentCooldownTime;
    for i := 0 to |skills|
      invariant forall s | s in skills :: s.currentCooldownTime == CooledDownTimes(start[s], dt, multiset(skills[..i])[s])
      invariant forall s | s in skills :: s.Setup() == old(s.Setup())
    {
      ghost var counts := multiset(skills[..i]);
      assert skills[..i + 1] == skills[..i] + [skills[i]];
      assert multiset(skills[..i + 1]) == counts + multiset{skills[i]};
      var current := skills[i];
      label Before:
      current.UpdateSkillCooldown(dt);
      forall s | s in skills
        ensures s.currentCooldownTime == CooledDownTimes(start[s], dt, multiset(skills[..i + 1])[s])
      {
        if s == current {
          assert multiset(skills[..i + 1])[s] == counts[s] + 1;
        } else {
          assert multiset(skills[..i + 1])[s] == counts[s];
          assert s.currentCooldownTime == old@Before(s.currentCooldownTime);
        }
      }
    }
    assert skills[..|skills|] == skills;
  }

  /** The `foreach (Skill skill in skills) skill.InitializeSkill()` loop:
      every listed skill is ready. */
  method InitializeAll(skills: seq<Skill>)
    modifies (set s | s in skills)`currentCooldownTime
    ensures forall s | s in skills :: s.IsSkillReady() && s.currentCooldownTime == 0.0
    ensures forall s | s in skills :: s.Setup() == old(s.Setup())
  {
    for i := 0 to |skills|
      invariant forall j | 0 <= j < i :: skills[j].currentCooldownTime == 0.0
      invariant forall s | s in skills :: s.Setup() == old(s.Setup())
    {
      skills[i].InitializeSkill();
    }
  }
}
