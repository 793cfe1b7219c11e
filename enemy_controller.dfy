/** The enemy's brain (Assets/Scripts/Enemy/EnemyController.cs): a five-state
    machine driven once per frame. Timers count down, skill cooldowns advance,
    an attack animation locks the enemy in place, the distance to the target
    picks Attack, Chase or Idle, a first chase plays an awake animation, and
    an attack uses the first ready skill. Geometry, the animator and the
    skills' own actions are outside the model: the distance is an input, and
    the animator calls, moves, skill activations and experience awards are
    returned as a list of actions. */
module EnemyControllers {
  import opened Wrappers
  import opened StatSystem
  import opened CharacterStatsModel
  import opened Skills
  import opened Items

  datatype EnemyState = Idle | Awake | Chase | Attack | Die

  /** The integer the animator's "EnemyState" parameter receives. */
  function StateCode(s: EnemyState): (r: int)
    ensures 0 <= r <= 4
    ensures s == Die <==> r == 4
  {
    match s
    case Idle => 0
    case Awake => 1
    case Chase => 2
    case Attack => 3
    case Die => 4
  }

  /** What a frame asks of the engine. */
  datatype Action =
    | SetEnemyState(code: int)      // animator.SetInteger("EnemyState", code)
    | SetTrigger(name: string)      // animator.SetTrigger(name)
    | Move(step: real)              // a translation of `step` towards the target
    | UseSkill(skill: Skill)        // skill.ActivateSkill(direction)
    | AttackInvoked                 // OnAttack.Invoke()
    | AwardExperience(amount: int)  // playerStats.AddExperience(amount)
    | DestroyAfterDeathAnimation    // Destroy(gameObject, animation length)

  /** The controller's mutable fields, as one value. */
  datatype Ctl = Ctl(state: EnemyState, attackTimer: real, idleTimer: real, timeToIdle: real,
                     hasAggravated: bool, awakeTimer: real,
                     attackAnimationPlaying: bool, attackAnimationTimer: real)

  /** What the controller found at Awake, and its two serialized limits. */
  datatype Setup = Setup(hasTarget: bool, hasAnimator: bool,
                         maxAwakeDuration: real, maxAttackAnimationDuration: real)

  /** `GetStat(name).GetValue()` on a table: a missing stat reads as 0. */
  function StatValue(v: map<string, StatState>, name: string): (r: real)
    ensures name !in v ==> r == 0.0
  {
    if name in v then ValueOf(v[name]) else 0.0
  }

  /** The stat values a frame can read. */
  datatype Readings = Readings(detectionRange: real, attackRange: real, movementSpeed: real,
                               timeToIdle: real, attackCooldown: real)

  /** The values a table yields; a lookup never changes a value, so reading
      them from the table before any lookup gives the same values. */
  function ReadingsOf(v: map<string, StatState>): Readings
  {
    Readings(StatValue(v, "DetectionRange"), StatValue(v, "AttackRange"), StatValue(v, "MovementSpeed"),
             StatValue(v, "TimeToIdle"), StatValue(v, "AttackCooldown"))
  }

  /** The four stats every unlocked frame looks up, in order. */
  const RangeStats: seq<string> := ["DetectionRange", "AttackRange", "MovementSpeed", "TimeToIdle"]

  /** The table after the four lookups of RangeStats. */
  function RangesRead(v: map<string, StatState>): map<string, StatState>
  {
    AfterLookup(AfterLookup(AfterLookup(AfterLookup(v, "DetectionRange"), "AttackRange"), "MovementSpeed"), "TimeToIdle")
  }

  /** The table after looking up `names`, in order. */
  function LookedUp(v: map<string, StatState>, names: seq<string>): map<string, StatState>
    decreases |names|
  {
    if names == [] then v else LookedUp(AfterLookup(v, names[0]), names[1..])
  }

  /** The state selection: only outside Awake and Die; with a target, Attack
      within attack range, else Chase within detection range, else Idle with
      the idle timer running (and reset once it reaches timeToIdle); without
      a target, Idle. */
  function Selected(c: Ctl, hasTarget: bool, distance: real, attackRange: real, detectionRange: real, dt: real): (r: Ctl)
    ensures c.state == Awake || c.state == Die ==> r == c
    ensures c.state != Awake && c.state != Die && !hasTarget ==> r == c.(state := Idle)
    ensures c.state != Awake && c.state != Die && hasTarget ==>
              (r.state == Attack <==> distance <= attackRange)
              && (r.state == Chase <==> attackRange < distance <= detectionRange)
              && (r.state == Idle <==> attackRange < distance && detectionRange < distance)
    ensures r.(state := c.state, idleTimer := c.idleTimer) == c
  {
    if c.state == Awake || c.state == Die then c
    else if !hasTarget then c.(state := Idle)
    else if distance <= attackRange then c.(state := Attack, idleTimer := 0.0)
    else if distance <= detectionRange then c.(state := Chase, idleTimer := 0.0)
    else
      var t := c.idleTimer + dt;
      c.(state := Idle, idleTimer := if t >= c.timeToIdle then 0.0 else t)
  }

  /** ChaseBehavior (run in Awake and Chase): nothing without a target; the
      first call with an animator and no aggravation switches to Awake; in
      Awake the awake timer runs until the maximum, then Chase; in Chase a
      step of speed * dt. */
  function Chased(c: Ctl, s: Setup, speed: real, dt: real): (Ctl, seq<Action>)
  {
    if !s.hasTarget || c.state == Die then (c, [])
    else if !c.hasAggravated && s.hasAnimator then
      (c.(state := Awake, hasAggravated := true, awakeTimer := 0.0), [SetTrigger("IsAggravated")])
    else if c.state == Awake then
      var t := c.awakeTimer + dt;
      (if t >= s.maxAwakeDuration then c.(state := Chase, awakeTimer := 0.0) else c.(awakeTimer := t), [])
    else (c, [Move(speed * dt)])
  }

  /** AttackBehavior: nothing while the attack timer runs; with a ready skill
      and an animator, start the animation lock, use the skill, raise the
      attack event and restart the timer at `attackCooldown`. The flag says
      whether the AttackCooldown stat was read. */
  function Attacked(c: Ctl, s: Setup, chosen: Option<Skill>, attackCooldown: real): (Ctl, seq<Action>, bool)
  {
    if c.attackTimer > 0.0 || c.state == Awake || c.state == Die then (c, [], false)
    else if chosen.Some? && s.hasAnimator then
      (c.(attackAnimationPlaying := true, attackAnimationTimer := 0.0, attackTimer := attackCooldown),
       [SetTrigger("StartAttack"), UseSkill(chosen.value), AttackInvoked], true)
    else (c, [], false)
  }

  /** The result of a frame: the new fields, the actions, and the stats
      looked up in the enemy's table, in order. */
  datatype Frame = Frame(ctl: Ctl, actions: seq<Action>, lookups: seq<string>)

  /** A frame applied to the enemy's table `v`: the new fields, the
      actions, and the table after its lookups. */
  function Outcome(f: Frame, v: map<string, StatState>): (Ctl, seq<Action>, map<string, StatState>)
  {
    (f.ctl, f.actions, LookedUp(v, f.lookups))
  }

  /** One Update of `dt` seconds at `distance` from the target, with `r` the
      values of the enemy's stats and `chosen` the first ready skill after
      the cooldowns advanced: the attack timer runs down while positive; a
      playing attack animation blocks the rest of the frame until its timer
      reaches the maximum, which releases the lock. */
  function Tick(c: Ctl, s: Setup, dt: real, distance: real, r: Readings, chosen: Option<Skill>): Frame
  {
    var c1 := c.(attackTimer := if c.attackTimer > 0.0 then c.attackTimer - dt else c.attackTimer);
    var l := LockStep(c1, s, dt);
    if l.1 then Frame(l.0, [], []) else Decided(l.0, s, dt, distance, r, chosen)
  }

  /** The attack animation lock: its timer runs while the animation plays;
      at the maximum the lock is released and the frame goes on, below it
      the rest of the frame is skipped (the flag). */
  function LockStep(c: Ctl, s: Setup, dt: real): (Ctl, bool)
  {
    if !c.attackAnimationPlaying then (c, false)
    else if c.attackAnimationTimer + dt >= s.maxAttackAnimationDuration then
      (c.(attackAnimationPlaying := false, attackAnimationTimer := 0.0), false)
    else (c.(attackAnimationTimer := c.attackAnimationTimer + dt), true)
  }

  /** The unlocked rest of a frame: the four stat reads (timeToIdle is
      overwritten by its stat), then the state selection and its behaviour. */
  function Decided(c: Ctl, s: Setup, dt: real, distance: real, r: Readings, chosen: Option<Skill>): Frame
  {
    var c3 := Selected(c.(timeToIdle := r.timeToIdle), s.hasTarget, distance, r.attackRange, r.detectionRange, dt);
    var b := Behaved(c3, s, dt, r.movementSpeed, r.attackCooldown, chosen);
    b.(lookups := RangeStats + b.lookups)
  }

  /** The animator state, then the behaviour of the selected state. */
  function Behaved(c: Ctl, s: Setup, dt: real, speed: real, attackCooldown: real, chosen: Option<Skill>): Frame
  {
    var anim := if s.hasAnimator then [SetEnemyState(StateCode(c.state))] else [];
    match c.state
    case Idle => Frame(c.(hasAggravated := false, awakeTimer := 0.0), anim, [])
    case Awake =>
      var r := Chased(c, s, speed, dt);
      Frame(r.0, anim + r.1, [])
    case Chase =>
      var r := Chased(c, s, speed, dt);
      Frame(r.0, anim + r.1, [])
    case Attack =>
      var r := Attacked(c, s, chosen, attackCooldown);
      Frame(r.0, anim + r.1, if r.2 then ["AttackCooldown"] else [])
    case Die => Frame(c, anim, [])
  }

  /** What HandleCharacterDeath asks of the engine: the death animation with
      an animator, the experience award when there is a target with stats,
      and the delayed destruction, which reads the animator and so is not
      reached without one. */
  function DeathActions(s: Setup, playerHasStats: bool, experienceGiven: int): (r: seq<Action>)
    ensures SetTrigger("OnDeath") in r <==> s.hasAnimator
    ensures AwardExperience(experienceGiven) in r <==> s.hasTarget && playerHasStats
    ensures DestroyAfterDeathAnimation in r <==> s.hasAnimator
    ensures forall a | a in r :: !a.UseSkill? && !a.Move?
  {
    (if s.hasAnimator then [SetTrigger("OnDeath"), SetEnemyState(4)] else [])
    + (if s.hasTarget && playerHasStats then [AwardExperience(experienceGiven)] else [])
    + (if s.hasAnimator then [DestroyAfterDeathAnimation] else [])
  }

  /** The cooldowns of a skill list, in order. */
  function CooldownsOf(skills: seq<Skill>): (r: seq<real>)
    reads (set s | s in skills)`currentCooldownTime
    ensures |r| == |skills| && forall i | 0 <= i < |skills| :: r[i] == skills[i].currentCooldownTime
  {
    if skills == [] then [] else [skills[0].currentCooldownTime] + CooldownsOf(skills[1..])
  }

  /** The position of the first cooldown that is over, if any. */
  function FirstReady(cooldowns: seq<real>): (r: Option<nat>)
    ensures r.Some? ==> r.value < |cooldowns| && cooldowns[r.value] <= 0.0
    ensures r.Some? ==> forall j | 0 <= j < r.value :: cooldowns[j] > 0.0
    ensures r.None? <==> forall j | 0 <= j < |cooldowns| :: cooldowns[j] > 0.0
  {
    if cooldowns == [] then None
    else if cooldowns[0] <= 0.0 then Some(0)
    else match FirstReady(cooldowns[1..])
      case None => None
      case Some(i) => Some(i + 1)
  }

  /** The skill ChooseSkill returns: the first ready one in list order. */
  function ReadySkill(skills: seq<Skill>): Option<Skill>
    reads (set s | s in skills)`currentCooldownTime
  {
    match FirstReady(CooldownsOf(skills))
    case None => None
    case Some(i) => Some(skills[i])
  }

  class EnemyController {
    /** The enemy's unified stat table (EnemyStats.characterStats). */
    const stats: CharacterStats
    const skills: seq<Skill>
    const hasTarget: bool
    const hasAnimator: bool
    const maxAwakeDuration: real
    const maxAttackAnimationDuration: real

    var attackTimer: real
    var idleTimer: real
    var timeToIdle: real
    var currentState: EnemyState
    var hasAggravated: bool
    var awakeTimer: real
    var isAttackAnimationPlaying: bool
    var attackAnimationTimer: real

    function Snapshot(): Ctl
      reads this
    {
      Ctl(currentState, attackTimer, idleTimer, timeToIdle, hasAggravated, awakeTimer,
          isAttackAnimationPlaying, attackAnimationTimer)
    }

    function Configured(): Setup
    {
      Setup(hasTarget, hasAnimator, maxAwakeDuration, maxAttackAnimationDuration)
    }

    /** Field initializers; Awake's component lookups are the parameters. */
    constructor (stats: CharacterStats, skills: seq<Skill>, hasTarget: bool, hasAnimator: bool)
      ensures this.stats == stats && this.skills == skills
      ensures Configured() == Setup(hasTarget, hasAnimator, 2.0, 1.0)
      ensures Snapshot() == Ctl(Idle, 0.0, 0.0, 3.0, false, 0.0, false, 0.0)
    {
      this.stats := stats;
      this.skills := skills;
      this.hasTarget := hasTarget;
      this.hasAnimator := hasAnimator;
      maxAwakeDuration := 2.0;
      maxAttackAnimationDuration := 1.0;
      attackTimer := 0.0;
      idleTimer := 0.0;
      timeToIdle := 3.0;
      currentState := Idle;
      hasAggravated := false;
      awakeTimer := 0.0;
      isAttackAnimationPlaying := false;
      attackAnimationTimer := 0.0;
    }

    /** InitializeSkills: every skill's timer is reset, so all are ready. */
    method InitializeSkills()
      modifies (set s | s in skills)`currentCooldownTime
      ensures forall s | s in skills :: s.IsSkillReady() && s.currentCooldownTime == 0.0
      ensures forall s | s in skills :: s.Setup() == old(s.Setup())
    {
      InitializeAll(skills);
    }

    /** Update: the attack timer and the skill cooldowns advance, then the
        rest of the frame is the one Tick describes. */
    method Update(dt: real, distance: real) returns (actions: seq<Action>)
      requires stats.Valid()
      modifies this, stats, (set s | s in skills)`currentCooldownTime
      ensures stats.Valid() && stats.Scalars() == old(stats.Scalars())
      ensures forall s | s in skills :: s.currentCooldownTime == CooledDownTimes(old(s.currentCooldownTime), dt, multiset(skills)[s])
      ensures forall s | s in skills :: s.Setup() == old(s.Setup())
      ensures (Snapshot(), actions, stats.View())
              == Outcome(Tick(old(Snapshot()), Configured(), dt, distance, ReadingsOf(old(stats.View())), ReadySkill(skills)), old(stats.View()))
    {
      label Begin:
      var blocked := Advance(dt);
      ViewKept@Begin(stats);
      label Cooled:
      if blocked {
        actions := [];
      } else {
        actions := Decide(dt, distance);
        ReadySkillKept@Cooled(skills);
      }
    }

    /** The top of Update: the attack timer runs down while positive, every
        listed skill's cooldown advances, then the animation lock. */
    method Advance(dt: real) returns (blocked: bool)
      modifies this`attackTimer, this`isAttackAnimationPlaying, this`attackAnimationTimer, (set s | s in skills)`currentCooldownTime
      ensures forall s | s in skills :: s.currentCooldownTime == CooledDownTimes(old(s.currentCooldownTime), dt, multiset(skills)[s])
      ensures forall s | s in skills :: s.Setup() == old(s.Setup())
      ensures var c := old(Snapshot());
              (Snapshot(), blocked)
              == LockStep(c.(attackTimer := if c.attackTimer > 0.0 then c.attackTimer - dt else c.attackTimer), Configured(), dt)
    {
      if attackTimer > 0.0 {
        attackTimer := attackTimer - dt;
      }
      label Timed:
      CoolDownAll(skills, dt);
      SnapshotKept@Timed(this);
      blocked := AttackAnimationLock(dt);
    }

    /** The block of Update that holds the enemy still while its attack
        animation plays. */
    method AttackAnimationLock(dt: real) returns (blocked: bool)
      modifies this`isAttackAnimationPlaying, this`attackAnimationTimer
      ensures (Snapshot(), blocked) == LockStep(old(Snapshot()), Configured(), dt)
    {
      blocked := false;
      if isAttackAnimationPlaying {
        attackAnimationTimer := attackAnimationTimer + dt;
        if attackAnimationTimer >= maxAttackAnimationDuration {
          OnAttackAnimationFinished();
        } else {
          blocked := true;
        }
      }
    }

    /** The unlocked part of Update. */
    method Decide(dt: real, distance: real) returns (actions: seq<Action>)
      requires stats.Valid()
      modifies this, stats
      ensures stats.Valid() && stats.Scalars() == old(stats.Scalars())
      ensures var f := Decided(old(Snapshot()), Configured(), dt, distance, ReadingsOf(old(stats.View())), old(ReadySkill(skills)));
              Snapshot() == f.ctl && actions == f.actions && stats.View() == LookedUp(old(stats.View()), f.lookups)
    {
      ghost var v0 := stats.View();
      ghost var r := ReadingsOf(v0);
      ghost var chosen := ReadySkill(skills);
      ghost var c3 := Selected(Snapshot().(timeToIdle := r.timeToIdle), hasTarget, distance, r.attackRange, r.detectionRange, dt);
      label Start:
      var speed := ReadRanges(dt, distance);
      ReadySkillKept@Start(skills);
      LookupsKeepValue(v0, "AttackCooldown");
      ghost var b := Behaved(c3, Configured(), dt, r.movementSpeed, r.attackCooldown, chosen);
      RangesReadIsLookedUp(v0, b.lookups);
      actions := Behave(speed, dt);
    }

    /** The animator state and the behaviour of the selected state. */
    method Behave(speed: real, dt: real) returns (actions: seq<Action>)
      requires stats.Valid()
      modifies this, stats
      ensures stats.Valid() && stats.Scalars() == old(stats.Scalars())
      ensures var f := Behaved(old(Snapshot()), Configured(), dt, speed, StatValue(old(stats.View()), "AttackCooldown"), old(ReadySkill(skills)));
              Snapshot() == f.ctl && actions == f.actions && stats.View() == LookedUp(old(stats.View()), f.lookups)
    {
      label Start:
      actions := if hasAnimator then [SetEnemyState(StateCode(currentState))] else [];
      match currentState {
        case Idle =>
          IdleBehavior();
          ViewKept@Start(stats);
        case Awake =>
          var more := ChaseBehavior(speed, dt);
          ViewKept@Start(stats);
          actions := actions + more;
        case Chase =>
          var more := ChaseBehavior(speed, dt);
          ViewKept@Start(stats);
          actions := actions + more;
        case Attack =>
          var more := AttackBehavior();
          actions := actions + more;
        case Die =>
      }
    }

    /** The four stat reads and the state selection; returns the speed. */
    method ReadRanges(dt: real, distance: real) returns (speed: real)
      requires stats.Valid()
      modifies this`timeToIdle, this`currentState, this`idleTimer, stats
      ensures stats.Valid() && stats.Scalars() == old(stats.Scalars())
      ensures stats.View() == RangesRead(old(stats.View()))
      ensures speed == StatValue(old(stats.View()), "MovementSpeed")
      ensures Snapshot() == Selected(old(Snapshot()).(timeToIdle := StatValue(old(stats.View()), "TimeToIdle")), hasTarget, distance,
                                     StatValue(old(stats.View()), "AttackRange"), StatValue(old(stats.View()), "DetectionRange"), dt)
    {
      var cs := stats;
      ghost var c0 := Snapshot();
      var detectionRange, attackRange, idleAfter;
      detectionRange, attackRange, speed, idleAfter := ReadRangeStats(cs);
      label Read:
      timeToIdle := idleAfter;
      assert Snapshot() == c0.(timeToIdle := idleAfter);
      SelectState(distance, attackRange, detectionRange, dt);
      ViewKept@Read(cs);
    }

    /** The distance-based selection of Update. */
    method SelectState(distance: real, attackRange: real, detectionRange: real, dt: real)
      modifies this`currentState, this`idleTimer
      ensures Snapshot() == Selected(old(Snapshot()), hasTarget, distance, attackRange, detectionRange, dt)
    {
      if currentState != Awake && currentState != Die {
        if hasTarget {
          if distance <= attackRange {
            currentState := Attack;
            idleTimer := 0.0;
          } else if distance <= detectionRange {
            currentState := Chase;
            idleTimer := 0.0;
          } else {
            currentState := Idle;
            idleTimer := idleTimer + dt;
            if idleTimer >= timeToIdle {
              currentState := Idle;
              idleTimer := 0.0;
            }
          }
        } else {
          currentState := Idle;
        }
      }
    }

    /** ChaseBehavior. */
    method ChaseBehavior(speed: real, dt: real) returns (actions: seq<Action>)
      modifies this`currentState, this`hasAggravated, this`awakeTimer
      ensures (Snapshot(), actions) == Chased(old(Snapshot()), Configured(), speed, dt)
    {
      actions := [];
      if !hasTarget || currentState == Die {
        return;
      }
      if !hasAggravated && hasAnimator {
        actions := [SetTrigger("IsAggravated")];
        currentState := Awake;
        hasAggravated := true;
        awakeTimer := 0.0;
        return;
      }
      if currentState == Awake {
        awakeTimer := awakeTimer + dt;
        if awakeTimer >= maxAwakeDuration {
          OnAwakeAnimationFinished();
        }
        return;
      }
      actions := [Move(speed * dt)];
    }

    /** AttackBehavior: ChooseSkill, then the attack when a skill is ready and
        there is an animator; the AttackCooldown read happens only then. */
    method AttackBehavior() returns (actions: seq<Action>)
      requires stats.Valid()
      modifies this`isAttackAnimationPlaying, this`attackAnimationTimer, this`attackTimer, stats
      ensures stats.Valid() && stats.Scalars() == old(stats.Scalars())
      ensures var r := Attacked(old(Snapshot()), Configured(), old(ReadySkill(skills)), StatValue(old(stats.View()), "AttackCooldown"));
              Snapshot() == r.0 && actions == r.1
              && stats.View() == if r.2 then AfterLookup(old(stats.View()), "AttackCooldown") else old(stats.View())
    {
      actions := [];
      if !(attackTimer > 0.0 || currentState == Awake || currentState == Die) {
        label Start:
        var skillToUse := ChooseSkill();
        ReadySkillKept@Start(skills);
        ViewKept@Start(stats);
        if skillToUse != null && hasAnimator {
          actions := StartAttack(skillToUse);
        }
      }
    }

    /** The attack itself: the animation flags are set, the three actions
        issued, and the attack timer restarted at the AttackCooldown stat. */
    method StartAttack(skill: Skill) returns (actions: seq<Action>)
      requires stats.Valid()
      modifies this`isAttackAnimationPlaying, this`attackAnimationTimer, this`attackTimer, stats
      ensures stats.Valid() && stats.Scalars() == old(stats.Scalars())
      ensures Snapshot() == old(Snapshot()).(attackAnimationPlaying := true, attackAnimationTimer := 0.0,
                                             attackTimer := StatValue(old(stats.View()), "AttackCooldown"))
      ensures actions == [SetTrigger("StartAttack"), UseSkill(skill), AttackInvoked]
      ensures stats.View() == AfterLookup(old(stats.View()), "AttackCooldown")
    {
      var cs := stats;
      var cooldown := ReadStat(cs, "AttackCooldown");
      label Read:
      isAttackAnimationPlaying := true;
      attackAnimationTimer := 0.0;
      attackTimer := cooldown;
      ViewKept@Read(cs);
      actions := [SetTrigger("StartAttack"), UseSkill(skill), AttackInvoked];
    }

    /** IdleBehavior: aggravation and the awake timer are reset. */
    method IdleBehavior()
      modifies this`hasAggravated, this`awakeTimer
      ensures Snapshot() == old(Snapshot()).(hasAggravated := false, awakeTimer := 0.0)
    {
      hasAggravated := false;
      awakeTimer := 0.0;
    }

    /** OnAwakeAnimationFinished (animation event or fallback): on to Chase. */
    method OnAwakeAnimationFinished()
      modifies this`currentState, this`awakeTimer
      ensures Snapshot() == old(Snapshot()).(state := Chase, awakeTimer := 0.0)
    {
      currentState := Chase;
      awakeTimer := 0.0;
    }

    /** OnAttackAnimationFinished (animation event or fallback): the lock is
        released. */
    method OnAttackAnimationFinished()
      modifies this`isAttackAnimationPlaying, this`attackAnimationTimer
      ensures Snapshot() == old(Snapshot()).(attackAnimationPlaying := false, attackAnimationTimer := 0.0)
    {
      isAttackAnimationPlaying := false;
      attackAnimationTimer := 0.0;
    }

    /** ChooseSkill: the first ready skill in list order, or none. */
    method ChooseSkill() returns (skill: Skill?)
      ensures skill == null <==> ReadySkill(skills) == None
      ensures skill != null ==> ReadySkill(skills) == Some(skill as Skill)
    {
      ghost var cds := CooldownsOf(skills);
      for i := 0 to |skills|
        invariant forall j | 0 <= j < i :: cds[j] > 0.0
      {
        if skills[i].IsSkillReady() {
          FirstReadyIsFirst(cds, i);
          return skills[i];
        }
      }
      return null;
    }

    /** HandleCharacterDeath: the state becomes Die whatever it was, and the
        death actions follow. Nothing stops a second call. */
    method HandleCharacterDeath(playerHasStats: bool, experienceGiven: int) returns (actions: seq<Action>)
      modifies this`currentState
      ensures Snapshot() == old(Snapshot()).(state := Die)
      ensures actions == DeathActions(Configured(), playerHasStats, experienceGiven)
    {
      currentState := Die;
      actions := [];
      if hasAnimator {
        actions := actions + [SetTrigger("OnDeath"), SetEnemyState(4)];
      }
      if hasTarget && playerHasStats {
        actions := actions + [AwardExperience(experienceGiven)];
      }
      if hasAnimator {
        actions := actions + [DestroyAfterDeathAnimation];
      }
    }
  }

  /** The four reads at the top of an unlocked Update, in order. */
  method ReadRangeStats(cs: CharacterStats) returns (detectionRange: real, attackRange: real, speed: real, timeToIdle: real)
    requires cs.Valid()
    modifies cs
    ensures cs.Valid() && cs.Scalars() == old(cs.Scalars())
    ensures cs.View() == RangesRead(old(cs.View()))
    ensures detectionRange == StatValue(old(cs.View()), "DetectionRange")
    ensures attackRange == StatValue(old(cs.View()), "AttackRange")
    ensures speed == StatValue(old(cs.View()), "MovementSpeed")
    ensures timeToIdle == StatValue(old(cs.View()), "TimeToIdle")
  {
    ghost var v0 := cs.View();
    detectionRange := ReadStat(cs, "DetectionRange");
    ghost var v1 := cs.View();
    attackRange := ReadStat(cs, "AttackRange");
    ghost var v2 := cs.View();
    speed := ReadStat(cs, "MovementSpeed");
    timeToIdle := ReadStat(cs, "TimeToIdle");
    LookupKeepsValue(v0, "DetectionRange", "AttackRange");
    LookupKeepsValue(v0, "DetectionRange", "MovementSpeed");
    LookupKeepsValue(v1, "AttackRange", "MovementSpeed");
    LookupKeepsValue(v0, "DetectionRange", "TimeToIdle");
    LookupKeepsValue(v1, "AttackRange", "TimeToIdle");
    LookupKeepsValue(v2, "MovementSpeed", "TimeToIdle");
  }

  /** `GetStat(name).GetValue()` on a stat table. */
  method ReadStat(cs: CharacterStats, name: string) returns (value: real)
    requires cs.Valid()
    modifies cs
    ensures cs.Valid() && cs.Scalars() == old(cs.Scalars())
    ensures cs.View() == AfterLookup(old(cs.View()), name)
    ensures value == StatValue(old(cs.View()), name)
  {
    var s := cs.GetStat(name);
    value := s.GetValue();
    assert StatValue(old(cs.View()), name) == ValueOf(AfterLookup(old(cs.View()), name)[name]);
  }

  /** A controller whose fields did not change has the same snapshot. */
  twostate lemma SnapshotKept(c: EnemyController)
    requires unchanged(c)
    ensures c.Snapshot() == old(c.Snapshot())
  {
  }

  /** Skills that did not change offer the same choice. */
  twostate lemma ReadySkillKept(skills: seq<Skill>)
    requires forall s | s in skills :: unchanged(s)
    ensures ReadySkill(skills) == old(ReadySkill(skills))
  {
  }

  /** Looking up RangeStats and then `rest` is RangesRead followed by `rest`. */
  lemma RangesReadIsLookedUp(v: map<string, StatState>, rest: seq<string>)
    ensures LookedUp(v, RangeStats + rest) == LookedUp(RangesRead(v), rest)
  {
    var names := RangeStats + rest;
    var v1 := AfterLookup(v, "DetectionRange");
    var v2 := AfterLookup(v1, "AttackRange");
    var v3 := AfterLookup(v2, "MovementSpeed");
    assert names[0] == "DetectionRange" && names[1..] == ["AttackRange", "MovementSpeed", "TimeToIdle"] + rest;
    assert LookedUp(v, names) == LookedUp(v1, names[1..]);
    assert names[1..][1..] == ["MovementSpeed", "TimeToIdle"] + rest;
    assert LookedUp(v1, names[1..]) == LookedUp(v2, names[1..][1..]);
    assert names[1..][1..][1..] == ["TimeToIdle"] + rest;
    assert LookedUp(v2, names[1..][1..]) == LookedUp(v3, names[1..][1..][1..]);
    assert names[1..][1..][1..][1..] == rest;
  }

  /** A lookup adds at most a zero stat, so no stat's value changes. */
  lemma LookupKeepsValue(v: map<string, StatState>, looked: string, name: string)
    ensures StatValue(AfterLookup(v, looked), name) == StatValue(v, name)
  {
  }

  /** A ready entry with no ready entry before it is the one FirstReady
      finds. */
  lemma FirstReadyIsFirst(cooldowns: seq<real>, i: int)
    requires 0 <= i < |cooldowns| && cooldowns[i] <= 0.0
    requires forall j | 0 <= j < i :: cooldowns[j] > 0.0
    ensures FirstReady(cooldowns) == Some(i)
  {
    var r := FirstReady(cooldowns);
    assert r.Some?;
  }

  /** Whether the attack animation holds the frame. */
  predicate Locked(c: Ctl, s: Setup, dt: real)
  {
    c.attackAnimationPlaying && c.attackAnimationTimer + dt < s.maxAttackAnimationDuration
  }

  /** The attack timer after a frame's countdown. */
  function AttackTimerAfter(c: Ctl, dt: real): real
  {
    if c.attackTimer > 0.0 then c.attackTimer - dt else c.attackTimer
  }

  /** While the attack animation plays below its maximum, a frame only runs
      the attack timer and the animation timer: no state change, no action,
      no stat read. */
  lemma LockedFrameChangesNothing(c: Ctl, s: Setup, dt: real, distance: real, r: Readings, chosen: Option<Skill>)
    requires Locked(c, s, dt)
    ensures var f := Tick(c, s, dt, distance, r, chosen);
            f.ctl == c.(attackTimer := AttackTimerAfter(c, dt), attackAnimationTimer := c.attackAnimationTimer + dt)
            && f.actions == [] && f.lookups == []
  {
  }

  /** Reaching the maximum releases the lock within the same frame: the
      animation is still playing afterwards only when the frame started a
      new attack. */
  lemma LockReleasedAtMaximum(c: Ctl, s: Setup, dt: real, distance: real, r: Readings, chosen: Option<Skill>)
    requires c.attackAnimationPlaying && c.attackAnimationTimer + dt >= s.maxAttackAnimationDuration
    ensures var f := Tick(c, s, dt, distance, r, chosen);
            f.ctl.attackAnimationPlaying <==> AttackInvoked in f.actions
  {
  }

  /** No frame leaves Die, moves or uses a skill once dead. */
  lemma DieIsFinal(c: Ctl, s: Setup, dt: real, distance: real, r: Readings, chosen: Option<Skill>)
    requires c.state == Die
    ensures var f := Tick(c, s, dt, distance, r, chosen);
            f.ctl.state == Die && forall a | a in f.actions :: !a.UseSkill? && !a.Move?
  {
  }

  /** The selection by distance, seen through a whole unlocked frame: within
      attack range the enemy is in Attack; within detection range it chases,
      or first plays its awake animation when it has an animator and has not
      been aggravated; beyond both, or without a target, it is Idle with its
      aggravation reset. */
  lemma SelectionByDistance(c: Ctl, s: Setup, dt: real, distance: real, r: Readings, chosen: Option<Skill>)
    requires !Locked(c, s, dt) && c.state != Awake && c.state != Die
    ensures var f := Tick(c, s, dt, distance, r, chosen);
            && (s.hasTarget && distance <= r.attackRange ==> f.ctl.state == Attack)
            && (s.hasTarget && r.attackRange < distance <= r.detectionRange ==>
                  if !c.hasAggravated && s.hasAnimator then f.ctl.state == Awake && f.ctl.hasAggravated
                  else f.ctl.state == Chase)
            && (!s.hasTarget || (r.attackRange < distance && r.detectionRange < distance) ==>
                  f.ctl.state == Idle && !f.ctl.hasAggravated && f.ctl.awakeTimer == 0.0)
  {
  }

  /** The first chase with an animator plays the awake animation instead of
      moving. */
  lemma FirstChaseAwakens(c: Ctl, s: Setup, dt: real, distance: real, r: Readings, chosen: Option<Skill>)
    requires !Locked(c, s, dt) && c.state != Awake && c.state != Die && s.hasTarget
    requires r.attackRange < distance <= r.detectionRange
    requires !c.hasAggravated && s.hasAnimator
    ensures var f := Tick(c, s, dt, distance, r, chosen);
            f.ctl.state == Awake && f.ctl.hasAggravated && f.ctl.awakeTimer == 0.0
            && SetTrigger("IsAggravated") in f.actions && forall a | a in f.actions :: !a.Move?
  {
  }

  /** Awake lasts until the awake timer reaches its maximum, then Chase;
      the timer restarts at 0. */
  lemma AwakeEndsAtMaximum(c: Ctl, s: Setup, dt: real, distance: real, r: Readings, chosen: Option<Skill>)
    requires !Locked(c, s, dt) && c.state == Awake && s.hasTarget
    requires c.hasAggravated || !s.hasAnimator
    ensures var f := Tick(c, s, dt, distance, r, chosen);
            && (c.awakeTimer + dt >= s.maxAwakeDuration ==> f.ctl.state == Chase && f.ctl.awakeTimer == 0.0)
            && (c.awakeTimer + dt < s.maxAwakeDuration ==> f.ctl.state == Awake && f.ctl.awakeTimer == c.awakeTimer + dt)
            && forall a | a in f.actions :: !a.Move? && !a.UseSkill?
  {
  }

  /** An Awake enemy whose target is gone stays Awake with its timer frozen:
      only the animation event can release it. */
  lemma AwakeWithoutTargetIsStuck(c: Ctl, s: Setup, dt: real, distance: real, r: Readings, chosen: Option<Skill>)
    requires !Locked(c, s, dt) && c.state == Awake && !s.hasTarget
    ensures var f := Tick(c, s, dt, distance, r, chosen);
            f.ctl.state == Awake && f.ctl.awakeTimer == c.awakeTimer
  {
  }

  /** A skill is used only through AttackBehavior's checks: the attack timer
      has run out, there is an animator, and the skill is the first ready
      one. The attack then locks the enemy, restarts the attack timer at
      the AttackCooldown stat and looks that stat up after the four others. */
  lemma SkillUseIsGated(c: Ctl, s: Setup, dt: real, distance: real, r: Readings, chosen: Option<Skill>, k: Skill)
    requires UseSkill(k) in Tick(c, s, dt, distance, r, chosen).actions
    ensures var f := Tick(c, s, dt, distance, r, chosen);
            && AttackTimerAfter(c, dt) <= 0.0 && s.hasAnimator && chosen == Some(k)
            && f.ctl.state == Attack && f.ctl.attackAnimationPlaying && f.ctl.attackAnimationTimer == 0.0
            && f.ctl.attackTimer == r.attackCooldown
            && f.lookups == RangeStats + ["AttackCooldown"]
  {
  }

  /** Conversely, an enemy that selects Attack with its timer run out, a
      ready skill and an animator uses that skill in the same frame. */
  lemma ReadyAttackFires(c: Ctl, s: Setup, dt: real, distance: real, r: Readings, k: Skill)
    requires !Locked(c, s, dt) && c.state != Awake && c.state != Die && s.hasTarget
    requires distance <= r.attackRange
    requires AttackTimerAfter(c, dt) <= 0.0 && s.hasAnimator
    ensures UseSkill(k) in Tick(c, s, dt, distance, r, Some(k)).actions
  {
  }

  /** Without an animator the enemy never uses a skill and never enters
      Awake on its own. */
  lemma NoAnimatorNoAttack(c: Ctl, s: Setup, dt: real, distance: real, r: Readings, chosen: Option<Skill>)
    requires !s.hasAnimator
    ensures var f := Tick(c, s, dt, distance, r, chosen);
            (forall a | a in f.actions :: !a.UseSkill?) && (f.ctl.state == Awake ==> c.state == Awake)
  {
  }

  /** MovementSpeed is not among the enemy defaults, so on a table without
      it the read yields 0 and every chase step is 0. */
  lemma MissingSpeedMeansNoMovement(c: Ctl, s: Setup, dt: real, distance: real, v: map<string, StatState>, chosen: Option<Skill>)
    requires "MovementSpeed" !in v
    ensures var f := Tick(c, s, dt, distance, ReadingsOf(v), chosen);
            forall a | a in f.actions && a.Move? :: a.step == 0.0
  {
    var r := ReadingsOf(v);
    assert r.movementSpeed == 0.0;
    StillWithoutSpeed(c, s, dt, distance, r, chosen);
  }

  /** With a speed of 0 every chase step is 0. */
  lemma StillWithoutSpeed(c: Ctl, s: Setup, dt: real, distance: real, r: Readings, chosen: Option<Skill>)
    requires r.movementSpeed == 0.0
    ensures var f := Tick(c, s, dt, distance, r, chosen);
            forall a | a in f.actions && a.Move? :: a.step == 0.0
  {
  }

  /** A frame looks up nothing while locked, otherwise the four RangeStats
      and, when it attacks, AttackCooldown after them. */
  lemma FrameLookups(c: Ctl, s: Setup, dt: real, distance: real, r: Readings, chosen: Option<Skill>)
    ensures var f := Tick(c, s, dt, distance, r, chosen);
            f.lookups == [] || f.lookups == RangeStats || f.lookups == RangeStats + ["AttackCooldown"]
  {
  }

  /** Lookups only add stats, each at 0 and each among the names looked up;
      the entries already there are untouched. */
  lemma {:induction false} LookupsOnlyAddZeroStats(v: map<string, StatState>, names: seq<string>)
    decreases |names|
    ensures forall k | k in v :: k in LookedUp(v, names) && LookedUp(v, names)[k] == v[k]
    ensures forall k | k in LookedUp(v, names) && k !in v ::
              LookedUp(v, names)[k] == StatState(0.0, [], []) && k in names
  {
    if names != [] {
      LookupsOnlyAddZeroStats(AfterLookup(v, names[0]), names[1..]);
    }
  }

  /** Hence no lookup changes the value any stat reads as: the values a
      frame reads are those of the table it started from. */
  lemma {:induction false} LookedUpKeepsValues(v: map<string, StatState>, names: seq<string>)
    decreases |names|
    ensures ReadingsOf(LookedUp(v, names)) == ReadingsOf(v)
  {
    if names != [] {
      LookedUpKeepsValues(AfterLookup(v, names[0]), names[1..]);
      var w := AfterLookup(v, names[0]);
      LookupKeepsValue(v, names[0], "DetectionRange");
      LookupKeepsValue(v, names[0], "AttackRange");
      LookupKeepsValue(v, names[0], "MovementSpeed");
      LookupKeepsValue(v, names[0], "TimeToIdle");
      LookupKeepsValue(v, names[0], "AttackCooldown");
    }
  }

  /** Every lookup of a frame leaves every stat's value as it was. */
  lemma LookupsKeepValue(v: map<string, StatState>, name: string)
    ensures StatValue(RangesRead(v), name) == StatValue(v, name)
  {
    LookupKeepsValue(v, "DetectionRange", name);
    LookupKeepsValue(AfterLookup(v, "DetectionRange"), "AttackRange", name);
    LookupKeepsValue(AfterLookup(AfterLookup(v, "DetectionRange"), "AttackRange"), "MovementSpeed", name);
    LookupKeepsValue(AfterLookup(AfterLookup(AfterLookup(v, "DetectionRange"), "AttackRange"), "MovementSpeed"), "TimeToIdle", name);
  }

  /** ChooseSkill's answer in terms of the skills: none exactly when no skill
      is ready, otherwise a ready skill with no ready skill before it. */
  lemma ReadySkillIsFirstReady(skills: seq<Skill>)
    ensures ReadySkill(skills).None? <==> forall i | 0 <= i < |skills| :: !skills[i].IsSkillReady()
    ensures ReadySkill(skills).Some? ==>
              exists i | 0 <= i < |skills| :: skills[i] == ReadySkill(skills).value && skills[i].IsSkillReady()
                                              && forall j | 0 <= j < i :: !skills[j].IsSkillReady()
  {
    var cds := CooldownsOf(skills);
    match FirstReady(cds)
    case None =>
    case Some(i) =>
      assert skills[i] == ReadySkill(skills).value;
  }
}
