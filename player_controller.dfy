/** The player's frame logic (Assets/Scripts/Player/PlayerController.cs):
    skill cooldowns advance every frame; the dodge key starts a dodge roll
    that moves the player for dodgeDuration seconds, followed by a recovery
    during which PlayerMovement's speed is lowered by a percentage; outside
    a dodge a left click fires the projectile skill when it is ready. Input,
    the camera, directions and the translation itself are outside the
    model: the keys and the random draws are parameters, the animator
    trigger and the dodge step are returned as a list of actions, and the
    projectile skill is activated in place, its spawns returned. */
module PlayerControllers {
  import opened Wrappers
  import opened Skills
  import ProjectileSkills
  import CharacterStatsModel
  import Weapons

  /** The one field of PlayerMovement the controller reads and writes. */
  class PlayerMovement {
    var movementSpeed: real

    constructor (movementSpeed: real)
      ensures this.movementSpeed == movementSpeed
    {
      this.movementSpeed := movementSpeed;
    }
  }

  /** What a frame asks of the engine. */
  datatype Action =
    | SetTrigger(name: string)     // animator.SetTrigger(name)
    | DodgeStep(distance: real)    // transform.Translate along the dodge direction
    | ActivateProjectileSkill      // projectileSkill.ActivateSkill(fireDirection) was called

  /** The controller's mutable fields, as one value. */
  datatype Dodge = Dodge(isDodging: bool, dodgeTimer: real, isRecovering: bool, recoveryTimer: real)

  /** The serialized tuning, the speed stored at Awake, and which components
      Awake found. */
  datatype Tuning = Tuning(dodgeDuration: real, dodgeSpeed: real, postDodgeRecoveryDuration: real,
                           movementSpeedPenaltyPercentage: real, originalMovementSpeed: real,
                           hasMovement: bool, hasAnimator: bool, hasProjectileSkill: bool)

  /** One frame's input: its length and whether the dodge key and the left
      button went down during it. */
  datatype Input = Input(dt: real, dodgePressed: bool, firePressed: bool)

  /** The result of a frame: the new fields, the actions, and the last speed
      written to PlayerMovement, if any. */
  datatype Step = Step(dodge: Dodge, actions: seq<Action>, speed: Option<real>)

  /** StartDodge, when the key went down outside a dodge: the dodge begins
      with a zero timer and the DodgeRoll animation, if there is an animator. */
  function Started(d: Dodge, t: Tuning, input: Input): (Dodge, seq<Action>)
  {
    if input.dodgePressed && !d.isDodging then
      (d.(isDodging := true, dodgeTimer := 0.0), if t.hasAnimator then [SetTrigger("DodgeRoll")] else [])
    else (d, [])
  }

  /** UpdateDodge: the timer runs, the player moves dodgeSpeed * dt, and at
      dodgeDuration EndDodge ends the dodge and starts the recovery. */
  function Dodged(d: Dodge, t: Tuning, dt: real): (Dodge, seq<Action>)
  {
    var timer := d.dodgeTimer + dt;
    (if timer >= t.dodgeDuration then d.(isDodging := false, dodgeTimer := 0.0, isRecovering := true, recoveryTimer := 0.0)
     else d.(dodgeTimer := timer),
     [DodgeStep(Stride(t, dt))])
  }

  /** The distance a dodge covers in a frame of `dt` seconds. */
  function Stride(t: Tuning, dt: real): real
  {
    t.dodgeSpeed * dt
  }

  /** The speed during the recovery: the original times the penalty. */
  function Penalized(t: Tuning): real
  {
    t.originalMovementSpeed * t.movementSpeedPenaltyPercentage
  }

  /** The recovery block: its timer runs and the speed is the penalised one;
      at postDodgeRecoveryDuration the recovery ends and the original speed
      is written back. Without PlayerMovement nothing is written. */
  function Recovered(d: Dodge, t: Tuning, dt: real): (Dodge, Option<real>)
  {
    if !d.isRecovering then (d, None)
    else
      var timer := d.recoveryTimer + dt;
      if timer >= t.postDodgeRecoveryDuration then
        (d.(isRecovering := false, recoveryTimer := 0.0), if t.hasMovement then Some(t.originalMovementSpeed) else None)
      else
        (d.(recoveryTimer := timer),
         if t.hasMovement then Some(Penalized(t)) else None)
  }

  /** HandleInput and TryActivateProjectileSkill: a click fires the skill
      only when there is one and it is ready. */
  function Fired(t: Tuning, input: Input, ready: bool): seq<Action>
  {
    if input.firePressed && t.hasProjectileSkill && ready then [ActivateProjectileSkill] else []
  }

  /** One Update after the cooldowns advanced, with `ready` whether the
      projectile skill is then ready: a dodge that is running (or has just
      started) takes the whole frame; otherwise the recovery, then the
      input. */
  function PlayerTick(d: Dodge, t: Tuning, input: Input, ready: bool): Step
  {
    var s := Started(d, t, input);
    if s.0.isDodging then
      var u := Dodged(s.0, t, input.dt);
      Step(u.0, s.1 + u.1, None)
    else
      var r := Recovered(s.0, t, input.dt);
      Step(r.0, s.1 + Fired(t, input, ready), r.1)
  }

  class PlayerController {
    const skills: seq<Skill>
    /** The ProjectileSkill found among the children, if any. */
    const projectileSkill: ProjectileSkills.ProjectileSkill?
    /** The CharacterStats and the Weapon the projectile skill finds on its
        parent, the player. */
    const ownerStats: CharacterStatsModel.CharacterStats?
    const ownerWeapon: Weapons.Weapon?
    const pm: PlayerMovement?
    const hasAnimator: bool
    const dodgeDuration: real
    const dodgeSpeed: real
    const postDodgeRecoveryDuration: real
    const movementSpeedPenaltyPercentage: real

    var isDodging: bool
    var dodgeTimer: real
    var isRecovering: bool
    var recoveryTimer: real
    var originalMovementSpeed: real

    function State(): Dodge
      reads this
    {
      Dodge(isDodging, dodgeTimer, isRecovering, recoveryTimer)
    }

    function Configured(): Tuning
      reads this
    {
      Tuning(dodgeDuration, dodgeSpeed, postDodgeRecoveryDuration, movementSpeedPenaltyPercentage,
             originalMovementSpeed, pm != null, hasAnimator, projectileSkill != null)
    }

    /** Field initializers: half a second of dodge at speed 10, half a second
        of recovery at half speed; no dodge, no recovery. The components
        Awake looks up are the parameters. */
    constructor (skills: seq<Skill>, projectileSkill: ProjectileSkills.ProjectileSkill?, pm: PlayerMovement?, hasAnimator: bool,
                 ownerStats: CharacterStatsModel.CharacterStats?, ownerWeapon: Weapons.Weapon?)
      ensures this.skills == skills && this.projectileSkill == projectileSkill && this.pm == pm
      ensures this.ownerStats == ownerStats && this.ownerWeapon == ownerWeapon
      ensures Configured() == Tuning(0.5, 10.0, 0.5, 0.5, 0.0, pm != null, hasAnimator, projectileSkill != null)
      ensures State() == Dodge(false, 0.0, false, 0.0)
    {
      this.skills := skills;
      this.projectileSkill := projectileSkill;
      this.pm := pm;
      this.hasAnimator := hasAnimator;
      this.ownerStats := ownerStats;
      this.ownerWeapon := ownerWeapon;
      dodgeDuration := 0.5;
      dodgeSpeed := 10.0;
      postDodgeRecoveryDuration := 0.5;
      movementSpeedPenaltyPercentage := 0.5;
      isDodging := false;
      dodgeTimer := 0.0;
      isRecovering := false;
      recoveryTimer := 0.0;
      originalMovementSpeed := 0.0;
    }

    /** Awake: every skill is reset to ready, and PlayerMovement's speed is
        stored as the original speed when there is a PlayerMovement. */
    method Awake()
      modifies this`originalMovementSpeed, (set s | s in skills)`currentCooldownTime
      ensures forall s | s in skills :: s.IsSkillReady() && s.Setup() == old(s.Setup())
      ensures pm != null ==> originalMovementSpeed == pm.movementSpeed
      ensures pm == null ==> originalMovementSpeed == old(originalMovementSpeed)
    {
      InitializeAll(skills);
      if pm != null {
        originalMovementSpeed := pm.movementSpeed;
      }
    }

    /** Update: every listed skill's cooldown advances (even during a dodge),
        then the frame PlayerTick describes, with the projectile skill's
        readiness as it is after the cooldowns; a click it handles activates
        the projectile skill, whose timer and spawns are then Activation's. */
    method Update(dt: real, dodgePressed: bool, firePressed: bool, rolls: ProjectileSkills.Rolls)
      returns (actions: seq<Action>, spawns: seq<ProjectileSkills.SpawnRequest>)
      modifies this`isDodging, this`dodgeTimer, this`isRecovering, this`recoveryTimer, pm, (set s | s in skills)`currentCooldownTime
      modifies (if projectileSkill == null then {} else {projectileSkill.skill})`currentCooldownTime
      ensures forall s | s in skills && (projectileSkill == null || s != projectileSkill.skill) ::
                s.currentCooldownTime == CooledDownTimes(old(s.currentCooldownTime), dt, multiset(skills)[s])
      ensures forall s | s in skills :: s.Setup() == old(s.Setup())
      ensures projectileSkill != null ==> projectileSkill.skill.Setup() == old(projectileSkill.skill.Setup())
      ensures var cooled := if projectileSkill == null then 0.0
                            else CooledDownTimes(old(projectileSkill.skill.currentCooldownTime), dt, multiset(skills)[projectileSkill.skill]);
              var f := PlayerTick(old(State()), Configured(), Input(dt, dodgePressed, firePressed),
                                  projectileSkill != null && cooled <= 0.0);
              && State() == f.dodge && actions == f.actions
              && (pm != null ==> pm.movementSpeed == if f.speed.Some? then f.speed.value else old(pm.movementSpeed))
              && (projectileSkill == null ==> spawns == [])
              && (projectileSkill != null ==>
                    (spawns, projectileSkill.skill.currentCooldownTime)
                    == if ActivateProjectileSkill in f.actions then Activation(cooled, rolls) else ([], cooled))
    {
      CoolDownAll(skills, dt);
      actions, spawns := [], [];
      if dodgePressed && !isDodging {
        actions := StartDodge();
      }
      if isDodging {
        var more := UpdateDodge(dt);
        actions := actions + more;
      } else {
        if isRecovering {
          Recover(dt);
        }
        var more;
        more, spawns := HandleInput(firePressed, rolls);
        actions := actions + more;
      }
    }

    /** StartDodge: the dodge begins with a zero timer, and the animator, if
        any, plays DodgeRoll. The direction is not modelled. */
    method StartDodge() returns (actions: seq<Action>)
      modifies this`isDodging, this`dodgeTimer
      ensures State() == old(State()).(isDodging := true, dodgeTimer := 0.0)
      ensures actions == if hasAnimator then [SetTrigger("DodgeRoll")] else []
    {
      isDodging := true;
      dodgeTimer := 0.0;
      actions := [];
      if hasAnimator {
        actions := [SetTrigger("DodgeRoll")];
      }
    }

    /** UpdateDodge. */
    method UpdateDodge(dt: real) returns (actions: seq<Action>)
      modifies this`isDodging, this`dodgeTimer, this`isRecovering, this`recoveryTimer
      ensures (State(), actions) == Dodged(old(State()), Configured(), dt)
    {
      dodgeTimer := dodgeTimer + dt;
      actions := [DodgeStep(dodgeSpeed * dt)];
      assert Stride(Configured(), dt) == dodgeSpeed * dt;
      if dodgeTimer >= dodgeDuration {
        EndDodge();
      }
      assert Configured() == old(Configured());
    }

    /** EndDodge: the dodge stops and the recovery starts from zero. */
    method EndDodge()
      modifies this`isDodging, this`dodgeTimer, this`isRecovering, this`recoveryTimer
      ensures State() == Dodge(false, 0.0, true, 0.0)
    {
      isDodging := false;
      dodgeTimer := 0.0;
      isRecovering := true;
      recoveryTimer := 0.0;
    }

    /** The recovery block of Update, run while recovering. */
    method Recover(dt: real)
      requires isRecovering
      modifies this`isRecovering, this`recoveryTimer, pm
      ensures var r := Recovered(old(State()), Configured(), dt);
              State() == r.0 && (pm != null ==> pm.movementSpeed == if r.1.Some? then r.1.value else old(pm.movementSpeed))
    {
      recoveryTimer := recoveryTimer + dt;
      if pm != null {
        pm.movementSpeed := originalMovementSpeed * movementSpeedPenaltyPercentage;
      }
      if recoveryTimer >= postDodgeRecoveryDuration {
        isRecovering := false;
        recoveryTimer := 0.0;
        if pm != null {
          pm.movementSpeed := originalMovementSpeed;
        }
      }
    }

    /** ActivateSkill called with the skill's timer at `cooldown`: a ready
        skill with its asset and an owner with stats fires the Shot volley
        and restarts its timer; otherwise nothing is spawned and the timer
        is kept. */
    function Activation(cooldown: real, rolls: ProjectileSkills.Rolls): (seq<ProjectileSkills.SpawnRequest>, real)
      requires projectileSkill != null
      reads projectileSkill, projectileSkill.skill, ownerStats, ownerWeapon
    {
      var skill := projectileSkill.skill;
      if cooldown <= 0.0 && skill.skillBaseStats.Some? && ownerStats != null then
        (ProjectileSkills.Shot(projectileSkill.isWeaponDamageSkill, skill.skillBaseStats.value, skill.targetType,
                               ownerStats.Scalars(), ProjectileSkills.WeaponOf(ownerWeapon), rolls),
         skill.baseCooldownTime)
      else ([], cooldown)
    }

    /** HandleInput: a click with a projectile skill present tries it. */
    method HandleInput(firePressed: bool, rolls: ProjectileSkills.Rolls)
      returns (actions: seq<Action>, spawns: seq<ProjectileSkills.SpawnRequest>)
      modifies (if projectileSkill == null then {} else {projectileSkill.skill})`currentCooldownTime
      ensures actions == Fired(Configured(), Input(0.0, false, firePressed),
                               projectileSkill != null && old(projectileSkill.skill.IsSkillReady()))
      ensures projectileSkill == null ==> spawns == []
      ensures projectileSkill != null ==>
                projectileSkill.skill.Setup() == old(projectileSkill.skill.Setup())
                && (spawns, projectileSkill.skill.currentCooldownTime)
                   == if firePressed then Activation(old(projectileSkill.skill.currentCooldownTime), rolls)
                      else ([], old(projectileSkill.skill.currentCooldownTime))
    {
      actions, spawns := [], [];
      if firePressed && projectileSkill != null {
        actions, spawns := TryActivateProjectileSkill(rolls);
      }
    }

    /** TryActivateProjectileSkill: the skill is activated only when ready;
        otherwise the frame only logs the remaining cooldown. */
    method TryActivateProjectileSkill(rolls: ProjectileSkills.Rolls)
      returns (actions: seq<Action>, spawns: seq<ProjectileSkills.SpawnRequest>)
      requires projectileSkill != null
      modifies projectileSkill.skill`currentCooldownTime
      ensures actions == if old(projectileSkill.skill.IsSkillReady()) then [ActivateProjectileSkill] else []
      ensures (spawns, projectileSkill.skill.currentCooldownTime) == Activation(old(projectileSkill.skill.currentCooldownTime), rolls)
    {
      if projectileSkill.skill.IsSkillReady() {
        spawns := projectileSkill.ActivateSkill(ownerStats, ownerWeapon, rolls);
        actions := [ActivateProjectileSkill];
      } else {
        actions, spawns := [], [];
      }
    }
  }

  /** The bounds the two timers keep: a running timer lies in [0, limit),
      a stopped one is 0. */
  predicate TimersBounded(d: Dodge, t: Tuning)
  {
    (d.isDodging ==> 0.0 <= d.dodgeTimer < t.dodgeDuration) && (!d.isDodging ==> d.dodgeTimer == 0.0)
    && (d.isRecovering ==> 0.0 <= d.recoveryTimer < t.postDodgeRecoveryDuration)
    && (!d.isRecovering ==> d.recoveryTimer == 0.0)
  }

  /** The fields as the constructor leaves them satisfy the bounds, and every
      frame of non-negative length keeps them. */
  lemma TimersStayBounded(d: Dodge, t: Tuning, input: Input, ready: bool)
    requires t.dodgeDuration > 0.0 && t.postDodgeRecoveryDuration > 0.0
    requires TimersBounded(d, t) && input.dt >= 0.0
    ensures TimersBounded(PlayerTick(d, t, input, ready).dodge, t)
    ensures TimersBounded(Dodge(false, 0.0, false, 0.0), t)
  {
  }

  /** A dodge starts only when the key goes down outside a dodge; the
      DodgeRoll animation plays exactly then, when there is an animator. */
  lemma DodgeStartsOnlyOutsideDodge(d: Dodge, t: Tuning, input: Input, ready: bool)
    ensures var f := PlayerTick(d, t, input, ready);
            SetTrigger("DodgeRoll") in f.actions <==> t.hasAnimator && input.dodgePressed && !d.isDodging
    ensures var f := PlayerTick(d, t, input, ready);
            !d.isDodging && !input.dodgePressed ==> !f.dodge.isDodging
  {
  }

  /** A dodge started this frame has already run for the whole frame. */
  lemma StartedDodgeRunsAtOnce(d: Dodge, t: Tuning, input: Input, ready: bool)
    requires input.dodgePressed && !d.isDodging
    ensures var f := PlayerTick(d, t, input, ready);
            && DodgeStep(Stride(t, input.dt)) in f.actions
            && (input.dt < t.dodgeDuration ==> f.dodge.isDodging && f.dodge.dodgeTimer == input.dt)
            && (input.dt >= t.dodgeDuration ==> !f.dodge.isDodging && f.dodge.isRecovering && f.dodge.recoveryTimer == 0.0)
  {
  }

  /** While dodging (or starting to), no click is handled, the recovery
      does not run and PlayerMovement's speed is not written. */
  lemma NoSkillWhileDodging(d: Dodge, t: Tuning, input: Input, ready: bool)
    requires d.isDodging || input.dodgePressed
    ensures var f := PlayerTick(d, t, input, ready);
            ActivateProjectileSkill !in f.actions && f.speed.None?
  {
  }

  /** Outside a dodge the skill fires exactly when clicked, present and
      ready. */
  lemma FireExactlyWhenReady(d: Dodge, t: Tuning, input: Input, ready: bool)
    requires !d.isDodging && !input.dodgePressed
    ensures var f := PlayerTick(d, t, input, ready);
            ActivateProjectileSkill in f.actions <==> input.firePressed && t.hasProjectileSkill && ready
  {
  }

  /** The dodge lasts until its timer reaches dodgeDuration; then the
      recovery begins with a zero timer. */
  lemma DodgeEndsAtDuration(d: Dodge, t: Tuning, input: Input, ready: bool)
    requires d.isDodging
    ensures var f := PlayerTick(d, t, input, ready);
            && (f.dodge.isDodging <==> d.dodgeTimer + input.dt < t.dodgeDuration)
            && (f.dodge.isDodging ==> f.dodge.dodgeTimer == d.dodgeTimer + input.dt && f.dodge.isRecovering == d.isRecovering)
            && (!f.dodge.isDodging ==> f.dodge.dodgeTimer == 0.0 && f.dodge.isRecovering && f.dodge.recoveryTimer == 0.0)
  {
  }

  /** During the recovery the speed is the original times the penalty; the
      frame the recovery ends, the original speed is written back. */
  lemma RecoverySpeed(d: Dodge, t: Tuning, input: Input, ready: bool)
    requires !d.isDodging && !input.dodgePressed && d.isRecovering && t.hasMovement
    ensures var f := PlayerTick(d, t, input, ready);
            && (d.recoveryTimer + input.dt < t.postDodgeRecoveryDuration ==>
                  f.dodge.isRecovering && f.speed == Some(Penalized(t)))
            && (d.recoveryTimer + input.dt >= t.postDodgeRecoveryDuration ==>
                  !f.dodge.isRecovering && f.speed == Some(t.originalMovementSpeed))
  {
    assert Started(d, t, input) == (d, []);
    var r := Recovered(d, t, input.dt);
    assert PlayerTick(d, t, input, ready) == Step(r.0, [] + Fired(t, input, ready), r.1);
    if d.recoveryTimer + input.dt < t.postDodgeRecoveryDuration {
      assert r.1 == Some(Penalized(t));
    }
  }

  /** The speed is written only by the recovery, and only with a
      PlayerMovement; the value is one of the two speeds. */
  lemma SpeedWrittenOnlyInRecovery(d: Dodge, t: Tuning, input: Input, ready: bool)
    ensures var f := PlayerTick(d, t, input, ready);
            f.speed.Some? ==>
              d.isRecovering && !d.isDodging && !input.dodgePressed && t.hasMovement
              && (f.speed.value == t.originalMovementSpeed
                  || f.speed.value == Penalized(t))
  {
  }
}
