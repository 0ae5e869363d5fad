/** The execution system and the objects its handlers update in place:
    the component on the weapon, the three events it handles, and the state
    of its collaborators (combat mode and the outputs handed over so far).
    Each handler is proved against the function of the same rule in
    `ExecutionSpec`. */
module Execution {
  import opened ExecutionSpec

  /** The execution component on a weapon. */
  class ExecutionComponent {
    var Executing: bool
    var DoAfterDuration: int
    var DamageModifier: int

    constructor (doAfterDuration: int, damageModifier: int)
      ensures !Executing
      ensures DoAfterDuration == doAfterDuration && DamageModifier == damageModifier
    {
      Executing := false;
      DoAfterDuration := doAfterDuration;
      DamageModifier := damageModifier;
    }
  }

  /** `GetVerbsEvent<UtilityVerb>`: read-only query data and the verb list
      the handlers append to. */
  class GetVerbsEvent {
    const User: Entity
    const Target: Entity
    const Using: Option<Entity>
    const HasHands: bool
    const CanAccess: bool
    const CanInteract: bool
    var Verbs: seq<UtilityVerb>

    constructor (q: VerbQuery, verbs: seq<UtilityVerb>)
      ensures Query() == q && Verbs == verbs
    {
      User, Target, Using := q.user, q.target, q.using;
      HasHands, CanAccess, CanInteract := q.hasHands, q.canAccess, q.canInteract;
      Verbs := verbs;
    }

    function Query(): VerbQuery
    {
      VerbQuery(User, Target, Using, HasHands, CanAccess, CanInteract)
    }
  }

  /** `ExecutionDoAfterEvent` as delivered by the do-after scheduler. */
  class ExecutionDoAfterEvent {
    const User: Entity
    const Target: Option<Entity>
    const Used: Option<Entity>
    const Cancelled: bool
    var Handled: bool

    constructor (report: DoAfterReport)
      ensures Report() == report
    {
      User, Target, Used := report.user, report.target, report.used;
      Cancelled, Handled := report.cancelled, report.handled;
    }

    function Report(): DoAfterReport
      reads this
    {
      DoAfterReport(Handled, Cancelled, User, Target, Used)
    }
  }

  /** `GetMeleeDamageEvent`: the damage of one melee hit, as computed so far. */
  class GetMeleeDamageEvent {
    var Damage: int

    constructor (damage: int)
      ensures Damage == damage
    {
      Damage := damage;
    }
  }

  /** The execution system. `combatMode` is the set of entities the combat
      mode system has in combat mode; `log` is every popup, do-after request
      and attack handed to a collaborator, oldest first. */
  class ExecutionSystem {
    var combatMode: set<Entity>
    var log: seq<Output>

    constructor (inCombat: set<Entity>)
      ensures combatMode == inCombat && log == []
    {
      combatMode := inCombat;
      log := [];
    }

    /** `SharedCombatModeSystem.SetInCombatMode`. */
    method SetInCombatMode(e: Entity, value: bool)
      modifies this`combatMode
      ensures combatMode == SetCombatMode(old(combatMode), e, value)
    {
      if value {
        combatMode := combatMode + {e};
      } else {
        combatMode := combatMode - {e};
      }
    }

    /** Offers the execution verb for the component on `uid`. */
    method OnGetInteractionsVerbs(w: World, uid: Entity, comp: ExecutionComponent, args: GetVerbsEvent)
      modifies args`Verbs
      ensures var v := ExecutionVerb(w, uid, args.Query());
        args.Verbs == old(args.Verbs) + (if v.Some? then [v.value] else [])
    {
      if !args.HasHands || args.Using.None? || !args.CanAccess || !args.CanInteract {
        return;
      }

      var attacker := args.User;
      var weapon := args.Using.value;
      var victim := args.Target;

      if !CanExecuteWithAny(w, victim, attacker) {
        return;
      }

      // `uid` stands for `comp`, the component the verb's action captures
      var verb := UtilityVerb(weapon, victim, attacker, uid, High, VerbName, VerbMessage);
      args.Verbs := args.Verbs + [verb];
    }

    /** The verb's action: shows the start popups and requests the do-after. */
    method TryStartExecutionDoAfter(w: World, weapon: Entity, victim: Entity, attacker: Entity, comp: ExecutionComponent)
      modifies this`log
      ensures log == old(log) + StartOutputs(w, weapon, victim, attacker, comp.DoAfterDuration)
    {
      if !CanExecuteWithAny(w, victim, attacker) {
        return;
      }

      var defaultExecutionInternal := MeleeInitialInternal;
      var defaultExecutionExternal := MeleeInitialExternal;

      if weapon in w.gun {
        defaultExecutionExternal := GunInitialInternal;
        defaultExecutionInternal := GunInitialExternal;
      }

      var internalMsg := defaultExecutionInternal;
      var externalMsg := defaultExecutionExternal;
      log := log + [ShowPopup(InternalPopup(internalMsg, attacker, victim, weapon, true))];
      log := log + [ShowPopup(ExternalPopup(externalMsg, attacker, victim, weapon))];

      var doAfter := DoAfterRequest(attacker, comp.DoAfterDuration, weapon, victim, weapon, true, true, true, true);
      log := log + [RequestDoAfter(doAfter)];
    }

    /** Completes the do-after for the component on `uid`: re-checks
        eligibility, then attacks with the melee weapon or shoots the gun
        with the flag up and the attacker in combat mode, shows the
        completion popups, and puts both back. */
    method OnExecutionDoAfter(w: World, uid: Entity, component: ExecutionComponent, args: ExecutionDoAfterEvent, clumsyRoll: bool)
      modifies this, component`Executing, args`Handled
      ensures var c := Complete(w, uid, old(args.Report()), clumsyRoll, old(HandlerState(component.Executing, combatMode)));
        component.Executing == c.after.executing && combatMode == c.after.combatMode &&
        args.Handled == c.handled && log == old(log) + c.emitted
    {
      if args.Handled || args.Cancelled || args.Used.None? || args.Target.None? {
        return;
      }

      var attacker := args.User;
      var victim := args.Target.value;
      var weapon := args.Used.value;

      if !CanExecuteWithAny(w, victim, attacker) {
        return;
      }

      var prev := attacker in combatMode;
      SetInCombatMode(attacker, true);
      component.Executing := true;
      var messages: Option<MessagePair> := None;

      if uid in w.melee {
        log := log + [Fire(LightAttack(attacker, weapon, uid, victim), component.Executing, attacker in combatMode)];
        messages := Some(MessagePair(MeleeCompleteInternal, MeleeCompleteExternal));
      } else if uid in w.gun {
        var clumsyShot := false;

        if attacker in w.clumsy {
          if clumsyRoll {
            clumsyShot := true;
          }
          messages := Some(MessagePair(GunClumsyInternal, GunClumsyExternal));
        } else {
          messages := Some(MessagePair(GunCompleteInternal, GunCompleteExternal));
        }

        var xform := w.position(victim);
        var coords;
        if clumsyShot {
          coords := Coords(Invalid, xform.x + 1, xform.y);
        } else {
          coords := xform;
        }

        log := log + [Fire(Shoot(args.User, uid, coords), component.Executing, attacker in combatMode)];
        args.Handled := true;
      }

      if messages.Some? {
        log := log + [ShowPopup(InternalPopup(messages.value.internal, attacker, victim, uid, false))];
        log := log + [ShowPopup(ExternalPopup(messages.value.external, attacker, victim, uid))];
      }
      SetInCombatMode(attacker, prev);
      component.Executing := false;
      args.Handled := true;
    }

    /** Adds the execution bonus to a melee hit made with `uid`. */
    method OnGetMeleeDamage(w: World, uid: Entity, comp: ExecutionComponent, args: GetMeleeDamageEvent)
      modifies args`Damage
      ensures args.Damage == old(args.Damage) + MeleeDamageBonus(w, uid, comp.Executing, comp.DamageModifier)
    {
      if uid !in w.melee || !comp.Executing {
        return;
      }

      var bonus := w.melee[uid] * comp.DamageModifier - w.melee[uid];
      args.Damage := args.Damage + bonus;
    }
  }
}
