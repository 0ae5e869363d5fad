# Execution interaction — a Dafny model

This project models the shared `ExecutionSystem` of Space Station 14. This
system adds an "execute" verb that lets an attacker kill an incapacitated
victim with a held weapon. The model covers four things:

- the eligibility check;
- offering the verb;
- starting the do-after (the game's timed, interruptible action) with its
  popups;
- the completion handler, which re-checks eligibility, forces combat mode,
  raises the component's `Executing` flag, and then attacks with the melee
  weapon or shoots the gun.

It also covers the melee-damage hook, which scales damage while that flag
is up.

There are two modules:

- `ExecutionSpec` (`execution_spec.dfy`) states every rule on values. A
  `World` record holds what the collaborators answer during one call:
  who is damageable, who has a mob state, who is dead, who may attack whom,
  who can interact, who is clumsy, which entities are melee weapons (with
  their base damage) or guns, and where each entity is. What the system hands
  to its collaborators (popups, the do-after request, the light attack or
  the shot) is an `Output`. Outputs are logged in emission order. A fired
  effect records the `Executing` flag and the attacker's combat mode at the
  moment it is handed over.
- `Execution` (`execution.dfy`) holds the classes updated in place. These are
  `ExecutionComponent` (`Executing`, `DoAfterDuration`, `DamageModifier`) and
  the three events (`GetVerbsEvent.Verbs`, `ExecutionDoAfterEvent.Handled`,
  `GetMeleeDamageEvent.Damage`). `ExecutionSystem` holds the combat-mode set
  and the output log. Each handler is a method, and each method is proved
  equal to the matching function of `ExecutionSpec`.

Decisions taken where the source text does not settle the behaviour:

- When the component's owner is neither a melee weapon nor a gun, the
  completion messages are never assigned (ExecutionSystem.cs:160-161, :211).
  The model then emits no effect and no completion popup. The flag, the
  combat mode and `Handled` are still handled as on every acting path.
- Line 207 passes `comp`, which is not in scope. The model reads it as the gun
  of `uid`. The shot is `Shoot(args.User, uid, coords)`.
- The melee and gun tests look at `uid`, the component's owner, and not at
  `args.Used`. The model keeps this distinction: `LightAttack` names
  `args.Used` as the weapon and `uid` as the owner of the melee component.
- The completion popups name `uid` as the weapon. The start popups name the
  verb's `Using` entity.
- For a gun, the start popups use the gun-initial keys crosswise: the
  attacker gets the external key and bystanders get the internal one. The
  model keeps this as written.
- Both external popups, at start and at completion, are `MediumCaution`.
  Both internal popups are `Medium`.
- The clumsy shot's coordinates take the victim's X + 1 and Y, but with an
  invalid parent entity. The model keeps that parent.
- The hook adds `base * m - base` to the damage it is given. Here `base` is
  the melee component's own damage, not the incoming damage. So the result
  equals `incoming * m` only when the incoming damage is the base damage.

## Model

| member | source | states |
|---|---|---|
| `ExecutionSpec.CanExecuteWithAny` | Content.Shared/Execution/ExecutionSystem.cs:114-142 | eligible exactly when victim ≠ attacker, the victim is damageable, has a mob state and is not dead, the attacker can attack it, and it cannot interact |
| `ExecutionSpec.SelfNeverEligible` | Content.Shared/Execution/ExecutionSystem.cs:116-118 | no world makes self-execution eligible |
| `ExecutionSpec.IneligibleVictims` | Content.Shared/Execution/ExecutionSystem.cs:124-138 | a victim that can interact, has no mob state, or is dead is never eligible, so the `victim != attacker` guard of the last check is redundant |
| `ExecutionSpec.IncapacitationGuardRedundant` | Content.Shared/Execution/ExecutionSystem.cs:116-141 | the chain with the `victim != attacker` guard of the incapacitation check removed gives the same answer on every input |
| `ExecutionSpec.PopupConventions` | Content.Shared/Execution/ExecutionSystem.cs:231-265 | across the start and the completion, every attacker-only popup is Medium; every other popup is MediumCaution, shown to everyone but the attacker and not predicted; only the start's attacker popup is predicted; the two popups of one call name the same attacker, victim and weapon |
| `ExecutionSpec.ExecutionVerb` | Content.Shared/Execution/ExecutionSystem.cs:58-79 | a verb is offered exactly when hands and `Using` are present, access and interaction are allowed, and eligibility holds; the verb's action names `Using` as the weapon, the target as victim and the user as attacker, with high impact and the verb's two keys |
| `Execution.ExecutionSystem.OnGetInteractionsVerbs` | Content.Shared/Execution/ExecutionSystem.cs:58-79 | the verb list gains exactly that one verb, or is unchanged |
| `ExecutionSpec.StartOutputs` | Content.Shared/Execution/ExecutionSystem.cs:81-112 | nothing is emitted when ineligible; otherwise exactly a predicted Medium popup for the attacker with the melee-initial internal key, or for a gun the gun-initial external key, then a MediumCaution popup for everyone but the attacker with the melee-initial external key, or for a gun the gun-initial internal key, then a do-after for the attacker with the component's duration, raised on the weapon, targeting the victim, used with the weapon, and all four break/need-hand flags set |
| `Execution.ExecutionSystem.TryStartExecutionDoAfter` | Content.Shared/Execution/ExecutionSystem.cs:81-112 | the log grows by exactly those outputs |
| `ExecutionSpec.ShotCoords` | Content.Shared/Execution/ExecutionSystem.cs:190-202 | a normal shot aims at the victim's coordinates; a clumsy shot aims one unit further along X with an invalid parent, never at the victim's own coordinates |
| `ExecutionSpec.Resolve` | Content.Shared/Execution/ExecutionSystem.cs:163-209 | an effect and messages exist exactly for a melee weapon or gun; melee wins and gives a light attack and the melee-complete pair; a gun shoots as the attacker at the coordinates the roll selects; the clumsy pair is chosen exactly when the attacker is clumsy, whatever the roll |
| `ExecutionSpec.Complete` | Content.Shared/Execution/ExecutionSystem.cs:144-216 | if handled, cancelled, missing target or used entity, or no longer eligible, nothing changes and nothing is emitted; otherwise the flag ends down, combat mode ends as it began and the event is handled; for a melee weapon or gun it emits exactly the effect `Resolve` chooses, then the attacker's popup and the bystanders' popup with the keys `Resolve` chooses; for an owner that is neither it emits nothing; every effect is handed over with the flag up and the attacker in combat mode; completion popups are confirmed and name the owner as weapon |
| `Execution.ExecutionSystem.OnExecutionDoAfter` | Content.Shared/Execution/ExecutionSystem.cs:144-216 | the flag, combat mode, `Handled` and the log end as the completion function says |
| `ExecutionSpec.Run` | Content.Shared/Execution/ExecutionSystem.cs:156-215 | over any sequence of completions, combat mode ends as it began; the flag stays down if it started down; and it is down once any completion acted |
| `ExecutionSpec.RecoveredVictimLapses` | Content.Shared/Execution/ExecutionSystem.cs:146-154 | a victim eligible at start who can interact again at completion is not executed: nothing changes, nothing is emitted |
| `ExecutionSpec.MeleeDamageBonus` | Content.Shared/Execution/ExecutionSystem.cs:218-229 | zero unless the owner is a melee weapon and the flag is up; then base + bonus = base × modifier |
| `Execution.ExecutionSystem.OnGetMeleeDamage` | Content.Shared/Execution/ExecutionSystem.cs:218-229 | the hit's damage grows by exactly that bonus |
| `ExecutionSpec.MeleeExecutionScalesDamage` | Content.Shared/Execution/ExecutionSystem.cs:157-165 | when the used entity is the component's owner, as in every do-after the system requests, an acting melee completion hands over the light attack with that weapon and the flag up, so the hook turns the base damage into base × modifier |
| `ExecutionSpec.NoBonusBetweenCompletions` | Content.Shared/Execution/ExecutionSystem.cs:218-229 | between completion calls the hook adds nothing |

## Left out

- Popup delivery, localisation and PVS audiences are left out. A popup is
  kept only as its key, its three substitution values, its audience, whether
  it is predicted, and its severity.
- The do-after scheduler is left out: its timing, cancellation, and
  break-condition checks. The model records the request. The completion
  handler receives the handled and cancelled flags and the target and used
  entities as inputs.
- The internals of `AttemptLightAttack` and `AttemptShoot` are left out. In
  particular, the melee system's own call into the damage hook is not
  modelled; `MeleeExecutionScalesDamage` relates the two instead. Ammunition
  is left out too.
- The clumsy roll and its 0.333 probability are left out. The roll's outcome
  is a boolean input. A probability cannot be stated on the model.
- Damage and the damage modifier are integers. The source's damage
  specifiers and floating-point modifier are not modelled. Durations are
  integers too.
- Coordinates are integer triples (parent, X, Y). Floating-point rounding of
  X + 1 is not modelled.
- Every entity is assumed to have a transform. The null transform that
  `TryComp<TransformComponent>` could give at line 190 is not modelled.
- `OnGetMeleeDamage` looks up the execution component a second time
  (line 221). This always finds the component the handler was raised for,
  so the model uses `comp` directly.
- Event subscription (`Initialize`) and dependency injection are left out.
  `ExecutionComponent.cs` and the collaborator systems are not part of this
  model. The combat mode system is modelled as a set that
  `SetInCombatMode` adds to or removes from. The set stands for attackers
  that have a combat-mode component: for an entity without one, the real
  `SetInCombatMode` does nothing, and the promise that every effect is handed
  over with the attacker in combat mode does not hold for it.
- Reentrant completion on the same component is not modelled. Each handler
  runs to the end as one step.
