# Jetpack system (shared movement code), modelled in Dafny

`SharedJetpackSystem` decides whether a jetpack item is switched on and keeps
the entity wearing it in step. A jetpack is on exactly when it carries an
`ActiveJetpackComponent`. Switching it on puts a `JetpackUserComponent` on the
entity attributed with the change: either the explicit user, or the owner of the
container the jetpack sits in. That component holds a copy of the jetpack's
acceleration, friction and weightless modifier. Switching the jetpack off removes
the component. Each time the wearer changes, the movement system is asked to
recompute that entity's speed modifiers. The same request is made when a wearer's
parent changes, and for every wearer on a grid whose gravity changed. While a
wearer is weightless, the jetpack also answers two movement queries: it lets the
wearer move, and it claims the movement profile unless another responder claimed
it first.

The project has three files:

- `jetpack_model.dfy` (module `JetpackModel`) holds the component stores as one
  value, `World`. It defines every operation as a function on that value.
  `SetEnabled` is built from three steps: `MarkActive`, `UpdateUser` and `Publish`.
  The file also holds the two queries, `IsEnabled` and `IsUserFlying`.
- `jetpack_properties.dfy` (module `JetpackProperties`) holds the lemmas. They
  cover the no-op cases, the state after each transition, locality, toggle, drop,
  first-claim-wins and the gravity cascade. One invariant is kept over any sequence
  of events, where an event is a `SetEnabled` call, a drop, a toggle, a parent
  change or a gravity change.
- `jetpack_system.dfy` (module `JetpackSystem`) is the system as an object.
  `SharedJetpackSystem` has one field per component store. Its methods update
  those fields step by step, as the source does. Each method that changes the
  stores is proved to leave them equal to a model function applied to the stores
  before. For most methods that function has the same name. For
  `RefreshMovementSpeedModifiers` it is `RefreshMovement`. The gravity handler
  returns the order in which it visited the wearers as a ghost value, and the
  function is `OnJetpackUserGravityChanged` for that order. The two by-reference
  event handlers return the event as it is after the handler ran.
  `OnJetpackUserMovement` is proved to return `ClaimMovementProfile` of the
  wearer's parameters. `OnJetpackUserCanWeightless` states its result directly.

External collaborators appear as follows:

- The `CanEnable` fuel check is a parameter `canEnable: EntityUid -> bool`.
- The physics weightlessness test is a parameter `isWeightless`.
- A container lookup is a lookup in the `containerOwner` map.
- Each `RefreshMovementSpeedModifiers` call is appended to `refreshLog`.
- An optional `AppearanceComponent` is a key of `appearance`. Its value is the
  `JetpackVisuals.Enabled` datum last written.
- `Dirty` adds the jetpack to `dirty`.

The movement parameters are floats in the program. The system only copies them,
so they are the abstract type `Float` here.

Three behaviours of the code are easy to miss:

- There is no rollback. Line 99 adds the `ActiveJetpackComponent` before the user
  is resolved (lines 106-110). When no user resolves and the call enables, line
  113 returns and the marker stays. The comment at line 112 says the jetpack
  can't be activated with no one using it, yet the device is left active with no
  wearer, no refresh, no appearance write and no dirty mark. `EnableWithoutUser`
  states this.
- The toggle handler never sets `Handled` on its event (lines 75-80). It only
  reads it.
- `DisableDropsSharedWearer` shows that the `JetpackUserComponent` is one per
  entity. Switching off one of two jetpacks attributed to the same user removes
  it, even though the other jetpack stays on.

## Model

| member | source | states |
|---|---|---|
| JetpackModel.SetEnabled | Content.Shared/Movement/Systems/SharedJetpackSystem.cs:92-132 | never writes the jetpack configuration, the containment, grid or physics stores; the device ends in the requested state unless the fuel check refuses an enable, in which case it keeps its state |
| JetpackModel.MarkActive | Content.Shared/Movement/Systems/SharedJetpackSystem.cs:97-104 | the device's active marker is present exactly when enabling; no other entity's marker and no other store changes |
| JetpackModel.UpdateUser | Content.Shared/Movement/Systems/SharedJetpackSystem.cs:115-127 | the user carries a JetpackUserComponent exactly when enabling; when enabling it holds the jetpack's three parameters and every other wearer is as before, when disabling only that user's component is gone; exactly one refresh of that user is appended; only the wearer store and the refresh log change |
| JetpackModel.Publish | Content.Shared/Movement/Systems/SharedJetpackSystem.cs:129-131 | the device is dirty; if it has an AppearanceComponent its Enabled datum becomes the new state and every other datum is as before, and without one the appearance store is untouched; no other entity's dirty flag and no other store changes |
| JetpackModel.IsEnabled | Content.Shared/Movement/Systems/SharedJetpackSystem.cs:87-90 | defined as the presence of the ActiveJetpackComponent (line 89); its transitions are stated by SetEnabled's ensures and by ToggleFlips |
| JetpackModel.IsUserFlying | Content.Shared/Movement/Systems/SharedJetpackSystem.cs:134-139 | defined as having a JetpackUserComponent, having a PhysicsComponent and being weightless (lines 136-138); EnabledUserFliesWhenWeightless and DropForcesDisable state it after an enable and after a drop |
| JetpackModel.ResolveUser | Content.Shared/Movement/Systems/SharedJetpackSystem.cs:106-110 | defined as the explicit user, else the owner of the container the device sits in, else none; SuccessfulEnable, Disable and EnableWithoutUser state the transition for each outcome |
| JetpackModel.GravityTargets | Content.Shared/Movement/Systems/SharedJetpackSystem.cs:57-65 | defined as the JetpackUserComponent holders whose grid is the changed grid (lines 60-62); GravityRefreshesMatchTargets proves these are exactly the entities a gravity change refreshes, each once |
| JetpackModel.GravityRefreshes | Content.Shared/Movement/Systems/SharedJetpackSystem.cs:57-65 | for a given visiting order, every refreshed entity was visited and is a wearer on the changed grid |
| JetpackModel.ClaimMovementProfile | Content.Shared/Movement/Systems/SharedJetpackSystem.cs:36-45 | an event already overridden, or one for a mob that is not weightless, is returned unchanged; otherwise it is claimed and carries the wearer's acceleration, friction and weightless modifier |
| JetpackProperties.SetEnabledUnchangedIff | Content.Shared/Movement/Systems/SharedJetpackSystem.cs:94-95 | a call leaves the whole world unchanged if and only if the device is already in the requested state or the fuel check refuses the enable |
| JetpackProperties.SetEnabledIdempotent | Content.Shared/Movement/Systems/SharedJetpackSystem.cs:94-95 | a second identical call changes nothing: no second marker, refresh, appearance write or dirty mark |
| JetpackProperties.SuccessfulEnable | Content.Shared/Movement/Systems/SharedJetpackSystem.cs:92-131 | enabling an inactive, fuelled device with a resolvable user adds the active marker, sets that user's JetpackUserComponent to exactly the device's three parameters, appends exactly that user to the refresh log, writes appearance true when present and marks the device dirty |
| JetpackProperties.EnabledUserFliesWhenWeightless | Content.Shared/Movement/Systems/SharedJetpackSystem.cs:134-139 | after a successful enable the resolved user is flying exactly when it has physics and is weightless |
| JetpackProperties.Disable | Content.Shared/Movement/Systems/SharedJetpackSystem.cs:101-131 | disabling an active device removes its marker; a resolved user loses its JetpackUserComponent and is appended once to the refresh log, while with no user the wearers and the log are untouched; appearance false when present; device dirty |
| JetpackProperties.EnableWithoutUser | Content.Shared/Movement/Systems/SharedJetpackSystem.cs:97-113 | enabling with no explicit user and no container leaves the device active (no rollback) and changes nothing else: wearers, refresh log, appearance and dirty set are as before |
| JetpackProperties.SetEnabledTouchesOnlyDevice | Content.Shared/Movement/Systems/SharedJetpackSystem.cs:92-131 | no entity other than the device gains or loses an active marker, a dirty mark or an appearance datum |
| JetpackProperties.SetEnabledTouchesOnlyUser | Content.Shared/Movement/Systems/SharedJetpackSystem.cs:106-127 | every entity other than the resolved user keeps its JetpackUserComponent as it was; the refresh log is unchanged or grows by exactly the resolved user |
| JetpackProperties.EnableThenDisableRestoresMarkers | Content.Shared/Movement/Systems/SharedJetpackSystem.cs:92-131 | enable then disable for a user who wore nothing restores the active and wearer stores exactly, with two refreshes of that user |
| JetpackProperties.DisableDropsSharedWearer | Content.Shared/Movement/Systems/SharedJetpackSystem.cs:115-124 | when the user wears the device being disabled and the other active jetpack sits in that user's container, disabling the device removes the user's JetpackUserComponent while the other jetpack stays active |
| JetpackProperties.ToggleFlips | Content.Shared/Movement/Systems/SharedJetpackSystem.cs:75-80 | a handled toggle changes nothing; an unhandled one leaves the device on if and only if it was off and the fuel check agrees |
| JetpackProperties.DropForcesDisable | Content.Shared/Movement/Systems/SharedJetpackSystem.cs:31-34 | after a drop the device is off; if it was on, the dropping entity has no JetpackUserComponent, is not flying and was refreshed once; if it was off, nothing changed |
| JetpackProperties.FirstClaimWins | Content.Shared/Movement/Systems/SharedJetpackSystem.cs:36-45 | once this responder has run, running it again with any parameters leaves the event as it is |
| JetpackProperties.GravityRefreshesSnoc | Content.Shared/Movement/Systems/SharedJetpackSystem.cs:60-63 | visiting one more entity appends its refresh at the end exactly when it is a wearer on the changed grid, and leaves the earlier refreshes as they were |
| JetpackProperties.GravityRefreshesCount | Content.Shared/Movement/Systems/SharedJetpackSystem.cs:57-65 | when no entity is visited twice, each entity is refreshed once if it was visited and is a wearer on the changed grid, and otherwise never |
| JetpackProperties.GravityRefreshesMatchTargets | Content.Shared/Movement/Systems/SharedJetpackSystem.cs:57-65 | whatever order the query visits the wearers in, the refreshes are exactly the wearers on the changed grid, each once |
| JetpackProperties.GravityCascade | Content.Shared/Movement/Systems/SharedJetpackSystem.cs:57-65 | for a refresh sequence matching the gravity targets, a wearer on the changed grid is refreshed exactly once, an entity on another grid never, and every refreshed entity is a wearer on that grid |
| JetpackProperties.SetEnabledKeepsConsistent | Content.Shared/Movement/Systems/SharedJetpackSystem.cs:67-73 | every active marker and dirty mark stays on a jetpack, and every JetpackUserComponent keeps holding the parameters of some jetpack |
| JetpackProperties.StepKeepsConsistent | Content.Shared/Movement/Systems/SharedJetpackSystem.cs:31-80 | a SetEnabled call and each handler that changes state (drop, toggle, parent change, gravity change) keeps that consistency and never changes the jetpack configuration |
| JetpackProperties.ReplayKeepsConsistent | Content.Shared/Movement/Systems/SharedJetpackSystem.cs:31-132 | over any sequence of SetEnabled calls, drops, toggles, parent changes and gravity changes the consistency is kept and the configuration never changes |
| JetpackSystem.SharedJetpackSystem.SetEnabled | Content.Shared/Movement/Systems/SharedJetpackSystem.cs:92-132 | the step-by-step method leaves the stores equal to JetpackModel.SetEnabled of the stores before |
| JetpackSystem.SharedJetpackSystem.SetupUser | Content.Shared/Movement/Systems/SharedJetpackSystem.cs:67-73 | the user's JetpackUserComponent exists and holds the jetpack's three parameters; nothing else changes |
| JetpackSystem.SharedJetpackSystem.RefreshMovementSpeedModifiers | Content.Shared/Movement/Systems/SharedJetpackSystem.cs:126 | the refresh request for the entity is appended to the log; nothing else changes |
| JetpackSystem.SharedJetpackSystem.Publish | Content.Shared/Movement/Systems/SharedJetpackSystem.cs:129-131 | the stores after are JetpackModel.Publish of the stores before |
| JetpackSystem.SharedJetpackSystem.OnJetpackDropped | Content.Shared/Movement/Systems/SharedJetpackSystem.cs:31-34 | the stores after are those of SetEnabled(device, false, dropping entity) |
| JetpackSystem.SharedJetpackSystem.OnJetpackToggle | Content.Shared/Movement/Systems/SharedJetpackSystem.cs:75-80 | a handled event changes nothing; otherwise the stores after are those of SetEnabled(device, not enabled, no user) |
| JetpackSystem.SharedJetpackSystem.OnJetpackUserMovement | Content.Shared/Movement/Systems/SharedJetpackSystem.cs:36-45 | the event after the handler is ClaimMovementProfile of the wearer's parameters, and an overridden event comes back unchanged |
| JetpackSystem.SharedJetpackSystem.OnJetpackUserCanWeightless | Content.Shared/Movement/Systems/SharedJetpackSystem.cs:47-50 | a wearer is always allowed to move while weightless; the event's entity is unchanged |
| JetpackSystem.SharedJetpackSystem.OnJetpackUserEntParentChanged | Content.Shared/Movement/Systems/SharedJetpackSystem.cs:52-55 | exactly one refresh of the wearer is appended; nothing else changes |
| JetpackSystem.SharedJetpackSystem.OnJetpackUserGravityChanged | Content.Shared/Movement/Systems/SharedJetpackSystem.cs:57-65 | the returned visiting order covers every wearer once; the stores after are JetpackModel.OnJetpackUserGravityChanged for that order; the log keeps its old entries and gains each wearer on the changed grid exactly once and nobody else; no other store changes |

## Left out

- Event subscription and dependency injection (`Initialize` and the dependency
  fields, lines 15-29). The handlers are called directly. `JetpackProperties.Step`
  stands in for dispatch only to state the invariant. It runs a handler only on
  an entity that has the component the handler subscribes to.
- `OnJetpackGetAction` (lines 82-85) appends the jetpack's action descriptor to a
  list. It has no effect on the state modelled here, and action descriptors are
  not part of this model.
- `JetpackComponentState` (lines 143-147) is a network snapshot that this system
  never fills in. Replication is modelled only as the dirty mark.
- `CanEnable` (line 141) is abstract in the source, and its fuel logic is not part
  of this model. It is a pure parameter. `ReplayKeepsConsistent` fixes one policy
  for a whole event sequence, and the invariant holds for every policy.
- The internals of `RefreshMovementSpeedModifiers`, the container system and the
  weightlessness physics are calls into other systems. They appear as log
  appends, a map lookup and a parameter. Each call to `IsWeightless` is assumed
  to answer the same for the same entity.
- Float arithmetic is left out, because the parameters are only copied.
- Rendering of the appearance datum is left out. Only the boolean written is
  recorded.
- `JetpackSystem.SharedJetpackSystem.OnJetpackUserGravityChanged`: the order in
  which wearers are visited is not fixed, because the entity query enumerates
  them in no stated order. The method picks any order and returns it as a ghost
  value, so its contract fixes the appended calls as a sequence only relative to
  that order.
- The two query handlers `OnJetpackUserMovement` and `OnJetpackUserCanWeightless`
  change no store, so `JetpackProperties.Step` has no case for them.
