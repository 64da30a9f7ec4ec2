/**
 * The jetpack system of the shared movement code, as functions on a value
 * that holds every component store the system reads or writes.
 *
 * Entities are bare identifiers; a component attached to an entity is a key
 * of one of the maps (or an element of one of the sets) in `World`.  The
 * movement parameters are floating-point numbers in the program, but the
 * system only ever copies them, so they are an abstract type here.
 */
module JetpackModel {

  /** An entity identifier (EntityUid); only compared for equality. */
  type EntityUid(==, !new)

  /** A movement parameter; copied, never computed with. */
  type Float

  datatype Option<T> = None | Some(value: T)

  /** Acceleration, friction and weightless-movement modifier: the three
      values a JetpackComponent configures and a JetpackUserComponent holds. */
  datatype Params = Params(acceleration: Float, friction: Float, weightlessModifier: Float)

  /** The component stores the system touches. */
  datatype World = World(
    active: set<EntityUid>,                    // entities with an ActiveJetpackComponent
    wearer: map<EntityUid, Params>,            // entities with a JetpackUserComponent
    jetpack: map<EntityUid, Params>,           // entities with a JetpackComponent (configuration)
    containerOwner: map<EntityUid, EntityUid>, // owner of the container an entity sits in, if any
    grid: map<EntityUid, EntityUid>,           // TransformComponent.GridUid, for entities on a grid
    physics: set<EntityUid>,                   // entities with a PhysicsComponent
    appearance: map<EntityUid, Option<bool>>,  // AppearanceComponent and its JetpackVisuals.Enabled datum
    refreshLog: seq<EntityUid>,                // RefreshMovementSpeedModifiers calls, oldest first
    dirty: set<EntityUid>                      // jetpacks marked dirty for replication
  )

  /** A MobMovementProfileEvent as the handler sees it (passed by reference). */
  datatype MovementProfileEvent = MovementProfileEvent(
    override: bool, weightless: bool,
    acceleration: Float, friction: Float, weightlessModifier: Float)

  /** A CanWeightlessMoveEvent (passed by reference). */
  datatype CanWeightlessMoveEvent = CanWeightlessMoveEvent(uid: EntityUid, canMove: bool)

  /** A ToggleJetpackEvent; the handler reads `handled` and never writes it. */
  datatype ToggleJetpackEvent = ToggleJetpackEvent(handled: bool)

  /** The device is switched on exactly when it carries the active marker. */
  predicate IsEnabled(w: World, d: EntityUid) {
    d in w.active
  }

  /** A user flies when it wears a jetpack, has physics and is weightless. */
  predicate IsUserFlying(w: World, e: EntityUid, isWeightless: EntityUid -> bool) {
    e in w.wearer && e in w.physics && isWeightless(e)
  }

  /** The user a transition is attributed to: the explicit one, else the owner
      of the container the device sits in, else none. */
  function ResolveUser(w: World, d: EntityUid, user: Option<EntityUid>): Option<EntityUid> {
    if user.Some? then user
    else if d in w.containerOwner then Some(w.containerOwner[d])
    else None
  }

  /** A request to the movement system to recompute `e`'s speed modifiers. */
  function RefreshMovement(w: World, e: EntityUid): World {
    w.(refreshLog := w.refreshLog + [e])
  }

  /** Ensure `u` has a JetpackUserComponent and copy `d`'s three parameters into it. */
  function SetupUser(w: World, u: EntityUid, d: EntityUid): World
    requires d in w.jetpack
  {
    w.(wearer := w.wearer[u := w.jetpack[d]])
  }

  /** Write the JetpackVisuals.Enabled datum, when `d` has an AppearanceComponent. */
  function SetVisual(w: World, d: EntityUid, enabled: bool): World {
    if d in w.appearance then w.(appearance := w.appearance[d := Some(enabled)]) else w
  }

  /** Add or remove the device's active marker. */
  function MarkActive(w: World, d: EntityUid, enabled: bool): (r: World)
    ensures IsEnabled(r, d) == enabled
    ensures r.active - {d} == w.active - {d}
    ensures r == w.(active := r.active)  // no other store changes
  {
    if enabled then w.(active := w.active + {d}) else w.(active := w.active - {d})
  }

  /** Put on or take off user `u`'s JetpackUserComponent, then have the
      movement system recompute `u`. */
  function UpdateUser(w: World, d: EntityUid, enabled: bool, u: EntityUid): (r: World)
    requires d in w.jetpack
    ensures (u in r.wearer) == enabled
    ensures r.wearer == if enabled then w.wearer[u := w.jetpack[d]] else w.wearer - {u}
    ensures r.refreshLog == w.refreshLog + [u]
    ensures r == w.(wearer := r.wearer, refreshLog := r.refreshLog)  // no other store changes
  {
    var worn := if enabled then SetupUser(w, u, d) else w.(wearer := w.wearer - {u});
    RefreshMovement(worn, u)
  }

  /** Show the new state on the device's appearance and mark it dirty. */
  function Publish(w: World, d: EntityUid, enabled: bool): (r: World)
    ensures d in r.dirty && r.dirty - {d} == w.dirty - {d}
    ensures r.appearance.Keys == w.appearance.Keys
    ensures d in r.appearance ==> r.appearance[d] == Some(enabled)
    ensures r.appearance == if d in w.appearance then w.appearance[d := Some(enabled)] else w.appearance
    ensures r == w.(appearance := r.appearance, dirty := r.dirty)  // no other store changes
  {
    var shown := SetVisual(w, d, enabled);
    shown.(dirty := shown.dirty + {d})
  }

  /** Switch jetpack `d` on or off, attributing the change to `user` if given.
      `canEnable` is the subclass's fuel check. */
  function SetEnabled(w: World, d: EntityUid, enabled: bool, user: Option<EntityUid>,
                      canEnable: EntityUid -> bool): (r: World)
    requires d in w.jetpack
    // the configuration stores are never written by this system
    ensures r.jetpack == w.jetpack && r.containerOwner == w.containerOwner
    ensures r.grid == w.grid && r.physics == w.physics
    // the device ends up in the requested state unless the fuel check refused
    ensures IsEnabled(r, d) == (if enabled && !canEnable(d) then IsEnabled(w, d) else enabled)
  {
    if IsEnabled(w, d) == enabled || (enabled && !canEnable(d)) then w
    else
      var marked := MarkActive(w, d, enabled);
      var u := ResolveUser(marked, d, user);
      if u.None? && enabled then marked  // the active marker stays: there is no rollback
      else if u.None? then Publish(marked, d, enabled)
      else Publish(UpdateUser(marked, d, enabled, u.value), d, enabled)
  }

  /** Dropping the jetpack switches it off, attributed to the dropping entity. */
  function OnJetpackDropped(w: World, d: EntityUid, droppedBy: EntityUid,
                            canEnable: EntityUid -> bool): World
    requires d in w.jetpack
  {
    SetEnabled(w, d, false, Some(droppedBy), canEnable)
  }

  /** The toggle action flips the device unless another handler took the event. */
  function OnJetpackToggle(w: World, d: EntityUid, args: ToggleJetpackEvent,
                           canEnable: EntityUid -> bool): World
    requires d in w.jetpack
  {
    if args.handled then w else SetEnabled(w, d, !IsEnabled(w, d), None, canEnable)
  }

  /** A wearer whose parent changed gets its movement recomputed. */
  function OnJetpackUserEntParentChanged(w: World, e: EntityUid): World
    requires e in w.wearer
  {
    RefreshMovement(w, e)
  }

  /** The entities among `es` whose grid is `g`. */
  function OnGrid(grid: map<EntityUid, EntityUid>, es: set<EntityUid>, g: EntityUid): set<EntityUid> {
    set e | e in es && e in grid && grid[e] == g
  }

  /** The wearers standing on grid `g`: those a gravity change on `g` refreshes. */
  function GravityTargets(w: World, g: EntityUid): set<EntityUid> {
    OnGrid(w.grid, w.wearer.Keys, g)
  }

  /** The refreshes a gravity change on grid `g` issues when the wearers are
      visited in the order `visit`: the visited wearers standing on `g`, in
      that order. */
  function GravityRefreshes(w: World, g: EntityUid, visit: seq<EntityUid>): (r: seq<EntityUid>)
    ensures forall e :: e in r ==> e in visit && e in GravityTargets(w, g)
    decreases |visit|
  {
    if visit == [] then []
    else
      var e := visit[0];
      (if e in w.wearer && e in w.grid && w.grid[e] == g then [e] else [])
        + GravityRefreshes(w, g, visit[1..])
  }

  /** Gravity changed on grid `g`, and the entity query yields the wearers in
      the order `visit`. */
  function OnJetpackUserGravityChanged(w: World, g: EntityUid, visit: seq<EntityUid>): World {
    w.(refreshLog := w.refreshLog + GravityRefreshes(w, g, visit))
  }

  /** The movement-profile responder: claims the event for a weightless mob
      that nobody has claimed yet and supplies the wearer's parameters. */
  function ClaimMovementProfile(p: Params, args: MovementProfileEvent): (r: MovementProfileEvent)
    ensures r.weightless == args.weightless
    ensures r.override == (args.override || args.weightless)
    // an event already claimed, or a mob with gravity, is left as it was
    ensures args.override || !args.weightless ==> r == args
    // otherwise the wearer's three parameters are the ones the mob moves with
    ensures !args.override && args.weightless ==>
              r.acceleration == p.acceleration && r.friction == p.friction
              && r.weightlessModifier == p.weightlessModifier
  {
    if args.override || !args.weightless then args
    else args.(override := true, acceleration := p.acceleration,
               friction := p.friction, weightlessModifier := p.weightlessModifier)
  }
}
