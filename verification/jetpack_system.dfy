/**
 * The jetpack system as the program runs it: an object whose fields are the
 * component stores, and whose methods are the public operation and the event
 * handlers, updating those stores step by step.  Each method that changes
 * the stores is proved to leave them equal to a function of JetpackModel
 * applied to the stores before; the two query handlers state their result
 * directly.  The properties of those functions are in JetpackProperties.
 */
module JetpackSystem {
  import opened JetpackModel
  import opened JetpackProperties

  class SharedJetpackSystem {
    var active: set<EntityUid>
    var wearer: map<EntityUid, Params>
    var jetpack: map<EntityUid, Params>
    var containerOwner: map<EntityUid, EntityUid>
    var grid: map<EntityUid, EntityUid>
    var physics: set<EntityUid>
    var appearance: map<EntityUid, Option<bool>>
    var refreshLog: seq<EntityUid>
    var dirty: set<EntityUid>

    /** The component stores as one value. */
    function State(): World
      reads this
    {
      World(active, wearer, jetpack, containerOwner, grid, physics, appearance, refreshLog, dirty)
    }

    constructor (w: World)
      ensures State() == w
    {
      active, wearer, jetpack := w.active, w.wearer, w.jetpack;
      containerOwner, grid, physics := w.containerOwner, w.grid, w.physics;
      appearance, refreshLog, dirty := w.appearance, w.refreshLog, w.dirty;
    }

    /** The movement system's RefreshMovementSpeedModifiers, recorded as a call. */
    method RefreshMovementSpeedModifiers(e: EntityUid)
      modifies this
      ensures State() == RefreshMovement(old(State()), e)
    {
      refreshLog := refreshLog + [e];
    }

    /** EnsureComp<JetpackUserComponent> on `u`, then copy `d`'s parameters. */
    method SetupUser(u: EntityUid, d: EntityUid)
      requires d in jetpack
      modifies this
      ensures State() == JetpackModel.SetupUser(old(State()), u, d)
    {
      var config := jetpack[d];
      wearer := wearer[u := Params(config.acceleration, config.friction, config.weightlessModifier)];
    }

    method SetEnabled(d: EntityUid, enabled: bool, user: Option<EntityUid>, canEnable: EntityUid -> bool)
      requires d in jetpack
      modifies this
      ensures State() == JetpackModel.SetEnabled(old(State()), d, enabled, user, canEnable)
    {
      if IsEnabled(State(), d) == enabled || (enabled && !canEnable(d)) {
        return;
      }

      if enabled {
        active := active + {d};
      } else {
        active := active - {d};
      }
      ghost var marked := State();
      assert marked == MarkActive(old(State()), d, enabled);

      var u := user;
      if u.None? && d in containerOwner {
        u := Some(containerOwner[d]);
      }
      assert u == ResolveUser(marked, d, user);

      // With nobody to wear it the call stops here, leaving the active marker in place.
      if u.None? && enabled {
        return;
      }

      if u.Some? {
        if enabled {
          SetupUser(u.value, d);
        } else {
          wearer := wearer - {u.value};
        }
        RefreshMovementSpeedModifiers(u.value);
        assert State() == UpdateUser(marked, d, enabled, u.value);
      }

      Publish(d, enabled);
    }

    /** Write the appearance datum, if the device has an AppearanceComponent,
        and mark the device dirty. */
    method Publish(d: EntityUid, enabled: bool)
      modifies this
      ensures State() == JetpackModel.Publish(old(State()), d, enabled)
    {
      if d in appearance {
        appearance := appearance[d := Some(enabled)];
      }
      dirty := dirty + {d};
    }

    method OnJetpackDropped(d: EntityUid, droppedBy: EntityUid, canEnable: EntityUid -> bool)
      requires d in jetpack
      modifies this
      ensures State() == JetpackModel.OnJetpackDropped(old(State()), d, droppedBy, canEnable)
    {
      SetEnabled(d, false, Some(droppedBy), canEnable);
    }

    /** Toggle handler; it reads `args.handled` but never sets it. */
    method OnJetpackToggle(d: EntityUid, args: ToggleJetpackEvent, canEnable: EntityUid -> bool)
      requires d in jetpack
      modifies this
      ensures State() == JetpackModel.OnJetpackToggle(old(State()), d, args, canEnable)
    {
      if args.handled {
        return;
      }
      SetEnabled(d, !IsEnabled(State(), d), None, canEnable);
    }

    /** Movement-profile responder for wearer `uid`; the returned event is the
        by-reference argument after the handler ran. */
    method OnJetpackUserMovement(uid: EntityUid, args: MovementProfileEvent)
      returns (result: MovementProfileEvent)
      requires uid in wearer
      ensures result == ClaimMovementProfile(wearer[uid], args)
      ensures args.override ==> result == args
    {
      result := args;
      if result.override || !result.weightless {
        return;
      }
      var component := wearer[uid];
      result := result.(override := true);
      result := result.(acceleration := component.acceleration);
      result := result.(weightlessModifier := component.weightlessModifier);
      result := result.(friction := component.friction);
    }

    /** A wearer may always move while weightless. */
    method OnJetpackUserCanWeightless(uid: EntityUid, args: CanWeightlessMoveEvent)
      returns (result: CanWeightlessMoveEvent)
      requires uid in wearer
      ensures result.canMove
      ensures result.uid == args.uid
    {
      result := args.(canMove := true);
    }

    method OnJetpackUserEntParentChanged(uid: EntityUid)
      requires uid in wearer
      modifies this
      ensures State() == JetpackModel.OnJetpackUserEntParentChanged(old(State()), uid)
    {
      RefreshMovementSpeedModifiers(uid);
    }

    /** Gravity changed on grid `g`: visit every wearer, in the order the
        entity query yields them (`visit`, which the source does not fix), and
        refresh those standing on `g`.  The calls appended to the log are those
        wearers, each exactly once; nothing else changes. */
    method OnJetpackUserGravityChanged(g: EntityUid) returns (ghost visit: seq<EntityUid>)
      modifies this
      ensures NoDuplicates(visit) && forall e :: e in visit <==> e in old(wearer)
      ensures State() == JetpackModel.OnJetpackUserGravityChanged(old(State()), g, visit)
      ensures |old(refreshLog)| <= |refreshLog| && refreshLog[..|old(refreshLog)|] == old(refreshLog)
      ensures multiset(refreshLog[|old(refreshLog)|..]) == multiset(GravityTargets(old(State()), g))
    {
      visit := [];
      var todo := wearer.Keys;
      while todo != {}
        invariant active == old(active) && wearer == old(wearer) && jetpack == old(jetpack)
        invariant containerOwner == old(containerOwner) && grid == old(grid) && physics == old(physics)
        invariant appearance == old(appearance) && dirty == old(dirty)
        invariant todo <= wearer.Keys
        invariant forall e :: e in visit <==> e in wearer && e !in todo
        invariant NoDuplicates(visit)
        invariant refreshLog == old(refreshLog) + GravityRefreshes(old(State()), g, visit)
        decreases todo
      {
        var e :| e in todo;
        GravityRefreshesSnoc(old(State()), g, visit, e);
        NoDuplicatesSnoc(visit, e);
        if e in grid && grid[e] == g {
          RefreshMovementSpeedModifiers(e);
        }
        visit := visit + [e];
        todo := todo - {e};
      }
      GravityRefreshesMatchTargets(old(State()), g, visit);
      assert refreshLog[|old(refreshLog)|..] == GravityRefreshes(old(State()), g, visit);
    }
  }
}
