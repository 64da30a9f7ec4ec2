/**
 * What the jetpack system promises, stated over the functions of
 * JetpackModel: when a transition is a no-op, which markers exist after each
 * transition, which entities get their movement recomputed, and the
 * first-claim-wins rule of the movement-profile responder.
 */
module JetpackProperties {
  import opened JetpackModel

  // ---------------------------------------------------------------------------
  // SetEnabled: no-op cases

  /** A call changes the world exactly when it is a real transition: the device
      is not already in the requested state and, for an enable, the fuel check
      agrees. */
  lemma SetEnabledUnchangedIff(w: World, d: EntityUid, enabled: bool, user: Option<EntityUid>,
                               canEnable: EntityUid -> bool)
    requires d in w.jetpack
    ensures SetEnabled(w, d, enabled, user, canEnable) == w
            <==> IsEnabled(w, d) == enabled || (enabled && !canEnable(d))
  {
    var r := SetEnabled(w, d, enabled, user, canEnable);
    if !(IsEnabled(w, d) == enabled || (enabled && !canEnable(d))) {
      assert IsEnabled(r, d) != IsEnabled(w, d);
    }
  }

  /** Repeating a call is a no-op: no second marker, no second refresh, no
      second appearance write or dirty mark. */
  lemma SetEnabledIdempotent(w: World, d: EntityUid, enabled: bool, user: Option<EntityUid>,
                             canEnable: EntityUid -> bool)
    requires d in w.jetpack
    ensures var once := SetEnabled(w, d, enabled, user, canEnable);
            SetEnabled(once, d, enabled, user, canEnable) == once
  {
    var once := SetEnabled(w, d, enabled, user, canEnable);
    SetEnabledUnchangedIff(once, d, enabled, user, canEnable);
  }

  // ---------------------------------------------------------------------------
  // SetEnabled: the transitions

  /** Enabling an inactive device that passes the fuel check and has a user:
      the device is active, the user's JetpackUserComponent holds exactly the
      device's parameters, the user is refreshed once, the appearance shows the
      device on and the device is dirty. */
  lemma SuccessfulEnable(w: World, d: EntityUid, user: Option<EntityUid>,
                         canEnable: EntityUid -> bool, u: EntityUid)
    requires d in w.jetpack && !IsEnabled(w, d) && canEnable(d)
    requires ResolveUser(w, d, user) == Some(u)
    ensures var r := SetEnabled(w, d, true, user, canEnable);
            && r.active == w.active + {d}
            && r.wearer == w.wearer[u := w.jetpack[d]]
            && r.wearer[u].acceleration == w.jetpack[d].acceleration
            && r.wearer[u].friction == w.jetpack[d].friction
            && r.wearer[u].weightlessModifier == w.jetpack[d].weightlessModifier
            && r.refreshLog == w.refreshLog + [u]
            && (d in w.appearance ==> r.appearance == w.appearance[d := Some(true)])
            && (d !in w.appearance ==> r.appearance == w.appearance)
            && r.dirty == w.dirty + {d}
  {
  }

  /** Once a successful enable has put the JetpackUserComponent on its user,
      that user flies exactly when it has physics and is weightless. */
  lemma EnabledUserFliesWhenWeightless(w: World, d: EntityUid, user: Option<EntityUid>,
                                       canEnable: EntityUid -> bool, u: EntityUid,
                                       isWeightless: EntityUid -> bool)
    requires d in w.jetpack && !IsEnabled(w, d) && canEnable(d)
    requires ResolveUser(w, d, user) == Some(u)
    ensures var r := SetEnabled(w, d, true, user, canEnable);
            IsUserFlying(r, u, isWeightless) <==> u in w.physics && isWeightless(u)
  {
    SuccessfulEnable(w, d, user, canEnable, u);
  }

  /** Disabling an active device: it loses its marker; a resolved user loses
      its JetpackUserComponent and is refreshed once, and with no user the
      wearers and the refresh log stay as they were; the appearance shows the
      device off and the device is dirty. */
  lemma Disable(w: World, d: EntityUid, user: Option<EntityUid>, canEnable: EntityUid -> bool)
    requires d in w.jetpack && IsEnabled(w, d)
    ensures var r := SetEnabled(w, d, false, user, canEnable);
            && r.active == w.active - {d}
            && (match ResolveUser(w, d, user)
                case Some(u) => r.wearer == w.wearer - {u} && r.refreshLog == w.refreshLog + [u]
                case None => r.wearer == w.wearer && r.refreshLog == w.refreshLog)
            && (d in w.appearance ==> r.appearance == w.appearance[d := Some(false)])
            && (d !in w.appearance ==> r.appearance == w.appearance)
            && r.dirty == w.dirty + {d}
  {
  }

  /** Enabling with no user to attribute it to keeps the active marker (there
      is no rollback) and touches nothing else: the device is on although
      nobody wears it. */
  lemma EnableWithoutUser(w: World, d: EntityUid, user: Option<EntityUid>,
                          canEnable: EntityUid -> bool)
    requires d in w.jetpack && !IsEnabled(w, d) && canEnable(d)
    requires ResolveUser(w, d, user) == None
    ensures var r := SetEnabled(w, d, true, user, canEnable);
            && r == w.(active := w.active + {d})
            && IsEnabled(r, d)
            && r.wearer == w.wearer && r.refreshLog == w.refreshLog
            && r.appearance == w.appearance && r.dirty == w.dirty
  {
  }

  /** A call changes the markers, the appearance and the dirty flag of the
      device alone: every other entity keeps them. */
  lemma SetEnabledTouchesOnlyDevice(w: World, d: EntityUid, enabled: bool, user: Option<EntityUid>,
                                    canEnable: EntityUid -> bool)
    requires d in w.jetpack
    ensures var r := SetEnabled(w, d, enabled, user, canEnable);
            && r.active - {d} == w.active - {d}
            && r.dirty - {d} == w.dirty - {d}
            && r.appearance.Keys == w.appearance.Keys
            && (forall e :: e in w.appearance && e != d ==> r.appearance[e] == w.appearance[e])
  {
    if !(IsEnabled(w, d) == enabled || (enabled && !canEnable(d))) {
      var marked := MarkActive(w, d, enabled);
      var u := ResolveUser(marked, d, user);
      if u.Some? {
        var worn := UpdateUser(marked, d, enabled, u.value);
        assert worn.active == marked.active && worn.appearance == w.appearance && worn.dirty == w.dirty;
      }
    }
  }

  /** The only user a call touches is the one it resolves: every other entity
      keeps its JetpackUserComponent as it was, and the only refresh the call
      may issue is for that user. */
  lemma SetEnabledTouchesOnlyUser(w: World, d: EntityUid, enabled: bool, user: Option<EntityUid>,
                                  canEnable: EntityUid -> bool)
    requires d in w.jetpack
    ensures var r := SetEnabled(w, d, enabled, user, canEnable);
            && (forall e :: Some(e) != ResolveUser(w, d, user) ==>
                  (e in r.wearer <==> e in w.wearer) && (e in w.wearer ==> r.wearer[e] == w.wearer[e]))
            && (r.refreshLog == w.refreshLog
                || (ResolveUser(w, d, user).Some?
                    && r.refreshLog == w.refreshLog + [ResolveUser(w, d, user).value]))
  {
    if !(IsEnabled(w, d) == enabled || (enabled && !canEnable(d))) {
      var marked := MarkActive(w, d, enabled);
      assert ResolveUser(marked, d, user) == ResolveUser(w, d, user);
      if ResolveUser(w, d, user).Some? {
        var worn := UpdateUser(marked, d, enabled, ResolveUser(w, d, user).value);
        assert SetEnabled(w, d, enabled, user, canEnable).wearer == worn.wearer;
      }
    }
  }

  /** Enabling and then disabling for the same user, who wore no jetpack
      before, puts both marker stores back as they were; the user was
      refreshed twice. */
  lemma EnableThenDisableRestoresMarkers(w: World, d: EntityUid, user: Option<EntityUid>,
                                         canEnable: EntityUid -> bool, u: EntityUid)
    requires d in w.jetpack && !IsEnabled(w, d) && canEnable(d)
    requires ResolveUser(w, d, user) == Some(u) && u !in w.wearer
    ensures var on := SetEnabled(w, d, true, user, canEnable);
            var off := SetEnabled(on, d, false, user, canEnable);
            && off.active == w.active
            && off.wearer == w.wearer
            && off.refreshLog == w.refreshLog + [u, u]
            && !IsEnabled(off, d)
  {
    var on := SetEnabled(w, d, true, user, canEnable);
    SuccessfulEnable(w, d, user, canEnable, u);
    Disable(on, d, user, canEnable);
    assert ResolveUser(on, d, user) == Some(u);
    assert on.wearer - {u} == w.wearer;
  }

  /** The JetpackUserComponent is shared by every jetpack a user wears:
      disabling one of two active jetpacks attributed to the same user removes
      the component although the other jetpack stays on. */
  lemma DisableDropsSharedWearer(w: World, d: EntityUid, other: EntityUid, user: Option<EntityUid>,
                                 canEnable: EntityUid -> bool, u: EntityUid)
    requires d in w.jetpack && IsEnabled(w, d) && IsEnabled(w, other) && other != d
    requires ResolveUser(w, d, user) == Some(u)
    // `u` wears the other jetpack too: it sits in `u`'s container
    requires u in w.wearer && other in w.containerOwner && w.containerOwner[other] == u
    ensures var r := SetEnabled(w, d, false, user, canEnable);
            IsEnabled(r, other) && u !in r.wearer
  {
    Disable(w, d, user, canEnable);
  }

  // ---------------------------------------------------------------------------
  // Event handlers

  /** Toggling flips the device when no other handler took the event, except
      that an enable the fuel check refuses leaves it off; a handled event
      changes nothing. */
  lemma ToggleFlips(w: World, d: EntityUid, args: ToggleJetpackEvent, canEnable: EntityUid -> bool)
    requires d in w.jetpack
    ensures var r := OnJetpackToggle(w, d, args, canEnable);
            && (args.handled ==> r == w)
            && (!args.handled ==> (IsEnabled(r, d) <==> !IsEnabled(w, d) && canEnable(d)))
  {
  }

  /** Dropping always leaves the device off; if it was on, the dropping entity
      loses its JetpackUserComponent, is refreshed once and no longer flies. */
  lemma DropForcesDisable(w: World, d: EntityUid, droppedBy: EntityUid,
                          canEnable: EntityUid -> bool, isWeightless: EntityUid -> bool)
    requires d in w.jetpack
    ensures var r := OnJetpackDropped(w, d, droppedBy, canEnable);
            && !IsEnabled(r, d)
            && (!IsEnabled(w, d) ==> r == w)
            && (IsEnabled(w, d) ==>
                  && droppedBy !in r.wearer
                  && !IsUserFlying(r, droppedBy, isWeightless)
                  && r.refreshLog == w.refreshLog + [droppedBy])
  {
    if IsEnabled(w, d) {
      Disable(w, d, Some(droppedBy), canEnable);
    }
  }

  /** A second movement-profile responder after this one changes nothing:
      the first claim wins. */
  lemma FirstClaimWins(p: Params, q: Params, args: MovementProfileEvent)
    ensures var first := ClaimMovementProfile(p, args);
            ClaimMovementProfile(q, first) == first
  {
  }

  /** A gravity change on grid `g` refreshes each wearer standing on `g` once
      and nobody else; with one wearer on `g` and another on a different grid,
      the first is refreshed exactly once and the second not at all. */
  lemma GravityCascade(w: World, g: EntityUid, refreshed: seq<EntityUid>, onG: EntityUid, elsewhere: EntityUid)
    requires multiset(refreshed) == multiset(GravityTargets(w, g))
    requires onG in w.wearer && onG in w.grid && w.grid[onG] == g
    requires elsewhere in w.grid && w.grid[elsewhere] != g
    ensures multiset(refreshed)[onG] == 1
    ensures multiset(refreshed)[elsewhere] == 0
    ensures forall e :: e in refreshed ==> e in w.wearer && e in w.grid && w.grid[e] == g
  {
    assert onG in GravityTargets(w, g);
    assert elsewhere !in GravityTargets(w, g);
    forall e | e in refreshed
      ensures e in w.wearer && e in w.grid && w.grid[e] == g
    {
      assert e in multiset(refreshed);
      assert e in multiset(GravityTargets(w, g));
    }
  }

  /** No entity occurs twice. */
  predicate NoDuplicates(s: seq<EntityUid>) {
    forall i, j :: 0 <= i < j < |s| ==> s[i] != s[j]
  }

  /** Appending an entity not yet present keeps a sequence free of duplicates. */
  lemma NoDuplicatesSnoc(s: seq<EntityUid>, e: EntityUid)
    requires NoDuplicates(s) && e !in s
    ensures NoDuplicates(s + [e])
  {
  }

  /** Visiting one more entity adds its refresh, if it is a target, at the end. */
  lemma {:induction false} GravityRefreshesSnoc(w: World, g: EntityUid, visit: seq<EntityUid>, e: EntityUid)
    ensures GravityRefreshes(w, g, visit + [e])
            == GravityRefreshes(w, g, visit) + (if e in w.wearer && e in w.grid && w.grid[e] == g then [e] else [])
    decreases |visit|
  {
    if visit == [] {
      assert (visit + [e])[1..] == [];
    } else {
      assert (visit + [e])[1..] == visit[1..] + [e];
      GravityRefreshesSnoc(w, g, visit[1..], e);
    }
  }

  /** Visiting distinct entities refreshes each visited target exactly once
      and nothing else. */
  lemma {:induction false} GravityRefreshesCount(w: World, g: EntityUid, visit: seq<EntityUid>, e: EntityUid)
    requires NoDuplicates(visit)
    ensures multiset(GravityRefreshes(w, g, visit))[e]
            == if e in visit && e in GravityTargets(w, g) then 1 else 0
    decreases |visit|
  {
    if visit != [] {
      assert NoDuplicates(visit[1..]);
      GravityRefreshesCount(w, g, visit[1..], e);
      assert visit[0] !in visit[1..];
      assert e in visit <==> e == visit[0] || e in visit[1..];
    }
  }

  /** Whatever order the entity query visits the wearers in, a gravity change
      refreshes exactly the wearers on the changed grid, each once. */
  lemma GravityRefreshesMatchTargets(w: World, g: EntityUid, visit: seq<EntityUid>)
    requires NoDuplicates(visit)
    requires forall e :: e in visit <==> e in w.wearer
    ensures multiset(GravityRefreshes(w, g, visit)) == multiset(GravityTargets(w, g))
  {
    forall e
      ensures multiset(GravityRefreshes(w, g, visit))[e] == multiset(GravityTargets(w, g))[e]
    {
      GravityRefreshesCount(w, g, visit, e);
    }
  }

  // ---------------------------------------------------------------------------
  // An invariant over any sequence of events

  /** Every marker the system creates belongs to, or copies, a jetpack: active
      markers and dirty marks are on jetpacks, and every JetpackUserComponent
      holds the parameters of some jetpack. */
  ghost predicate Consistent(w: World) {
    && w.active <= w.jetpack.Keys
    && w.dirty <= w.jetpack.Keys
    && w.wearer.Values <= w.jetpack.Values
  }

  /** The events that change the world: a direct SetEnabled call, and the
      drop, toggle, parent-change and gravity-change events.  A gravity change
      carries the order in which the entity query yields the wearers. */
  datatype Event =
    | SetEnabledCall(device: EntityUid, enabled: bool, user: Option<EntityUid>)
    | Dropped(device: EntityUid, droppedBy: EntityUid)
    | Toggled(device: EntityUid, args: ToggleJetpackEvent)
    | ParentChanged(entity: EntityUid)
    | GravityChanged(grid: EntityUid, visit: seq<EntityUid>)

  /** Delivering one event: a handler only runs on an entity that has the
      component it is subscribed to, and a gravity change only with a visiting
      order the entity query can yield (every wearer, once). */
  function Step(w: World, ev: Event, canEnable: EntityUid -> bool): World {
    match ev
    case SetEnabledCall(d, enabled, user) =>
      if d in w.jetpack then SetEnabled(w, d, enabled, user, canEnable) else w
    case Dropped(d, dropper) =>
      if d in w.jetpack then OnJetpackDropped(w, d, dropper, canEnable) else w
    case Toggled(d, args) =>
      if d in w.jetpack then OnJetpackToggle(w, d, args, canEnable) else w
    case ParentChanged(e) =>
      if e in w.wearer then OnJetpackUserEntParentChanged(w, e) else w
    case GravityChanged(g, visit) =>
      if && NoDuplicates(visit)
         && (forall e :: e in visit ==> e in w.wearer)
         && (forall e :: e in w.wearer ==> e in visit)
      then OnJetpackUserGravityChanged(w, g, visit)
      else w
  }

  function Replay(w: World, evs: seq<Event>, canEnable: EntityUid -> bool): World
    decreases |evs|
  {
    if evs == [] then w else Replay(Step(w, evs[0], canEnable), evs[1..], canEnable)
  }

  lemma SetEnabledKeepsConsistent(w: World, d: EntityUid, enabled: bool, user: Option<EntityUid>,
                                  canEnable: EntityUid -> bool)
    requires d in w.jetpack && Consistent(w)
    ensures Consistent(SetEnabled(w, d, enabled, user, canEnable))
  {
    var r := SetEnabled(w, d, enabled, user, canEnable);
    var u := ResolveUser(w, d, user);
    if r != w && u.Some? {
      forall v | v in r.wearer.Values
        ensures v in w.jetpack.Values
      {
        var e :| e in r.wearer && r.wearer[e] == v;
        if e == u.value && enabled {
          assert v == w.jetpack[d];
        } else {
          assert e in w.wearer && w.wearer[e] == v;
        }
      }
    }
  }

  lemma StepKeepsConsistent(w: World, ev: Event, canEnable: EntityUid -> bool)
    requires Consistent(w)
    ensures Consistent(Step(w, ev, canEnable))
    ensures Step(w, ev, canEnable).jetpack == w.jetpack
  {
    match ev
    case SetEnabledCall(d, enabled, user) =>
      if d in w.jetpack { SetEnabledKeepsConsistent(w, d, enabled, user, canEnable); }
    case Dropped(d, dropper) =>
      if d in w.jetpack { SetEnabledKeepsConsistent(w, d, false, Some(dropper), canEnable); }
    case Toggled(d, args) =>
      if d in w.jetpack && !args.handled {
        SetEnabledKeepsConsistent(w, d, !IsEnabled(w, d), None, canEnable);
      }
    case ParentChanged(e) =>
    case GravityChanged(g, visit) =>
  }

  /** Whatever events arrive, the markers stay consistent with the jetpacks'
      configuration, and that configuration is never changed. */
  lemma {:induction false} ReplayKeepsConsistent(w: World, evs: seq<Event>, canEnable: EntityUid -> bool)
    requires Consistent(w)
    ensures Consistent(Replay(w, evs, canEnable))
    ensures Replay(w, evs, canEnable).jetpack == w.jetpack
    decreases |evs|
  {
    if evs != [] {
      StepKeepsConsistent(w, evs[0], canEnable);
      ReplayKeepsConsistent(Step(w, evs[0], canEnable), evs[1..], canEnable);
    }
  }
}
