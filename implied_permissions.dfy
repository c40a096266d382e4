/** The implied permissions a bound VR listener's package receives, as pure
    functions over the granted state and the grant record: overlay access
    (SYSTEM_ALERT_WINDOW), notification-policy access, and enabled
    notification-listener entries. A grant changes only what was missing and
    records exactly that; a revoke undoes only what was recorded. */
module ImpliedPermissions {
  import opened Options
  import opened Components

  /** The two ApplicationInfo flags the grant looks at. */
  datatype AppInfo = AppInfo(isSystemApp: bool, isUpdatedSystemApp: bool)

  /** What the PackageManager knows: whether it is running at all, the installed
      packages, and per user the components that offer a notification-listener
      service (EnabledComponentsObserver.loadComponentNames). */
  datatype PackageEnv = PackageEnv(
    running: bool,
    apps: map<string, AppInfo>,
    listenerServices: map<int, set<Component>>)

  /** The permission state the grant and revoke touch. `listeners` is the set
      of non-empty entries of the enabled-notification-listeners setting;
      `zenRuleOwners` the packages that own automatic zen (DND) rules. */
  datatype PermState = PermState(
    overlay: set<string>,
    policy: set<string>,
    zenRuleOwners: set<string>,
    listeners: set<string>)

  /** mWasDefaultGranted, mPreviousManageOverlayPackage,
      mPreviousNotificationPolicyAccessPackage, mPreviousToggledListenerSettings. */
  datatype Record = Record(
    wasDefaultGranted: bool,
    overlayPackage: Option<string>,
    policyPackage: Option<string>,
    toggledListeners: set<string>)

  datatype GrantState = GrantState(perms: PermState, record: Record)

  /** The record when no grant is active. */
  const NoRecord := Record(false, None, None, {})

  function AsSet(o: Option<string>): set<string>
  {
    if o.Some? then {o.value} else {}
  }

  function ListenerServices(env: PackageEnv, userId: int): set<Component>
  {
    if userId in env.listenerServices then env.listenerServices[userId] else {}
  }

  /** Implied permissions are set only when the PackageManager is running and
      the package is installed as a system app or an updated system app. */
  predicate Preinstalled(env: PackageEnv, pkg: string)
  {
    && env.running
    && pkg in env.apps
    && (env.apps[pkg].isSystemApp || env.apps[pkg].isUpdatedSystemApp)
  }

  /** The flattened names of the components of pkg among `services` that are not in `current`. */
  function ListenerEntriesOf(services: set<Component>, pkg: string, current: set<string>): (r: set<string>)
    ensures r !! current && "" !in r
    ensures forall x :: x in r ==> ':' !in x
  {
    set c | c in services && c.pkg == pkg && Flatten(c) !in current :: Flatten(c)
  }

  /** The flattened listener components of pkg for userId that are not yet enabled. */
  function NewListenerEntries(env: PackageEnv, pkg: string, userId: int, current: set<string>): set<string>
  {
    ListenerEntriesOf(ListenerServices(env, userId), pkg, current)
  }

  /** Taking one more component into account adds its name when it belongs to
      pkg and is not in `current`, and nothing otherwise. */
  lemma ListenerEntriesStep(done: set<Component>, c: Component, pkg: string, current: set<string>)
    ensures ListenerEntriesOf(done + {c}, pkg, current)
         == ListenerEntriesOf(done, pkg, current) + (if c.pkg == pkg && Flatten(c) !in current then {Flatten(c)} else {})
  {
  }

  /** Empty pieces of the setting never hide a component's name. */
  lemma ListenerEntriesIgnoreEmpty(services: set<Component>, pkg: string, current: set<string>)
    ensures ListenerEntriesOf(services, pkg, current) == ListenerEntriesOf(services, pkg, current - {""})
  {
  }

  /** After a grant to a preinstalled package, every listener service of that
      package for the user is enabled, and only components of that package were added. */
  lemma GrantEnablesPackageListeners(g: GrantState, env: PackageEnv, c: Component, userId: int)
    requires Preinstalled(env, c.pkg)
    ensures forall s :: s in ListenerServices(env, userId) && s.pkg == c.pkg ==> Flatten(s) in Grant(g, env, c, userId).perms.listeners
    ensures forall x :: x in Grant(g, env, c, userId).record.toggledListeners ==>
      exists s :: s in ListenerServices(env, userId) && s.pkg == c.pkg && x == Flatten(s)
  {
  }

  /** The record describes one package's grant. */
  predicate RecordFor(rec: Record, pkg: string)
  {
    && (rec.overlayPackage == None || rec.overlayPackage == Some(pkg))
    && (rec.policyPackage == None || rec.policyPackage == Some(pkg))
  }

  /** enableImpliedPermissionsLocked past its guard check. */
  function Grant(g: GrantState, env: PackageEnv, c: Component, userId: int): (r: GrantState)
    ensures !Preinstalled(env, c.pkg) ==> r == g
    ensures Preinstalled(env, c.pkg) ==>
      && r.record.wasDefaultGranted
      && RecordFor(r.record, c.pkg)
      && c.pkg in r.perms.overlay && c.pkg in r.perms.policy
      && r.perms.overlay - g.perms.overlay == AsSet(r.record.overlayPackage)
      && r.perms.policy - g.perms.policy == AsSet(r.record.policyPackage)
      && r.perms.listeners - g.perms.listeners == r.record.toggledListeners
    ensures g.perms.overlay <= r.perms.overlay && g.perms.policy <= r.perms.policy
    ensures g.perms.listeners <= r.perms.listeners && r.perms.zenRuleOwners == g.perms.zenRuleOwners
  {
    if !Preinstalled(env, c.pkg) then g
    else
      var p := g.perms;
      var added := NewListenerEntries(env, c.pkg, userId, p.listeners);
      GrantState(
        PermState(p.overlay + {c.pkg}, p.policy + {c.pkg}, p.zenRuleOwners, p.listeners + added),
        Record(
          true,
          if c.pkg in p.overlay then None else Some(c.pkg),
          if c.pkg in p.policy then None else Some(c.pkg),
          added))
  }

  /** disableImpliedPermissionsLocked past its guard check, for the bound component c. */
  function Revoke(g: GrantState, env: PackageEnv, c: Component): (r: GrantState)
    ensures !env.running || !g.record.wasDefaultGranted ==> r == g
    ensures r.perms.overlay <= g.perms.overlay && g.perms.overlay - r.perms.overlay <= AsSet(g.record.overlayPackage)
    ensures r.perms.policy <= g.perms.policy && g.perms.policy - r.perms.policy <= AsSet(g.record.policyPackage) * {c.pkg}
    ensures r.perms.listeners <= g.perms.listeners && g.perms.listeners - r.perms.listeners <= g.record.toggledListeners
    ensures env.running && g.record.wasDefaultGranted && RecordFor(g.record, c.pkg) ==> r.record == NoRecord
    ensures env.running && g.record.wasDefaultGranted ==>
      && r.perms.overlay == g.perms.overlay - AsSet(g.record.overlayPackage)
      && r.perms.listeners == g.perms.listeners - g.record.toggledListeners
      && (g.record.policyPackage == Some(c.pkg) ==>
            r.perms.policy == g.perms.policy - {c.pkg} && r.perms.zenRuleOwners == g.perms.zenRuleOwners - {c.pkg})
      && (g.record.policyPackage != Some(c.pkg) ==>
            r.perms.policy == g.perms.policy && r.perms.zenRuleOwners == g.perms.zenRuleOwners)
      && !r.record.wasDefaultGranted && r.record.toggledListeners == {} && r.record.overlayPackage == None
  {
    if !env.running || !g.record.wasDefaultGranted then g
    else
      var p := g.perms;
      var rec := g.record;
      var policyMatches := rec.policyPackage == Some(c.pkg);
      GrantState(
        PermState(
          p.overlay - AsSet(rec.overlayPackage),
          if policyMatches then p.policy - {c.pkg} else p.policy,
          if policyMatches then p.zenRuleOwners - {c.pkg} else p.zenRuleOwners,
          p.listeners - rec.toggledListeners),
        Record(false, None, if policyMatches then None else rec.policyPackage, {}))
  }

  /** Revoke after grant restores the permission state, except that the package's
      automatic zen rules are removed when its policy access came from the grant,
      and leaves no record behind. */
  lemma RevokeUndoesGrant(g: GrantState, env: PackageEnv, c: Component, userId: int)
    requires g.record == NoRecord
    ensures var r := Revoke(Grant(g, env, c, userId), env, c);
      && r.record == NoRecord
      && r.perms.overlay == g.perms.overlay
      && r.perms.policy == g.perms.policy
      && r.perms.listeners == g.perms.listeners
      && r.perms.zenRuleOwners == g.perms.zenRuleOwners - (if Preinstalled(env, c.pkg) && c.pkg !in g.perms.policy then {c.pkg} else {})
  {
    if Preinstalled(env, c.pkg) {
      var p := g.perms;
      var h := Grant(g, env, c, userId);
      var added := NewListenerEntries(env, c.pkg, userId, p.listeners);
      assert h.perms.listeners - added == p.listeners;
      assert h.perms.overlay - AsSet(h.record.overlayPackage) == p.overlay;
    }
  }

  /** A package that is not preinstalled gets nothing, and nothing is recorded,
      so the revoke that follows changes nothing either. */
  lemma NotPreinstalledUntouched(g: GrantState, env: PackageEnv, c: Component, userId: int)
    requires !Preinstalled(env, c.pkg)
    requires !g.record.wasDefaultGranted
    ensures Revoke(Grant(g, env, c, userId), env, c) == g
  {
  }

  /** Entries present before a grant survive the grant and its revoke. */
  lemma PreexistingListenersSurvive(g: GrantState, env: PackageEnv, c: Component, userId: int, x: string)
    requires g.record == NoRecord
    requires x in g.perms.listeners
    ensures x in Grant(g, env, c, userId).perms.listeners
    ensures x in Revoke(Grant(g, env, c, userId), env, c).perms.listeners
  {
    RevokeUndoesGrant(g, env, c, userId);
  }
}
