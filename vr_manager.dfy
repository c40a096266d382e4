/** VrManagerService: the VR-mode flag, the one bound VR listener service, the
    implied permissions of that listener's package, and the broadcast of
    mode changes to registered state callbacks. The lock is left out: every
    method is one atomic step. Collaborators are plain state: the validity
    oracle is a function, the PackageManager, AppOps, NotificationManager and
    the secure setting are fields, one-shot calls out are appended to
    `effects`, and the handler's message queue is `pending`. */
module VrManager {
  import opened Options
  import opened Components
  import opened ListenerSetting
  import opened ImpliedPermissions
  import opened StateCallbacks

  /** EnabledComponentsObserver.NO_ERROR: the component is installed and enabled. */
  const NoError: int := 0

  /** A ManagedApplicationService bound to a component for a user. */
  datatype ManagedService = ManagedService(component: Component, userId: int, connected: bool)

  /** Calls out of the service that leave no state the model keeps. */
  datatype Effect =
    | SetVrModeNative(enabled: bool)
    | SetOverlayRestriction(restricted: bool, exemptions: seq<string>)
    | Connect(component: Component, userId: int)
    | Disconnect(component: Component, userId: int)
    | FocusedActivityChanged(component: Component, userId: int, focused: Option<Component>)

  /** Normal completion, or the IllegalStateException of the grant guard. */
  datatype Outcome = Done | IllegalState

  predicate Matches(s: ManagedService, c: Component, userId: int)
  {
    s.component == c && s.userId == userId
  }

  function Exemptions(exempted: Option<Component>): seq<string>
  {
    if exempted.Some? then [exempted.value.pkg] else []
  }

  /** The calls a mode change makes: none when the flag keeps its value;
      otherwise the native hook, then the overlay restriction if AppOps runs. */
  function ModeEffects(wasEnabled: bool, enabled: bool, exempted: Option<Component>, appOpsRunning: bool): seq<Effect>
  {
    if wasEnabled == enabled then []
    else [SetVrModeNative(enabled)] + (if appOpsRunning then [SetOverlayRestriction(enabled, Exemptions(exempted))] else [])
  }

  /** A new service gets bound: `bind` holds and nothing matching is bound. */
  predicate FreshBind(bound: Option<ManagedService>, bind: bool, c: Component, userId: int)
  {
    bind && (bound.None? || !Matches(bound.value, c, userId))
  }

  /** The bound service goes away: nothing is to be bound, or something else is. */
  predicate Drops(bound: Option<ManagedService>, bind: bool, c: Component, userId: int)
  {
    bound.Some? && (!bind || !Matches(bound.value, c, userId))
  }

  /** The connects and disconnects of the transition from `bound` to
      (c, userId) when `bind` holds, and to no service otherwise. */
  function BindEffects(bound: Option<ManagedService>, bind: bool, c: Component, userId: int): seq<Effect>
  {
    (if Drops(bound, bind, c, userId)
     then [Disconnect(bound.value.component, bound.value.userId)] else [])
    + (if FreshBind(bound, bind, c, userId) then [Connect(c, userId)] else [])
  }

  /** The grant state after the same transition: the dropped service's implied
      permissions are revoked (see Revoke), then the new one's granted (see Grant). */
  function Rebound(g: GrantState, env: PackageEnv, bound: Option<ManagedService>, bind: bool, c: Component, userId: int): GrantState
  {
    var afterDrop := if Drops(bound, bind, c, userId) then Revoke(g, env, bound.value.component) else g;
    if FreshBind(bound, bind, c, userId) then Grant(afterDrop, env, c, userId) else afterDrop
  }

  /** The four cases of a request: unbind whatever runs, keep a matching
      service with no churn, replace a non-matching one, or bind afresh. */
  lemma RequestCases(g: GrantState, env: PackageEnv, bound: Option<ManagedService>, bind: bool, c: Component, userId: int)
    ensures !bind ==>
      && Rebound(g, env, bound, bind, c, userId) == (if bound.Some? then Revoke(g, env, bound.value.component) else g)
      && BindEffects(bound, bind, c, userId) == (if bound.Some? then [Disconnect(bound.value.component, bound.value.userId)] else [])
    ensures bind && bound.Some? && Matches(bound.value, c, userId) ==>
      Rebound(g, env, bound, bind, c, userId) == g && BindEffects(bound, bind, c, userId) == []
    ensures bind && bound.Some? && !Matches(bound.value, c, userId) ==>
      && Rebound(g, env, bound, bind, c, userId) == Grant(Revoke(g, env, bound.value.component), env, c, userId)
      && BindEffects(bound, bind, c, userId) == [Disconnect(bound.value.component, bound.value.userId), Connect(c, userId)]
    ensures bind && bound.None? ==>
      Rebound(g, env, bound, bind, c, userId) == Grant(g, env, c, userId) && BindEffects(bound, bind, c, userId) == [Connect(c, userId)]
  {
  }

  predicate CallerChanged(calling: Option<Component>, current: Option<Component>)
  {
    calling.Some? && calling != current
  }

  /** The loop of grantNotificationListenerAccess: walk the listener services,
      adding the flattened name of each component of pkg not yet in `current`.
      Returns the names added and the grown collection. */
  method CollectListenerEntries(services: set<Component>, pkg: string, current: set<string>)
    returns (toggled: set<string>, updated: set<string>)
    ensures toggled == ListenerEntriesOf(services, pkg, current)
    ensures updated == current + toggled
  {
    toggled := {};
    updated := current;
    var rest := services;
    while rest != {}
      invariant rest <= services
      invariant toggled == ListenerEntriesOf(services - rest, pkg, current)
      invariant updated == current + toggled
      decreases rest
    {
      var c :| c in rest;
      ListenerEntriesStep(services - rest, c, pkg, current);
      assert services - (rest - {c}) == (services - rest) + {c};
      rest := rest - {c};
      var flatName := Flatten(c);
      if c.pkg == pkg && flatName !in updated {
        toggled := toggled + {flatName};
        updated := updated + {flatName};
      }
    }
    assert services - rest == services;
  }

  class VrManagerService {
    // State of the service (mVrModeEnabled ... mPreviousManageOverlayPackage)
    var vrModeEnabled: bool
    var currentVrService: Option<ManagedService>
    var currentVrModeComponent: Option<Component>
    var currentVrModeUser: int
    var wasDefaultGranted: bool
    var guard: bool
    var previousToggledListenerSettings: set<string>
    var previousNotificationPolicyAccessPackage: Option<string>
    var previousManageOverlayPackage: Option<string>
    var remoteCallbacks: set<CallbackId>
    // The handler's queue of MSG_VR_STATE_CHANGE messages, by their state
    var pending: seq<bool>
    // The onVrStateChanged calls that reached their callbacks
    var delivered: seq<Delivery>
    // The calls out that left no other state
    var effects: seq<Effect>

    // Collaborators
    var validity: (Component, int) -> int     // EnabledComponentsObserver.isValid
    var packages: PackageEnv
    var overlayGranted: set<string>           // packages holding SYSTEM_ALERT_WINDOW
    var policyGranted: set<string>            // packages with notification-policy access
    var zenRuleOwners: set<string>            // packages owning automatic zen rules
    var enabledListeners: Option<string>      // Settings.Secure ENABLED_NOTIFICATION_LISTENERS
    var appOpsRunning: bool

    /** The grant guard is set exactly while a service is bound, a bound
        service is connected, and VR mode is on while one is bound. */
    ghost predicate Valid()
      reads this`guard, this`currentVrService, this`vrModeEnabled
    {
      && (guard <==> currentVrService.Some?)
      && (currentVrService.Some? ==> currentVrService.value.connected && vrModeEnabled)
    }

    /** The permission state and the grant record. */
    function Grants(): GrantState
      reads this`overlayGranted, this`policyGranted, this`zenRuleOwners, this`enabledListeners,
            this`wasDefaultGranted, this`previousManageOverlayPackage,
            this`previousNotificationPolicyAccessPackage, this`previousToggledListenerSettings
    {
      GrantState(
        PermState(overlayGranted, policyGranted, zenRuleOwners, Entries(enabledListeners)),
        Record(wasDefaultGranted, previousManageOverlayPackage, previousNotificationPolicyAccessPackage,
               previousToggledListenerSettings))
    }

    /** A grant record exists only for the bound service's package, and only
        while the PackageManager runs; it is empty otherwise. */
    ghost predicate RecordsConsistent()
      reads this`overlayGranted, this`policyGranted, this`zenRuleOwners, this`enabledListeners,
            this`wasDefaultGranted, this`previousManageOverlayPackage,
            this`previousNotificationPolicyAccessPackage, this`previousToggledListenerSettings,
            this`currentVrService, this`packages
    {
      && (!wasDefaultGranted ==> Grants().record == NoRecord)
      && (wasDefaultGranted ==> packages.running)
      && (wasDefaultGranted ==> currentVrService.Some? && RecordFor(Grants().record, currentVrService.value.component.pkg))
    }

    constructor (validity: (Component, int) -> int, packages: PackageEnv, overlayGranted: set<string>,
                 policyGranted: set<string>, zenRuleOwners: set<string>, enabledListeners: Option<string>,
                 appOpsRunning: bool)
      ensures Valid() && RecordsConsistent()
      ensures !vrModeEnabled && currentVrService == None && currentVrModeComponent == None && currentVrModeUser == 0
      ensures Grants() == GrantState(PermState(overlayGranted, policyGranted, zenRuleOwners, Entries(enabledListeners)), NoRecord)
      ensures remoteCallbacks == {} && pending == [] && delivered == [] && effects == []
      ensures this.validity == validity && this.packages == packages && this.enabledListeners == enabledListeners
      ensures this.appOpsRunning == appOpsRunning
    {
      vrModeEnabled := false;
      currentVrService := None;
      currentVrModeComponent := None;
      currentVrModeUser := 0;
      wasDefaultGranted := false;
      guard := false;
      previousToggledListenerSettings := {};
      previousNotificationPolicyAccessPackage := None;
      previousManageOverlayPackage := None;
      remoteCallbacks := {};
      pending := [];
      delivered := [];
      effects := [];
      this.validity := validity;
      this.packages := packages;
      this.overlayGranted := overlayGranted;
      this.policyGranted := policyGranted;
      this.zenRuleOwners := zenRuleOwners;
      this.enabledListeners := enabledListeners;
      this.appOpsRunning := appOpsRunning;
    }

    // ---------------------------------------------------------------------
    // Mode changes

    /** updateOverlayStateLocked: restrict overlays while VR mode is on,
        exempting the listener's package. */
    method UpdateOverlayState(exempted: Option<Component>)
      modifies this`effects
      ensures effects == old(effects)
        + (if appOpsRunning then [SetOverlayRestriction(vrModeEnabled, Exemptions(exempted))] else [])
    {
      if appOpsRunning {
        effects := effects + [SetOverlayRestriction(vrModeEnabled, Exemptions(exempted))];
      }
    }

    /** onVrModeChangedLocked: queue a state-change message carrying the flag. */
    method OnVrModeChanged()
      modifies this`pending
      ensures pending == old(pending) + [vrModeEnabled]
    {
      pending := pending + [vrModeEnabled];
    }

    /** changeVrModeLocked: the flag takes the requested value; the native hook,
        the overlay update and the broadcast happen only when it changes. */
    method ChangeVrMode(enabled: bool, exempted: Option<Component>)
      modifies this`vrModeEnabled, this`effects, this`pending
      ensures vrModeEnabled == enabled
      ensures effects == old(effects) + ModeEffects(old(vrModeEnabled), enabled, exempted, appOpsRunning)
      ensures pending == old(pending) + (if old(vrModeEnabled) == enabled then [] else [enabled])
    {
      if vrModeEnabled != enabled {
        vrModeEnabled := enabled;
        effects := effects + [SetVrModeNative(vrModeEnabled)];
        UpdateOverlayState(exempted);
        OnVrModeChanged();
      }
    }

    /** getVrMode. */
    function GetVrMode(): (enabled: bool)
      reads this`vrModeEnabled, this`guard, this`currentVrService
      ensures enabled == vrModeEnabled
      ensures Valid() && currentVrService.Some? ==> enabled
    {
      vrModeEnabled
    }

    // ---------------------------------------------------------------------
    // The bound service (ManagedApplicationService)

    /** createAndConnectService. */
    method CreateAndConnectService(c: Component, userId: int)
      modifies this`currentVrService, this`effects
      ensures currentVrService == Some(ManagedService(c, userId, true))
      ensures effects == old(effects) + [Connect(c, userId)]
    {
      currentVrService := Some(ManagedService(c, userId, false));
      currentVrService := Some(currentVrService.value.(connected := true));
      effects := effects + [Connect(c, userId)];
    }

    /** ManagedApplicationService.disconnect on the bound service. */
    method DisconnectService()
      requires currentVrService.Some?
      modifies this`currentVrService, this`effects
      ensures currentVrService == Some(old(currentVrService).value.(connected := false))
      ensures effects == old(effects) + [Disconnect(old(currentVrService).value.component, old(currentVrService).value.userId)]
    {
      effects := effects + [Disconnect(currentVrService.value.component, currentVrService.value.userId)];
      currentVrService := Some(currentVrService.value.(connected := false));
    }

    /** ManagedApplicationService.disconnectIfNotMatching on the bound service. */
    method DisconnectIfNotMatching(c: Component, userId: int) returns (disconnected: bool)
      requires currentVrService.Some?
      modifies this`currentVrService, this`effects
      ensures disconnected == !Matches(old(currentVrService).value, c, userId)
      ensures disconnected ==>
        && currentVrService == Some(old(currentVrService).value.(connected := false))
        && effects == old(effects) + [Disconnect(old(currentVrService).value.component, old(currentVrService).value.userId)]
      ensures !disconnected ==> currentVrService == old(currentVrService) && effects == old(effects)
    {
      disconnected := !Matches(currentVrService.value, c, userId);
      if disconnected {
        DisconnectService();
      }
    }

    /** sendEvent of a focusedActivityChanged(focused) event to the bound service. */
    method SendFocusEvent(focused: Option<Component>)
      requires currentVrService.Some?
      modifies this`effects
      ensures effects == old(effects)
        + [FocusedActivityChanged(currentVrService.value.component, currentVrService.value.userId, focused)]
    {
      effects := effects + [FocusedActivityChanged(currentVrService.value.component, currentVrService.value.userId, focused)];
    }

    /** isCurrentVrListener: a service is bound, for this package and user. */
    function IsCurrentVrListener(packageName: string, userId: int): (r: bool)
      reads this`currentVrService, this`guard, this`vrModeEnabled
      ensures r <==> exists s :: currentVrService == Some(s) && s.component.pkg == packageName && s.userId == userId
      ensures Valid() && r ==> guard
    {
      currentVrService.Some? && currentVrService.value.component.pkg == packageName
      && userId == currentVrService.value.userId
    }

    // ---------------------------------------------------------------------
    // The enabled-notification-listeners setting

    /** getCurrentNotifListeners: the pieces of the setting, as a set. */
    method GetCurrentNotifListeners() returns (current: set<string>)
      ensures current == ListenerSet(enabledListeners)
    {
      current := {};
      if enabledListeners.Some? {
        var allowed := Split(enabledListeners.value);
        var i := 0;
        while i < |allowed|
          invariant 0 <= i <= |allowed|
          invariant current == set x | x in allowed[..i]
        {
          assert allowed[..i + 1] == allowed[..i] + [allowed[i]];
          current := current + {allowed[i]};
          i := i + 1;
        }
        assert allowed[..|allowed|] == allowed;
      }
    }

    // ---------------------------------------------------------------------
    // Implied permissions

    /** grantOverlayAccess: grant SYSTEM_ALERT_WINDOW, and remember the package
        only when it did not hold the permission already. */
    method GrantOverlayAccess(pkg: string)
      modifies this`overlayGranted, this`previousManageOverlayPackage
      ensures overlayGranted == old(overlayGranted) + {pkg}
      ensures previousManageOverlayPackage == (if pkg in old(overlayGranted) then None else Some(pkg))
    {
      var prev := pkg in overlayGranted;
      previousManageOverlayPackage := None;
      if !prev {
        overlayGranted := overlayGranted + {pkg};
        previousManageOverlayPackage := Some(pkg);
      }
    }

    /** revokeOverlayAccess: revoke only from the remembered package. */
    method RevokeOverlayAccess()
      modifies this`overlayGranted, this`previousManageOverlayPackage
      ensures overlayGranted == old(overlayGranted) - AsSet(old(previousManageOverlayPackage))
      ensures previousManageOverlayPackage == None
    {
      if previousManageOverlayPackage.Some? {
        overlayGranted := overlayGranted - {previousManageOverlayPackage.value};
        previousManageOverlayPackage := None;
      }
    }

    /** grantNotificationPolicyAccess: grant access, and remember the package
        only when it did not have access already. */
    method GrantNotificationPolicyAccess(pkg: string)
      modifies this`policyGranted, this`previousNotificationPolicyAccessPackage
      ensures policyGranted == old(policyGranted) + {pkg}
      ensures previousNotificationPolicyAccessPackage == (if pkg in old(policyGranted) then None else Some(pkg))
    {
      var prev := pkg in policyGranted;
      previousNotificationPolicyAccessPackage := None;
      if !prev {
        previousNotificationPolicyAccessPackage := Some(pkg);
        policyGranted := policyGranted + {pkg};
      }
    }

    /** revokeNotificationPolicyAccess: only when the remembered package is pkg,
        remove its automatic zen rules and its access; otherwise keep the record. */
    method RevokeNotificationPolicyAccess(pkg: string)
      modifies this`policyGranted, this`zenRuleOwners, this`previousNotificationPolicyAccessPackage
      ensures old(previousNotificationPolicyAccessPackage) == Some(pkg) ==>
        && policyGranted == old(policyGranted) - {pkg}
        && zenRuleOwners == old(zenRuleOwners) - {pkg}
        && previousNotificationPolicyAccessPackage == None
      ensures old(previousNotificationPolicyAccessPackage) != Some(pkg) ==>
        && policyGranted == old(policyGranted)
        && zenRuleOwners == old(zenRuleOwners)
        && previousNotificationPolicyAccessPackage == old(previousNotificationPolicyAccessPackage)
    {
      if previousNotificationPolicyAccessPackage.Some? {
        if previousNotificationPolicyAccessPackage.value == pkg {
          zenRuleOwners := zenRuleOwners - {pkg};
          policyGranted := policyGranted - {pkg};
          previousNotificationPolicyAccessPackage := None;
        }
      }
    }

    /** formatSettings of `current`, written to the setting with Settings.Secure.putString. */
    method PutListenerSetting(current: set<string>)
      requires forall x :: x in current ==> ':' !in x
      modifies this`enabledListeners
      ensures enabledListeners.Some? && IsFormatting(Some(current), enabledListeners.value)
      ensures Entries(enabledListeners) == current - {""}
    {
      var flatSettings := FormatSettings(Some(current));
      EntriesOfFormatting(current, flatSettings);
      enabledListeners := Some(flatSettings);
    }

    /** The reading half of grantNotificationListenerAccess: the listener
        components of pkg for the user that the setting does not name yet, and
        the parsed setting grown by them. */
    method MissingListeners(pkg: string, userId: int) returns (toggled: set<string>, updated: set<string>)
      ensures toggled == NewListenerEntries(packages, pkg, userId, Entries(enabledListeners))
      ensures updated == ListenerSet(enabledListeners) + toggled
      ensures updated - {""} == Entries(enabledListeners) + toggled
      ensures forall x :: x in updated ==> ':' !in x
    {
      var possibleServices := ListenerServices(packages, userId);
      var current := GetCurrentNotifListeners();
      toggled, updated := CollectListenerEntries(possibleServices, pkg, current);
      ListenerSetColonFree(enabledListeners);
      ListenerEntriesIgnoreEmpty(possibleServices, pkg, current);
    }

    /** grantNotificationListenerAccess: enable every listener component of pkg
        for the user that is not enabled yet, remember exactly those, and
        write the setting back when it names anything. */
    method GrantNotificationListenerAccess(pkg: string, userId: int)
      modifies this`previousToggledListenerSettings, this`enabledListeners
      ensures previousToggledListenerSettings == NewListenerEntries(packages, pkg, userId, Entries(old(enabledListeners)))
      ensures Entries(enabledListeners) == Entries(old(enabledListeners)) + previousToggledListenerSettings
      ensures var current := ListenerSet(old(enabledListeners)) + previousToggledListenerSettings;
        if current == {} then enabledListeners == old(enabledListeners)
        else enabledListeners.Some? && IsFormatting(Some(current), enabledListeners.value)
    {
      var toggled, updated := MissingListeners(pkg, userId);
      if |updated| > 0 {
        PutListenerSetting(updated);
      }
      previousToggledListenerSettings := toggled;
    }

    /** revokeNotificiationListenerAccess: when something was remembered, remove
        exactly the remembered entries from the setting and forget them. */
    method RevokeNotificationListenerAccess()
      modifies this`previousToggledListenerSettings, this`enabledListeners
      ensures previousToggledListenerSettings == {}
      ensures Entries(enabledListeners) == Entries(old(enabledListeners)) - old(previousToggledListenerSettings)
      ensures old(previousToggledListenerSettings) == {} ==> enabledListeners == old(enabledListeners)
      ensures old(previousToggledListenerSettings) != {} ==>
        && enabledListeners.Some?
        && IsFormatting(Some(ListenerSet(old(enabledListeners)) - old(previousToggledListenerSettings)), enabledListeners.value)
    {
      if previousToggledListenerSettings == {} {
        return;
      }
      ListenerSetColonFree(enabledListeners);
      var current := GetCurrentNotifListeners();
      current := current - previousToggledListenerSettings;
      previousToggledListenerSettings := {};
      PutListenerSetting(current);
    }

    /** enableImpliedPermissionsLocked: IllegalStateException when the guard is
        already set; otherwise set it and grant (see Grant) to preinstalled packages. */
    method EnableImpliedPermissions(c: Component, userId: int) returns (outcome: Outcome)
      modifies this`guard, this`wasDefaultGranted, this`overlayGranted, this`previousManageOverlayPackage,
               this`policyGranted, this`previousNotificationPolicyAccessPackage,
               this`previousToggledListenerSettings, this`enabledListeners
      ensures outcome == (if old(guard) then IllegalState else Done)
      ensures old(guard) ==> unchanged(this)
      ensures !old(guard) ==> guard && Grants() == Grant(old(Grants()), packages, c, userId)
      ensures !Preinstalled(packages, c.pkg) ==> enabledListeners == old(enabledListeners)
    {
      if guard {
        return IllegalState;
      }
      guard := true;
      outcome := Done;
      var pName := c.pkg;
      if !packages.running {
        return;
      }
      if pName !in packages.apps {
        return;
      }
      var info := packages.apps[pName];
      if !(info.isSystemApp || info.isUpdatedSystemApp) {
        return;
      }
      wasDefaultGranted := true;
      GrantOverlayAccess(pName);
      GrantNotificationPolicyAccess(pName);
      GrantNotificationListenerAccess(pName, userId);
    }

    /** disableImpliedPermissionsLocked: IllegalStateException when the guard is
        clear; otherwise clear it and revoke (see Revoke) what was recorded. */
    method DisableImpliedPermissions(c: Component, userId: int) returns (outcome: Outcome)
      modifies this`guard, this`wasDefaultGranted, this`overlayGranted, this`previousManageOverlayPackage,
               this`policyGranted, this`zenRuleOwners, this`previousNotificationPolicyAccessPackage,
               this`previousToggledListenerSettings, this`enabledListeners
      ensures outcome == (if old(guard) then Done else IllegalState)
      ensures !old(guard) ==> unchanged(this)
      ensures old(guard) ==> !guard && Grants() == Revoke(old(Grants()), packages, c)
      ensures !packages.running || !old(wasDefaultGranted) ==> enabledListeners == old(enabledListeners)
    {
      if !guard {
        return IllegalState;
      }
      guard := false;
      outcome := Done;
      if !packages.running {
        return;
      }
      var pName := c.pkg;
      if wasDefaultGranted {
        RevokeOverlayAccess();
        RevokeNotificationPolicyAccess(pName);
        RevokeNotificationListenerAccess();
        wasDefaultGranted := false;
      }
    }

    // ---------------------------------------------------------------------
    // The mode controller

    /** Unbind whatever is running (updateCurrentVrServiceLocked, disabled or
        invalid request): disconnect the service, revoke its implied permissions,
        and forget it. */
    method UnbindService()
      requires guard && currentVrService.Some?
      modifies this`currentVrService, this`effects, this`guard, this`wasDefaultGranted, this`overlayGranted,
               this`previousManageOverlayPackage, this`policyGranted, this`zenRuleOwners,
               this`previousNotificationPolicyAccessPackage, this`previousToggledListenerSettings,
               this`enabledListeners
      ensures currentVrService == None && !guard
      ensures effects == old(effects) + [Disconnect(old(currentVrService).value.component, old(currentVrService).value.userId)]
      ensures Grants() == Revoke(old(Grants()), packages, old(currentVrService).value.component)
    {
      DisconnectService();
      var outcome := DisableImpliedPermissions(currentVrService.value.component, currentVrService.value.userId);
      assert outcome == Done;
      currentVrService := None;
    }

    /** Replace a bound service that does not match (component, userId) by a
        newly connected one, moving the implied permissions with it; keep a
        matching one untouched. Returns whether a new service was bound. */
    method RebindIfNotMatching(component: Component, userId: int) returns (rebound: bool)
      requires guard && currentVrService.Some?
      modifies this`currentVrService, this`effects, this`guard, this`wasDefaultGranted, this`overlayGranted,
               this`previousManageOverlayPackage, this`policyGranted, this`zenRuleOwners,
               this`previousNotificationPolicyAccessPackage, this`previousToggledListenerSettings,
               this`enabledListeners
      ensures rebound == !Matches(old(currentVrService).value, component, userId)
      ensures guard
      ensures !rebound ==> unchanged(this)
      ensures rebound ==>
        && currentVrService == Some(ManagedService(component, userId, true))
        && effects == old(effects)
             + [Disconnect(old(currentVrService).value.component, old(currentVrService).value.userId), Connect(component, userId)]
        && Grants() == Grant(Revoke(old(Grants()), packages, old(currentVrService).value.component), packages, component, userId)
    {
      rebound := DisconnectIfNotMatching(component, userId);
      if rebound {
        var outcome := DisableImpliedPermissions(currentVrService.value.component, currentVrService.value.userId);
        assert outcome == Done;
        CreateAndConnectService(component, userId);
        outcome := EnableImpliedPermissions(currentVrService.value.component, currentVrService.value.userId);
        assert outcome == Done;
      }
    }

    /** Nothing was running: bind a new service and grant its implied permissions. */
    method BindService(component: Component, userId: int)
      requires !guard && currentVrService.None?
      modifies this`currentVrService, this`effects, this`guard, this`wasDefaultGranted, this`overlayGranted,
               this`previousManageOverlayPackage, this`policyGranted,
               this`previousNotificationPolicyAccessPackage, this`previousToggledListenerSettings,
               this`enabledListeners
      ensures currentVrService == Some(ManagedService(component, userId, true)) && guard
      ensures effects == old(effects) + [Connect(component, userId)]
      ensures Grants() == Grant(old(Grants()), packages, component, userId)
    {
      CreateAndConnectService(component, userId);
      var outcome := EnableImpliedPermissions(currentVrService.value.component, currentVrService.value.userId);
      assert outcome == Done;
    }

    /** The binding part of updateCurrentVrServiceLocked: bind (component, userId)
        when `bind` holds and no service otherwise, pairing every disconnect with a
        revoke and every connect with a grant. Returns whether a new service was bound. */
    method SwitchService(bind: bool, component: Component, userId: int) returns (newlyBound: bool)
      requires (guard <==> currentVrService.Some?) && (currentVrService.Some? ==> currentVrService.value.connected)
      modifies this`currentVrService, this`effects, this`guard, this`wasDefaultGranted, this`overlayGranted,
               this`previousManageOverlayPackage, this`policyGranted, this`zenRuleOwners,
               this`previousNotificationPolicyAccessPackage, this`previousToggledListenerSettings,
               this`enabledListeners
      ensures newlyBound == FreshBind(old(currentVrService), bind, component, userId)
      ensures currentVrService == (if bind then Some(ManagedService(component, userId, true)) else None)
      ensures guard <==> currentVrService.Some?
      ensures effects == old(effects) + BindEffects(old(currentVrService), bind, component, userId)
      ensures Grants() == Rebound(old(Grants()), packages, old(currentVrService), bind, component, userId)
      ensures !Drops(old(currentVrService), bind, component, userId) && !newlyBound ==> enabledListeners == old(enabledListeners)
      ensures old(RecordsConsistent()) ==> RecordsConsistent()
    {
      newlyBound := false;
      if !bind {
        if currentVrService.Some? {
          UnbindService();
        }
      } else if currentVrService.Some? {
        newlyBound := RebindIfNotMatching(component, userId);
      } else {
        BindService(component, userId);
        newlyBound := true;
      }
    }

    /** The first two steps of updateCurrentVrServiceLocked: change the mode flag
        (see ChangeVrMode), then bind (component, userId) when `bind` holds and no
        service otherwise (see SwitchService). Returns whether a new service was bound. */
    method ChangeModeAndService(enabled: bool, bind: bool, component: Component, userId: int) returns (newlyBound: bool)
      requires Valid() && (bind ==> enabled)
      modifies this`vrModeEnabled, this`pending, this`currentVrService, this`effects, this`guard,
               this`wasDefaultGranted, this`overlayGranted, this`previousManageOverlayPackage, this`policyGranted,
               this`zenRuleOwners, this`previousNotificationPolicyAccessPackage,
               this`previousToggledListenerSettings, this`enabledListeners
      ensures Valid()
      ensures newlyBound == FreshBind(old(currentVrService), bind, component, userId)
      ensures vrModeEnabled == enabled
      ensures pending == old(pending) + (if old(vrModeEnabled) == enabled then [] else [enabled])
      ensures currentVrService == (if bind then Some(ManagedService(component, userId, true)) else None)
      ensures effects == old(effects)
        + ModeEffects(old(vrModeEnabled), enabled, if bind then Some(component) else None, appOpsRunning)
        + BindEffects(old(currentVrService), bind, component, userId)
      ensures Grants() == Rebound(old(Grants()), packages, old(currentVrService), bind, component, userId)
      ensures !Drops(old(currentVrService), bind, component, userId) && !newlyBound ==> enabledListeners == old(enabledListeners)
      ensures old(RecordsConsistent()) ==> RecordsConsistent()
    {
      ghost var grants0 := Grants();
      ChangeVrMode(enabled, if bind then Some(component) else None);
      assert Grants() == grants0;
      newlyBound := SwitchService(bind, component, userId);
    }

    /** The end of updateCurrentVrServiceLocked: remember a new calling component,
        and send the bound service a focusedActivityChanged event when it was newly
        bound or the caller changed. */
    method UpdateCaller(calling: Option<Component>, userId: int, newlyBound: bool)
      modifies this`currentVrModeComponent, this`currentVrModeUser, this`effects
      ensures currentVrModeComponent == (if CallerChanged(calling, old(currentVrModeComponent)) then calling else old(currentVrModeComponent))
      ensures currentVrModeUser == (if CallerChanged(calling, old(currentVrModeComponent)) then userId else old(currentVrModeUser))
      ensures effects == old(effects)
        + (if currentVrService.Some? && (newlyBound || CallerChanged(calling, old(currentVrModeComponent)))
           then [FocusedActivityChanged(currentVrService.value.component, currentVrService.value.userId, currentVrModeComponent)]
           else [])
    {
      var sendUpdatedCaller := newlyBound;
      if calling.Some? && calling != currentVrModeComponent {
        currentVrModeComponent := calling;
        currentVrModeUser := userId;
        sendUpdatedCaller := true;
      }
      if currentVrService.Some? && sendUpdatedCaller {
        SendFocusEvent(currentVrModeComponent);
      }
    }

    /** updateCurrentVrServiceLocked: set the mode flag to `enabled`, then bind
        (component, userId) when enabled and valid and no service at all otherwise,
        pairing every disconnect with a revoke and every connect with a grant;
        record a new calling component and tell the bound service about it or
        about a fresh bind. Returns the oracle's verdict. */
    method UpdateCurrentVrService(enabled: bool, component: Component, userId: int, calling: Option<Component>)
      returns (validUserComponent: bool)
      requires Valid()
      modifies this`vrModeEnabled, this`pending, this`currentVrService, this`currentVrModeComponent,
               this`currentVrModeUser, this`effects, this`guard, this`wasDefaultGranted, this`overlayGranted,
               this`previousManageOverlayPackage, this`policyGranted, this`zenRuleOwners,
               this`previousNotificationPolicyAccessPackage, this`previousToggledListenerSettings,
               this`enabledListeners
      ensures Valid()
      ensures validUserComponent == (validity(component, userId) == NoError)
      ensures vrModeEnabled == enabled
      ensures pending == old(pending) + (if old(vrModeEnabled) == enabled then [] else [enabled])
      ensures currentVrService == (if enabled && validUserComponent then Some(ManagedService(component, userId, true)) else None)
      ensures currentVrModeComponent == (if CallerChanged(calling, old(currentVrModeComponent)) then calling else old(currentVrModeComponent))
      ensures currentVrModeUser == (if CallerChanged(calling, old(currentVrModeComponent)) then userId else old(currentVrModeUser))
      ensures effects == old(effects)
        + ModeEffects(old(vrModeEnabled), enabled, if enabled && validUserComponent then Some(component) else None, appOpsRunning)
        + BindEffects(old(currentVrService), enabled && validUserComponent, component, userId)
        + (if currentVrService.Some?
              && (FreshBind(old(currentVrService), enabled && validUserComponent, component, userId)
                  || CallerChanged(calling, old(currentVrModeComponent)))
           then [FocusedActivityChanged(component, userId, currentVrModeComponent)] else [])
      ensures Grants() == Rebound(old(Grants()), packages, old(currentVrService), enabled && validUserComponent, component, userId)
      ensures !Drops(old(currentVrService), enabled && validUserComponent, component, userId)
           && !FreshBind(old(currentVrService), enabled && validUserComponent, component, userId)
           ==> enabledListeners == old(enabledListeners)
      ensures old(RecordsConsistent()) ==> RecordsConsistent()
    {
      validUserComponent := validity(component, userId) == NoError;
      var newlyBound := ChangeModeAndService(enabled, enabled && validUserComponent, component, userId);
      UpdateCaller(calling, userId, newlyBound);
    }

    /** onEnabledComponentChanged: re-check the bound service against the oracle;
        it stays, untouched, while still valid, and is unbound otherwise. */
    method OnEnabledComponentChanged()
      requires Valid()
      modifies this`vrModeEnabled, this`pending, this`currentVrService, this`currentVrModeComponent,
               this`currentVrModeUser, this`effects, this`guard, this`wasDefaultGranted, this`overlayGranted,
               this`previousManageOverlayPackage, this`policyGranted, this`zenRuleOwners,
               this`previousNotificationPolicyAccessPackage, this`previousToggledListenerSettings,
               this`enabledListeners
      ensures Valid()
      ensures old(currentVrService).None? ==> unchanged(this)
      ensures old(currentVrService).Some? ==>
        var s := old(currentVrService).value;
        var stillValid := validity(s.component, s.userId) == NoError;
        && vrModeEnabled
        && pending == old(pending)
        && currentVrModeComponent == old(currentVrModeComponent) && currentVrModeUser == old(currentVrModeUser)
        && currentVrService == (if stillValid then old(currentVrService) else None)
        && effects == old(effects) + (if stillValid then [] else [Disconnect(s.component, s.userId)])
        && Grants() == (if stillValid then old(Grants()) else Revoke(old(Grants()), packages, s.component))
        && (stillValid ==> enabledListeners == old(enabledListeners))
    {
      if currentVrService.None? {
        return;
      }
      var valid := UpdateCurrentVrService(vrModeEnabled, currentVrService.value.component, currentVrService.value.userId, None);
    }

    // ---------------------------------------------------------------------
    // State callbacks

    /** addStateCallback (RemoteCallbackList.register). */
    method AddStateCallback(cb: CallbackId)
      modifies this`remoteCallbacks
      ensures remoteCallbacks == old(remoteCallbacks) + {cb}
    {
      remoteCallbacks := remoteCallbacks + {cb};
    }

    /** removeStateCallback (RemoteCallbackList.unregister). */
    method RemoveStateCallback(cb: CallbackId)
      modifies this`remoteCallbacks
      ensures remoteCallbacks == old(remoteCallbacks) - {cb}
    {
      remoteCallbacks := remoteCallbacks - {cb};
    }

    /** The handler's MSG_VR_STATE_CHANGE case: take the oldest message and call
        onVrStateChanged on every item of the broadcast array `items` (the
        registered callbacks, in an order the model leaves open), last item
        first; the callbacks in `failing` throw RemoteException, which is ignored. */
    method HandleStateChange(items: seq<CallbackId>, failing: set<CallbackId>)
      requires pending != []
      requires multiset(items) == multiset(remoteCallbacks)
      modifies this`pending, this`delivered
      ensures pending == old(pending)[1..]
      ensures delivered == old(delivered) + Deliveries(items, failing, old(pending)[0])
    {
      var state := pending[0];
      pending := pending[1..];
      var i := |items|;
      while i > 0
        invariant 0 <= i <= |items|
        invariant pending == old(pending)[1..]
        invariant delivered == old(delivered) + Deliveries(items[i..], failing, state)
      {
        i := i - 1;
        assert items[i..][1..] == items[i + 1..];
        if items[i] !in failing {
          delivered := delivered + [Delivery(items[i], state)];
        }
      }
    }
  }

  /** Binding a listener and then leaving VR mode gives back the overlay and
      notification-policy grants and the listener entries there were before,
      and leaves no grant record. */
  method BindThenUnbindRestores(svc: VrManagerService, c: Component, userId: int, calling: Option<Component>)
    requires svc.Valid() && svc.RecordsConsistent() && svc.currentVrService.None?
    modifies svc`vrModeEnabled, svc`pending, svc`currentVrService, svc`currentVrModeComponent,
             svc`currentVrModeUser, svc`effects, svc`guard, svc`wasDefaultGranted, svc`overlayGranted,
             svc`previousManageOverlayPackage, svc`policyGranted, svc`zenRuleOwners,
             svc`previousNotificationPolicyAccessPackage, svc`previousToggledListenerSettings,
             svc`enabledListeners
    ensures svc.Valid() && svc.currentVrService.None?
    ensures svc.overlayGranted == old(svc.overlayGranted) && svc.policyGranted == old(svc.policyGranted)
    ensures Entries(svc.enabledListeners) == Entries(old(svc.enabledListeners))
    ensures svc.Grants().record == NoRecord
  {
    var valid := svc.UpdateCurrentVrService(true, c, userId, calling);
    valid := svc.UpdateCurrentVrService(false, c, userId, None);
    RevokeUndoesGrant(old(svc.Grants()), svc.packages, c, userId);
  }

  /** A request that the state already reflects (the mode flag as requested, the
      service the request implies already bound or none, the caller absent or
      already current) changes nothing at all: no call out, no message, no grant
      change, and the secure setting keeps its exact text. */
  method MatchingRequestIsQuiet(svc: VrManagerService, enabled: bool, c: Component, userId: int, calling: Option<Component>)
    requires svc.Valid()
    requires svc.vrModeEnabled == enabled
    requires svc.currentVrService == (if enabled && svc.validity(c, userId) == NoError then Some(ManagedService(c, userId, true)) else None)
    requires calling.None? || svc.currentVrModeComponent == calling
    modifies svc`vrModeEnabled, svc`pending, svc`currentVrService, svc`currentVrModeComponent,
             svc`currentVrModeUser, svc`effects, svc`guard, svc`wasDefaultGranted, svc`overlayGranted,
             svc`previousManageOverlayPackage, svc`policyGranted, svc`zenRuleOwners,
             svc`previousNotificationPolicyAccessPackage, svc`previousToggledListenerSettings,
             svc`enabledListeners
    ensures unchanged(svc)
  {
    var bind := enabled && svc.validity(c, userId) == NoError;
    assert !Drops(svc.currentVrService, bind, c, userId) && !FreshBind(svc.currentVrService, bind, c, userId);
    assert !CallerChanged(calling, svc.currentVrModeComponent);
    ghost var g := svc.Grants();
    var valid := svc.UpdateCurrentVrService(enabled, c, userId, calling);
    assert svc.Grants() == g;
    assert svc.pending == old(svc.pending);
    assert svc.effects == old(svc.effects);
  }

  /** Repeating a request is a no-op: after one call of
      updateCurrentVrServiceLocked, an identical second call changes nothing
      (see MatchingRequestIsQuiet), so the two leave the state, the grants and
      the calls out exactly as the first one does. */
  method RepeatedRequestIsQuiet(svc: VrManagerService, enabled: bool, c: Component, userId: int, calling: Option<Component>)
    requires svc.Valid()
    modifies svc`vrModeEnabled, svc`pending, svc`currentVrService, svc`currentVrModeComponent,
             svc`currentVrModeUser, svc`effects, svc`guard, svc`wasDefaultGranted, svc`overlayGranted,
             svc`previousManageOverlayPackage, svc`policyGranted, svc`zenRuleOwners,
             svc`previousNotificationPolicyAccessPackage, svc`previousToggledListenerSettings,
             svc`enabledListeners
    ensures svc.Valid() && svc.vrModeEnabled == enabled
    ensures var bind := enabled && svc.validity(c, userId) == NoError;
      && svc.currentVrService == (if bind then Some(ManagedService(c, userId, true)) else None)
      && svc.currentVrModeComponent == (if CallerChanged(calling, old(svc.currentVrModeComponent)) then calling else old(svc.currentVrModeComponent))
      && svc.currentVrModeUser == (if CallerChanged(calling, old(svc.currentVrModeComponent)) then userId else old(svc.currentVrModeUser))
      && svc.pending == old(svc.pending) + (if old(svc.vrModeEnabled) == enabled then [] else [enabled])
      && svc.Grants() == Rebound(old(svc.Grants()), svc.packages, old(svc.currentVrService), bind, c, userId)
      && (!Drops(old(svc.currentVrService), bind, c, userId) && !FreshBind(old(svc.currentVrService), bind, c, userId)
          ==> svc.enabledListeners == old(svc.enabledListeners))
      && svc.effects == old(svc.effects)
        + ModeEffects(old(svc.vrModeEnabled), enabled, if bind then Some(c) else None, svc.appOpsRunning)
        + BindEffects(old(svc.currentVrService), bind, c, userId)
        + (if svc.currentVrService.Some?
              && (FreshBind(old(svc.currentVrService), bind, c, userId)
                  || CallerChanged(calling, old(svc.currentVrModeComponent)))
           then [FocusedActivityChanged(c, userId, svc.currentVrModeComponent)] else [])
  {
    var valid := svc.UpdateCurrentVrService(enabled, c, userId, calling);
    MatchingRequestIsQuiet(svc, enabled, c, userId, calling);
  }
}
