# VrManagerService: VR-mode control core

This project models the VR-mode controller of Android's `VrManagerService` in Dafny and proves properties of the model. The controller owns four things:

- the device-wide VR mode flag;
- the single bound VR listener service, a `ManagedApplicationService`;
- the "calling" component that currently uses VR mode;
- the implied permissions temporarily granted to the listener's package.

Mode changes go to the native hook and to the AppOps overlay restriction. They are also queued as `MSG_VR_STATE_CHANGE` messages, which the handler broadcasts to the registered `IVrStateCallbacks`.

The model has one module per concern:

- `Options` (options.dfy) holds `Option`, the model of a nullable Java reference.
- `Components` (components.dfy) covers component names and `flattenToString`. Package and class names are a subtype without `':'`, so a flattened name never holds the setting separator.
- `ListenerSetting` (listener_setting.dfy) covers the `ENABLED_NOTIFICATION_LISTENERS` secure setting:
  - It follows Java's `String.split(":")` exactly: a string with no `':'` parses to itself, and trailing empty pieces are dropped.
  - `formatSettings` walks an `ArraySet`, whose order is unspecified. The model picks elements in an arbitrary order. Its contract is `IsFormatting`: the `':'`-join of the collection's non-empty entries, each exactly once, in some order.
- `ImpliedPermissions` (implied_permissions.dfy) states the grant and revoke of overlay access (`SYSTEM_ALERT_WINDOW`), notification-policy access and notification-listener entries. Both are pure functions `Grant` and `Revoke` over the permission state and the grant record (`mWasDefaultGranted`, `mPrevious*`).
- `StateCallbacks` (state_callbacks.dfy) covers one broadcast. Delivery runs from the last array item to the first, and a `RemoteException` skips that one callback.
- `VrManager` (vr_manager.dfy) is the class `VrManagerService`. Each Java method becomes a method that updates the same fields as in the source. Each method is proved against the spec functions above:
  - `UpdateCurrentVrService` corresponds to `updateCurrentVrServiceLocked` and `ChangeVrMode` to `changeVrModeLocked`. The other methods follow the same naming.
  - The class invariant `Valid()` holds that `mGuard` is set exactly while a service is bound, and that a bound service is connected with VR mode on. From it the model proves that both `IllegalStateException`s of the grant guard are unreachable. They are modelled as an `Outcome` result.

Collaborators are plain state of the class:

- the `EnabledComponentsObserver.isValid` oracle is a function field `validity`;
- the `PackageManager` is a `PackageEnv` value: whether it is running, the installed packages and their system flags, and the notification-listener services per user;
- the holders of overlay access, the holders of notification-policy access and the owners of automatic zen rules are sets of package names;
- the secure setting is an `Option<string>`, with `None` for an unset setting;
- whether AppOps is running is a boolean;
- the handler's message queue is `pending`, a FIFO of booleans;
- one-shot calls out are appended to the log `effects`: the native hook, the overlay restriction, connect, disconnect, and the `focusedActivityChanged` event.

The focus event is sent after a fresh bind or a rebind as well as when the calling component changes: lines 374 and 382 of VrManagerService.java set `sendUpdatedCaller` on those two paths.

## Model

| member | source | states |
|---|---|---|
| Components.Flatten | services/core/java/com/android/server/vr/VrManagerService.java:543-546 | a flattened component name is non-empty, holds no `':'`, and starts with the package name followed by `'/'` |
| ListenerSetting.Pieces | services/core/java/com/android/server/vr/VrManagerService.java:582 | splitting always yields at least one piece, empty pieces included |
| ListenerSetting.DropTrailingEmpty | services/core/java/com/android/server/vr/VrManagerService.java:582 | the result is a prefix of the pieces that does not end in `""`, and every dropped piece is `""` (Java's split drops trailing empty strings) |
| ListenerSetting.SplitColonFree | services/core/java/com/android/server/vr/VrManagerService.java:582 | no piece of a split holds a `':'` |
| ListenerSetting.ListenerSetColonFree | services/core/java/com/android/server/vr/VrManagerService.java:576-588 | no element of a parsed setting holds a `':'` |
| ListenerSetting.SplitOfJoin | services/core/java/com/android/server/vr/VrManagerService.java:582-608 | round trip for `Split`, the model of `flat.split(":")`: splitting the `':'`-join of non-empty, `':'`-free entries gives back exactly those entries in order |
| ListenerSetting.EntriesOfFormatting | services/core/java/com/android/server/vr/VrManagerService.java:576-608 | round trip: parsing any formatting of a collection of `':'`-free names gives back the collection's non-empty entries |
| ListenerSetting.JoinSnoc | services/core/java/com/android/server/vr/VrManagerService.java:597-606 | appending one entry to the builder with a `':'` separator is the join of the extended list |
| ListenerSetting.FormatSettings | services/core/java/com/android/server/vr/VrManagerService.java:590-608 | `""` for a null or empty collection; otherwise the `':'`-join of the non-empty entries, each exactly once, in the collection's (unspecified) iteration order |
| ImpliedPermissions.ListenerEntriesOf | services/core/java/com/android/server/vr/VrManagerService.java:543-551 | the names the listener loop adds are not already present, are never `""`, and hold no `':'` |
| ImpliedPermissions.GrantEnablesPackageListeners | services/core/java/com/android/server/vr/VrManagerService.java:533-551 | after a grant to a preinstalled package, every listener service of that package for the user is enabled, and every recorded entry is the flattened name of such a service |
| ImpliedPermissions.Grant | services/core/java/com/android/server/vr/VrManagerService.java:423-452 | a package that is not installed as a system or updated-system app, or a missing PackageManager, changes nothing. Otherwise the package ends up with overlay and policy access, and the record names the package for exactly the accesses it lacked before. Exactly the listener entries that were added are recorded. Nothing is removed and zen rules are untouched |
| ImpliedPermissions.Revoke | services/core/java/com/android/server/vr/VrManagerService.java:468-484 | with no PackageManager or no default grant, nothing changes. Otherwise it takes away exactly the recorded overlay package and exactly the recorded listener entries. It removes the policy access and automatic zen rules of the bound package only when the record names that package, and changes neither otherwise. The default grant, the overlay record and the listener record are cleared, and the whole record is cleared when it belongs to the bound package |
| ImpliedPermissions.RevokeUndoesGrant | services/core/java/com/android/server/vr/VrManagerService.java:416-574 | revoke after grant, starting from no record, restores the overlay and policy holders and the listener entries exactly and leaves no record. The package's automatic zen rules are removed exactly when it was preinstalled and lacked policy access before |
| ImpliedPermissions.NotPreinstalledUntouched | services/core/java/com/android/server/vr/VrManagerService.java:442-447 | a package that is not preinstalled gets nothing recorded, so grant then revoke is the identity |
| ImpliedPermissions.PreexistingListenersSurvive | services/core/java/com/android/server/vr/VrManagerService.java:533-574 | a listener entry present before the grant is still present after the grant and after the revoke that follows |
| StateCallbacks.DeliveriesReachLiveCallbacks | services/core/java/com/android/server/vr/VrManagerService.java:116-127 | every delivery carries the broadcast state and goes to a non-throwing item of the array. A callback that does not throw is reached as often as it stands in the array; a throwing one is never reached, and it does not stop delivery to the others |
| StateCallbacks.BroadcastReachesEachOnce | services/core/java/com/android/server/vr/VrManagerService.java:116-127 | with the array taken from the registered set, each registered callback that does not throw is reached exactly once and no other is reached |
| VrManager.RequestCases | services/core/java/com/android/server/vr/VrManagerService.java:353-384 | the four request cases. Disabled or invalid: revoke and disconnect what is bound, if anything. Matching service bound: no disconnect, connect or grant churn. Non-matching service bound: revoke, disconnect, connect, grant. Nothing bound: connect and grant |
| VrManager.CollectListenerEntries | services/core/java/com/android/server/vr/VrManagerService.java:542-551 | the loop adds exactly the flattened names of pkg's components not yet in `current`, and `current` grows by exactly those |
| VrManager.BindThenUnbindRestores | services/core/java/com/android/server/vr/VrManagerService.java:353-384 | binding a listener and then leaving VR mode gives back the overlay and policy holders and the listener entries there were before, and leaves no grant record |
| VrManager.RepeatedRequestIsQuiet | services/core/java/com/android/server/vr/VrManagerService.java:340-409 | repeating a request changes nothing: two identical calls leave the mode flag, the queue, the bound service, the calling component and user, the grants, the setting's exact text when nothing is rebound, and the calls out exactly as one call does |
| VrManager.MatchingRequestIsQuiet | services/core/java/com/android/server/vr/VrManagerService.java:340-409 | a request that the state already reflects leaves the whole service unchanged: the mode flag equals the request, the implied service (or none) is already bound, and the caller is absent or already current. So there is no call out, no message and no grant change, and the secure setting keeps its exact text |
| VrManager.VrManagerService.constructor | services/core/java/com/android/server/vr/VrManagerService.java:95-108 | the fresh service has VR mode off, nothing bound, no caller, no record, no callbacks and empty queues, and satisfies the class invariant |
| VrManager.VrManagerService.UpdateOverlayState | services/core/java/com/android/server/vr/VrManagerService.java:310-323 | when AppOps runs, the overlay restriction follows the mode flag and exempts only the listener's package |
| VrManager.VrManagerService.OnVrModeChanged | services/core/java/com/android/server/vr/VrManagerService.java:644-647 | a state-change message carrying the current flag is appended to the handler queue |
| VrManager.VrManagerService.ChangeVrMode | services/core/java/com/android/server/vr/VrManagerService.java:626-637 | the flag takes the requested value. The native hook, the overlay update and the broadcast happen, in that order, only when the flag changes |
| VrManager.VrManagerService.GetVrMode | services/core/java/com/android/server/vr/VrManagerService.java:698-702 | returns the mode flag, which is on whenever a service is bound |
| VrManager.VrManagerService.CreateAndConnectService | services/core/java/com/android/server/vr/VrManagerService.java:612-616 | the new service for (component, user) is bound and connected |
| VrManager.VrManagerService.DisconnectService | services/core/java/com/android/server/vr/VrManagerService.java:356-359 | the bound service is disconnected, and nothing else about it changes |
| VrManager.VrManagerService.DisconnectIfNotMatching | services/core/java/com/android/server/vr/VrManagerService.java:365-366 | disconnects exactly when the bound service's (component, user) differs from the request, and reports whether it did |
| VrManager.VrManagerService.SendFocusEvent | services/core/java/com/android/server/vr/VrManagerService.java:392-401 | one focusedActivityChanged event with the given component goes to the bound service |
| VrManager.VrManagerService.IsCurrentVrListener | services/core/java/com/android/server/vr/VrManagerService.java:676-684 | true exactly when a service is bound for that package and user; the grant guard is then set |
| VrManager.VrManagerService.GetCurrentNotifListeners | services/core/java/com/android/server/vr/VrManagerService.java:576-588 | the empty set for an unset setting, otherwise the set of all pieces of its split |
| VrManager.VrManagerService.GrantOverlayAccess | services/core/java/com/android/server/vr/VrManagerService.java:486-496 | the package holds overlay access afterwards, and is recorded only when it did not hold it before |
| VrManager.VrManagerService.RevokeOverlayAccess | services/core/java/com/android/server/vr/VrManagerService.java:498-505 | only the recorded package loses overlay access, and the record is cleared |
| VrManager.VrManagerService.GrantNotificationPolicyAccess | services/core/java/com/android/server/vr/VrManagerService.java:508-516 | the package has policy access afterwards, and is recorded only when it lacked it before |
| VrManager.VrManagerService.RevokeNotificationPolicyAccess | services/core/java/com/android/server/vr/VrManagerService.java:518-531 | only when the recorded package is `pkg`: its zen rules and its policy access are removed and the record is cleared. Otherwise nothing changes and the record is kept |
| VrManager.VrManagerService.PutListenerSetting | services/core/java/com/android/server/vr/VrManagerService.java:553-556 | the setting written is a formatting of the collection, and it names exactly the collection's non-empty entries |
| VrManager.VrManagerService.MissingListeners | services/core/java/com/android/server/vr/VrManagerService.java:533-551 | the entries to toggle are exactly the package's listener components for the user that the setting does not name, and the grown collection is the parsed setting plus those entries |
| VrManager.VrManagerService.GrantNotificationListenerAccess | services/core/java/com/android/server/vr/VrManagerService.java:533-558 | records exactly the newly enabled entries, which are the package's missing listener components; the setting gains exactly those. It is rewritten as a formatting of the grown set unless that set is empty |
| VrManager.VrManagerService.RevokeNotificationListenerAccess | services/core/java/com/android/server/vr/VrManagerService.java:560-574 | with no record, nothing changes. Otherwise exactly the recorded entries leave the setting, which is rewritten as a formatting of what remains, and the record is cleared |
| VrManager.VrManagerService.EnableImpliedPermissions | services/core/java/com/android/server/vr/VrManagerService.java:416-452 | IllegalStateException when the guard is set, with nothing changed. Otherwise the guard is set and the permission state becomes `Grant` of the old one |
| VrManager.VrManagerService.DisableImpliedPermissions | services/core/java/com/android/server/vr/VrManagerService.java:461-484 | IllegalStateException when the guard is clear, with nothing changed. Otherwise the guard is cleared and the permission state becomes `Revoke` of the old one |
| VrManager.VrManagerService.UnbindService | services/core/java/com/android/server/vr/VrManagerService.java:353-362 | the bound service is disconnected, its implied permissions revoked, and nothing is bound afterwards |
| VrManager.VrManagerService.RebindIfNotMatching | services/core/java/com/android/server/vr/VrManagerService.java:363-375 | a matching service is kept untouched. A non-matching one is disconnected and revoked, and then a newly connected, granted service for the request replaces it |
| VrManager.VrManagerService.BindService | services/core/java/com/android/server/vr/VrManagerService.java:376-382 | with nothing bound, a new service is connected and its implied permissions granted |
| VrManager.VrManagerService.SwitchService | services/core/java/com/android/server/vr/VrManagerService.java:353-384 | afterwards the requested service is bound when `bind` holds and nothing otherwise. The calls out and the permission state follow `BindEffects` and `Rebound`, and grant records stay consistent with what is bound: a record exists only for the bound package and only while the PackageManager runs |
| VrManager.VrManagerService.ChangeModeAndService | services/core/java/com/android/server/vr/VrManagerService.java:347-384 | the mode change (see ChangeVrMode) comes before the binding step (see SwitchService). The class invariant and grant-record consistency are kept, and the secure setting keeps its exact text when no service is dropped or newly bound |
| VrManager.VrManagerService.UpdateCaller | services/core/java/com/android/server/vr/VrManagerService.java:386-401 | the calling component and user change only for a non-null, different caller. A focus event carrying the stored caller goes to a bound service only after a fresh bind or a caller change |
| VrManager.VrManagerService.UpdateCurrentVrService | services/core/java/com/android/server/vr/VrManagerService.java:340-409 | the mode flag equals the request even for an invalid component, and the hook and broadcast fire only on change. The return value is the oracle's NO_ERROR verdict. The requested service is bound exactly when the request is enabled and valid, and nothing is bound otherwise. The calls out, the grants and the caller follow the request cases. When the bound service is kept, or nothing is bound and nothing requested, the secure setting keeps its exact text. The invariant and grant-record consistency are kept |
| VrManager.VrManagerService.OnEnabledComponentChanged | services/core/java/com/android/server/vr/VrManagerService.java:151-162 | with nothing bound, nothing changes. A bound service that is still valid stays untouched, with no calls out, no grant change and the secure setting's exact text kept. One that is no longer valid is disconnected and revoked, while VR mode stays on. The calling component and user never change, and the oracle and PackageManager are outside its frame |
| VrManager.VrManagerService.AddStateCallback | services/core/java/com/android/server/vr/VrManagerService.java:690-692 | the callback is registered |
| VrManager.VrManagerService.RemoveStateCallback | services/core/java/com/android/server/vr/VrManagerService.java:694-696 | the callback is unregistered |
| VrManager.VrManagerService.HandleStateChange | services/core/java/com/android/server/vr/VrManagerService.java:112-133 | the oldest queued state is taken off the queue, and exactly `Deliveries` of the broadcast array with that state are made, last item first, with the throwing callbacks skipped |

## Left out

- The lock (`synchronized (mLock)`) and the off-lock handler thread. Every method is one atomic step, and the handler is the `pending` queue; `HandleStateChange` is one dispatch of its oldest message.
- The looper's unknown-message `IllegalStateException`. Only `MSG_VR_STATE_CHANGE` is ever queued, so `pending` holds states only.
- `Binder.clearCallingIdentity` and `restoreCallingIdentity`, `enforceCallerPermission`, and the `IVrManager` and `LocalService` stubs. This includes the stub's `IllegalArgumentException` for a null callback: callbacks are plain identities that are never null.
- `setVrMode` and `hasVrPackage`, the locked wrappers over `updateCurrentVrServiceLocked` and the oracle: calling them is calling `UpdateCurrentVrService` or `validity`.
- `initializeNative` and `setVrModeNative`. The native hook appears only as an entry in the effects log.
- The SystemService lifecycle hooks (`onStart`, `onBootPhase`, the user hooks), `dump`, and `Slog` logging.
- `EnabledComponentsObserver` and `ManagedApplicationService` are not part of this model. They are the oracle function, taking `NO_ERROR` as 0, and a (component, user, connected) record with `disconnectIfNotMatching` semantics. Events sent to the bound service are logged, not delivered.
- `RemoteCallbackList.beginBroadcast` snapshots the registered callbacks in an order the model does not fix. `HandleStateChange` takes that array as a parameter with the same elements as the registered set.
- Runtime permissions are modelled per package. The user argument of `grantRuntimePermission` and `revokeRuntimePermission` is not modelled.
- `removeAutomaticZenRules` is modelled as taking the package out of the set of zen-rule owners. What the rules contain is not modelled.
- Calls out and their failures: a `PackageManager` that is absent inside a grant helper, or a `NotificationManager` that is absent. Only the `pm == null` checks at the start of enable and disable are modelled.
- VrManager.VrManagerService.GrantNotificationListenerAccess and RevokeNotificationListenerAccess fix the written setting only up to the order of its entries (`IsFormatting`), because `ArraySet`'s iteration order is unspecified.
- VrManager.VrManagerService.HandleStateChange: `RemoteException`s are a parameter (`failing`) rather than an outcome of the call.
