# A Dafny model of parts of juju's agent and API server

This project models six parts of juju, the service orchestration system,
and proves properties about each model:

- **Hook operations of the unit agent.** A hook runs as an operation in three
  phases: Prepare, Execute and Commit. There are three variants: Run, Retry
  and Skip. Each phase turns the unit's persisted `State` (operation kind,
  step, hook, the `Started` flag and the time of the last collect-metrics
  hook) into a new `State`, or into no state plus an error.
  - `HookOperation` gives the phases as pure functions (`PrepareSpec`,
    `ExecuteSpec`, `CommitSpec` and the queuing table `NextHook`).
  - It also gives an operation object, `RunHookOperation`, that performs them
    step by step. The object holds an execution-lock flag and a log of the
    calls it makes on its collaborators.
  - The behaviour modelled is the one the operation tests in
    runhook_test.go assert.
- **API dispatch** (`ApiRoot`):
  - the root-name filter;
  - the anonymous root;
  - the method allow-list that applies while an upgrade is in progress;
  - the lookup of a facade's type and method, with its error mapping;
  - the per-connection cache of facade objects;
  - the facade listing.
- **The storage provisioner facade** (`StorageProvisioner`):
  - its authorisation functions;
  - the three bulk calls `Volumes`, `VolumeParams` and `SetVolumeInfo`. Each
    answers one result slot per argument.
- **The storage provider registry** (`ProviderRegistry`): the registry of
  providers by type, and the per-environment list of supported provider
  types.
- **Init-system discovery** (`ServiceDiscovery`): the init system implied by
  a version's OS and series, and the choice of service it leads to.
- **Payload result conversions** (`PayloadHelpers`): the conversions between
  a payload lookup result on the server and its API form.

`ApiErrors` holds the small part of the API server's error handling these
parts share: `ServerError`, `RestoreError` and the permission-denied error.
The apiserver/common package that defines them is not part of this model.
`Wrappers` holds `Option` and `Result`.

Collaborators are parameters:
- The hook operation's collaborators are answers scripted in a `Callbacks`
  value.
- The facade registry and Go reflection are a record of lookup functions in
  `ApiRoot.Facades`.
- The state backend of the storage provisioner is a record of functions in
  `StorageProvisioner.Backend`.
- The clock is a `now` argument.

## Model

| member | source | states |
|---|---|---|
| HookOperation.RunPrepare | worker/uniter/operation/runhook_test.go:50-162 | Run's Prepare yields a state exactly when both the hook and its runner were prepared. That state is (RunHook, Pending, the op's hook), with Started and CollectMetricsTime carried over. Each error is passed through verbatim with no state. Once the hook is prepared, the calls are exactly: prepare the hook, then build its runner. The resolved flag is never cleared. |
| HookOperation.PrepareSpec | worker/uniter/operation/runhook_test.go:28-162 | Exactly Retry and Skip clear the resolved flag first. A clearing error is returned alone, with no state. Skip never prepares a hook or builds a runner, and otherwise returns ErrSkipExecute. A successful Prepare yields RunHook/Pending/the op's hook with its other fields carried forward. Run's result is RunPrepare's, so its prepare-hook and runner errors pass through verbatim. |
| HookOperation.PrepareSucceedsIff | worker/uniter/operation/runhook_test.go:28-162 | Prepare yields a state if and only if the variant is not Skip, the flag cleared (for Retry), and both prepare-hook and the runner succeeded. |
| HookOperation.RetryIsRunAfterClearing | worker/uniter/operation/runhook_test.go:50-162 | Once the flag is cleared, Retry gives Run's state and error, and its calls are Run's preceded by the flag clearing. |
| HookOperation.ExecuteSpec | worker/uniter/operation/runhook_test.go:164-364 | A lock error gives no state and that error, after asking for the lock as "running hook <name>". Queued happens exactly on requeue-and-reboot. ErrNeedsReboot with a state happens exactly on requeue-and-reboot or reboot. A failed hook gives ErrHookFailed and no state. Every state is the input with Kind/Step/Hook changed only. No error implies Done. A hook that ran cleanly or is missing gives no error and (RunHook, Done, the op's hook). Once the lock is granted, the calls begin with: ask for the lock as "running hook <name>", run the hook named name, release the lock. |
| HookOperation.ExecuteReleasesLockOnce | worker/uniter/operation/runhook_test.go:204-313 | The lock is released exactly once when it was granted, whatever the outcome, and never when it was refused. |
| HookOperation.ExecuteNotifications | worker/uniter/operation/runhook_test.go:204-364 | "Completed" is notified exactly for success, requeue-and-reboot and reboot. "Failed" is notified exactly for a failed hook. A missing hook notifies nothing. |
| HookOperation.NextHook | worker/uniter/operation/runhook_test.go:404-653 | Install and UpgradeCharm queue ConfigChanged. ConfigChanged on an unstarted unit queues Start. Nothing else queues anything. |
| HookOperation.Committed | worker/uniter/operation/runhook_test.go:404-695 | Committing the hook queues the table's hook as (RunHook, Queued), or else continues with (Continue, Pending, the hook). Start sets Started, which is otherwise kept. CollectMetrics sets CollectMetricsTime to now, which is otherwise kept. |
| HookOperation.CommitSpec | worker/uniter/operation/runhook_test.go:366-653 | For every variant, a commit-callback error gives no state and that error. Otherwise the result is the committed state. |
| HookOperation.CollectMetricsTimeBounded | worker/uniter/operation/runhook_test.go:655-695 | Committing collect-metrics at clock reading now, with no commit error, gives exactly the state (Continue, Pending, hook, Started kept, now). The bound before <= time <= after that the test checks follows from that, because the time recorded is the `now` argument. |
| HookOperation.QueueChainEnds | worker/uniter/operation/runhook_test.go:404-653 | Following queued hooks from any commit reaches Continue within three commits. |
| HookOperation.InstallThenConfigThenStart | worker/uniter/operation/runhook_test.go:404-540 | An unstarted unit that commits install queues config-changed, then start, and then continues as started. |
| HookOperation.StartedMonotone | worker/uniter/operation/runhook_test.go:404-653 | After a run of commits, Started holds exactly when it held before or one of the commits was a Start hook. |
| HookOperation.MetricsTimeOnlyFromCollectMetrics | worker/uniter/operation/runhook_test.go:655-695 | CollectMetricsTime is the initial value or the time of one of the CollectMetrics commits. It is unchanged by a run without one. |
| HookOperation.PhasesCarryForward | worker/uniter/operation/runhook_test.go:112-162 | Through Prepare, Execute and Commit of one successful run, Started and CollectMetricsTime reach the commit unchanged. |
| HookOperation.RunHookOperation.constructor | worker/uniter/operation/runhook_test.go:115-119 | A new operation holds its variant, hook and collaborators, no runner, no lock, and an empty call log. |
| HookOperation.RunHookOperation.Prepare | worker/uniter/operation/runhook_test.go:28-162 | It returns PrepareSpec's state and error and appends PrepareSpec's calls. On success it keeps the hook name and the runner for Execute. |
| HookOperation.RunHookOperation.Execute | worker/uniter/operation/runhook_test.go:164-364 | It returns ExecuteSpec's state and error for the kept name and runner, and appends its calls. The lock is not held afterwards. |
| HookOperation.RunHookOperation.Commit | worker/uniter/operation/runhook_test.go:366-695 | It returns CommitSpec's state and error and appends the commit call. |
| HookOperation.RequeueAndRebootScenario | worker/uniter/operation/runhook_test.go:232-251 | Driven through the operation object, a requeue-and-reboot run of config-changed ends in (RunHook, Queued, config-changed) with ErrNeedsReboot. Its calls are: prepare, build the runner, ask for the lock as "running hook some-hook-name", run that hook, release the lock, and notify completion with the runner's context. |
| ApiErrors.ServerError | payload/api/private/helpers_test.go:40-68 | The code records the error's kind: not found, unauthorised, or none. RestoreError recovers the error. |
| ApiErrors.ServerErrorRoundTrip | payload/api/private/helpers_test.go:126-166 | RestoreError undoes ServerError on every error. ServerError undoes RestoreError on every form ServerError produces. |
| ApiRoot.ApiFilter.FindMethod | state/apiserver/root.go:137-146 | A root not admitted gets CallNotImplemented carrying the root, version and method. An admitted root gets the wrapped finder's result unchanged. |
| ApiRoot.NewApiFilter | state/apiserver/root.go:126-135 | The filter admits exactly the given root names and wraps the given finder. |
| ApiRoot.RejectedRootIgnoresFinder | state/apiserver/root.go:137-144 | For a rejected root, the result does not depend on the wrapped finder. |
| ApiRoot.NewAnonRoot | state/apiserver/root.go:268-275 | The anonymous root's filter admits exactly "Admin" and wraps the admin API's lookup. |
| ApiRoot.AnonRoot.FindMethod | state/apiserver/root.go:277-279 | The anonymous root's own lookup is the admin API's answer for every root name. |
| ApiRoot.AnonRootFindMethodIgnoresFilter | state/apiserver/root.go:268-279 | AnonRoot's own FindMethod answers like the admin API even for a root its embedded filter refuses, whatever that filter is. |
| ApiRoot.AnonRootAdmitsOnlyAdmin | state/apiserver/root.go:268-279 | Through the filter, "Admin" reaches the admin API and every other root gets CallNotImplemented. |
| ApiRoot.AllowedNamesHaveOneDot | state/apiserver/root.go:293-298 | Each allowed full name has its only dot right after "Client". |
| ApiRoot.IsMethodAllowedDuringUpgrade | state/apiserver/root.go:293-303 | A call is allowed exactly when the root is Client and the method is one of the four on the list. |
| ApiRoot.AllowedDuringUpgradeIff | state/apiserver/root.go:293-303 | root + "." + method is allowed exactly when the root is Client and the method is FullStatus, PrivateAddress, PublicAddress or WatchDebugLog. |
| ApiRoot.UpgradingRoot.FindMethod | state/apiserver/root.go:305-310 | A disallowed method gets the in-upgrade error. An allowed one gets the wrapped finder's result. |
| ApiRoot.UpgradingRootGate | state/apiserver/root.go:293-310 | During an upgrade, exactly the four Client methods reach the wrapped finder. Every other call fails with the in-upgrade error, whatever finder is wrapped. |
| ApiRoot.LookupMethod | state/apiserver/root.go:231-256 | A missing facade type gives CallNotImplemented with an empty method. A missing method gives CallNotImplemented with the method. Other lookup errors pass through. Success carries the type and the method found. |
| ApiRoot.LookupNotImplementedIff | state/apiserver/root.go:231-256 | CallNotImplemented is reported exactly when the type or the method is missing. Success happens exactly when both are found. |
| ApiRoot.Manufacture | state/apiserver/root.go:195-221 | Factory lookup and factory errors pass through. A value not assignable to the facade's type is an internal error. A value for an interface type is re-wrapped with that type. |
| ApiRoot.ApiRoot.constructor | state/apiserver/root.go:158-166 | A new root starts with an empty object cache. |
| ApiRoot.ApiRoot.FindMethod | state/apiserver/root.go:174-229 | It succeeds exactly when the lookup does, and otherwise returns the lookup's error. The caller knows the root, version, type and method. |
| ApiRoot.ApiRoot.Create | state/apiserver/root.go:180-223 | A cached object is returned with the cache unchanged. Otherwise the result is the one made, and the cache gains that key only on success. |
| ApiRoot.CreateTwice | state/apiserver/root.go:180-223 | After a successful creation, a second one for the same key returns the same object. The cache gains at most that key. |
| ApiRoot.DescribeFacades | state/apiserver/root.go:354-362 | The listing has one entry per registered facade, with names and versions copied index by index. |
| StorageProvisioner.NewStorageProvisionerAPI | apiserver/storageprovisioner/storageprovisioner.go:46-51 | The facade is refused with ErrPerm exactly when the caller is not a machine agent. Otherwise it keeps the authorizer's answers and the given state. |
| StorageProvisioner.MachineAuth | apiserver/storageprovisioner/storageprovisioner.go:52-76 | An environment tag is accessible exactly to environment managers. A machine tag is accessible exactly when it is the caller's own tag, or its non-empty parent id names the caller's machine. Every other tag is denied. |
| StorageProvisioner.VolumeAuth | apiserver/storageprovisioner/storageprovisioner.go:77-89 | Exactly volume tags are accepted. |
| StorageProvisioner.MachineAuthScopes | apiserver/storageprovisioner/storageprovisioner.go:59-74 | A machine agent reaches its own machine and its containers. It does not reach another top-level machine, a volume tag or any other kind of tag. |
| StorageProvisioner.VolumeAuthAcceptsParsedTags | apiserver/storageprovisioner/storageprovisioner.go:150-162 | Every tag that parses as a volume tag passes the volume check, so for such a tag the answer to Volumes depends only on the volume read: the backend's error with not-found hidden, or the converted volume. |
| StorageProvisioner.HideNotFound | apiserver/storageprovisioner/storageprovisioner.go:156-159 | A not-found error becomes ErrPerm. Every other error is kept. |
| StorageProvisioner.OneVolume | apiserver/storageprovisioner/storageprovisioner.go:150-162 | An unparseable tag gives ErrPerm. A not-found volume gives ErrPerm. Other lookup errors pass through. A found volume is converted. |
| StorageProvisioner.ToVolumeResult | apiserver/storageprovisioner/storageprovisioner.go:164-171 | A slot carries an error exactly when the call failed: the zero volume and ServerError of that error. Otherwise it carries the value. |
| StorageProvisioner.Volumes | apiserver/storageprovisioner/storageprovisioner.go:142-174 | One slot per argument, and slot i is made from argument i alone. |
| StorageProvisioner.MissingVolumeLooksLikeDenied | apiserver/storageprovisioner/storageprovisioner.go:150-161 | A missing volume gives the same slot as an unparseable tag, an unauthorised error. Any other lookup error is reported as it is. |
| StorageProvisioner.OneVolumeParams | apiserver/storageprovisioner/storageprovisioner.go:187-210 | The checks are the same as in Volumes. A success means every lookup succeeded. The machine tag is set to the attached machine's tag only when there is exactly one attachment. |
| StorageProvisioner.VolumeParamsPassesLaterErrors | apiserver/storageprovisioner/storageprovisioner.go:198-205 | Attachment and parameter errors pass through unchanged. With both lookups good, the call succeeds. |
| StorageProvisioner.MachineTagOnlyForSingleAttachment | apiserver/storageprovisioner/storageprovisioner.go:206-209 | With zero or several attachments the parameters are common's unchanged. With one, only the machine tag differs, and it names the attached machine. |
| StorageProvisioner.MachineTagString | apiserver/storageprovisioner/storageprovisioner.go:207 | A machine tag's string is "machine-" then the id with '/' written as '-'. |
| StorageProvisioner.ToVolumeParamsResult | apiserver/storageprovisioner/storageprovisioner.go:212-219 | A slot carries an error exactly when the call failed: zero parameters and ServerError of that error. Otherwise it carries the value. |
| StorageProvisioner.VolumeParams | apiserver/storageprovisioner/storageprovisioner.go:178-222 | One slot per argument, and slot i is made from argument i alone. |
| StorageProvisioner.OneSetVolumeInfo | apiserver/storageprovisioner/storageprovisioner.go:233-245 | A conversion error passes through. A not-found target becomes ErrPerm. Other write errors pass through. A successful write gives no error. |
| StorageProvisioner.WritesFromArgs | apiserver/storageprovisioner/storageprovisioner.go:233-249 | Every update handed to the state is the conversion of one of the arguments. |
| StorageProvisioner.WritesAll | apiserver/storageprovisioner/storageprovisioner.go:246-249 | When every argument converts, there is one write per argument, and write i is argument i converted. |
| StorageProvisioner.SetVolumeInfo | apiserver/storageprovisioner/storageprovisioner.go:225-251 | One slot per argument, made from that argument alone. Every argument that converts is written, in order, whatever happened to the others. |
| StorageProvisioner.SetVolumeInfoErrors | apiserver/storageprovisioner/storageprovisioner.go:240-244 | For a converted volume: not found gives ErrPerm, other errors are kept, and success gives no error. |
| ProviderRegistry.UnsupportedMembers | storage/provider/registry/providerregistry.go:53-58 | The named types the first loop appends are exactly the entries of ps not already in the list. |
| ProviderRegistry.RegisteredListContents | storage/provider/registry/providerregistry.go:51-68 | After registration the old list is a prefix. A type is supported exactly when it was before, was named, or is common. Types supported before are not appended again. |
| ProviderRegistry.CommonTypeInPsAppendedTwice | storage/provider/registry/providerregistry.go:54-67 | A named type that is also common, and was not supported before, appears twice in the new list. |
| ProviderRegistry.RepeatedTypeAppendedPerRepeat | storage/provider/registry/providerregistry.go:53-58 | For every ps and known list, a type not yet known appears in the appended part as many times as ps names it; a known type never does. |
| ProviderRegistry.Registry.constructor | storage/provider/registry/providerregistry.go:19-45 | Both maps start empty. |
| ProviderRegistry.Registry.RegisterProvider | storage/provider/registry/providerregistry.go:22-27 | It panics, changing nothing, exactly when a non-nil provider is registered for the type. Otherwise it sets that one entry and keeps the others. |
| ProviderRegistry.Registry.StorageProvider | storage/provider/registry/providerregistry.go:30-36 | It returns the registered provider (nil included) exactly for registered types. Otherwise it returns a not-found error. |
| ProviderRegistry.Registry.IsProviderSupported | storage/provider/registry/providerregistry.go:71-82 | It is false for an unknown environment type. Otherwise it is true exactly when the type is in that environment's list. |
| ProviderRegistry.Registry.AppendUnsupported | storage/provider/registry/providerregistry.go:52-58 | The old list followed by the named types the unchanged registry does not support. |
| ProviderRegistry.Registry.AppendCommon | storage/provider/registry/providerregistry.go:60-66 | The list extended by exactly the common types not yet supported, once each. |
| ProviderRegistry.Registry.RegisterEnvironStorageProviders | storage/provider/registry/providerregistry.go:51-68 | The environment's new list has the shape RegisteredList describes. Other environment types are untouched. |
| ProviderRegistry.Registry.RegisterOpenStackStorage | provider/openstack/init.go:21 | With no named types, OpenStack supports exactly what it supported before plus the common types. Other environments are untouched. |
| ServiceDiscovery.UbuntuRelease | service/discovery_test.go:148-163 | Exactly precise, quantal, raring, saucy, trusty, utopic, vivid and wily are known, with releases between 12.04 and 15.10. Oneiric is unknown. Every known series except vivid and wily is at or before the last upstart release. |
| ServiceDiscovery.VersionInitSystem | service/discovery_test.go:145-170 | Windows maps to the windows init system. Known Ubuntu series up to utopic map to upstart. Systemd is chosen only without legacy upstart. Other OSes and unknown series map to nothing. |
| ServiceDiscovery.LegacyUpstartOnlyReplacesSystemd | service/discovery_test.go:25-31 | The legacy-upstart flag changes only the systemd answers, to upstart. |
| ServiceDiscovery.DiscoveryTable | service/discovery_test.go:145-170 | The table rows: windows; oneiric none; precise and utopic upstart; vivid systemd, or upstart with the flag; CentOS and Unknown none. |
| ServiceDiscovery.DiscoverService | service/discovery_test.go:105-132 | Without local discovery, it succeeds exactly when the version implies an init system, giving a service of that system with the given name and conf. Otherwise it gives not found. |
| PayloadHelpers.PayloadTag | payload/api/private/helpers_test.go:26-38 | The payload tag of an ID is "payload-" followed by the ID. |
| PayloadHelpers.ParsePayloadTag | payload/api/private/helpers_test.go:70-88 | It succeeds exactly on payload tags, and returns the ID whose tag it is. |
| PayloadHelpers.ParsePayloadTagInverse | payload/api/private/helpers_test.go:70-88 | Parsing a payload tag gives back its ID. |
| PayloadHelpers.ServerErrorOf | payload/api/private/helpers_test.go:40-53 | An error is wrapped exactly when present, and RestoreError recovers it. |
| PayloadHelpers.NewPayloadResult | payload/api/private/helpers_test.go:26-68 | The tag of the ID, no payload, NotFound set exactly for a not-found error, and the error wrapped by ServerError. |
| PayloadHelpers.Result2api | payload/api/private/helpers_test.go:168-260 | The ID becomes its tag. NotFound is copied. A payload is present exactly when it was, converted. The error is wrapped by ServerError. |
| PayloadHelpers.API2Result | payload/api/private/helpers_test.go:70-166 | It succeeds exactly when the tag is a payload tag and the payload converts. The ID is the tag's, the payload is the one given converted by the body conversion, NotFound is copied, and the error is restored. |
| PayloadHelpers.NewPayloadResultIsResult2api | payload/api/private/helpers_test.go:26-68 | NewPayloadResult(id, err) is Result2api of the result with that ID and error, and NotFound derived from the error. |
| PayloadHelpers.ResultRoundTrip | payload/api/private/helpers_test.go:70-88 | Without a payload, API2Result undoes Result2api, for every error. |
| PayloadHelpers.ApiRoundTrip | payload/api/private/helpers_test.go:168-185 | Without a payload, Result2api undoes API2Result on payload tags and on ServerError-form errors. |
| PayloadHelpers.NotFoundErrorDoesNotSetFlag | payload/api/private/helpers_test.go:147-166 | A not-found error crossing the API keeps its kind but leaves NotFound false, in both directions. The Result2api direction is also shown at lines 242-260. |

## Left out

- The hook operations are modelled from what the operation tests in runhook_test.go assert. Where the tests are silent, the model makes a choice:
  - Skip's Execute returns ErrSkipExecute and does nothing.
  - The lock is released before the completed/failed notification.
- HookOperation.RunHookOperation.Execute: the relative order of the lock release and the notification is not pinned by the tests. The model fixes one order.
- Running hook scripts, the executor loop and the persistence of `State` belong to collaborators. The runner is an outcome value, the lock a flag, and the notifications a call log.
- The validation of the hook info by the operation factory is not modelled. Every operation here is built for a valid hook.
- Reading the clock in the CollectMetrics commit is the `now` argument. The test suite's helper for overwriting a state is not modelled.
- The read-write mutex and the double-checked locking around the facade cache are concurrency. The cache is modelled sequentially.
- Go reflection is opaque:
  - types and values have no structure beyond a name and an interface flag;
  - assignability is a parameter;
  - the method caller's Call is not modelled.
- ApiRoot.Manufacture: the internal-error message omits the version number and Go's formatting of the returned type. Only its kind is stated.
- The ApiHandler authorisation helpers (AuthMachineAgent and the rest) are not modelled. The storage provisioner takes their answers as an `Authorizer` value.
- AnonRoot's own FindMethod goes straight to the admin API. The "Admin" filter applies to calls made through the finder it embeds, which is what the model states.
- WatchVolumes blocks on a watcher channel and registers a resource. It is concurrency and I/O.
- The LifeGetter and DeadEnsurer the storage provisioner embeds are not modelled. They belong to apiserver/common, which is not part of this model.
- The error branches taken when getting an auth function fails are not modelled. The auth functions never fail.
- The volume check in the bulk calls is kept, though it never refuses a tag that parsed.
- Tag parsing, `state.ParentId`, the state's volume calls and common's volume conversions are parameters. Their own behaviour is not part of this model.
- StorageProvisioner.SetVolumeInfo: the writes are reported as the list of updates handed to the state. The effect of each write on the state is not modelled.
- ProviderRegistry.Registry.RegisterEnvironStorageProviders: the common provider types are a set, visited in an arbitrary order. In Go they come from ranging over a map, in no fixed order.
- ProviderRegistry.Registry.RegisterProvider: the panic is returned as an error value, and the registry is left unchanged.
- The local discovery of the init system, by inspecting the executable of process 1, is filesystem I/O. Its answer is the `local` argument of DiscoverService.
- ServiceDiscovery.UbuntuRelease: the tests fix only oneiric, precise, utopic and vivid. The other series and their release numbers complete the table so that upstart runs up to utopic and systemd after it.
- The conversion of a payload's body between its server and API forms is a parameter. The server form has fields (unit, machine) with no source in the API form.
- The OpenStack provider's init is modelled only through its storage registration.
