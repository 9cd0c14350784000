# Azure storage relation exchange, modelled in Dafny

The object-storage integrator is a Juju charm. It holds Azure storage settings in its configuration:

- container;
- storage account;
- a secret URI for the key;
- path;
- connection protocol.

It passes those settings to requirer applications over a relation. This project models the logic on both sides of that relation:

- **The snapshot diff** of the relation libraries (`DiffEngine`). It compares the remote application's bag with the snapshot stored under the local key `data` by the previous call. It reports the added, changed and deleted keys, then stores the new snapshot.
- **The three relation-library variants**, each a module with a provider class and a requirer class:
  - `azure` as bundled with the test charm (`AzureTestLib`);
  - `object_storage` as shipped with the charm (`ObjectStorageLib`);
  - `object_storage` as bundled with the test charm (`ObjectStorageTestLib`).

  The providers ask for credentials when a trigger key first appears. The requirers:
  - choose a default container `relation-<id>` on join;
  - report credentials on change;
  - report that credentials are gone on broken.
- **The integrator charm** (`IntegratorCharm`). It:
  - validates its configuration and sets its status;
  - decodes the credentials secret into a `secret-key` field;
  - publishes one payload to every relation, or to the one relation that asked;
  - answers the get-connection-info action.

## The model's representation

- **Relation state.** The relations of one endpoint are a Dafny class, `Juju.Endpoint`. It holds the relation ids in model order and, per relation, a `Juju.Relation` value with this application's bag, this unit's bag, the remote application's bag, the remote application and the units.
- **Event handlers** are methods of the library classes. They change that state in place and append the events they emit to an `emitted` log.
- **External inputs are parameters.** Leadership is a boolean. JSON appears in two forms. The snapshots of the diff go through a `DiffEngine.Codec` pair of functions, and the one law assumed of it is stated as `RoundTrips`. The test `azure` requirer decodes each relation value on its own with a separate `decode` function parameter; no law is assumed of that one, and it is not tied to the codec. The secret store is a function from secret id to lookup result.
- **Completeness.** Each handler finds missing fields by walking a required list, modelled by `Completeness.CollectMissing` against the function `Completeness.Missing`.

## Where the model follows the code over the documented intent

- **Test `azure` requirer.** Its relation-changed handler emits credentials-changed even when required fields are missing. Its log message says the event is not emitted, but the code emits it anyway. `AzureTestLib.AzureStorageRequirer.OnRelationChanged` models the code.
- **Undecodable snapshot.** A stored snapshot that is not valid JSON makes the diff raise. It is not read as an empty snapshot. The handlers report this as `raised` and write nothing.
- **Secret owner on secret-changed.** In the test `object_storage` requirer, when the relation's application is the charm's own, the handler only logs and goes on.

## Model

| member | source | states |
|---|---|---|
| DiffEngine.ComputeDiff | tests/integration/test-charm-azure/lib/charms/data_platform_libs/v0/azure.py:102-108 | added, changed and deleted are pairwise disjoint; added keys are current and not prior; deleted keys are prior and not current; changed keys are on both sides with different values; a key with the same value on both sides is in none of them |
| DiffEngine.AddedIff | tests/integration/test-charm-azure/lib/charms/data_platform_libs/v0/azure.py:103 | a key is added exactly when it is current and was not in the prior snapshot, so a key that only changes value is never added |
| DiffEngine.DiffDetermined | tests/integration/test-charm-azure/lib/charms/data_platform_libs/v0/azure.py:103-108 | any diff with ComputeDiff's properties that replays to the current snapshot is the computed one, so the contract pins the three sets down |
| DiffEngine.DiffReconstructs | tests/integration/test-charm-azure/lib/charms/data_platform_libs/v0/azure.py:102-108 | replaying the diff on the prior snapshot gives exactly the current one, so the three sets account for every difference |
| DiffEngine.DiffEmptyIffEqual | tests/integration/test-charm-azure/lib/charms/data_platform_libs/v0/azure.py:102-108 | the diff is empty exactly when the prior and current snapshots are equal |
| DiffEngine.FirstObservation | tests/integration/test-charm-azure/lib/charms/data_platform_libs/v0/azure.py:103-108 | against an empty prior snapshot every current key is added and nothing is changed or deleted |
| DiffEngine.EverythingDeleted | tests/integration/test-charm-azure/lib/charms/data_platform_libs/v0/azure.py:103-108 | against an empty current snapshot every prior key is deleted |
| DiffEngine.CurrentSnapshot | tests/integration/test-charm-azure/lib/charms/data_platform_libs/v0/azure.py:96-100 | the new snapshot is the remote application's bag without the reserved `data` key, and empty when the event names no application |
| DiffEngine.PriorSnapshot | tests/integration/test-charm-azure/lib/charms/data_platform_libs/v0/azure.py:94 | the prior snapshot is the decoded `data` value of the bucket, and the empty map when the bucket has no `data` key; text that does not decode is a failure |
| DiffEngine.DiffStep | tests/integration/test-charm-azure/lib/charms/data_platform_libs/v0/azure.py:81-116 | the diff fails exactly when the stored snapshot does not decode; otherwise the diff returned is ComputeDiff of the decoded prior snapshot and the new one, and the local bag gains or updates `data` with the encoded new snapshot and no other key changes |
| DiffEngine.DiffStepWithoutSnapshot | tests/integration/test-charm-azure/lib/charms/data_platform_libs/v0/azure.py:94-108 | with no `data` key in the bucket every remote key but `data` is added, nothing changed or deleted |
| DiffEngine.DiffStepWithoutApp | tests/integration/test-charm-azure/lib/charms/data_platform_libs/v0/azure.py:96-108 | with no remote application every key of the stored snapshot is deleted |
| DiffEngine.DiffStepTwice | tests/integration/test-charm-azure/lib/charms/data_platform_libs/v0/azure.py:94-116 | a second diff with no remote change in between reports three empty sets and leaves the bucket as it was |
| Juju.FirstWithApp | lib/charms/data_platform_libs/v0/object_storage.py:139-140 | the index found is the first relation with a remote application; none is found only when no relation has one |
| Juju.RemoteView | tests/integration/test-charm-azure/lib/charms/data_platform_libs/v0/azure.py:96-100 | the diff reads the remote application's bag when the event names an application, and nothing otherwise |
| Juju.FirstRemoteAppData | lib/charms/data_platform_libs/v0/object_storage.py:137-142 | the remote application data of the first relation with a remote application, as FirstWithApp finds it, and the empty map when none has one |
| Juju.MergedAt | tests/integration/test-charm-azure/lib/charms/data_platform_libs/v0/azure.py:201 | one relation's application bag takes every given pair and keeps its other keys; every other relation, and the rest of that one, is unchanged; an absent relation is left alone |
| Juju.MergeIntoEvery | src/charm.py:194-196 | every relation's application bag takes every pair of the payload and keeps its other keys; the relation ids and the rest of each relation do not change |
| Juju.MergeIntoListedStep | src/charm.py:194-196 | writing the payload to one more relation is one more merge, and writing it twice to the same relation changes nothing more |
| Juju.Endpoint.FindFirstWithApp | lib/charms/data_platform_libs/v0/object_storage.py:139-140 | the loop over `self.relations` stops at the first relation with an application, as FirstWithApp specifies |
| Juju.Endpoint.Merge | tests/integration/test-charm-azure/lib/charms/data_platform_libs/v0/azure.py:201 | `relation.data[local_app].update` changes that relation's application bag by the merge and nothing else |
| Juju.Endpoint.UpdateRelationData | lib/charms/data_platform_libs/v0/object_storage.py:133-135 | the data-interfaces write used by the libraries: a non-leader or an absent relation leaves every bag as it was, otherwise only that relation's application bag takes the merge |
| Juju.Endpoint.UpdateEveryRelation | src/charm.py:194-196 | writing one payload to each relation in turn leaves the relations exactly as MergeIntoEvery describes on a leader, and unchanged otherwise |
| Juju.Endpoint.RegisterSecrets | lib/charms/data_platform_libs/v0/object_storage.py:150-151 | secret registration is recorded with its relation and the added keys; no bag changes |
| Juju.Endpoint.Diff | tests/integration/test-charm-azure/lib/charms/data_platform_libs/v0/azure.py:133-143 | the diff of an event reads the snapshot from the given bucket and the remote application's bag, and only that relation's bucket is written, as DiffStep describes |
| ContainerNaming.Decimal | tests/integration/test-charm-azure/lib/charms/data_platform_libs/v0/azure.py:257 | the decimal form of a natural number is a non-empty digit string with no sign |
| ContainerNaming.ParseDecimalOfDecimal | tests/integration/test-charm-azure/lib/charms/data_platform_libs/v0/azure.py:257 | reading a decimal form back gives the number: the notation loses nothing |
| ContainerNaming.IntToString | tests/integration/test-charm-azure/lib/charms/data_platform_libs/v0/azure.py:257 | Python's `str` of an integer is non-empty |
| ContainerNaming.DecimalInjective | tests/integration/test-charm-azure/lib/charms/data_platform_libs/v0/azure.py:257 | distinct natural numbers have distinct decimal forms |
| ContainerNaming.IntToStringInjective | tests/integration/test-charm-azure/lib/charms/data_platform_libs/v0/azure.py:257 | distinct integers have distinct `str` forms |
| ContainerNaming.DefaultContainerName | tests/integration/test-charm-azure/lib/charms/data_platform_libs/v0/azure.py:255-257 | the generated container name is `relation-` followed by the relation id's `str` form |
| ContainerNaming.DefaultContainerNameInjective | lib/charms/data_platform_libs/v0/object_storage.py:132-133 | relations with different ids get different default container names |
| Completeness.Missing | lib/charms/data_platform_libs/v0/object_storage.py:160-164 | an entry is reported missing exactly when it is required and absent; no more entries than required |
| Completeness.Complete | lib/charms/data_platform_libs/v0/object_storage.py:155-167 | the `contains_required_options` flag: every entry of the required list is present |
| Completeness.MissingAppend | lib/charms/data_platform_libs/v0/object_storage.py:160-164 | missing entries of a concatenated list are those of the first part followed by those of the second, so the report keeps list order |
| Completeness.MissingEmptyIff | lib/charms/data_platform_libs/v0/object_storage.py:155-167 | nothing is missing exactly when every required entry is present |
| Completeness.CollectMissing | lib/charms/data_platform_libs/v0/object_storage.py:155-164 | the loop collects exactly the missing entries in order, and its flag is set exactly when nothing is missing |
| AzureTestLib.ChangedEventContainer | tests/integration/test-charm-azure/lib/charms/data_platform_libs/v0/azure.py:42-48 | the credentials-changed event's container is the remote application's `container` value, and absent when there is no application or no such key |
| AzureTestLib.LoadedView | tests/integration/test-charm-azure/lib/charms/data_platform_libs/v0/azure.py:232-246 | the loaded view of a bag: the same keys, each value decoded where it decodes and kept as text otherwise |
| AzureTestLib.WriteConnectionInfo | tests/integration/test-charm-azure/lib/charms/data_platform_libs/v0/azure.py:185-201 | `update_connection_info`: no change for a non-leader or an absent relation; otherwise the copied pairs are merged into that relation's application bag only |
| AzureTestLib.AzureStorageProvider.constructor | tests/integration/test-charm-azure/lib/charms/data_platform_libs/v0/azure.py:123-129 | the provider starts on the given relations with an empty event log |
| AzureTestLib.AzureStorageProvider.OnRelationChanged | tests/integration/test-charm-azure/lib/charms/data_platform_libs/v0/azure.py:145-154 | a non-leader computes no diff, writes nothing and emits nothing; the leader stores the new snapshot in the application bag and emits credentials-requested exactly when `az-container-name` was added |
| AzureTestLib.AzureStorageProvider.UpdateConnectionInfo | tests/integration/test-charm-azure/lib/charms/data_platform_libs/v0/azure.py:174-201 | the provider's write: leader only, nothing for an absent relation, each given key overwritten and every other key kept |
| AzureTestLib.AzureStorageProvider.SetSecretKey | tests/integration/test-charm-azure/lib/charms/data_platform_libs/v0/azure.py:161-171 | only `secret-key` of that relation's application bag changes |
| AzureTestLib.AzureStorageRequirer.constructor | tests/integration/test-charm-azure/lib/charms/data_platform_libs/v0/azure.py:207-217 | the requirer keeps the container name it was given |
| AzureTestLib.AzureStorageRequirer.LoadRelationData | tests/integration/test-charm-azure/lib/charms/data_platform_libs/v0/azure.py:232-246 | the loaded data has exactly the input keys; JSON values are decoded and all others pass through unchanged |
| AzureTestLib.AzureStorageRequirer.GetAzureConnectionInfo | tests/integration/test-charm-azure/lib/charms/data_platform_libs/v0/azure.py:290-296 | the loaded data of the first relation with a remote application, or the empty map |
| AzureTestLib.AzureStorageRequirer.OnRelationChanged | tests/integration/test-charm-azure/lib/charms/data_platform_libs/v0/azure.py:298-323 | the missing options are exactly the absent required fields in list order, and credentials-changed is emitted whether or not any is missing |
| AzureTestLib.AzureStorageRequirer.OnRelationJoined | tests/integration/test-charm-azure/lib/charms/data_platform_libs/v0/azure.py:326-331 | a missing container becomes `relation-<id>` and is kept for later joins; `container` is written to that relation on a leader |
| AzureTestLib.AzureStorageRequirer.OnRelationBroken | tests/integration/test-charm-azure/lib/charms/data_platform_libs/v0/azure.py:333-336 | credentials-gone is always emitted and nothing else changes |
| AzureTestLib.AzureStorageRequirer.UpdateConnectionInfo | tests/integration/test-charm-azure/lib/charms/data_platform_libs/v0/azure.py:259-287 | the requirer's write: leader only, nothing for an absent relation, each given key overwritten and every other key kept |
| ObjectStorageLib.EventContainer | lib/charms/data_platform_libs/v0/object_storage.py:59-65 | no container without a remote application; otherwise the bag's `container` value, or the empty string when absent |
| ObjectStorageLib.AddsSecretField | lib/charms/data_platform_libs/v0/object_storage.py:150 | some added key is in the library's secret fields, `["secret-key"]` |
| ObjectStorageLib.AddsSecretFieldIff | lib/charms/data_platform_libs/v0/object_storage.py:92 | some added key is a secret field exactly when `secret-key` was added |
| ObjectStorageLib.AzureStorageRequires.constructor | lib/charms/data_platform_libs/v0/object_storage.py:95-101 | the requirer keeps the container it was given |
| ObjectStorageLib.AzureStorageRequires.OnRelationJoined | lib/charms/data_platform_libs/v0/object_storage.py:129-135 | a missing container becomes `relation-<id>` and is kept, a configured one is never replaced, and exactly `container` is written to that relation |
| ObjectStorageLib.AzureStorageRequires.GetAzureConnectionInfo | lib/charms/data_platform_libs/v0/object_storage.py:137-142 | the data of the first relation with a remote application, or the empty map |
| ObjectStorageLib.AzureStorageRequires.OnRelationChanged | lib/charms/data_platform_libs/v0/object_storage.py:144-174 | the snapshot is stored in the unit bag; secrets are registered exactly when a secret field was added; credentials-changed is emitted exactly when `container`, `storage-account` and `secret-key` are all present; an undecodable snapshot raises with nothing written |
| ObjectStorageLib.AzureStorageRequires.OnRelationBroken | lib/charms/data_platform_libs/v0/object_storage.py:176-178 | credentials-gone is always emitted, with no completeness check |
| ObjectStorageLib.AzureStorageProvides.constructor | lib/charms/data_platform_libs/v0/object_storage.py:227-231 | the provider starts on the given relations with an empty event log |
| ObjectStorageLib.AzureStorageProvides.SetContainer | lib/charms/data_platform_libs/v0/object_storage.py:203-204 | only `container` of that relation's application bag changes, on a leader |
| ObjectStorageLib.AzureStorageProvides.SetSecretKey | lib/charms/data_platform_libs/v0/object_storage.py:206-207 | only `secret-key` of that relation's application bag changes, on a leader |
| ObjectStorageLib.AzureStorageProvides.OnRelationChanged | lib/charms/data_platform_libs/v0/object_storage.py:219-224 | a non-leader does nothing; the leader stores the snapshot and emits credentials-requested exactly when `container` was added |
| ObjectStorageTestLib.EventContainer | tests/integration/test-charm-azure/lib/charms/data_platform_libs/v0/object_storage.py:52-58 | no container without a remote application; otherwise the bag's `container` value, or the empty string |
| ObjectStorageTestLib.AddsSecretField | tests/integration/test-charm-azure/lib/charms/data_platform_libs/v0/object_storage.py:142 | some added key is in the library's secret fields, `["secret-key"]` |
| ObjectStorageTestLib.AddsSecretFieldIff | tests/integration/test-charm-azure/lib/charms/data_platform_libs/v0/object_storage.py:87 | some added key is a secret field exactly when `secret-key` was added |
| ObjectStorageTestLib.LastForeignIndex | tests/integration/test-charm-azure/lib/charms/data_platform_libs/v0/object_storage.py:179-182 | the index found is the last unit of another application, and none is found only when every unit is the charm's own |
| ObjectStorageTestLib.RemoteUnit | tests/integration/test-charm-azure/lib/charms/data_platform_libs/v0/object_storage.py:179-182 | the unit at LastForeignIndex, or none when every unit belongs to the charm's own application |
| ObjectStorageTestLib.FindRemoteUnit | tests/integration/test-charm-azure/lib/charms/data_platform_libs/v0/object_storage.py:179-182 | the loop ends on the last unit of another application, or on none when there is no such unit |
| ObjectStorageTestLib.AzureStorageRequires.constructor | tests/integration/test-charm-azure/lib/charms/data_platform_libs/v0/object_storage.py:89-94 | the requirer keeps the container it was given |
| ObjectStorageTestLib.AzureStorageRequires.OnRelationJoined | tests/integration/test-charm-azure/lib/charms/data_platform_libs/v0/object_storage.py:122-128 | a missing container becomes `relation-<id>` and is kept, and exactly `container` is written to that relation |
| ObjectStorageTestLib.AzureStorageRequires.GetAzureConnectionInfo | tests/integration/test-charm-azure/lib/charms/data_platform_libs/v0/object_storage.py:130-135 | the data of the first relation with a remote application, or the empty map |
| ObjectStorageTestLib.AzureStorageRequires.OnRelationChanged | tests/integration/test-charm-azure/lib/charms/data_platform_libs/v0/object_storage.py:137-162 | as in the charm's copy, except that credentials-changed needs all four of `container`, `storage-account`, `secret-key` and `connection-protocol` |
| ObjectStorageTestLib.AzureStorageRequires.OnSecretChanged | tests/integration/test-charm-azure/lib/charms/data_platform_libs/v0/object_storage.py:164-201 | no label, or a label naming no relation, changes nothing; otherwise credentials-changed is emitted exactly when the four fields are present, carrying the relation's application and its last unit from another application; the owner case does not return early |
| ObjectStorageTestLib.AzureStorageRequires.OnRelationBroken | tests/integration/test-charm-azure/lib/charms/data_platform_libs/v0/object_storage.py:203-206 | credentials-gone is always emitted |
| ObjectStorageTestLib.AzureStorageProvides.constructor | tests/integration/test-charm-azure/lib/charms/data_platform_libs/v0/object_storage.py:259-264 | the provider starts on the given relations with an empty event log |
| ObjectStorageTestLib.AzureStorageProvides.SetContainer | tests/integration/test-charm-azure/lib/charms/data_platform_libs/v0/object_storage.py:233-234 | only `container` of that relation's application bag changes |
| ObjectStorageTestLib.AzureStorageProvides.SetSecretKey | tests/integration/test-charm-azure/lib/charms/data_platform_libs/v0/object_storage.py:236-237 | only `secret-key` of that relation's application bag changes |
| ObjectStorageTestLib.AzureStorageProvides.OnRelationChanged | tests/integration/test-charm-azure/lib/charms/data_platform_libs/v0/object_storage.py:251-256 | a non-leader does nothing; the leader emits credentials-requested exactly when `container` was newly added |
| IntegratorCharm.SetOptions | src/charm.py:56 | an option counts as set exactly when it is present with a non-empty value, the truthiness of `self.config.get(option)` (also at lines 179, 211 and 229) |
| IntegratorCharm.Contains | src/charm.py:157 | Python's substring test, from the front of the message; its meaning is ContainsIff |
| IntegratorCharm.ContainsIff | src/charm.py:157 | the substring test holds exactly when the pattern occurs at some position of the message |
| IntegratorCharm.DecodeSecretKey | src/charm.py:129-161 | succeeds exactly when the secret exists with a non-empty `secret-key`, returning it; a missing secret or field is SecretNotFound; a permission-denied model error is PermissionNotGranted; any other model error passes through with its message |
| IntegratorCharm.CheckedStatus | src/charm.py:60-79 | missing parameters give Blocked naming them in order; otherwise a secret that does not decode gives Blocked with its error; otherwise Active when asked to, and the current status when not |
| IntegratorCharm.ActiveIff | src/charm.py:60-79 | the status becomes Active exactly when every mandatory option is set, the secret decodes, and activation was asked for or the status was already Active |
| IntegratorCharm.AssemblePayload | src/charm.py:175-192 | the payload built over the options in order: unset options skipped, `credentials` replaced by `secret-key` holding the decoded key (skipped when it does not decode), every other option under its own name; the same loop is at lines 210-220 |
| IntegratorCharm.AssemblePayloadContents | src/charm.py:171-192 | the payload holds exactly the set options under their own names with their values, never `credentials`, and `secret-key` with the decoded key exactly when `credentials` is set and decodes |
| IntegratorCharm.PublishedPayload | src/charm.py:208-221 | the payload written to relations never carries `credentials`, carries `secret-key` exactly when the secret decodes, and otherwise only set configuration values |
| IntegratorCharm.ObjectStorageIntegratorCharm.constructor | src/charm.py:32-34 | the charm starts with its provider, configuration and status |
| IntegratorCharm.ObjectStorageIntegratorCharm.GetMissingParameters | src/charm.py:52-58 | exactly the mandatory options that are absent or empty, in the order of the mandatory list |
| IntegratorCharm.ObjectStorageIntegratorCharm.CheckAndSetStatus | src/charm.py:60-79 | the new status is CheckedStatus of the old one, and the configuration does not change |
| IntegratorCharm.ObjectStorageIntegratorCharm.OnStart | src/charm.py:81-83 | the status is checked without activation |
| IntegratorCharm.ObjectStorageIntegratorCharm.OnUpdateStatus | src/charm.py:85-87 | the status is checked with activation |
| IntegratorCharm.ObjectStorageIntegratorCharm.BuildPayload | src/charm.py:172-192 | the loop over the options builds the payload AssemblePayloadContents describes |
| IntegratorCharm.ObjectStorageIntegratorCharm.OnConfigChanged | src/charm.py:163-198 | a non-leader changes nothing; the leader merges the payload into every relation and then checks the status with activation |
| IntegratorCharm.ObjectStorageIntegratorCharm.OnAzureCredentialsRequested | src/charm.py:200-223 | a non-leader does nothing; without a `container` option the handler raises; otherwise the payload goes into the requesting relation only and the status is untouched |
| IntegratorCharm.ObjectStorageIntegratorCharm.OnSecretChanged | src/charm.py:89-112 | ignored unless the `credentials` option is set to this secret; otherwise `secret-key` (the decoded key, or `""` when decoding fails) is merged into every relation on a leader, then the status is checked with activation |
| IntegratorCharm.ObjectStorageIntegratorCharm.OnGetConnectionInfoAction | src/charm.py:225-237 | fails with `Credentials are not set!` exactly when no option is set; otherwise returns exactly the set options with their raw values, `credentials` as the secret URI |

## Left out

- **The data-interfaces library** is not part of this model. Its helpers are modelled by what the libraries rely on:
  - `update_relation_data` is a leader-only merge into this application's bag, and does nothing for a relation that is gone.
  - `fetch_relation_data` returns the remote application's bag.
  - `_diff` is the `diff` of the test `azure` library. The provider keeps its snapshot in the application bag; the requirer keeps it in the unit bag.
  - `_register_secrets_to_relation` is recorded as a call.
  - `_is_secret_field` is membership in the library's `SECRET_FIELDS` list (`AddsSecretField`).
  - `_relation_from_secret_label` is a function parameter.
- Juju.Endpoint.UpdateRelationData: writes every given pair into the application bag in plain text. The data-interfaces helper it stands for moves the secret field `secret-key` into a Juju secret and publishes that secret's URI under `secret-extra`, as the integration test at tests/integration/test_azure.py:138-145 observes. So the contracts of the callers that write `secret-key` through it describe a plain-text write: `SetSecretKey` of `ObjectStorageLib.AzureStorageProvides` and `ObjectStorageTestLib.AzureStorageProvides`, and the charm's `OnConfigChanged`, `OnAzureCredentialsRequested` and `OnSecretChanged`. A requirer served by the real helper sees `secret-extra` added, not `secret-key`.
- **Secret resolution inside `fetch_relation_data`** is not modelled. The requirer sees `secret-key` only as a plain field of the remote bag.
- **JSON encoding** is a pair of functions. Only its round trip is assumed, and only where idempotence of the diff needs it.
- **A stored snapshot that is a JSON object with non-string values** (such as `{"a": 1}`) is not represented. Python decodes it and the diff goes on, reporting such a key as changed against the remote string `"1"`. Snapshots here are string-to-string maps, so the codec can only answer such text with a failure.
- **The secret store** is a lookup function per event. Exceptions from it other than the modelled ones are not modelled. The source lets them propagate from `decode_secret_key`, but its callers catch every exception: `check_and_set_status`, `_on_secret_changed` (which then writes `""`) and the payload loops.
- **Logging, the ops event framework and charm metadata** are left out: observer registration, event sources and the library ids. Emitted events only go into the log.
- **lib/charms/data_platform_libs/v0/azure.py** is a stub with no logic and is not part of this model.
- **The `container` property of the test `azure` library's credentials-requested event** always answers `my-custom-container`. No handler reads it, and it is not modelled.
- **The commented-out secret-removed handler of the charm** is not modelled.
- **Configuration values are strings.** The `str(...)` conversion of the config-changed handler is therefore the identity.
- **Iteration order** of relations and units is the order of the given sequences. The order of dictionary iteration in `update_connection_info` does not matter to a merge and is left unspecified.
- IntegratorCharm.CheckedStatus: blocked statuses carry the reason as a value (the missing options, or the secret error), not the formatted message text.
- IntegratorCharm.DecodeSecretKey: the rewritten error messages (permission not granted, secret not found) are represented by the error kind, without their text.
