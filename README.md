# Virtual machine action factory

A model of the action-enablement rules of the virtual machine action menu of
the KubeVirt console plugin. The factory (`VirtualMachineActionFactory`) has
one entry per menu action. Each entry turns a virtual machine into an action
descriptor: an id, a label, the access review that guards the action, a
`disabled` flag and an optional description. An entry reads the machine's
printable lifecycle status, two derived flags (a snapshot or a restore is in
progress), the cluster topology (single node or not), whether an SSH secret
is attached and, for cancel-migration, the live-migration object and its
deletion timestamp.

Every entry that builds one action is a pure Dafny function returning an
`Action` value. `migrationActions` builds a drop-down group instead, and
`MigrationActions` returns an `ActionGroup`. The blocklist tests use
`Includes`, a model of JavaScript's `Array.prototype.includes`. The
properties are stated in three places:

- the `ensures` clauses of the entries:
  - start, stop, force stop and restart give the set of statuses each action
    is allowed in. That set is the complement of the blocklist the entry tests
    with `includes`;
  - pause and unpause give the equality test with `Running` or `Paused`;
  - the other entries give their `disabled` flag. It is fixed, or decided by
    the SSH secret, by `isLiveMigratable`, or by the topology and the
    migration object;
- `ActionTable.AllowedIn` is an independent reference table, written row by
  row per status. `MatchesTable` proves that the factory agrees with this
  table in every status, with and without the flags;
- cross-action lemmas: pause and unpause are never both enabled; the flags
  only ever disable; which entries ignore the flags or the status; which
  entries are always enabled; and all ids are pairwise distinct.

Modules:

- `Wrappers`: `Option`.
- `VmStatus`: the status enumeration and the machine and migration records.
- `VirtualMachineActionFactory`: the entries.
- `ActionTable`: the factory as a lookup keyed by entry name (`Build`), the
  reference table and the lemmas.

Inputs computed by helpers in other files are plain values:

- `isSnapshotting`, `isRestoring` and `isEmpty(getVMSSHSecretName(vm))` are
  boolean fields of `Vm`;
- `isLiveMigratable` is a function parameter of type `(Vm, bool) -> bool`.

`PrintableStatus.Other` stands for an undefined status, and for any status
other than the nine names the factory takes from `printableVMStatus`
(`VirtualMachineActionFactory.tsx:38-48`).

A few places where the exact TypeScript semantics decide the model:

- An undefined or unlisted status does not enable every action. Start, stop,
  force stop and restart are enabled for it, because their blocklists do not
  match it. Pause and unpause are disabled for it, because they test for
  equality with `Running` and `Paused`.
- Clone, snapshot and migrate-storage set no `disabled` field at all. The
  model has `disabled == None` for them, which `IsDisabled` reads as enabled.
- Cancel-migration's description is `!!deletionTimestamp && t(...)`. When
  the timestamp is falsy, the description is `false`; the model has `None`.
  An empty-string timestamp counts as falsy: it neither disables the action
  nor sets the description (`VmStatus.CancelRequested`).
- Only the lifecycle entries read the status. Migrate-compute and
  cancel-migration do not read it directly.

## Model

| member | source | states |
|---|---|---|
| VirtualMachineActionFactory.CancelMigrationCompute | src/views/virtualmachines/actions/VirtualMachineActionFactory.tsx:51-69 | enabled iff the cluster has several nodes, a migration object exists and its deletion timestamp is not set; the description is present iff the timestamp is set, and is then "Canceling ongoing migration" on a disabled action; the access review is `delete` on migrations in the machine's namespace |
| VirtualMachineActionFactory.Clone | src/views/virtualmachines/actions/VirtualMachineActionFactory.tsx:70-80 | id `vm-action-clone`; access review `create` on clones; no `disabled` field, so never disabled; no description |
| VirtualMachineActionFactory.CopySSHCommand | src/views/virtualmachines/actions/VirtualMachineActionFactory.tsx:81-91 | disabled iff the SSH secret name is empty, whatever the status; description "SSH using virtctl"; access review `patch` on virtual machines |
| VirtualMachineActionFactory.Delete | src/views/virtualmachines/actions/VirtualMachineActionFactory.tsx:92-103 | `disabled` is explicitly false for every machine; access review `delete` on virtual machines |
| VirtualMachineActionFactory.EditAnnotations | src/views/virtualmachines/actions/VirtualMachineActionFactory.tsx:104-132 | `disabled` is explicitly false for every machine; access review `patch` on virtual machines |
| VirtualMachineActionFactory.EditLabels | src/views/virtualmachines/actions/VirtualMachineActionFactory.tsx:134-162 | `disabled` is explicitly false for every machine; access review `patch` on virtual machines |
| VirtualMachineActionFactory.Includes | src/views/virtualmachines/actions/VirtualMachineActionFactory.tsx:170 | the `includes` membership test used at lines 170, 235, 257 and 271: true iff some element of the literal list equals the status |
| VirtualMachineActionFactory.ForceStop | src/views/virtualmachines/actions/VirtualMachineActionFactory.tsx:163-174 | enabled iff the status is Paused, Running, Starting, Stopping, Terminating or unlisted, with no dependence on snapshotting or restoring |
| VirtualMachineActionFactory.MigrateCompute | src/views/virtualmachines/actions/VirtualMachineActionFactory.tsx:175-189 | disabled iff the live-migratability test fails for the machine and topology; access review `create` on migrations; fixed description |
| VirtualMachineActionFactory.MigrateStorage | src/views/virtualmachines/actions/VirtualMachineActionFactory.tsx:190-215 | id `vm-migrate-storage`; no `disabled` field, so never disabled; access review `patch` on virtual machines; fixed description |
| VirtualMachineActionFactory.MigrationActions | src/views/virtualmachines/actions/VirtualMachineActionFactory.tsx:216-220 | the "Migration" group with id `migration-menu` holds exactly the given actions, in order |
| VirtualMachineActionFactory.Pause | src/views/virtualmachines/actions/VirtualMachineActionFactory.tsx:221-229 | enabled iff the status is Running and neither a snapshot nor a restore is in progress |
| VirtualMachineActionFactory.Restart | src/views/virtualmachines/actions/VirtualMachineActionFactory.tsx:230-243 | enabled iff the status is Paused, Running, Starting or unlisted and neither flag is set |
| VirtualMachineActionFactory.Snapshot | src/views/virtualmachines/actions/VirtualMachineActionFactory.tsx:244-251 | id `vm-action-snapshot`; access review `create` on snapshots; no `disabled` field, so never disabled |
| VirtualMachineActionFactory.Start | src/views/virtualmachines/actions/VirtualMachineActionFactory.tsx:252-265 | enabled iff the status is Paused, Stopped or unlisted and neither flag is set |
| VirtualMachineActionFactory.Stop | src/views/virtualmachines/actions/VirtualMachineActionFactory.tsx:266-279 | enabled iff the status is Migrating, Paused, Running, Starting or unlisted and neither flag is set |
| VirtualMachineActionFactory.Unpause | src/views/virtualmachines/actions/VirtualMachineActionFactory.tsx:280-288 | enabled iff the status is Paused, regardless of the flags |
| ActionTable.IdOf | src/views/virtualmachines/actions/VirtualMachineActionFactory.tsx:66-286 | every entry builds its action with one fixed id, the same for every context |
| ActionTable.MatchesTableAt | src/views/virtualmachines/actions/VirtualMachineActionFactory.tsx:163-288 | a lifecycle action is enabled iff the reference table's row for the status allows it and, unless it is force stop or unpause, no snapshot or restore is in progress |
| ActionTable.MatchesTable | src/views/virtualmachines/actions/VirtualMachineActionFactory.tsx:163-288 | for every status and both flags, the set of enabled lifecycle actions equals the reference row (without flags) or the row's force stop and unpause (with a flag) |
| ActionTable.PauseUnpauseExclusive | src/views/virtualmachines/actions/VirtualMachineActionFactory.tsx:221-288 | pause (221-229) and unpause (280-288) are never both enabled |
| ActionTable.FlagsOnlyDisable | src/views/virtualmachines/actions/VirtualMachineActionFactory.tsx:163-288 | turning on snapshotting or restoring never turns a disabled action into an enabled one (every entry but migrate-compute) |
| ActionTable.FlagsIgnored | src/views/virtualmachines/actions/VirtualMachineActionFactory.tsx:51-288 | every entry other than start, stop, pause, restart and migrate-compute builds the same action whatever the two flags are |
| ActionTable.FlagsBlock | src/views/virtualmachines/actions/VirtualMachineActionFactory.tsx:221-279 | start, stop, pause and restart are disabled whenever a snapshot or a restore is in progress, in every status |
| ActionTable.StatusIgnored | src/views/virtualmachines/actions/VirtualMachineActionFactory.tsx:51-215 | cancel-migration, clone, copy-SSH, delete, the two edits, migrate-storage and snapshot build the same action whatever the status is |
| ActionTable.AlwaysEnabled | src/views/virtualmachines/actions/VirtualMachineActionFactory.tsx:70-251 | delete and the two edits have `disabled` explicitly false; clone, snapshot and migrate-storage leave it undefined; none is ever disabled |
| ActionTable.IdsDistinct | src/views/virtualmachines/actions/VirtualMachineActionFactory.tsx:66-286 | two entries build actions with the same id iff they are the same entry, and no action id is `migration-menu` |
| ActionTable.IdOfInjective | src/views/virtualmachines/actions/VirtualMachineActionFactory.tsx:66-286 | helper of `IdsDistinct`: the id constants of the fifteen entries are pairwise different strings |

## Left out

- The `cta` click handlers of every entry. They call the cluster API (patch, start, stop, pause, unpause, restart, migrate, cancel migration), write to the clipboard, navigate to the storage-migration page or open modals. All of these are foreign calls or UI.
- The icon of copy-SSH. The `command` argument of copy-SSH is left out too, since only the click handler reads it.
- Translation: labels and descriptions are the untranslated message ids passed to `t`.
- `isSnapshotting`, `isRestoring`, `isLiveMigratable`, `getVMSSHSecretName`, `isEmpty`, `asAccessReview` and `getNamespace` are defined in files that are not part of this model. Their results are inputs. For `asAccessReview`, the access review is taken to be the model, the machine's namespace and the verb, as the entries that spell the record out do. `getNamespace(vm)` in migrate-storage is read as the machine's `metadata.namespace`, the same value as `vm?.metadata?.namespace` in the other entries.
- The API group and plural name of each resource model. They come from the KubeVirt API package, so an access review records the resource model instead.
- ActionTable.FlagsOnlyDisable: migrate-compute is excluded, because its flag comes from the external live-migratability test, which may read the snapshot or restore state.
- The export workflow of `src/utils/components/ExportModal/ExportModal.tsx` (service account, then secret, then uploader). It is asynchronous create calls into the cluster API around a random name generator. Its one branch is the `catch` around the service-account creation: an error whose code is `ALREADY_CREATED_ERROR_CODE` is ignored and the secret and uploader are still created, and any other error is rethrown, so nothing after it runs. That branch only decides which foreign calls run, so it is left out with them.
- The settings tab, overview tab, form components, the wizard tab type declaration and the template constants. These are rendering, hooks and declarations with no enablement logic.
- Idempotence of descriptor computation holds by construction, since every entry is a Dafny function; no lemma states it.
