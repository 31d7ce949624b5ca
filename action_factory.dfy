/** The entries of the virtual machine action factory. Each entry turns a
    virtual machine (and, for some entries, a migration object and the cluster
    topology) into an action descriptor: an id, a label, the access review
    that guards it, the `disabled` flag and an optional description. The
    click handlers and icons of the descriptors are not modelled; labels and
    descriptions are the untranslated message ids. */
module VirtualMachineActionFactory {
  import opened Wrappers
  import opened VmStatus

  /** The resource models whose API group and plural name an access review
      carries. */
  datatype ResourceModel =
    | VirtualMachineModel
    | VirtualMachineInstanceMigrationModel
    | VirtualMachineCloneModel
    | VirtualMachineSnapshotModel


  /** A permission check: the group and the resource are those of `model`. */
  datatype AccessReview = AccessReview(model: ResourceModel, namespace: Option<string>, verb: string)

  /** An action descriptor. `disabled == None` is a descriptor that leaves the
      field undefined, which `IsDisabled` reads as enabled. */
  datatype Action = Action(
    id: string,
    caption: string,          // the `label` of the descriptor
    accessReview: AccessReview,
    disabled: Option<bool>,
    description: Option<string>
  )

  /** A drop-down group of actions. */
  datatype ActionGroup = ActionGroup(id: string, caption: string, options: seq<Action>)

  const CancelMigrateId := "vm-action-cancel-migrate"
  const CloneId := "vm-action-clone"
  const CopySshId := "vm-action-copy-ssh"
  const DeleteId := "vm-action-delete"
  const EditAnnotationsId := "vm-action-edit-annotations"
  const EditLabelsId := "vm-action-edit-labels"
  const ForceStopId := "vm-action-force-stop"
  const MigrateId := "vm-action-migrate"
  const MigrateStorageId := "vm-migrate-storage"
  const MigrationMenuId := "migration-menu"
  const PauseId := "vm-action-pause"
  const RestartId := "vm-action-restart"
  const SnapshotId := "vm-action-snapshot"
  const StartId := "vm-action-start"
  const StopId := "vm-action-stop"
  const UnpauseId := "vm-action-unpause"

  /** The model reads only `Some(true)` as disabled; `None` (an undefined
      field) and `Some(false)` are enabled. */
  predicate IsDisabled(a: Action)
  {
    a.disabled == Some(true)
  }

  /** JavaScript's `Array.prototype.includes`: scans the array from the front
      and reports whether some element equals `x`. The factory uses it to test
      a status against a literal blocklist. */
  function Includes<T(==)>(list: seq<T>, x: T): (found: bool)
    ensures found <==> exists i :: 0 <= i < |list| && list[i] == x
  {
    if |list| == 0 then false
    else list[0] == x || Includes(list[1..], x)
  }

  /** The access review built from a resource model, the virtual machine's
      namespace and a verb. */
  function AsAccessReview(model: ResourceModel, vm: Vm, verb: string): (review: AccessReview)
  {
    AccessReview(model, vm.namespace, verb)
  }

  function CancelMigrationCompute(vm: Vm, vmim: Option<Migration>, isSingleNodeCluster: bool): (a: Action)
    ensures a.id == CancelMigrateId && a.caption == "Cancel migration"
    ensures a.accessReview == AccessReview(VirtualMachineInstanceMigrationModel, vm.namespace, "delete")
    ensures a.disabled.Some?
    ensures !IsDisabled(a) <==> !isSingleNodeCluster && vmim.Some? && !CancelRequested(vmim)
    ensures a.description.Some? <==> CancelRequested(vmim)
    ensures a.description.Some? ==> IsDisabled(a) && a.description.value == "Canceling ongoing migration"
  {
    Action(
      CancelMigrateId,
      "Cancel migration",
      AccessReview(VirtualMachineInstanceMigrationModel, vm.namespace, "delete"),
      Some(isSingleNodeCluster || vmim.None? || CancelRequested(vmim)),
      if CancelRequested(vmim) then Some("Canceling ongoing migration") else None)
  }

  function Clone(vm: Vm): (a: Action)
    ensures a.id == CloneId && a.caption == "Clone"
    ensures a.accessReview == AccessReview(VirtualMachineCloneModel, vm.namespace, "create")
    ensures a.disabled.None? && !IsDisabled(a) && a.description.None?
  {
    Action(CloneId, "Clone", AsAccessReview(VirtualMachineCloneModel, vm, "create"), None, None)
  }

  function CopySSHCommand(vm: Vm): (a: Action)
    ensures a.id == CopySshId && a.caption == "Copy SSH command"
    ensures a.accessReview == AccessReview(VirtualMachineModel, vm.namespace, "patch")
    ensures a.disabled.Some? && (IsDisabled(a) <==> vm.sshSecretNameEmpty)
    ensures a.description == Some("SSH using virtctl")
  {
    Action(CopySshId, "Copy SSH command", AsAccessReview(VirtualMachineModel, vm, "patch"),
      Some(vm.sshSecretNameEmpty), Some("SSH using virtctl"))
  }

  function Delete(vm: Vm): (a: Action)
    ensures a.id == DeleteId && a.caption == "Delete"
    ensures a.accessReview == AccessReview(VirtualMachineModel, vm.namespace, "delete")
    ensures a.disabled == Some(false) && a.description.None?
  {
    Action(DeleteId, "Delete", AsAccessReview(VirtualMachineModel, vm, "delete"), Some(false), None)
  }

  function EditAnnotations(vm: Vm): (a: Action)
    ensures a.id == EditAnnotationsId && a.caption == "Edit annotations"
    ensures a.accessReview == AccessReview(VirtualMachineModel, vm.namespace, "patch")
    ensures a.disabled == Some(false) && a.description.None?
  {
    Action(EditAnnotationsId, "Edit annotations", AsAccessReview(VirtualMachineModel, vm, "patch"), Some(false), None)
  }

  function EditLabels(vm: Vm): (a: Action)
    ensures a.id == EditLabelsId && a.caption == "Edit labels"
    ensures a.accessReview == AccessReview(VirtualMachineModel, vm.namespace, "patch")
    ensures a.disabled == Some(false) && a.description.None?
  {
    Action(EditLabelsId, "Edit labels", AsAccessReview(VirtualMachineModel, vm, "patch"), Some(false), None)
  }

  /** Force stop ignores snapshots and restores in progress. */
  function ForceStop(vm: Vm): (a: Action)
    ensures a.id == ForceStopId && a.caption == "Force stop"
    ensures a.accessReview == AccessReview(VirtualMachineModel, vm.namespace, "patch")
    ensures a.disabled.Some? && a.description.None?
    ensures !IsDisabled(a) <==> vm.printableStatus in {Paused, Running, Starting, Stopping, Terminating, Other}
  {
    StatusInAll(vm.printableStatus);
    Action(ForceStopId, "Force stop", AsAccessReview(VirtualMachineModel, vm, "patch"),
      Some(Includes([Migrating, Provisioning, Stopped, Unknown], vm.printableStatus)), None)
  }

  /** `isLiveMigratable` is the external predicate of the virtual machine and
      the cluster topology that decides whether a live migration is possible. */
  function MigrateCompute(vm: Vm, isSingleNodeCluster: bool, isLiveMigratable: (Vm, bool) -> bool): (a: Action)
    ensures a.id == MigrateId && a.caption == "Compute"
    ensures a.accessReview == AccessReview(VirtualMachineInstanceMigrationModel, vm.namespace, "create")
    ensures a.disabled.Some? && (IsDisabled(a) <==> !isLiveMigratable(vm, isSingleNodeCluster))
    ensures a.description == Some("Migrate VirtualMachine to a different Node")
  {
    Action(
      MigrateId,
      "Compute",
      AccessReview(VirtualMachineInstanceMigrationModel, vm.namespace, "create"),
      Some(!isLiveMigratable(vm, isSingleNodeCluster)),
      Some("Migrate VirtualMachine to a different Node"))
  }

  function MigrateStorage(vm: Vm): (a: Action)
    ensures a.id == MigrateStorageId && a.caption == "Storage"
    ensures a.accessReview == AccessReview(VirtualMachineModel, vm.namespace, "patch")
    ensures a.disabled.None? && !IsDisabled(a)
    ensures a.description == Some("Migrate VirtualMachine storage to a different StorageClass")
  {
    Action(
      MigrateStorageId,
      "Storage",
      AccessReview(VirtualMachineModel, vm.namespace, "patch"),
      None,
      Some("Migrate VirtualMachine storage to a different StorageClass"))
  }

  /** The "Migration" drop-down group holding the given actions in order. */
  function MigrationActions(migrationActions: seq<Action>): (g: ActionGroup)
    ensures g.id == MigrationMenuId && g.caption == "Migration"
    ensures g.options == migrationActions
  {
    ActionGroup(MigrationMenuId, "Migration", migrationActions)
  }

  function Pause(vm: Vm): (a: Action)
    ensures a.id == PauseId && a.caption == "Pause"
    ensures a.accessReview == AccessReview(VirtualMachineModel, vm.namespace, "patch")
    ensures a.disabled.Some? && a.description.None?
    ensures !IsDisabled(a) <==> vm.printableStatus == Running && !vm.snapshotting && !vm.restoring
  {
    Action(PauseId, "Pause", AsAccessReview(VirtualMachineModel, vm, "patch"),
      Some(vm.printableStatus != Running || vm.snapshotting || vm.restoring), None)
  }

  function Restart(vm: Vm): (a: Action)
    ensures a.id == RestartId && a.caption == "Restart"
    ensures a.accessReview == AccessReview(VirtualMachineModel, vm.namespace, "patch")
    ensures a.disabled.Some? && a.description.None?
    ensures !IsDisabled(a) <==>
      vm.printableStatus in {Paused, Running, Starting, Other} && !vm.snapshotting && !vm.restoring
  {
    StatusInAll(vm.printableStatus);
    Action(RestartId, "Restart", AsAccessReview(VirtualMachineModel, vm, "patch"),
      Some(Includes([Migrating, Provisioning, Stopped, Stopping, Terminating, Unknown], vm.printableStatus)
        || vm.snapshotting || vm.restoring),
      None)
  }

  function Snapshot(vm: Vm): (a: Action)
    ensures a.id == SnapshotId && a.caption == "Take snapshot"
    ensures a.accessReview == AccessReview(VirtualMachineSnapshotModel, vm.namespace, "create")
    ensures a.disabled.None? && !IsDisabled(a) && a.description.None?
  {
    Action(SnapshotId, "Take snapshot", AsAccessReview(VirtualMachineSnapshotModel, vm, "create"), None, None)
  }

  function Start(vm: Vm): (a: Action)
    ensures a.id == StartId && a.caption == "Start"
    ensures a.accessReview == AccessReview(VirtualMachineModel, vm.namespace, "patch")
    ensures a.disabled.Some? && a.description.None?
    ensures !IsDisabled(a) <==>
      vm.printableStatus in {Paused, Stopped, Other} && !vm.snapshotting && !vm.restoring
  {
    StatusInAll(vm.printableStatus);
    Action(StartId, "Start", AsAccessReview(VirtualMachineModel, vm, "patch"),
      Some(Includes([Migrating, Provisioning, Running, Starting, Stopping, Terminating, Unknown], vm.printableStatus)
        || vm.snapshotting || vm.restoring),
      None)
  }

  function Stop(vm: Vm): (a: Action)
    ensures a.id == StopId && a.caption == "Stop"
    ensures a.accessReview == AccessReview(VirtualMachineModel, vm.namespace, "patch")
    ensures a.disabled.Some? && a.description.None?
    ensures !IsDisabled(a) <==>
      vm.printableStatus in {Migrating, Paused, Running, Starting, Other} && !vm.snapshotting && !vm.restoring
  {
    StatusInAll(vm.printableStatus);
    Action(StopId, "Stop", AsAccessReview(VirtualMachineModel, vm, "patch"),
      Some(Includes([Provisioning, Stopped, Stopping, Terminating, Unknown], vm.printableStatus)
        || vm.snapshotting || vm.restoring),
      None)
  }

  /** Unpause ignores snapshots and restores in progress. */
  function Unpause(vm: Vm): (a: Action)
    ensures a.id == UnpauseId && a.caption == "Unpause"
    ensures a.accessReview == AccessReview(VirtualMachineModel, vm.namespace, "patch")
    ensures a.disabled.Some? && a.description.None?
    ensures !IsDisabled(a) <==> vm.printableStatus == Paused
  {
    Action(UnpauseId, "Unpause", AsAccessReview(VirtualMachineModel, vm, "patch"),
      Some(vm.printableStatus != Paused), None)
  }
}
