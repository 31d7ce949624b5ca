/** The factory as a whole: a dispatch on the factory's entry names, a
    per-status reference table of which lifecycle actions are allowed, and the
    facts that relate the entries to each other. */
module ActionTable {
  import opened Wrappers
  import opened VmStatus
  import F = VirtualMachineActionFactory

  /** The names of the factory's entries that build one action. */
  datatype Key =
    | CancelMigrationCompute
    | Clone
    | CopySSHCommand
    | Delete
    | EditAnnotations
    | EditLabels
    | ForceStop
    | MigrateCompute
    | MigrateStorage
    | Pause
    | Restart
    | Snapshot
    | Start
    | Stop
    | Unpause

  /** Everything any entry reads: the virtual machine, its migration object
      if any, the cluster topology and the external live-migratability test. */
  datatype Context = Context(
    vm: Vm,
    vmim: Option<Migration>,
    isSingleNodeCluster: bool,
    isLiveMigratable: (Vm, bool) -> bool
  )

  /** The action the entry named `k` builds. */
  function Build(k: Key, ctx: Context): (a: F.Action)
  {
    match k
    case CancelMigrationCompute => F.CancelMigrationCompute(ctx.vm, ctx.vmim, ctx.isSingleNodeCluster)
    case Clone => F.Clone(ctx.vm)
    case CopySSHCommand => F.CopySSHCommand(ctx.vm)
    case Delete => F.Delete(ctx.vm)
    case EditAnnotations => F.EditAnnotations(ctx.vm)
    case EditLabels => F.EditLabels(ctx.vm)
    case ForceStop => F.ForceStop(ctx.vm)
    case MigrateCompute => F.MigrateCompute(ctx.vm, ctx.isSingleNodeCluster, ctx.isLiveMigratable)
    case MigrateStorage => F.MigrateStorage(ctx.vm)
    case Pause => F.Pause(ctx.vm)
    case Restart => F.Restart(ctx.vm)
    case Snapshot => F.Snapshot(ctx.vm)
    case Start => F.Start(ctx.vm)
    case Stop => F.Stop(ctx.vm)
    case Unpause => F.Unpause(ctx.vm)
  }

  /** The entries gated by the lifecycle status. */
  const Lifecycle: set<Key> := {Start, Stop, ForceStop, Pause, Unpause, Restart}

  /** The lifecycle entries that a snapshot or a restore in progress does not
      block. */
  const FlagExempt: set<Key> := {ForceStop, Unpause}

  /** Reference table, written row by row per status: the lifecycle actions
      allowed in that status when no snapshot or restore is in progress. */
  function AllowedIn(s: PrintableStatus): (row: set<Key>)
  {
    match s
    case Migrating => {Stop}
    case Paused => {Start, Stop, ForceStop, Unpause, Restart}
    case Provisioning => {}
    case Running => {Stop, ForceStop, Pause, Restart}
    case Starting => {Stop, ForceStop, Restart}
    case Stopped => {Start}
    case Stopping => {ForceStop}
    case Terminating => {ForceStop}
    case Unknown => {}
    case Other => {Start, Stop, ForceStop, Restart}
  }

  /** The lifecycle actions the factory leaves enabled for `ctx`. */
  function EnabledLifecycle(ctx: Context): (enabled: set<Key>)
  {
    set k | k in Lifecycle && !F.IsDisabled(Build(k, ctx))
  }

  /** One cell of the table: a lifecycle action is enabled exactly when its
      status row allows it and, unless it is exempt, no snapshot or restore is
      in progress. */
  lemma MatchesTableAt(k: Key, ctx: Context)
    requires k in Lifecycle
    ensures !F.IsDisabled(Build(k, ctx)) <==>
      k in AllowedIn(ctx.vm.printableStatus)
      && (k in FlagExempt || !(ctx.vm.snapshotting || ctx.vm.restoring))
  {
    match k
    case Start =>
    case Stop =>
    case ForceStop =>
    case Pause =>
    case Unpause =>
    case Restart =>
  }

  /** The factory agrees with the reference table for every status: without
      a snapshot or restore in progress exactly the row's actions are enabled,
      and with one only the row's exempt actions remain. */
  lemma MatchesTable(ctx: Context)
    ensures EnabledLifecycle(ctx) ==
      if ctx.vm.snapshotting || ctx.vm.restoring
      then AllowedIn(ctx.vm.printableStatus) * FlagExempt
      else AllowedIn(ctx.vm.printableStatus)
  {
    var row := AllowedIn(ctx.vm.printableStatus);
    assert row <= Lifecycle;
    forall k | k in Lifecycle
      ensures k in EnabledLifecycle(ctx) <==> k in row && (k in FlagExempt || !(ctx.vm.snapshotting || ctx.vm.restoring))
    {
      MatchesTableAt(k, ctx);
    }
  }

  /** Pause needs Running and unpause needs Paused, so at most one of them is
      ever enabled. */
  lemma PauseUnpauseExclusive(vm: Vm)
    ensures F.IsDisabled(F.Pause(vm)) || F.IsDisabled(F.Unpause(vm))
  {
  }

  /** The context with a snapshot and/or a restore additionally in progress. */
  function Raise(ctx: Context, snapshotting: bool, restoring: bool): (raised: Context)
  {
    ctx.(vm := ctx.vm.(snapshotting := ctx.vm.snapshotting || snapshotting,
                       restoring := ctx.vm.restoring || restoring))
  }

  /** Turning the snapshotting or restoring flag on never enables an action.
      Migrate-compute is left out: whether it is enabled is decided by the
      external live-migratability test, which reads the whole machine. */
  lemma FlagsOnlyDisable(k: Key, ctx: Context, snapshotting: bool, restoring: bool)
    requires k != MigrateCompute
    ensures F.IsDisabled(Build(k, ctx)) ==> F.IsDisabled(Build(k, Raise(ctx, snapshotting, restoring)))
  {
  }

  /** Only start, stop, pause and restart read the two flags; every other
      entry (migrate-compute aside) builds the same action either way. */
  lemma FlagsIgnored(k: Key, ctx: Context, snapshotting: bool, restoring: bool)
    requires k !in {Start, Stop, Pause, Restart, MigrateCompute}
    ensures Build(k, Raise(ctx, snapshotting, restoring)) == Build(k, ctx)
  {
  }

  /** Each of start, stop, pause and restart is disabled by either flag. */
  lemma FlagsBlock(k: Key, ctx: Context)
    requires k in Lifecycle - FlagExempt
    requires ctx.vm.snapshotting || ctx.vm.restoring
    ensures F.IsDisabled(Build(k, ctx))
  {
  }

  /** Entries that do not read the lifecycle status build the same action
      whatever the status is. */
  lemma StatusIgnored(k: Key, ctx: Context, s: PrintableStatus)
    requires k !in Lifecycle && k != MigrateCompute
    ensures Build(k, ctx.(vm := ctx.vm.(printableStatus := s))) == Build(k, ctx)
  {
  }

  /** Delete, edit-labels and edit-annotations are never disabled, and clone,
      snapshot and migrate-storage leave the flag undefined. */
  lemma AlwaysEnabled(k: Key, ctx: Context)
    requires k in {Delete, EditLabels, EditAnnotations, Clone, Snapshot, MigrateStorage}
    ensures !F.IsDisabled(Build(k, ctx))
    ensures Build(k, ctx).disabled == if k in {Delete, EditLabels, EditAnnotations} then Some(false) else None
  {
  }

  /** The id of the action the entry named `k` builds. */
  function IdOf(k: Key): (id: string)
    ensures forall ctx :: Build(k, ctx).id == id
  {
    match k
    case CancelMigrationCompute => F.CancelMigrateId
    case Clone => F.CloneId
    case CopySSHCommand => F.CopySshId
    case Delete => F.DeleteId
    case EditAnnotations => F.EditAnnotationsId
    case EditLabels => F.EditLabelsId
    case ForceStop => F.ForceStopId
    case MigrateCompute => F.MigrateId
    case MigrateStorage => F.MigrateStorageId
    case Pause => F.PauseId
    case Restart => F.RestartId
    case Snapshot => F.SnapshotId
    case Start => F.StartId
    case Stop => F.StopId
    case Unpause => F.UnpauseId
  }

  /** Two entries share an id only if they are the same entry. */
  lemma IdOfInjective(k1: Key, k2: Key)
    ensures IdOf(k1) == IdOf(k2) ==> k1 == k2
  {
  }

  /** Different entries build actions with different ids, none of which is
      the id of the migration drop-down group. */
  lemma IdsDistinct(k1: Key, k2: Key, ctx1: Context, ctx2: Context)
    ensures Build(k1, ctx1).id == Build(k2, ctx2).id <==> k1 == k2
    ensures Build(k1, ctx1).id != F.MigrationMenuId
  {
    IdOfInjective(k1, k2);
  }
}
