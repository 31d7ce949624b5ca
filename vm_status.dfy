/** The parts of a virtual machine and of a live migration that the action
    factory reads. Everything the factory derives from the resources through
    helpers of other files (whether a snapshot or a restore is in progress,
    whether an SSH secret is attached) is carried here as an already computed
    boolean. */
module VmStatus {
  import opened Wrappers

  /** The printable lifecycle status of a virtual machine. The nine named
      values are the ones the factory compares against; `Other` stands for a
      status that is undefined or any other string, which no `includes` test
      and no equality test of the factory matches. */
  datatype PrintableStatus =
    | Migrating
    | Paused
    | Provisioning
    | Running
    | Starting
    | Stopped
    | Stopping
    | Terminating
    | Unknown
    | Other

  /** Every printable status, the unlisted ones included. */
  const AllStatuses: set<PrintableStatus> :=
    {Migrating, Paused, Provisioning, Running, Starting, Stopped, Stopping, Terminating, Unknown, Other}

  /** The enumeration is exhaustive, so the statuses a blocklist leaves out
      are exactly those of `AllStatuses` outside it. */
  lemma StatusInAll(s: PrintableStatus)
    ensures s in AllStatuses
  {
  }

  /** A virtual machine as the factory sees it. */
  datatype Vm = Vm(
    namespace: Option<string>,        // vm?.metadata?.namespace
    printableStatus: PrintableStatus, // vm?.status?.printableStatus
    snapshotting: bool,               // isSnapshotting(vm)
    restoring: bool,                  // isRestoring(vm)
    sshSecretNameEmpty: bool          // isEmpty(getVMSSHSecretName(vm))
  )

  /** A live-migration object; only its deletion timestamp is read. */
  datatype Migration = Migration(deletionTimestamp: Option<string>)

  /** JavaScript truthiness of `vmim?.metadata?.deletionTimestamp`: an absent
      migration, an absent timestamp and the empty string are all falsy. */
  predicate CancelRequested(vmim: Option<Migration>)
  {
    match vmim
    case None => false
    case Some(m) => m.deletionTimestamp.Some? && m.deletionTimestamp.value != ""
  }
}
