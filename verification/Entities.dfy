/** The committed rows of the panel: VMs and jobs (backend/app/models/entities.py).
    Rows are only ever inserted, so a row's identity is its position in its table. */
module Entities {
  import opened Wrappers

  /** A Proxmox guest number; Proxmox hands out nothing below 100. */
  type Vmid = n: int | 100 <= n witness 100

  type VmRow = nat
  type JobRow = nat

  datatype VmStatus =
    | Creating | Provisioning | Stopped | Starting | Running
    | Stopping | Rebooting | Deleting | Deleted | Error

  datatype SshStatus = SshPending | SshReady | SshFailed

  datatype JobStatus = JobQueued | JobRunning | JobSuccess | JobFailed

  datatype JobKind = CreateVm | ReinstallVm | StartVm | StopVm | RebootVm | DeleteVm | SshCheck

  /** deleted says that the deleted_at column is set. */
  datatype Vm = Vm(
    hostname: string, diskGb: int, vmid: Option<Vmid>, status: VmStatus,
    ssh: SshStatus, ip: Option<string>, deleted: bool)

  /** target is the target_vmid entry of the job's metadata. */
  datatype Job = Job(kind: JobKind, status: JobStatus, vm: VmRow, target: Option<Vmid>)

  /** The statuses that startup treats as interrupted work. */
  predicate Transient(status: VmStatus) {
    status in {Creating, Provisioning, Starting, Stopping, Rebooting, Deleting}
  }

  /** Jobs that carry the root password, which is never stored and so cannot be resumed. */
  predicate NeedsPassword(kind: JobKind) {
    kind == CreateVm || kind == ReinstallVm
  }

  /** Jobs whose success is followed by a fresh SSH check. */
  predicate SpawnsCheck(kind: JobKind) {
    kind in {CreateVm, ReinstallVm, StartVm, RebootVm}
  }

  /** ASCII lower-casing, as the request validator and SQL lower() do it. */
  function LowerChar(c: char): char {
    if 'A' <= c <= 'Z' then c - 'A' + 'a' else c
  }

  function Lower(s: string): (r: string)
    ensures |r| == |s|
    ensures forall i :: 0 <= i < |s| ==> r[i] == LowerChar(s[i])
  {
    seq(|s|, i requires 0 <= i < |s| => LowerChar(s[i]))
  }

  /** Equal, or the two forms of one ASCII letter. */
  predicate SameLetter(c: char, d: char) {
    || c == d
    || ('a' <= c <= 'z' && 'A' <= d <= 'Z' && c - 'a' == d - 'A')
    || ('A' <= c <= 'Z' && 'a' <= d <= 'z' && c - 'A' == d - 'a')
  }

  predicate SameIgnoringCase(a: string, b: string) {
    |a| == |b| && forall i :: 0 <= i < |a| ==> SameLetter(a[i], b[i])
  }

  predicate NoCapitals(s: string) {
    forall i :: 0 <= i < |s| ==> !('A' <= s[i] <= 'Z')
  }

  /** Lower-casing identifies the strings that differ in case only. */
  lemma LowerIgnoresCase(a: string, b: string)
    ensures Lower(a) == Lower(b) <==> SameIgnoringCase(a, b)
  {
    if SameIgnoringCase(a, b) {
      assert forall i :: 0 <= i < |a| ==> SameLetter(a[i], b[i]) && Lower(a)[i] == Lower(b)[i];
    }
    if Lower(a) == Lower(b) {
      forall i | 0 <= i < |a| ensures SameLetter(a[i], b[i]) {
        assert Lower(a)[i] == Lower(b)[i];
      }
    }
  }

  lemma LowerIsLower(s: string)
    ensures NoCapitals(Lower(s)) && SameIgnoringCase(Lower(s), s)
    ensures NoCapitals(s) <==> Lower(s) == s
  {
    if Lower(s) == s {
      forall i | 0 <= i < |s| ensures !('A' <= s[i] <= 'Z') { assert Lower(s)[i] == s[i]; }
    }
  }
}
