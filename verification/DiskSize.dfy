/** Disk sizes: the two size readers and ensure_disk_size
    (backend/app/services/proxmox.py, backend/app/services/lifecycle.py). Sizes that the
    source computes in floating point are exact here. */
module DiskSize {
  import opened Numbers
  import opened Wrappers

  const GIB := 1024 * 1024 * 1024

  /** A size as Proxmox writes it in a disk's configuration, such as size=12G. */
  datatype Unit = K | M | G | T

  function UnitBytes(u: Unit): int {
    match u
    case K => 1024
    case M => 1024 * 1024
    case G => GIB
    case T => 1024 * GIB
  }

  function Factor(u: Unit): real {
    match u
    case K => 1.0 / (1024.0 * 1024.0)
    case M => 1.0 / 1024.0
    case G => 1.0
    case T => 1024.0
  }

  /** The numeric part of parse_disk_size_gb */
  function ParsedGb(amount: real, u: Unit): int
    requires 0.0 <= amount
  {
    var gb := Ceil(amount * Factor(u));
    if gb < 1 then 1 else gb
  }

  /** disk_size_gb_from_resource, on the maxdisk entry of a cluster resource */
  function ResourceGb(maxdisk: Option<int>): Option<int> {
    if maxdisk.None? || maxdisk.value <= 0 then None
    else
      var gb := Ceil(maxdisk.value as real / GIB as real);
      Some(if gb < 1 then 1 else gb)
  }

  /** gb is the least whole number of GiB, at least one, that covers so many bytes. */
  predicate LeastCovering(gb: int, bytes: real) {
    1 <= gb && bytes <= (gb * GIB) as real && (gb == 1 || ((gb - 1) * GIB) as real < bytes)
  }

  lemma ParsedIsLeastCovering(amount: real, u: Unit)
    requires 0.0 <= amount
    ensures LeastCovering(ParsedGb(amount, u), amount * UnitBytes(u) as real)
  {
    var x := amount * Factor(u);
    assert x * GIB as real == amount * UnitBytes(u) as real;
    Scaled(Ceil(x), x);
  }

  lemma ResourceIsLeastCovering(bytes: int)
    requires 0 < bytes
    ensures ResourceGb(Some(bytes)).Some? && LeastCovering(ResourceGb(Some(bytes)).value, bytes as real)
  {
    var x := bytes as real / GIB as real;
    assert x * GIB as real == bytes as real;
    Scaled(Ceil(x), x);
  }

  lemma Scaled(n: int, x: real)
    requires n as real - 1.0 < x <= n as real
    ensures (n - 1) as real * GIB as real < x * GIB as real <= n as real * GIB as real
    ensures (n * GIB) as real == n as real * GIB as real
    ensures ((n - 1) * GIB) as real == (n - 1) as real * GIB as real
  {
  }

  /** The two readers agree whenever they see the same size. */
  lemma ReadersAgree(amount: real, u: Unit, bytes: int)
    requires 0.0 <= amount && 0 < bytes && amount * UnitBytes(u) as real == bytes as real
    ensures ResourceGb(Some(bytes)) == Some(ParsedGb(amount, u))
  {
    ParsedIsLeastCovering(amount, u);
    ResourceIsLeastCovering(bytes);
    var a, b := ParsedGb(amount, u), ResourceGb(Some(bytes)).value;
    assert a < b ==> a * GIB <= (b - 1) * GIB;
    assert b < a ==> b * GIB <= (a - 1) * GIB;
  }

  /** vm_disk_size_gb: the cluster resource first, then the disk's configuration; config is
      None when it cannot be read or carries no size. */
  function ReadGb(maxdisk: Option<int>, config: Option<(real, Unit)>): (r: Option<int>)
    requires config.Some? ==> 0.0 <= config.value.0
    ensures maxdisk.Some? && maxdisk.value > 0 ==> r == ResourceGb(maxdisk)
  {
    if ResourceGb(maxdisk).Some? then ResourceGb(maxdisk)
    else if config.Some? then Some(ParsedGb(config.value.0, config.value.1))
    else None
  }

  /** A reading is truthful when each of its sources, if present, gives the exact size. */
  predicate ExactReading(maxdisk: Option<int>, config: Option<(real, Unit)>, bytes: int) {
    && (maxdisk.Some? ==> maxdisk.value <= 0 || maxdisk.value == bytes)
    && (config.Some? ==> 0.0 <= config.value.0 && config.value.0 * UnitBytes(config.value.1) as real == bytes as real)
  }

  lemma ReadIsLeastCovering(maxdisk: Option<int>, config: Option<(real, Unit)>, bytes: int)
    requires 0 < bytes && ExactReading(maxdisk, config, bytes)
    ensures ReadGb(maxdisk, config).Some? ==> LeastCovering(ReadGb(maxdisk, config).value, bytes as real)
    ensures ReadGb(maxdisk, config).None? <==> (maxdisk.None? || maxdisk.value <= 0) && config.None?
  {
    if maxdisk.Some? && maxdisk.value > 0 {
      ResourceIsLeastCovering(bytes);
    } else if config.Some? {
      ParsedIsLeastCovering(config.value.0, config.value.1);
    }
  }

  /** The VM row's disk_gb and the guest's real disk. */
  class Disk {
    var diskGb: int
    var bytes: int

    constructor (diskGb: int, bytes: int)
      ensures this.diskGb == diskGb && this.bytes == bytes
    {
      this.diskGb, this.bytes := diskGb, bytes;
    }

    /** ensure_disk_size: current is what vm_disk_size_gb read; accepts says whether
        Proxmox accepts a resize to that many GB. done is false when the call raises;
        asked is the size of the resize that was issued, if any. */
    method Ensure(current: Option<int>, accepts: int -> bool) returns (done: bool, asked: Option<int>)
      requires 0 < bytes
      requires current.Some? ==> LeastCovering(current.value, bytes as real)
      modifies this
      ensures asked == if current.Some? && old(diskGb) <= current.value then None else Some(old(diskGb))
      ensures current.Some? && asked.Some? ==> old(bytes) < asked.value * GIB
      ensures bytes == if asked.Some? && accepts(asked.value) then asked.value * GIB else old(bytes)
      ensures done <==> asked.None? || accepts(asked.value) || current.None?
      ensures done && current.Some? ==> diskGb == if old(diskGb) < current.value then current.value else old(diskGb)
      ensures done && current.Some? ==> old(bytes) <= bytes <= diskGb * GIB
      ensures old(diskGb) <= diskGb
      ensures !done || current.None? ==> diskGb == old(diskGb)
    {
      asked, done := None, true;
      var requested := diskGb;
      if current.Some? && requested <= current.value {
        if requested < current.value {
          diskGb := current.value;
        }
        return;
      }
      asked := Some(requested);
      if current.Some? { Covered(current.value, requested, bytes); }
      if accepts(requested) {
        bytes := requested * GIB;
      } else {
        done := current.None?;
      }
    }
  }

  lemma Covered(current: int, requested: int, bytes: int)
    requires LeastCovering(current, bytes as real) && current < requested
    ensures bytes <= current * GIB < requested * GIB
  {
  }
}
