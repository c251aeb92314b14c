/**
  The kernel-side vocabulary the dmp target is written against: fixed-width
  integers, the block-request operation kinds, the bio being mapped, the
  device handle returned by the device-mapper core, the map-hook verdicts and
  the errno values the constructor returns.
 */
module Kernel {

  /** `unsigned int`, the type of a bio's byte count (bi_iter.bi_size). */
  newtype u32 = x: int | 0 <= x < 0x1_0000_0000

  const U64_MOD: int := 0x1_0000_0000_0000_0000

  /** `unsigned long long`, the type of the request counters. */
  newtype u64 = x: int | 0 <= x < 0x1_0000_0000_0000_0000

  /** Unsigned 64-bit `x++`: wraps to zero past the largest value. */
  function Inc(x: u64): (r: u64)
    ensures r as int == (x as int + 1) % U64_MOD
  {
    if x as int == U64_MOD - 1 then 0 else x + 1
  }

  /** Errno values; the constructor returns their negation. */
  const EINVAL: int := 22
  const ENOMEM: int := 12

  /** The operation kind of a bio (bio_op): read, write, or any other
      request operation (flush, discard, write-zeroes, zone management, ...). */
  datatype ReqOp = Read | Write | Other(code: nat)

  /** The verdicts the map hook returns: DM_MAPIO_SUBMITTED (the target has
      submitted the bio itself) and DM_MAPIO_KILL (fail the bio). */
  datatype MapIo = Submitted | Kill

  /** A device obtained from the device-mapper core (struct dm_dev); `bdev`
      identifies the underlying block device. */
  datatype DmDev = DmDev(bdev: nat)

  /** A block I/O request. Its operation and byte count are fixed; its target
      block device is rewritten when it is remapped (bio_set_dev). */
  class Bio {
    const op: ReqOp
    const size: u32
    var bdev: nat

    constructor (op: ReqOp, size: u32, bdev: nat)
      ensures this.op == op && this.size == size && this.bdev == bdev
    {
      this.op := op;
      this.size := size;
      this.bdev := bdev;
    }
  }
}
