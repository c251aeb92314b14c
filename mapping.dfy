/**
  The map hook of the dmp target: called once per bio. It records the request
  in the process-wide statistics and, for a read or a write, remaps the bio to
  the instance's backing device and submits it; any other operation is killed.
 */
module Mapping {
  import opened Kernel
  import opened Average
  import opened Statistics
  import opened Lifecycle

  /** dmp_map. The total counter and total average are advanced before the
      operation is classified, so a killed request is still counted in the
      total. */
  method Map(ti: DmTarget, stats: Stats, bio: Bio) returns (r: MapIo)
    requires ti.Constructed() && stats.Valid()
    modifies stats, bio, ti`forwarded
    ensures stats.Valid()
    ensures stats.Log == old(stats.Log) + [Request(bio.op, bio.size)]
    // Every request, whatever its operation.
    ensures stats.totalReq == Inc(old(stats.totalReq))
    ensures stats.totalAvg == EwmaAdd(old(stats.totalAvg), bio.size as nat)
    // A read touches the read counter and average only.
    ensures bio.op == Read ==>
              && stats.readReq == Inc(old(stats.readReq))
              && stats.readAvg == EwmaAdd(old(stats.readAvg), bio.size as nat)
              && stats.writeReq == old(stats.writeReq) && stats.writeAvg == old(stats.writeAvg)
    // A write touches the write counter and average only.
    ensures bio.op == Write ==>
              && stats.writeReq == Inc(old(stats.writeReq))
              && stats.writeAvg == EwmaAdd(old(stats.writeAvg), bio.size as nat)
              && stats.readReq == old(stats.readReq) && stats.readAvg == old(stats.readAvg)
    // Anything else is killed: no read or write accounting, no remapping,
    // no submission.
    ensures bio.op.Other? ==>
              && r == Kill
              && stats.readReq == old(stats.readReq) && stats.readAvg == old(stats.readAvg)
              && stats.writeReq == old(stats.writeReq) && stats.writeAvg == old(stats.writeAvg)
              && bio.bdev == old(bio.bdev) && ti.forwarded == old(ti.forwarded)
    // A read or a write goes to the backing device and is submitted.
    ensures !bio.op.Other? ==>
              && r == Submitted
              && bio.bdev == ti.priv.dev.bdev
              && ti.forwarded == old(ti.forwarded) + [bio]
  {
    ghost var log := stats.Log;
    ghost var req := Request(bio.op, bio.size);
    ghost var log' := log + [req];
    assert log'[..|log|] == log && log'[|log|] == req;
    CounterStep(|log|);

    stats.totalReq := Inc(stats.totalReq);
    stats.totalAvg := EwmaAdd(stats.totalAvg, bio.size as nat);
    stats.Log := log';

    if bio.op == Read {
      CounterStep(Count(log, ReadKind));
      stats.readReq := Inc(stats.readReq);
      stats.readAvg := EwmaAdd(stats.readAvg, bio.size as nat);
    } else if bio.op == Write {
      CounterStep(Count(log, WriteKind));
      stats.writeReq := Inc(stats.writeReq);
      stats.writeAvg := EwmaAdd(stats.writeAvg, bio.size as nat);
    } else {
      return Kill;
    }

    bio.bdev := ti.priv.dev.bdev;
    ti.forwarded := ti.forwarded + [bio];
    return Submitted;
  }
}
