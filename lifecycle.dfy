/**
  Construction and destruction of a dmp target instance. The constructor
  checks its argument count, allocates the per-instance state and looks the
  backing device up, each step with its own error exit; the destructor puts
  the device back and frees the state.

  The memory allocator and the device-mapper core are outside the model: the
  outcome of the allocation and of the device lookup are parameters. Each
  successful allocation, each free, each device lookup and each device put is
  recorded, in order, in a ghost trace of events (a failed allocation changes
  nothing and leaves no event). What is allocated and what is held at any
  point is computed from that trace.
 */
module Lifecycle {
  import opened Kernel

  /** struct my_dmp_dev: the per-instance state, holding the backing device. */
  class DmpDev {
    var dev: DmDev

    /** kmalloc leaves the structure uninitialised: `dev` is arbitrary. */
    constructor ()
    {
    }
  }

  /** A successful allocation, a free, a device lookup or a device put. */
  datatype Event =
    | Malloc(p: DmpDev)
    | Free(p: DmpDev)
      /** dm_get_device(path, mode): `result` is its return code; on zero it
          resolved to `dev` and took a reference on it. */
    | Get(path: string, mode: nat, result: int, dev: DmDev)
    | Put(dev: DmDev)

  /** What one event does to the set of allocated instance structures. */
  ghost function AllocStep(live: set<DmpDev>, e: Event): set<DmpDev>
  {
    match e
    case Malloc(p) => live + {p}
    case Free(p) => live - {p}
    case _ => live
  }

  /** What one event does to the device references held. */
  ghost function HeldStep(held: multiset<DmDev>, e: Event): multiset<DmDev>
  {
    match e
    case Get(_, _, result, d) => if result == 0 then held + multiset{d} else held
    case Put(d) => held - multiset{d}
    case _ => held
  }

  /** The instance structures allocated and not yet freed. */
  ghost function Allocated(t: seq<Event>): set<DmpDev>
    decreases |t|
  {
    if t == [] then {} else AllocStep(Allocated(t[..|t| - 1]), t[|t| - 1])
  }

  /** The device references taken and not yet put back, with multiplicity. */
  ghost function Held(t: seq<Event>): multiset<DmDev>
    decreases |t|
  {
    if t == [] then multiset{} else HeldStep(Held(t[..|t| - 1]), t[|t| - 1])
  }

  /** Event `e` is legal after trace `t`: nothing is allocated twice, nothing
      is freed that is not allocated, and no device reference is put back
      that is not held. */
  ghost predicate Legal(t: seq<Event>, e: Event)
  {
    match e
    case Malloc(p) => p !in Allocated(t)
    case Free(p) => p in Allocated(t)
    case Get(_, _, _, _) => true
    case Put(d) => d in Held(t)
  }

  /** Every call in the trace is legal where it stands. */
  ghost predicate Sound(t: seq<Event>)
    decreases |t|
  {
    t == [] || (Sound(t[..|t| - 1]) && Legal(t[..|t| - 1], t[|t| - 1]))
  }

  /** Appending one event applies that event's step. */
  lemma Step(t: seq<Event>, e: Event)
    ensures Allocated(t + [e]) == AllocStep(Allocated(t), e)
    ensures Held(t + [e]) == HeldStep(Held(t), e)
    ensures Sound(t + [e]) == (Sound(t) && Legal(t, e))
  {
    assert (t + [e])[..|t|] == t;
  }

  /** Only a structure the trace allocated can be live. */
  lemma {:induction false} AllocatedWereAllocated(t: seq<Event>)
    ensures forall p :: p in Allocated(t) ==> Malloc(p) in t
  {
    if t != [] {
      AllocatedWereAllocated(t[..|t| - 1]);
      forall p | p in Allocated(t)
        ensures Malloc(p) in t
      {
        if p in Allocated(t[..|t| - 1]) {
          assert Malloc(p) in t[..|t| - 1];
        }
      }
    }
  }

  /** After trace `t`, the constructor allocated `p`, the lookup of `path`
      failed with `result`, and `p` was freed again, giving trace `t'`: it is
      still sound and nothing more is allocated or held than before. */
  ghost predicate LookupFailedAfter(t: seq<Event>, t': seq<Event>, p: DmpDev, path: string, mode: nat, result: int, d: DmDev)
  {
    && t' == t + [Malloc(p), Get(path, mode, result, d), Free(p)]
    && Sound(t') && Allocated(t') == Allocated(t) && Held(t') == Held(t)
  }

  /** After trace `t`, the constructor allocated `p` and the lookup of `path`
      resolved to `d`, giving trace `t'`: it is still sound, `p` is now
      allocated and one more reference on `d` is held. */
  ghost predicate LookupSucceededAfter(t: seq<Event>, t': seq<Event>, p: DmpDev, path: string, mode: nat, d: DmDev)
  {
    && t' == t + [Malloc(p), Get(path, mode, 0, d)]
    && Sound(t') && Allocated(t') == Allocated(t) + {p} && Held(t') == Held(t) + multiset{d}
  }

  /** A failed lookup between an allocation and its free leaves nothing
      allocated and nothing held that was not before. */
  lemma {:induction false} FailedLookupBalanced(t: seq<Event>, p: DmpDev, path: string, mode: nat, result: int, d: DmDev)
    requires Sound(t) && p !in Allocated(t) && result != 0
    ensures LookupFailedAfter(t, t + [Malloc(p), Get(path, mode, result, d), Free(p)], p, path, mode, result, d)
  {
    var t1 := t + [Malloc(p)];
    var t2 := t1 + [Get(path, mode, result, d)];
    Step(t, Malloc(p));
    Step(t1, Get(path, mode, result, d));
    Step(t2, Free(p));
    assert t2 + [Free(p)] == t + [Malloc(p), Get(path, mode, result, d), Free(p)];
  }

  /** An allocation followed by a successful lookup: the structure is now
      allocated and one more reference on the device is held. */
  lemma {:induction false} LookupSucceeded(t: seq<Event>, p: DmpDev, path: string, mode: nat, d: DmDev)
    requires Sound(t) && p !in Allocated(t)
    ensures LookupSucceededAfter(t, t + [Malloc(p), Get(path, mode, 0, d)], p, path, mode, d)
  {
    var t1 := t + [Malloc(p)];
    Step(t, Malloc(p));
    Step(t1, Get(path, mode, 0, d));
    assert t1 + [Get(path, mode, 0, d)] == t + [Malloc(p), Get(path, mode, 0, d)];
  }

  /** A successful construction followed by the destruction leaves nothing
      allocated and nothing held that was not before: the device reference
      is put back exactly once and the structure freed exactly once. */
  lemma {:induction false} CtrDtrBalanced(t: seq<Event>, p: DmpDev, path: string, mode: nat, d: DmDev)
    requires Sound(t) && p !in Allocated(t)
    ensures var t' := t + [Malloc(p), Get(path, mode, 0, d), Put(d), Free(p)];
            Sound(t') && Allocated(t') == Allocated(t) && Held(t') == Held(t)
  {
    var t2 := t + [Malloc(p), Get(path, mode, 0, d)];
    var t3 := t2 + [Put(d)];
    LookupSucceeded(t, p, path, mode, d);
    Step(t2, Put(d));
    assert Held(t3) == Held(t);
    Step(t3, Free(p));
    assert t3 + [Free(p)] == t + [Malloc(p), Get(path, mode, 0, d), Put(d), Free(p)];
  }

  /** struct dm_target, as far as this target uses it. */
  class DmTarget {
    /** The access mode of the owning table (dm_table_get_mode). */
    const mode: nat
    /** ti->error: the message reported for a failed construction. */
    var error: string
    /** ti->private: the instance state, set by a successful construction. */
    var priv: DmpDev?
    /** Calls made by this target into the allocator and device-mapper core. */
    ghost var trace: seq<Event>
    /** Bios this target remapped and handed to submit_bio, in order. */
    ghost var forwarded: seq<Bio>

    constructor (mode: nat)
      ensures this.mode == mode && error == "" && priv == null
      ensures trace == [] && forwarded == []
    {
      this.mode := mode;
      error := "";
      priv := null;
      trace := [];
      forwarded := [];
    }

    /** The instance is fully constructed and not yet destroyed: its state is
        allocated and it holds a reference on its backing device. */
    ghost predicate Constructed()
      reads this, priv
    {
      && Sound(trace)
      && priv != null
      && priv in Allocated(trace)
      && priv.dev in Held(trace)
    }
  }

  /** kmalloc: a fresh structure, or null when the allocation fails. */
  method Kmalloc(ti: DmTarget, succeeds: bool) returns (p: DmpDev?)
    modifies ti`trace
    ensures succeeds ==>
              && p != null && fresh(p) && p !in Allocated(old(ti.trace))
              && ti.trace == old(ti.trace) + [Malloc(p)]
    ensures !succeeds ==> p == null && ti.trace == old(ti.trace)
  {
    if !succeeds {
      return null;
    }
    AllocatedWereAllocated(ti.trace);
    p := new DmpDev();
    assert Malloc(p) !in ti.trace;
    ti.trace := ti.trace + [Malloc(p)];
  }

  /** kfree. */
  method Kfree(ti: DmTarget, p: DmpDev)
    modifies ti`trace
    ensures ti.trace == old(ti.trace) + [Free(p)]
  {
    ti.trace := ti.trace + [Free(p)];
  }

  /** dm_get_device(ti, path, mode, &p->dev): the lookup returns `result`;
      only on zero does it store `resolved` in the instance. */
  method DmGetDevice(ti: DmTarget, path: string, p: DmpDev, result: int, resolved: DmDev) returns (r: int)
    modifies ti`trace, p
    ensures r == result
    ensures ti.trace == old(ti.trace) + [Get(path, ti.mode, result, resolved)]
    ensures p.dev == if result == 0 then resolved else old(p.dev)
  {
    ti.trace := ti.trace + [Get(path, ti.mode, result, resolved)];
    if result == 0 {
      p.dev := resolved;
    }
    r := result;
  }

  /** dm_put_device. */
  method DmPutDevice(ti: DmTarget, d: DmDev)
    modifies ti`trace
    ensures ti.trace == old(ti.trace) + [Put(d)]
  {
    ti.trace := ti.trace + [Put(d)];
  }

  /** dmp_ctr. `args` is argv (argc is its length); `allocSucceeds` is whether
      kmalloc returns memory; `lookupResult` is what dm_get_device returns and
      `resolved` the device it yields when that is zero. */
  method Ctr(ti: DmTarget, args: seq<string>, allocSucceeds: bool, lookupResult: int, resolved: DmDev)
    returns (rc: int)
    requires Sound(ti.trace)
    modifies ti
    ensures Sound(ti.trace) && ti.forwarded == old(ti.forwarded)
    // Wrong argument count: nothing allocated, nothing looked up.
    ensures |args| != 1 ==>
              && rc == -EINVAL && ti.error == "Invalid argument count"
              && ti.trace == old(ti.trace) && ti.priv == old(ti.priv)
    // Allocation failure: no lookup is attempted.
    ensures |args| == 1 && !allocSucceeds ==>
              && rc == -ENOMEM && ti.error == "Cannot alloc memory!"
              && ti.trace == old(ti.trace) && ti.priv == old(ti.priv)
    // Lookup failure: the allocation is freed and the lookup's code returned.
    ensures |args| == 1 && allocSucceeds && lookupResult != 0 ==>
              && rc == lookupResult && ti.error == "dmp: Device lookup failed"
              && ti.priv == old(ti.priv)
              && exists p: DmpDev :: LookupFailedAfter(old(ti.trace), ti.trace, p, args[0], ti.mode, lookupResult, resolved)
    // Success: the instance holds the resolved device.
    ensures |args| == 1 && allocSucceeds && lookupResult == 0 ==>
              && rc == 0 && ti.error == old(ti.error)
              && ti.priv != null && fresh(ti.priv) && ti.priv.dev == resolved
              && ti.priv !in Allocated(old(ti.trace))
              && LookupSucceededAfter(old(ti.trace), ti.trace, ti.priv, args[0], ti.mode, resolved)
              && ti.Constructed()
  {
    if |args| != 1 {
      ti.error := "Invalid argument count";
      return -EINVAL;
    }

    ghost var t0 := ti.trace;
    var mpd := Kmalloc(ti, allocSucceeds);
    if mpd == null {
      ti.error := "Cannot alloc memory!";
      return -ENOMEM;
    }

    var result := DmGetDevice(ti, args[0], mpd, lookupResult, resolved);
    if result != 0 {
      Kfree(ti, mpd);
      ti.error := "dmp: Device lookup failed";
      FailedLookupBalanced(t0, mpd, args[0], ti.mode, result, resolved);
      assert ti.trace == t0 + [Malloc(mpd), Get(args[0], ti.mode, result, resolved), Free(mpd)];
      return result;
    }

    LookupSucceeded(t0, mpd, args[0], ti.mode, resolved);
    assert ti.trace == t0 + [Malloc(mpd), Get(args[0], ti.mode, 0, resolved)];
    ti.priv := mpd;
    return 0;
  }

  /** device_mapper_proxy_dtr: put the device back, then free the instance.
      ti->private is left pointing at the freed structure, as in the source. */
  method Dtr(ti: DmTarget)
    requires ti.Constructed()
    modifies ti`trace
    ensures ti.trace == old(ti.trace) + [Put(ti.priv.dev), Free(ti.priv)]
    ensures Sound(ti.trace)
    ensures Allocated(ti.trace) == Allocated(old(ti.trace)) - {ti.priv}
    ensures Held(ti.trace) == Held(old(ti.trace)) - multiset{ti.priv.dev}
    ensures !ti.Constructed()
  {
    var dmpd := ti.priv;
    Step(ti.trace, Put(dmpd.dev));
    DmPutDevice(ti, dmpd.dev);
    Step(ti.trace, Free(dmpd));
    Kfree(ti, dmpd);
  }

  /** A target created and then removed: after the constructor succeeds and
      the destructor runs, nothing is left allocated or held. */
  method CreateThenRemove(ti: DmTarget, path: string, resolved: DmDev) returns (rc: int)
    requires Sound(ti.trace)
    modifies ti
    ensures rc == 0
    ensures Sound(ti.trace)
    ensures Allocated(ti.trace) == Allocated(old(ti.trace))
    ensures Held(ti.trace) == Held(old(ti.trace))
  {
    rc := Ctr(ti, [path], true, 0, resolved);
    Dtr(ti);
  }
}
