# dmp: a device-mapper pass-through target, modelled in Dafny

`dmp` is a Linux device-mapper target that passes every read and write
through to one backing block device and keeps process-wide request
statistics: counts and moving averages of the request size, for reads, for
writes and for all requests. This project models the target's own logic:

- the statistics record `dmp_stats` (`Statistics.Stats`): three
  `unsigned long long` counters with 2^64 wrap-around, and three moving
  averages. A ghost `Log` holds the requests mapped so far, and `Valid()`
  says that each field is the value that history makes it;
- the map hook `dmp_map` (`Mapping.Map`): it advances the total counter and
  the total average first. It then accounts a read or a write in its own
  counter and average, and remaps that bio to the backing device and submits
  it. Any other operation is killed;
- the constructor `dmp_ctr` and destructor `device_mapper_proxy_dtr`
  (`Lifecycle.Ctr`, `Lifecycle.Dtr`). The allocator's and the device lookup's
  outcomes are parameters. Each successful allocation, each free, each device
  lookup and each device put is recorded, in order, in a ghost trace of
  events. A failed allocation leaves no event, and reading the table's mode
  is not an event. `Allocated` and `Held` compute from that trace what is
  live, and `Sound` says that no event in it frees or puts back what is not
  held.

The moving average declared by `DECLARE_EWMA(avg_size, 4, 4)` (4 bits of
precision, weight reciprocal 4) is kept abstract (`Average.Ewma`). Its state
is the sequence of samples folded into it, in order. Any concrete moving
average is a function of that sequence. So a proved equality between
abstract states (this average received exactly these samples, in this order)
also holds for the kernel's fixed-point arithmetic. A proved difference does
not carry over: the kernel's update is not injective (a zero average that
receives a zero sample stays zero), so different histories can give equal
concrete averages.

Files: `kernel.dfy` (integer widths, operation kinds, the bio, errno values),
`average.dfy`, `statistics.dfy`, `lifecycle.dfy`, `mapping.dfy`.

## Model

| member | source | states |
|---|---|---|
| `Kernel.Inc` | dmp.c:68 | A counter `++` on `unsigned long long` gives the old value plus one, modulo 2^64. |
| `Statistics.CounterStep` | dmp.c:68 | A counter that has been incremented n+1 times from zero holds one wrapping `++` of its value after n increments. |
| `Statistics.Stats.constructor` | dmp.c:16-23 | The record starts zero-filled: three zero counters, three averages in their initial state, and an empty history. |
| `Statistics.CountPartition` | dmp.c:68-79 | Every mapped request is exactly one of: read, write, unsupported. The history's length is the sum of the three counts. |
| `Statistics.SizesMatchCount` | dmp.c:72-77 | The read (or write) average received exactly one sample per read (or write) request. |
| `Statistics.AllSizesMatchLength` | dmp.c:69 | The total average received one sample per mapped request of any kind, and the i-th sample is the i-th request's size. |
| `Statistics.SizesSplit` | dmp.c:72-77 | The samples of a kind from a history split in two are those of the first part followed by those of the second. A single request contributes its own size exactly when it is of that kind, and nothing otherwise. So each of the read and write averages receives exactly the sizes of its own kind's requests, in order. |
| `Statistics.CounterUnwrapped` | dmp.c:68-79 | Below 2^64 increments, a counter holds the exact number of increments. |
| `Statistics.CountersModular` | dmp.c:68-79 | For any history, total counter == read counter + write counter + killed requests, modulo 2^64. |
| `Statistics.CountersExact` | dmp.c:68-79 | With fewer than 2^64 requests, total counter == read + write + killed requests exactly. So total >= read + write. |
| `Statistics.StatsTotals` | dmp.c:16-23 | For the record after any sequence of `Map` calls from zero: total == read + write + killed, modulo 2^64 and exactly below 2^64 requests. |
| `Mapping.Map` | dmp.c:66-88 | Every call appends the request to the history and advances the total counter and average. A read advances only the read counter and average; a write only the write counter and average. Anything else returns `Kill` and leaves read/write state, the bio and the forwarded list unchanged, although its total has already been advanced. A read or write is retargeted to `ti.priv.dev.bdev`, appended to the submitted bios, and returns `Submitted`. |
| `Lifecycle.Ctr` | dmp.c:28-54 | argc != 1 returns -EINVAL with "Invalid argument count" and makes no allocation or lookup. Allocation failure returns -ENOMEM with "Cannot alloc memory!" and makes no lookup. Lookup failure (nonzero code) frees the allocation, returns that code with "dmp: Device lookup failed", leaves `priv` unset and leaks nothing. Success stores a fresh instance holding the resolved device, returns 0, and the target is `Constructed`. |
| `Lifecycle.Dtr` | dmp.c:58-62 | Puts the instance's device back, then frees the instance, in that order. The trace stays sound and the target is no longer `Constructed`. |
| `Lifecycle.Kmalloc` | dmp.c:37-38 | On success, a fresh structure that is not already live, recorded as one allocation event. On failure, null and no event. |
| `Lifecycle.Kfree` | dmp.c:47 | Records exactly one free event. |
| `Lifecycle.DmGetDevice` | dmp.c:44 | Records one lookup event with the path, the table's mode and the return code, and returns that code. The resolved device is stored in the instance only when the code is zero. |
| `Lifecycle.DmPutDevice` | dmp.c:60 | Records exactly one put event. |
| `Lifecycle.FailedLookupBalanced` | dmp.c:37-50 | Allocating, failing the lookup and freeing leaves the trace sound, and the allocated and held resources as they were. |
| `Lifecycle.LookupSucceeded` | dmp.c:37-52 | Allocating a structure that is not live and then resolving the device leaves the trace sound, adds the structure to the allocated set and adds one reference on the device to what is held. |
| `Lifecycle.CtrDtrBalanced` | dmp.c:37-62 | A successful construction followed by destruction leaves the trace sound and the resources as they were. The device is put back once and the instance freed once. |
| `Lifecycle.CreateThenRemove` | dmp.c:28-62 | A successful construction (one argument, the allocation succeeds, the lookup returns 0) followed by `Dtr` returns 0 and leaves nothing allocated or held that was not before. |

## Left out

- The moving-average arithmetic of `ewma_avg_size_add`, `ewma_avg_size_read`
  and `ewma_avg_size_init`: it is defined in linux/average.h, which is not
  part of this model. The average is an abstract history of samples. Under
  this abstraction `ewma_avg_size_init` (dmp.c:139-141) gives the same state
  as the zero-filled static, so `Stats.constructor` covers both.
- `volumes_show` (dmp.c:92-101): text formatting for sysfs. The model only
  reflects its fixed field order (read, write, total), in the order of the
  record's fields.
- Module init and exit (dmp.c:114-149): target registration and kobject/sysfs
  setup, which are calls into the kernel.
- `printk` messages and log text.
- Calls into the kernel are events or parameters, not modelled code.
  `kmalloc` is a success flag. `dm_get_device` is a return code plus the
  device it resolves. `dm_put_device` and `kfree` are trace events.
  `submit_bio` appends to the target's ghost `forwarded` list. What the
  block layer does with a submitted bio is outside the model.
- The value of `dm_table_get_mode` is the target's `mode` constant. It is
  passed to the lookup and recorded, but not interpreted.
- Concurrency. The counters are plain non-atomic increments with no lock.
  The model is sequential and claims nothing about lost updates under
  concurrent callers.
- `ti->private` still points at the freed instance after the destructor, as
  in the source. Only `Constructed()` prevents a later `Map` or a second `Dtr`.
  Nothing in the source stops that; the device-mapper core promises it.
- The model follows the code where it might look unintended. An unsupported
  operation still advances the total counter and total average
  (dmp.c:68-69); only its read and write fields are left alone. The
  average's weight is not assumed to be 1/16.
