# myStrom exporter bookkeeping, in Dafny

This project models the state kept by the myStrom power-meter exporter
(`mystrom.py`). Devices announce themselves with UDP datagrams. A poller then
queries each known device's `/report` endpoint every cycle. Each reading updates
two Prometheus gauges labelled by device: the current power, and the energy
accumulated from the elapsed wall-clock time between readings.

The model is one module, `MyStrom`, in `mystrom.dfy`:

- `Exporter` is a class. Its fields are the source's module-level state: the
  registry `devices` (a set of addresses), `timestamps` (address to the clock
  reading of the last successful report), and the gauges `power` and `energy`
  (label to value).
- `Announce` and `Listen` model the listener's receive loop.
- `FetchOutcome` models the state changes of `get_measurement`.
- `PollCycle` models one iteration of `collect_measurements`. Its two phases are
  `FetchAll`, which queries every device of the snapshot once in an unspecified
  order, and `Publish`, the `for` loop over the results. `Publish` is
  specified by the folds `PublishPower` and `PublishEnergy` over the results
  list.
- `Measurement.Energy` is the energy formula, over `real`.
- The effect of a fetch and of a cycle is also given by pure functions:
  `FetchResult`, `FetchTimestamps`, `Reporting`, `CycleTimestamps`,
  `CyclePower` and `CycleEnergy`. The methods are proved equal to these
  functions, and the lemmas state the properties of the functions.
- `ReplayTimestamps`, `Elapsed` and `Accumulated` describe the successive
  `FetchOutcome` results of one device queried many times in a row (each
  query is a `Query`). They are used to show that the measurement intervals
  join up without gaps or overlaps. No lemma ties them to a sequence of
  `PollCycle` calls.

Abstractions:

- A received datagram is its sender's address.
- An HTTP query is an `Outcome`: `Unreachable` (the query raised
  `aiohttp.ClientConnectorError`, the only exception the exporter catches) or
  `Report(power, ws)` (the two JSON fields).
- `datetime.now()` is a caller-supplied integer number of microseconds. The
  source reads the clock twice per successful fetch. `now1` is the default for
  a device with no timestamp; `now2` is the value stored.
- Floats are `real`.

Some behaviours of `mystrom.py` that the model keeps:

- A reply whose body is not JSON, or lacks `power` or `Ws`, raises an exception that ends the polling loop; no such reply is handled.
- A device's first interval is `now2 - now1`, which is in general not zero: the two clock readings are taken one after the other.
- The energy gauge is incremented with whatever the formula gives, so it can decrease when the clock runs backwards or a report is negative. `CycleEnergyNonDecreasing` holds only under explicit preconditions.
- Timestamps are never pruned when a device is removed.

## Model

| member | source | states |
|---|---|---|
| `MyStrom.EnergyOfOneHour` | mystrom.py:45-47 | an interval of 3600 s at average power 100 gives exactly 100 watt-hours |
| `MyStrom.EnergyAdditive` | mystrom.py:45-47 | energy is linear in the interval: the energy of a+b is the energy of a plus that of b |
| `MyStrom.EnergyNonNegative` | mystrom.py:45-47 | a non-negative average power over a non-negative interval gives non-negative energy |
| `MyStrom.FetchedMeasurement` | mystrom.py:54-67 | a fetch yields a measurement iff the outcome is a report; it carries the device, `power` and `Ws` unchanged; its interval is `now2` minus the stored timestamp, or `now2 - now1` if none is stored |
| `MyStrom.FirstFetchIsEmptyInterval` | mystrom.py:63-65 | on a device's first report, with equal clock readings, the interval and the energy are zero |
| `MyStrom.FetchSwapsTimestamp` | mystrom.py:57-64 | a report stores `now2` for its device, a connection failure changes no timestamp, and no other device's entry changes |
| `MyStrom.ElapsedTelescopes` | mystrom.py:63-65 | over any run of queries of a device that has a timestamp, the intervals sum to how far its stored timestamp advanced, connection failures included |
| `MyStrom.FirstElapsedTelescopes` | mystrom.py:63-65 | for a device with no timestamp whose first query reports, the intervals sum to the final stored timestamp minus that query's first clock reading |
| `MyStrom.ConstantPowerAccumulates` | mystrom.py:45-47 | if every report carries the same average power, the energy added over a run of queries equals that power times the total elapsed time |
| `MyStrom.AnnouncedIsUnion` | mystrom.py:29-33 | after a sequence of announcements the registry is its old contents plus the set of distinct senders |
| `MyStrom.AnnouncedIdempotent` | mystrom.py:29-33 | receiving the same announcements again leaves the registry unchanged |
| `MyStrom.CycleRemovesUnreachable` | mystrom.py:58-76 | the cycle's registry `Reporting(snapshot, outcome)` holds exactly the snapshot's devices whose outcome was not `Unreachable`; `PollCycle` ensures `devices == Reporting(old(devices), outcome)`, so this is the registry after a cycle |
| `MyStrom.EmptyCycleChangesNothing` | mystrom.py:72-74 | a cycle over an empty snapshot leaves timestamps and both gauges unchanged |
| `MyStrom.CycleGauges` | mystrom.py:78-82 | a reporting device's power gauge becomes its reported power and its energy gauge grows by exactly its measurement's energy, starting from 0; every other label keeps its presence and value in both gauges |
| `MyStrom.CycleSwapsTimestamps` | mystrom.py:63-76 | a cycle stores `now2` for every reporting device of the snapshot; all other timestamps keep their presence and value |
| `MyStrom.CycleEnergyNonDecreasing` | mystrom.py:47-82 | with non-negative `Ws` values and a clock not running backwards, no energy gauge decreases and new ones start non-negative |
| `MyStrom.CycleKeepsLabelsConsistent` | mystrom.py:63-82 | a cycle keeps both gauges on the same label set, and every label has a stored timestamp |
| `MyStrom.Exporter.constructor` | mystrom.py:12-17 | the initial state: empty registry, no timestamps, no gauge labels |
| `MyStrom.Exporter.Announce` | mystrom.py:33 | adds the sender to the registry and changes nothing else |
| `MyStrom.Exporter.Listen` | mystrom.py:29-35 | the receive loop leaves the registry equal to `Announced` of the senders, and changes nothing else |
| `MyStrom.Exporter.FetchOutcome` | mystrom.py:54-67 | returns `FetchResult` of the old timestamps; `Unreachable` removes the device (which must be registered); a report performs the store-and-swap; the gauges are unchanged |
| `MyStrom.Exporter.Record` | mystrom.py:81-82 | sets the power gauge of the measured device and increments its energy gauge by the measurement's energy, starting from 0 |
| `MyStrom.Exporter.FetchAll` | mystrom.py:76 | queries each snapshot device exactly once, in some order; each result is computed from the timestamps at cycle start; the registry and timestamps end as `Reporting` and `CycleTimestamps` of the snapshot |
| `MyStrom.Exporter.Publish` | mystrom.py:78-82 | the `for` loop over the results: skips each missing result and records the others in order, leaving the gauges equal to `PublishPower` and `PublishEnergy` of the results |
| `MyStrom.PublishPowerIsCyclePower` | mystrom.py:76-81 | publishing the results of querying distinct devices, in any order, gives the power gauge of the cycle's closed form |
| `MyStrom.PublishEnergyIsCycleEnergy` | mystrom.py:76-82 | publishing the results of querying distinct devices, in any order, gives the energy gauge of the cycle's closed form |
| `MyStrom.Exporter.PollCycle` | mystrom.py:72-84 | an empty registry changes nothing and is not polled; otherwise the new state is the closed form of a cycle over the registry as it was at cycle start |

## Left out

- The UDP socket: creating it, binding port 7979, `recvfrom`, the one-second timeout and the `terminate` flag. These are operating-system I/O; only their effect `devices.add(ip)` is modelled, with the senders as a parameter of `Listen`.
- The aiohttp session, the HTTP GET and `res.json()`. These are foreign library calls, replaced by an `Outcome` given by the caller.
- Every exception other than `aiohttp.ClientConnectorError`: a reply that is not JSON, a missing field, and every timeout of the `timeout=1` query, whether it fires while connecting or while reading. In the code these raise out of `asyncio.gather` and end the polling loop, so they are not modelled as a handled case.
- The concurrency of `asyncio.gather` and of the listener thread. A cycle is a sequential pass over the snapshot, and no announcement arrives during it. In the code the results list follows the snapshot's iteration order while the state changes follow completion order; `FetchAll` uses one order for both, and the cycle's final state is the same for every order.
- `FetchOutcome`: requires an `Unreachable` device to be registered, so the `KeyError` that `devices.remove` raises for an absent address is not modelled. Every call meets the requirement: the only caller queries the distinct addresses of the registry, and only a device's own query removes it.
- The one-second and fifteen-second sleeps. These are timing only.
- The Quart application, its routes `/` and `/metrics`, the serving hooks, and the Prometheus registry and its text rendering. These are framework glue; the gauges are maps from label to value.
- Floating-point rounding in the energy formula. The model computes over exact `real` values.
- The `datetime` and `timedelta` types. They are integer microseconds.
- `CycleEnergyNonDecreasing`: holds only under preconditions (non-negative `Ws`, clock not running backwards). The code itself does not promise a non-decreasing energy gauge.
