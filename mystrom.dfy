/**
 A model of the bookkeeping of the myStrom power-meter exporter: the registry of
 announced devices, the per-device timestamp of the last successful report, and
 the two label-keyed gauges (current power and accumulated energy) that one poll
 cycle updates.

 Network I/O is abstracted: an announcement is the sender's address, a report
 query is an `Outcome`, and every reading of the wall clock is an integer number
 of microseconds supplied by the caller.
 */
module MyStrom {

  /** A device's network address, the key of all per-device state. */
  type Ip = string

  datatype Option<T> = None | Some(value: T)

  /** What one query of a device's report endpoint yields: the connection error
      that the exporter catches (`aiohttp.ClientConnectorError`), or the two
      numbers of the report, `power` and `Ws`. */
  datatype Outcome = Unreachable | Report(power: real, ws: real)

  /** Clock readings and intervals are microseconds, the resolution of a datetime. */
  const MicrosPerSecond: int := 1000000

  /** The length of an interval in seconds, as `timedelta.total_seconds` gives it. */
  function Seconds(interval: int): real
  {
    interval as real / MicrosPerSecond as real
  }

  /** One successful reading of a device. `avgPower` is the report's `Ws` field;
      `interval` is the time since the device's previous successful reading. */
  datatype Measurement = Measurement(device: Ip, power: real, avgPower: real, interval: int)
  {
    /** The energy of the interval in watt-hours: average power times hours. */
    function Energy(): real
    {
      avgPower * Seconds(interval) / 3600.0
    }
  }

  function Lookup<V>(m: map<Ip, V>, key: Ip, default: V): V
  {
    if key in m then m[key] else default
  }

  // ---------------------------------------------------------------------------
  // One fetch of one device
  // ---------------------------------------------------------------------------

  /** The interval of a reading: the second clock reading minus the stored
      timestamp, where the first clock reading stands in for a missing one. */
  function Interval(timestamps: map<Ip, int>, ip: Ip, now1: int, now2: int): int
  {
    now2 - Lookup(timestamps, ip, now1)
  }

  /** The measurement a fetch returns, given the timestamps before it. */
  function FetchResult(timestamps: map<Ip, int>, ip: Ip, outcome: Outcome, now1: int, now2: int)
    : Option<Measurement>
  {
    match outcome
    case Unreachable => None
    case Report(p, ws) => Some(Measurement(ip, p, ws, Interval(timestamps, ip, now1, now2)))
  }

  /** The timestamps after a fetch: a report stores the second clock reading. */
  function FetchTimestamps(timestamps: map<Ip, int>, ip: Ip, outcome: Outcome, now2: int): map<Ip, int>
  {
    if outcome.Report? then timestamps[ip := now2] else timestamps
  }

  lemma EnergyOfOneHour(device: Ip, power: real)
    ensures Measurement(device, power, 100.0, 3600 * MicrosPerSecond).Energy() == 100.0
  {
  }

  /** Energy is linear in the interval: splitting an interval splits its energy. */
  lemma EnergyAdditive(device: Ip, power: real, avgPower: real, a: int, b: int)
    ensures Measurement(device, power, avgPower, a + b).Energy()
         == Measurement(device, power, avgPower, a).Energy() + Measurement(device, power, avgPower, b).Energy()
  {
  }

  lemma EnergyNonNegative(m: Measurement)
    requires m.avgPower >= 0.0 && m.interval >= 0
    ensures m.Energy() >= 0.0
  {
  }

  /** A report yields a measurement of the reporting device that carries the
      report's numbers unchanged, timed from the stored timestamp if there is
      one and from the first clock reading otherwise; a connection failure
      yields none. */
  lemma FetchedMeasurement(timestamps: map<Ip, int>, ip: Ip, outcome: Outcome, now1: int, now2: int)
    ensures FetchResult(timestamps, ip, outcome, now1, now2).Some? <==> outcome.Report?
    ensures outcome.Report? ==>
      var m := FetchResult(timestamps, ip, outcome, now1, now2).value;
      && m.device == ip && m.power == outcome.power && m.avgPower == outcome.ws
      && m.interval == (if ip in timestamps then now2 - timestamps[ip] else now2 - now1)
  {
  }

  /** On a device's first report, with both clock readings equal, the interval
      and hence the energy are zero. */
  lemma FirstFetchIsEmptyInterval(timestamps: map<Ip, int>, ip: Ip, power: real, ws: real, now: int)
    requires ip !in timestamps
    ensures FetchResult(timestamps, ip, Report(power, ws), now, now).value.interval == 0
    ensures FetchResult(timestamps, ip, Report(power, ws), now, now).value.Energy() == 0.0
  {
  }

  /** The store-and-swap: a report stores the second clock reading for its
      device and touches no other entry; a connection failure touches nothing. */
  lemma FetchSwapsTimestamp(timestamps: map<Ip, int>, ip: Ip, outcome: Outcome, now2: int, other: Ip)
    requires other != ip
    ensures outcome.Report? ==>
      ip in FetchTimestamps(timestamps, ip, outcome, now2) && FetchTimestamps(timestamps, ip, outcome, now2)[ip] == now2
    ensures outcome.Unreachable? ==> FetchTimestamps(timestamps, ip, outcome, now2) == timestamps
    ensures (other in FetchTimestamps(timestamps, ip, outcome, now2)) == (other in timestamps)
    ensures other in timestamps ==> FetchTimestamps(timestamps, ip, outcome, now2)[other] == timestamps[other]
  {
  }

  // ---------------------------------------------------------------------------
  // Repeated fetches of one device
  // ---------------------------------------------------------------------------

  /** One query of a device: its outcome and the two clock readings taken during it. */
  datatype Query = Query(outcome: Outcome, now1: int, now2: int)

  /** The timestamps after a device has been queried as `queries` say, in turn. */
  function ReplayTimestamps(timestamps: map<Ip, int>, ip: Ip, queries: seq<Query>): map<Ip, int>
    decreases |queries|
  {
    if queries == [] then timestamps
    else ReplayTimestamps(FetchTimestamps(timestamps, ip, queries[0].outcome, queries[0].now2), ip, queries[1..])
  }

  /** The sum of the intervals of the measurements those queries produce. */
  function Elapsed(timestamps: map<Ip, int>, ip: Ip, queries: seq<Query>): int
    decreases |queries|
  {
    if queries == [] then 0
    else
      var p := queries[0];
      var here := match FetchResult(timestamps, ip, p.outcome, p.now1, p.now2)
                  case None => 0
                  case Some(m) => m.interval;
      here + Elapsed(FetchTimestamps(timestamps, ip, p.outcome, p.now2), ip, queries[1..])
  }

  /** The sum of the energies of the measurements that a device's successive
      `FetchOutcome` results carry. */
  function Accumulated(timestamps: map<Ip, int>, ip: Ip, queries: seq<Query>): real
    decreases |queries|
  {
    if queries == [] then 0.0
    else
      var p := queries[0];
      var here := match FetchResult(timestamps, ip, p.outcome, p.now1, p.now2)
                  case None => 0.0
                  case Some(m) => m.Energy();
      here + Accumulated(FetchTimestamps(timestamps, ip, p.outcome, p.now2), ip, queries[1..])
  }

  /** The intervals of successive readings of a device join up: their sum is
      exactly how far the stored timestamp advanced, so no stretch of time is
      counted twice or lost, connection failures included. */
  lemma {:induction false} ElapsedTelescopes(timestamps: map<Ip, int>, ip: Ip, queries: seq<Query>)
    requires ip in timestamps
    ensures ip in ReplayTimestamps(timestamps, ip, queries)
    ensures Elapsed(timestamps, ip, queries) == ReplayTimestamps(timestamps, ip, queries)[ip] - timestamps[ip]
    decreases |queries|
  {
    if queries != [] {
      var p := queries[0];
      var next := FetchTimestamps(timestamps, ip, p.outcome, p.now2);
      ElapsedTelescopes(next, ip, queries[1..]);
    }
  }

  /** For a device without a timestamp whose first query is a report, the
      intervals add up to the stored timestamp minus that query's first clock
      reading. */
  lemma {:induction false} FirstElapsedTelescopes(timestamps: map<Ip, int>, ip: Ip, queries: seq<Query>)
    requires ip !in timestamps
    requires queries != [] && queries[0].outcome.Report?
    ensures ip in ReplayTimestamps(timestamps, ip, queries)
    ensures Elapsed(timestamps, ip, queries) == ReplayTimestamps(timestamps, ip, queries)[ip] - queries[0].now1
  {
    var p := queries[0];
    var next := FetchTimestamps(timestamps, ip, p.outcome, p.now2);
    ElapsedTelescopes(next, ip, queries[1..]);
  }

  /** When every report carries the same average power, the accumulated energy
      is that power times the total elapsed time. */
  lemma {:induction false} ConstantPowerAccumulates(timestamps: map<Ip, int>, ip: Ip, queries: seq<Query>, avgPower: real)
    requires forall i :: 0 <= i < |queries| && queries[i].outcome.Report? ==> queries[i].outcome.ws == avgPower
    ensures Accumulated(timestamps, ip, queries)
         == Measurement(ip, 0.0, avgPower, Elapsed(timestamps, ip, queries)).Energy()
    decreases |queries|
  {
    if queries != [] {
      var p := queries[0];
      var next := FetchTimestamps(timestamps, ip, p.outcome, p.now2);
      ConstantPowerAccumulates(next, ip, queries[1..], avgPower);
      var rest := Elapsed(next, ip, queries[1..]);
      match p.outcome
      case Unreachable =>
      case Report(_, _) =>
        var here := Interval(timestamps, ip, p.now1, p.now2);
        EnergyAdditive(ip, 0.0, avgPower, here, rest);
    }
  }

  // ---------------------------------------------------------------------------
  // Announcements
  // ---------------------------------------------------------------------------

  /** The registry after the senders' announcements, received in order. */
  function Announced(devices: set<Ip>, senders: seq<Ip>): set<Ip>
    decreases |senders|
  {
    if senders == [] then devices
    else Announced(devices, senders[..|senders| - 1]) + {senders[|senders| - 1]}
  }

  /** Announcements add exactly their senders: duplicates and order do not matter. */
  lemma {:induction false} AnnouncedIsUnion(devices: set<Ip>, senders: seq<Ip>)
    ensures Announced(devices, senders) == devices + Elements(senders)
    decreases |senders|
  {
    if senders != [] {
      var init := senders[..|senders| - 1];
      AnnouncedIsUnion(devices, init);
      assert senders == init + [senders[|senders| - 1]];
      assert Elements(senders) == Elements(init) + {senders[|senders| - 1]};
    }
  }

  /** Receiving the same announcements a second time changes nothing. */
  lemma AnnouncedIdempotent(devices: set<Ip>, senders: seq<Ip>)
    ensures Announced(Announced(devices, senders), senders) == Announced(devices, senders)
  {
    AnnouncedIsUnion(devices, senders);
    AnnouncedIsUnion(Announced(devices, senders), senders);
  }

  // ---------------------------------------------------------------------------
  // One poll cycle, in closed form over the set of devices it covered
  // ---------------------------------------------------------------------------

  /** The devices of `covered` whose query produced a report. */
  function Reporting(covered: set<Ip>, outcome: map<Ip, Outcome>): set<Ip>
    requires covered <= outcome.Keys
  {
    set d | d in covered && outcome[d].Report?
  }

  /** Every device of `covered` has an outcome and two clock readings. */
  predicate Covers(covered: set<Ip>, outcome: map<Ip, Outcome>, now1: map<Ip, int>, now2: map<Ip, int>)
  {
    covered <= outcome.Keys && covered <= now1.Keys && covered <= now2.Keys
  }

  function CycleTimestamps(timestamps: map<Ip, int>, covered: set<Ip>, outcome: map<Ip, Outcome>, now2: map<Ip, int>)
    : map<Ip, int>
    requires covered <= outcome.Keys && covered <= now2.Keys
  {
    var r := Reporting(covered, outcome);
    map d | d in timestamps.Keys + r :: if d in r then now2[d] else timestamps[d]
  }

  function CyclePower(power: map<Ip, real>, covered: set<Ip>, outcome: map<Ip, Outcome>): map<Ip, real>
    requires covered <= outcome.Keys
  {
    var r := Reporting(covered, outcome);
    map d | d in power.Keys + r :: if d in r then outcome[d].power else power[d]
  }

  /** The energy a reporting device's measurement adds in the cycle. */
  function CycleIncrement(timestamps: map<Ip, int>, d: Ip, outcome: map<Ip, Outcome>, now1: map<Ip, int>, now2: map<Ip, int>)
    : real
    requires d in outcome && d in now1 && d in now2
  {
    match FetchResult(timestamps, d, outcome[d], now1[d], now2[d])
    case None => 0.0
    case Some(m) => m.Energy()
  }

  function CycleEnergy(energy: map<Ip, real>, timestamps: map<Ip, int>, covered: set<Ip>,
                       outcome: map<Ip, Outcome>, now1: map<Ip, int>, now2: map<Ip, int>): map<Ip, real>
    requires Covers(covered, outcome, now1, now2)
  {
    var r := Reporting(covered, outcome);
    map d | d in energy.Keys + r ::
      if d in r then Lookup(energy, d, 0.0) + CycleIncrement(timestamps, d, outcome, now1, now2) else energy[d]
  }

  /** After a cycle the registry holds exactly the covered devices that answered. */
  lemma CycleRemovesUnreachable(covered: set<Ip>, outcome: map<Ip, Outcome>, d: Ip)
    requires covered <= outcome.Keys
    ensures d in Reporting(covered, outcome) <==> d in covered && !outcome[d].Unreachable?
  {
  }

  /** A cycle over an empty registry changes no timestamp and no gauge. */
  lemma EmptyCycleChangesNothing(timestamps: map<Ip, int>, power: map<Ip, real>, energy: map<Ip, real>,
                                 outcome: map<Ip, Outcome>, now1: map<Ip, int>, now2: map<Ip, int>)
    ensures CycleTimestamps(timestamps, {}, outcome, now2) == timestamps
    ensures CyclePower(power, {}, outcome) == power
    ensures CycleEnergy(energy, timestamps, {}, outcome, now1, now2) == energy
  {
  }

  /** Power is last-write-wins, energy grows by exactly the measurement's energy,
      and every label the cycle did not measure keeps its gauge values. */
  lemma CycleGauges(power: map<Ip, real>, energy: map<Ip, real>, timestamps: map<Ip, int>, covered: set<Ip>,
                    outcome: map<Ip, Outcome>, now1: map<Ip, int>, now2: map<Ip, int>, d: Ip)
    requires Covers(covered, outcome, now1, now2)
    ensures d in covered && outcome[d].Report? ==>
      var m := FetchResult(timestamps, d, outcome[d], now1[d], now2[d]).value;
      && d in CyclePower(power, covered, outcome) && CyclePower(power, covered, outcome)[d] == m.power
      && d in CycleEnergy(energy, timestamps, covered, outcome, now1, now2)
      && CycleEnergy(energy, timestamps, covered, outcome, now1, now2)[d] == Lookup(energy, d, 0.0) + m.Energy()
    ensures !(d in covered && outcome[d].Report?) ==>
      && (d in CyclePower(power, covered, outcome) <==> d in power)
      && (d in power ==> CyclePower(power, covered, outcome)[d] == power[d])
      && (d in CycleEnergy(energy, timestamps, covered, outcome, now1, now2) <==> d in energy)
      && (d in energy ==> CycleEnergy(energy, timestamps, covered, outcome, now1, now2)[d] == energy[d])
  {
  }

  /** A cycle stores the second clock reading of every device that reported
      and leaves every other timestamp as it was. */
  lemma CycleSwapsTimestamps(timestamps: map<Ip, int>, covered: set<Ip>, outcome: map<Ip, Outcome>,
                             now2: map<Ip, int>, d: Ip)
    requires covered <= outcome.Keys && covered <= now2.Keys
    ensures d in covered && outcome[d].Report? ==>
      d in CycleTimestamps(timestamps, covered, outcome, now2) && CycleTimestamps(timestamps, covered, outcome, now2)[d] == now2[d]
    ensures !(d in covered && outcome[d].Report?) ==>
      && (d in CycleTimestamps(timestamps, covered, outcome, now2) <==> d in timestamps)
      && (d in timestamps ==> CycleTimestamps(timestamps, covered, outcome, now2)[d] == timestamps[d])
  {
  }

  /** With non-negative average powers and a clock that does not run backwards,
      no energy gauge decreases and every new one starts non-negative. */
  lemma CycleEnergyNonDecreasing(energy: map<Ip, real>, timestamps: map<Ip, int>, covered: set<Ip>,
                                 outcome: map<Ip, Outcome>, now1: map<Ip, int>, now2: map<Ip, int>)
    requires Covers(covered, outcome, now1, now2)
    requires forall d :: d in covered && outcome[d].Report? ==>
      outcome[d].ws >= 0.0 && now2[d] >= Lookup(timestamps, d, now1[d])
    requires forall d :: d in energy ==> energy[d] >= 0.0
    ensures energy.Keys <= CycleEnergy(energy, timestamps, covered, outcome, now1, now2).Keys
    ensures forall d :: d in energy ==> CycleEnergy(energy, timestamps, covered, outcome, now1, now2)[d] >= energy[d]
    ensures forall d :: d in CycleEnergy(energy, timestamps, covered, outcome, now1, now2) ==>
      CycleEnergy(energy, timestamps, covered, outcome, now1, now2)[d] >= 0.0
  {
  }

  /** The gauges' labels are created together, and only for a device that has
      reported, so they are the same set and each has a stored timestamp. */
  ghost predicate LabelsConsistent(timestamps: map<Ip, int>, power: map<Ip, real>, energy: map<Ip, real>)
  {
    power.Keys == energy.Keys && power.Keys <= timestamps.Keys
  }

  lemma CycleKeepsLabelsConsistent(timestamps: map<Ip, int>, power: map<Ip, real>, energy: map<Ip, real>,
                                   covered: set<Ip>, outcome: map<Ip, Outcome>, now1: map<Ip, int>, now2: map<Ip, int>)
    requires Covers(covered, outcome, now1, now2)
    requires LabelsConsistent(timestamps, power, energy)
    ensures LabelsConsistent(CycleTimestamps(timestamps, covered, outcome, now2),
                             CyclePower(power, covered, outcome),
                             CycleEnergy(energy, timestamps, covered, outcome, now1, now2))
  {
  }

  // ---------------------------------------------------------------------------
  // Step lemmas that let the cycle's loops be proved against the closed forms
  // ---------------------------------------------------------------------------

  lemma ReportingStep(covered: set<Ip>, outcome: map<Ip, Outcome>, d: Ip)
    requires covered <= outcome.Keys && d in outcome
    ensures Reporting(covered + {d}, outcome)
         == if outcome[d].Report? then Reporting(covered, outcome) + {d} else Reporting(covered, outcome)
  {
  }

  lemma CycleTimestampsStep(timestamps: map<Ip, int>, covered: set<Ip>, outcome: map<Ip, Outcome>,
                            now2: map<Ip, int>, d: Ip)
    requires covered <= outcome.Keys && covered <= now2.Keys && d in outcome && d in now2 && d !in covered
    ensures CycleTimestamps(timestamps, covered + {d}, outcome, now2)
         == FetchTimestamps(CycleTimestamps(timestamps, covered, outcome, now2), d, outcome[d], now2[d])
  {
    ReportingStep(covered, outcome, d);
  }

  lemma CyclePowerStep(power: map<Ip, real>, covered: set<Ip>, outcome: map<Ip, Outcome>, d: Ip)
    requires covered <= outcome.Keys && d in outcome && d !in covered
    ensures CyclePower(power, covered + {d}, outcome)
         == if outcome[d].Report? then CyclePower(power, covered, outcome)[d := outcome[d].power]
            else CyclePower(power, covered, outcome)
  {
    ReportingStep(covered, outcome, d);
  }

  lemma CycleEnergyStep(energy: map<Ip, real>, timestamps: map<Ip, int>, covered: set<Ip>,
                        outcome: map<Ip, Outcome>, now1: map<Ip, int>, now2: map<Ip, int>, d: Ip)
    requires Covers(covered + {d}, outcome, now1, now2) && d !in covered
    ensures
      var e := CycleEnergy(energy, timestamps, covered, outcome, now1, now2);
      CycleEnergy(energy, timestamps, covered + {d}, outcome, now1, now2)
      == if outcome[d].Report? then e[d := Lookup(e, d, 0.0) + CycleIncrement(timestamps, d, outcome, now1, now2)]
         else e
  {
    ReportingStep(covered, outcome, d);
    var e := CycleEnergy(energy, timestamps, covered, outcome, now1, now2);
    assert Lookup(e, d, 0.0) == Lookup(energy, d, 0.0);
  }

  /** The set of the addresses a sequence holds: the distinct senders of a run
      of announcements, or the devices a cycle has queried so far. */
  function Elements(s: seq<Ip>): set<Ip>
  {
    set x | x in s
  }

  /** Extending a prefix of a duplicate-free sequence adds one new element. */
  lemma ElementsStep(s: seq<Ip>, i: nat)
    requires i < |s| && Distinct(s)
    ensures Elements(s[..i + 1]) == Elements(s[..i]) + {s[i]}
    ensures s[i] !in Elements(s[..i])
  {
  }

  predicate Distinct(s: seq<Ip>)
  {
    forall j, k :: 0 <= j < k < |s| ==> s[j] != s[k]
  }

  lemma DistinctAppend(s: seq<Ip>, x: Ip)
    requires Distinct(s) && x !in Elements(s)
    ensures Distinct(s + [x]) && Elements(s + [x]) == Elements(s) + {x}
  {
  }

  /** The results of querying the devices of `order` in turn, each computed
      from the timestamps at cycle start. */
  function FetchResults(timestamps: map<Ip, int>, order: seq<Ip>, outcome: map<Ip, Outcome>,
                        now1: map<Ip, int>, now2: map<Ip, int>): (r: seq<Option<Measurement>>)
    requires Covers(Elements(order), outcome, now1, now2)
    ensures |r| == |order|
    decreases |order|
  {
    if order == [] then []
    else
      var last := order[|order| - 1];
      assert Elements(order[..|order| - 1]) <= Elements(order);
      FetchResults(timestamps, order[..|order| - 1], outcome, now1, now2)
        + [FetchResult(timestamps, last, outcome[last], now1[last], now2[last])]
  }

  lemma {:induction false} FetchResultsAt(timestamps: map<Ip, int>, order: seq<Ip>, outcome: map<Ip, Outcome>,
                                          now1: map<Ip, int>, now2: map<Ip, int>, i: nat)
    requires Covers(Elements(order), outcome, now1, now2) && i < |order|
    ensures FetchResults(timestamps, order, outcome, now1, now2)[i]
         == FetchResult(timestamps, order[i], outcome[order[i]], now1[order[i]], now2[order[i]])
    decreases |order|
  {
    var init := order[..|order| - 1];
    assert Elements(init) <= Elements(order);
    if i < |init| {
      FetchResultsAt(timestamps, init, outcome, now1, now2, i);
    } else if init != [] {
      FetchResultsAt(timestamps, init, outcome, now1, now2, 0);
    }
  }

  /** The state part-way through a cycle's queries: the devices of `order`
      have been queried in that order, those of `pending` not yet. */
  ghost predicate FetchedSoFar(snapshot: set<Ip>, pending: set<Ip>, order: seq<Ip>, results: seq<Option<Measurement>>,
                               devices: set<Ip>, timestamps: map<Ip, int>, ts0: map<Ip, int>,
                               outcome: map<Ip, Outcome>, now1: map<Ip, int>, now2: map<Ip, int>)
  {
    && Covers(snapshot, outcome, now1, now2)
    && Distinct(order)
    && Elements(order) !! pending && Elements(order) + pending == snapshot
    && results == FetchResults(ts0, order, outcome, now1, now2)
    && devices == Reporting(Elements(order), outcome) + pending
    && timestamps == CycleTimestamps(ts0, Elements(order), outcome, now2)
  }

  /** Querying one more pending device keeps `FetchedSoFar`; the device is
      still registered, and its stored timestamp is the one at cycle start. */
  lemma FetchedOneMore(snapshot: set<Ip>, pending: set<Ip>, order: seq<Ip>, results: seq<Option<Measurement>>,
                       devices: set<Ip>, timestamps: map<Ip, int>, ts0: map<Ip, int>,
                       outcome: map<Ip, Outcome>, now1: map<Ip, int>, now2: map<Ip, int>, ip: Ip)
    requires FetchedSoFar(snapshot, pending, order, results, devices, timestamps, ts0, outcome, now1, now2)
    requires ip in pending
    ensures ip in devices
    ensures FetchResult(timestamps, ip, outcome[ip], now1[ip], now2[ip]) == FetchResult(ts0, ip, outcome[ip], now1[ip], now2[ip])
    ensures FetchedSoFar(snapshot, pending - {ip}, order + [ip],
                         results + [FetchResult(ts0, ip, outcome[ip], now1[ip], now2[ip])],
                         if outcome[ip].Unreachable? then devices - {ip} else devices,
                         FetchTimestamps(timestamps, ip, outcome[ip], now2[ip]), ts0, outcome, now1, now2)
  {
    var done, order' := Elements(order), order + [ip];
    DistinctAppend(order, ip);
    assert Elements(order') !! (pending - {ip}) && Elements(order') + (pending - {ip}) == snapshot;
    assert order'[..|order|] == order;
    assert FetchResults(ts0, order', outcome, now1, now2)
        == results + [FetchResult(ts0, ip, outcome[ip], now1[ip], now2[ip])];
    ReportingStep(done, outcome, ip);
    assert Reporting(Elements(order'), outcome) + (pending - {ip})
        == if outcome[ip].Unreachable? then devices - {ip} else devices;
    CycleSwapsTimestamps(ts0, done, outcome, now2, ip);
    assert Lookup(timestamps, ip, now1[ip]) == Lookup(ts0, ip, now1[ip]);
    CycleTimestampsStep(ts0, done, outcome, now2, ip);
  }

  /** The power gauge after publishing `results` in order: a missing result
      is skipped, a measurement sets its device's value. */
  function PublishPower(power: map<Ip, real>, results: seq<Option<Measurement>>): map<Ip, real>
    decreases |results|
  {
    if results == [] then power
    else
      var before := PublishPower(power, results[..|results| - 1]);
      match results[|results| - 1]
      case None => before
      case Some(m) => before[m.device := m.power]
  }

  /** The energy gauge after publishing `results` in order: a measurement
      increments its device's value, which starts at zero, by its energy. */
  function PublishEnergy(energy: map<Ip, real>, results: seq<Option<Measurement>>): map<Ip, real>
    decreases |results|
  {
    if results == [] then energy
    else
      var before := PublishEnergy(energy, results[..|results| - 1]);
      match results[|results| - 1]
      case None => before
      case Some(m) => before[m.device := Lookup(before, m.device, 0.0) + m.Energy()]
  }

  lemma PublishSnoc(power: map<Ip, real>, energy: map<Ip, real>, results: seq<Option<Measurement>>, r: Option<Measurement>)
    ensures PublishPower(power, results + [r])
         == match r case None => PublishPower(power, results) case Some(m) => PublishPower(power, results)[m.device := m.power]
    ensures PublishEnergy(energy, results + [r])
         == match r
            case None => PublishEnergy(energy, results)
            case Some(m) =>
              var e := PublishEnergy(energy, results); e[m.device := Lookup(e, m.device, 0.0) + m.Energy()]
  {
  }

  lemma FetchResultsSnoc(ts0: map<Ip, int>, order: seq<Ip>, outcome: map<Ip, Outcome>,
                         now1: map<Ip, int>, now2: map<Ip, int>)
    requires order != [] && Covers(Elements(order), outcome, now1, now2)
    ensures
      var n := |order| - 1;
      && Elements(order[..n]) <= Elements(order)
      && FetchResults(ts0, order, outcome, now1, now2)
      == FetchResults(ts0, order[..n], outcome, now1, now2)
         + [FetchResult(ts0, order[n], outcome[order[n]], now1[order[n]], now2[order[n]])]
  {
  }

  /** Publishing the results of querying distinct devices sets the power
      gauge as the closed form of the cycle says. */
  lemma {:induction false} PublishPowerIsCyclePower(power: map<Ip, real>, ts0: map<Ip, int>, order: seq<Ip>,
                                                    outcome: map<Ip, Outcome>, now1: map<Ip, int>, now2: map<Ip, int>)
    requires Distinct(order) && Covers(Elements(order), outcome, now1, now2)
    ensures PublishPower(power, FetchResults(ts0, order, outcome, now1, now2)) == CyclePower(power, Elements(order), outcome)
    decreases |order|
  {
    if order == [] {
      EmptyCycleChangesNothing(ts0, power, map[], outcome, now1, now2);
    } else {
      var n := |order| - 1;
      var init, d := order[..n], order[n];
      ElementsStep(order, n);
      assert order[..n + 1] == order;
      PublishPowerIsCyclePower(power, ts0, init, outcome, now1, now2);
      FetchResultsSnoc(ts0, order, outcome, now1, now2);
      PublishSnoc(power, map[], FetchResults(ts0, init, outcome, now1, now2),
                  FetchResult(ts0, d, outcome[d], now1[d], now2[d]));
      CyclePowerStep(power, Elements(init), outcome, d);
    }
  }

  /** Publishing the results of querying distinct devices increments the
      energy gauge as the closed form of the cycle says. */
  lemma {:induction false} PublishEnergyIsCycleEnergy(energy: map<Ip, real>, ts0: map<Ip, int>, order: seq<Ip>,
                                                      outcome: map<Ip, Outcome>, now1: map<Ip, int>, now2: map<Ip, int>)
    requires Distinct(order) && Covers(Elements(order), outcome, now1, now2)
    ensures PublishEnergy(energy, FetchResults(ts0, order, outcome, now1, now2))
         == CycleEnergy(energy, ts0, Elements(order), outcome, now1, now2)
    decreases |order|
  {
    if order == [] {
      EmptyCycleChangesNothing(ts0, map[], energy, outcome, now1, now2);
    } else {
      var n := |order| - 1;
      var init, d := order[..n], order[n];
      ElementsStep(order, n);
      assert order[..n + 1] == order;
      PublishEnergyIsCycleEnergy(energy, ts0, init, outcome, now1, now2);
      FetchResultsSnoc(ts0, order, outcome, now1, now2);
      PublishSnoc(map[], energy, FetchResults(ts0, init, outcome, now1, now2),
                  FetchResult(ts0, d, outcome[d], now1[d], now2[d]));
      CycleEnergyStep(energy, ts0, Elements(init), outcome, now1, now2, d);
    }
  }

  /** A result of a cycle's queries is a measurement of a device that reported. */
  lemma FetchResultsReport(order: seq<Ip>, results: seq<Option<Measurement>>, i: nat, ts0: map<Ip, int>,
                           outcome: map<Ip, Outcome>, now1: map<Ip, int>, now2: map<Ip, int>)
    requires Covers(Elements(order), outcome, now1, now2)
    requires results == FetchResults(ts0, order, outcome, now1, now2)
    requires i < |order| && results[i].Some?
    ensures results[i].value.device in Reporting(Elements(order), outcome)
  {
    FetchResultsAt(ts0, order, outcome, now1, now2, i);
  }

  // ---------------------------------------------------------------------------
  // The exporter's state and operations
  // ---------------------------------------------------------------------------

  class Exporter {
    /** The registry of announced devices. */
    var devices: set<Ip>
    /** The clock reading of each device's last successful report. */
    var timestamps: map<Ip, int>
    /** The power gauge, by device label. */
    var power: map<Ip, real>
    /** The energy gauge, by device label. */
    var energy: map<Ip, real>

    ghost predicate Valid()
      reads this
    {
      LabelsConsistent(timestamps, power, energy)
    }

    constructor ()
      ensures Valid()
      ensures devices == {} && timestamps == map[] && power == map[] && energy == map[]
    {
      devices := {};
      timestamps := map[];
      power := map[];
      energy := map[];
    }

    /** Registers the sender of an announcement. */
    method Announce(ip: Ip)
      requires Valid()
      modifies this
      ensures Valid()
      ensures devices == old(devices) + {ip}
      ensures timestamps == old(timestamps) && power == old(power) && energy == old(energy)
    {
      devices := devices + {ip};
    }

    /** The listener's receive loop, over the senders of the packets it receives. */
    method Listen(senders: seq<Ip>)
      requires Valid()
      modifies this
      ensures Valid()
      ensures devices == Announced(old(devices), senders)
      ensures timestamps == old(timestamps) && power == old(power) && energy == old(energy)
    {
      var i := 0;
      while i < |senders|
        invariant 0 <= i <= |senders|
        invariant Valid()
        invariant devices == Announced(old(devices), senders[..i])
        invariant timestamps == old(timestamps) && power == old(power) && energy == old(energy)
      {
        assert senders[..i + 1][..i] == senders[..i];
        Announce(senders[i]);
        i := i + 1;
      }
      assert senders[..i] == senders;
    }

    /** The state changes of one report query, given its outcome and the two
        clock readings. A `ClientConnectorError` deregisters the device, which
        must then be registered (removing an absent element raises). */
    method FetchOutcome(ip: Ip, outcome: Outcome, now1: int, now2: int) returns (m: Option<Measurement>)
      requires Valid()
      requires outcome.Unreachable? ==> ip in devices
      modifies this
      ensures Valid()
      ensures m == FetchResult(old(timestamps), ip, outcome, now1, now2)
      ensures devices == if outcome.Unreachable? then old(devices) - {ip} else old(devices)
      ensures timestamps == FetchTimestamps(old(timestamps), ip, outcome, now2)
      ensures power == old(power) && energy == old(energy)
    {
      match outcome
      case Unreachable =>
        devices := devices - {ip};
        m := None;
      case Report(p, ws) =>
        var last := Lookup(timestamps, ip, now1);
        timestamps := timestamps[ip := now2];
        var delta := timestamps[ip] - last;
        m := Some(Measurement(ip, p, ws, delta));
    }

    /** Publishes one measurement: sets the power gauge and increments the
        energy gauge (a new label starts at zero). */
    method Record(m: Measurement)
      requires Valid() && m.device in timestamps
      modifies this
      ensures Valid()
      ensures power == old(power)[m.device := m.power]
      ensures energy == old(energy)[m.device := Lookup(old(energy), m.device, 0.0) + m.Energy()]
      ensures devices == old(devices) && timestamps == old(timestamps)
    {
      power := power[m.device := m.power];
      energy := energy[m.device := Lookup(energy, m.device, 0.0) + m.Energy()];
    }

    /** The fan-out and fan-in of a cycle: queries every device of `snapshot`
        once, in an unspecified order, and lists the results in that order
        (`order` names the device of each result). The exporter lists the
        results in the snapshot's iteration order while the state changes
        happen in completion order; one order stands for both here, which
        loses nothing because the cycle's final state is the same for every
        order (`PublishPowerIsCyclePower`, `PublishEnergyIsCycleEnergy`). */
    method FetchAll(snapshot: set<Ip>, outcome: map<Ip, Outcome>, now1: map<Ip, int>, now2: map<Ip, int>)
      returns (results: seq<Option<Measurement>>, ghost order: seq<Ip>)
      requires Valid() && snapshot == devices
      requires Covers(snapshot, outcome, now1, now2)
      modifies this
      ensures Valid()
      ensures Distinct(order) && Elements(order) == snapshot
      ensures results == FetchResults(old(timestamps), order, outcome, now1, now2)
      ensures devices == Reporting(snapshot, outcome)
      ensures timestamps == CycleTimestamps(old(timestamps), snapshot, outcome, now2)
      ensures power == old(power) && energy == old(energy)
    {
      ghost var ts0 := timestamps;
      var pending := snapshot;
      results, order := [], [];
      assert Reporting({}, outcome) == {};
      while pending != {}
        invariant Valid()
        invariant FetchedSoFar(snapshot, pending, order, results, devices, timestamps, ts0, outcome, now1, now2)
        invariant power == old(power) && energy == old(energy)
        decreases pending
      {
        var ip :| ip in pending;
        FetchedOneMore(snapshot, pending, order, results, devices, timestamps, ts0, outcome, now1, now2, ip);
        var m := FetchOutcome(ip, outcome[ip], now1[ip], now2[ip]);
        results := results + [m];
        order := order + [ip];
        pending := pending - {ip};
      }
    }

    /** The fold of a cycle's results into the gauges: a missing result is
        skipped, any other is recorded. */
    method Publish(results: seq<Option<Measurement>>)
      requires Valid()
      requires forall i :: 0 <= i < |results| && results[i].Some? ==> results[i].value.device in timestamps
      modifies this
      ensures Valid()
      ensures power == PublishPower(old(power), results)
      ensures energy == PublishEnergy(old(energy), results)
      ensures devices == old(devices) && timestamps == old(timestamps)
    {
      var i := 0;
      while i < |results|
        invariant 0 <= i <= |results|
        invariant Valid()
        invariant devices == old(devices) && timestamps == old(timestamps)
        invariant power == PublishPower(old(power), results[..i])
        invariant energy == PublishEnergy(old(energy), results[..i])
      {
        assert results[..i + 1][..i] == results[..i];
        match results[i] {
          case None =>
          case Some(m) => Record(m);
        }
        i := i + 1;
      }
      assert results[..i] == results;
    }

    /** One iteration of the polling loop. An empty registry is left alone
        (`polled` is false). Otherwise every device of the registry as it is at
        the start is queried, and then the results are folded into the gauges. */
    method PollCycle(outcome: map<Ip, Outcome>, now1: map<Ip, int>, now2: map<Ip, int>) returns (polled: bool)
      requires Valid()
      requires Covers(devices, outcome, now1, now2)
      modifies this
      ensures Valid()
      ensures polled == (old(devices) != {})
      ensures devices == Reporting(old(devices), outcome)
      ensures timestamps == CycleTimestamps(old(timestamps), old(devices), outcome, now2)
      ensures power == CyclePower(old(power), old(devices), outcome)
      ensures energy == CycleEnergy(old(energy), old(timestamps), old(devices), outcome, now1, now2)
    {
      if devices == {} {
        EmptyCycleChangesNothing(timestamps, power, energy, outcome, now1, now2);
        return false;
      }
      polled := true;
      var snapshot := devices;
      ghost var ts0 := timestamps;
      var results, order := FetchAll(snapshot, outcome, now1, now2);
      forall i | 0 <= i < |results| && results[i].Some?
        ensures results[i].value.device in timestamps
      {
        FetchResultsReport(order, results, i, ts0, outcome, now1, now2);
        CycleSwapsTimestamps(ts0, snapshot, outcome, now2, results[i].value.device);
      }
      Publish(results);
      PublishPowerIsCyclePower(old(power), ts0, order, outcome, now1, now2);
      PublishEnergyIsCycleEnergy(old(energy), ts0, order, outcome, now1, now2);
    }
  }
}
