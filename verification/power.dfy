/** The UPS HAT worker (power/ups_hat.py): the battery charge estimated from
    the bus voltage, and the three battery keys written per reading. */
module Power {
  import Redis

  /** Bus voltage of a full cell, and of an empty one. */
  const VFull: real := 4.2
  const VEmpty: real := 3.0

  /** The keys one reading writes. */
  const BatteryKeys: set<string> := {"battery_power", "battery_voltage", "battery_load"}

  function MaxReal(a: real, b: real): real { if a >= b then a else b }

  function MinReal(a: real, b: real): real { if a <= b then a else b }

  /** The charge level in percent: the linear interpolation of the bus
      voltage between empty and full, clamped to [0, 100]. */
  function ChargeLevel(busVoltage: real): (p: real)
    ensures 0.0 <= p <= 100.0
    ensures busVoltage >= VFull ==> p == 100.0
    ensures busVoltage <= VEmpty ==> p == 0.0
  {
    MaxReal(0.0, MinReal(100.0, (busVoltage - VEmpty) / (VFull - VEmpty) * 100.0))
  }

  /** Between the thresholds the clamp does nothing. */
  lemma ChargeBetweenThresholds(busVoltage: real)
    requires VEmpty <= busVoltage <= VFull
    ensures ChargeLevel(busVoltage) == (busVoltage - 3.0) / 1.2 * 100.0
  {
  }

  /** Half way between the thresholds is half charge. */
  lemma HalfCharge()
    ensures ChargeLevel(3.6) == 50.0
  {
    ChargeBetweenThresholds(3.6);
  }

  /** A higher bus voltage never gives a lower charge. */
  lemma ChargeMonotone(v1: real, v2: real)
    requires v1 <= v2
    ensures ChargeLevel(v1) <= ChargeLevel(v2)
  {
    assert (v1 - VEmpty) / (VFull - VEmpty) <= (v2 - VEmpty) / (VFull - VEmpty);
  }

  /** The two sensor values of one iteration. */
  datatype Reading = Reading(busVoltage: real, power: real)

  /** The pipeline of one iteration. `roundText(x, n)` is the text stored for
      `round(x, n)`, with `n = 0` standing for `round(x)`. */
  function BatteryBatch(reading: Reading, roundText: (real, nat) -> string): (cmds: seq<Redis.Write>)
    ensures Redis.WrittenKeys(cmds) == BatteryKeys
  {
    var cmds := [
      Redis.Write("battery_power", roundText(ChargeLevel(reading.busVoltage), 0)),
      Redis.Write("battery_voltage", roundText(reading.busVoltage, 2)),
      Redis.Write("battery_load", roundText(reading.power, 2)) ];
    assert forall k :: k in Redis.WrittenKeys(cmds) ==> k in BatteryKeys;
    assert cmds[0].key in Redis.WrittenKeys(cmds) && cmds[1].key in Redis.WrittenKeys(cmds)
      && cmds[2].key in Redis.WrittenKeys(cmds);
    cmds
  }

  /** One iteration adds or replaces exactly the three battery keys, leaves
      every other key as it was, and stores the rounded charge level under
      `battery_power`. */
  lemma BatchWritesBatteryKeys(m: map<string, string>, reading: Reading, roundText: (real, nat) -> string)
    ensures Redis.ApplySets(m, BatteryBatch(reading, roundText)).Keys == m.Keys + BatteryKeys
    ensures forall k :: k in m && k !in BatteryKeys ==>
      Redis.ApplySets(m, BatteryBatch(reading, roundText))[k] == m[k]
    ensures Redis.ApplySets(m, BatteryBatch(reading, roundText))["battery_power"]
      == roundText(ChargeLevel(reading.busVoltage), 0)
  {
    var cmds := BatteryBatch(reading, roundText);
    Redis.ApplySetsFrame(m, cmds);
    Redis.ApplySetsFrame(m, cmds[..1]);
    Redis.ApplySetsFrame(Redis.ApplySets(m, cmds[..1]), cmds[1..]);
    assert cmds == cmds[..1] + cmds[1..];
    Redis.ApplySetsAppend(m, cmds[..1], cmds[1..]);
    assert "battery_power" !in Redis.WrittenKeys(cmds[1..]);
  }

  /** What the worker observes at the top of one turn of its loop: whether the
      stop event is set, and the sensor values it would read next. */
  datatype Sample = Sample(stopSet: bool, reading: Reading)

  /** The number of turns the loop runs over the observed samples: up to the
      first one with the stop event set. */
  function Iterations(samples: seq<Sample>): (n: nat)
    ensures n <= |samples|
    ensures forall i :: 0 <= i < n ==> !samples[i].stopSet
    ensures n < |samples| ==> samples[n].stopSet
  {
    if samples == [] || samples[0].stopSet then 0 else 1 + Iterations(samples[1..])
  }

  /** The string keyspace after the pipelines of the given readings. */
  function RunBatches(m: map<string, string>, readings: seq<Reading>, roundText: (real, nat) -> string): map<string, string>
    decreases |readings|
  {
    if readings == [] then m
    else Redis.ApplySets(RunBatches(m, readings[..|readings| - 1], roundText),
                         BatteryBatch(readings[|readings| - 1], roundText))
  }

  /** Any number of iterations touches only the three battery keys, and after
      at least one of them all three are present. */
  lemma {:induction false} RunBatchesFrame(m: map<string, string>, readings: seq<Reading>, roundText: (real, nat) -> string)
    ensures readings != [] ==> RunBatches(m, readings, roundText).Keys == m.Keys + BatteryKeys
    ensures forall k :: k in m && k !in BatteryKeys ==> RunBatches(m, readings, roundText)[k] == m[k]
    ensures readings != [] ==>
      (RunBatches(m, readings, roundText)["battery_power"]
         == roundText(ChargeLevel(readings[|readings| - 1].busVoltage), 0))
    decreases |readings|
  {
    if readings != [] {
      RunBatchesFrame(m, readings[..|readings| - 1], roundText);
      BatchWritesBatteryKeys(RunBatches(m, readings[..|readings| - 1], roundText),
                             readings[|readings| - 1], roundText);
    }
  }

  /** The readings taken by the turns that ran. */
  function Taken(samples: seq<Sample>, n: nat): (readings: seq<Reading>)
    requires n <= |samples|
    ensures |readings| == n && forall i :: 0 <= i < n ==> readings[i] == samples[i].reading
  {
    seq(n, i requires 0 <= i < n => samples[i].reading)
  }

  /** `ups_hat(context)` over the observed samples: each turn that starts with
      the stop event clear writes one pipeline; the first turn that sees it
      set ends the loop, so no iteration starts after it. Returns the number
      of turns that ran. */
  method UpsHat(store: Redis.Store, samples: seq<Sample>, roundText: (real, nat) -> string) returns (n: nat)
    modifies store
    ensures n == Iterations(samples)
    ensures store.strings == RunBatches(old(store.strings), Taken(samples, n), roundText)
    ensures store.hashes == old(store.hashes)
  {
    n := 0;
    while n < |samples| && !samples[n].stopSet
      invariant n <= |samples|
      invariant forall i :: 0 <= i < n ==> !samples[i].stopSet
      invariant store.strings == RunBatches(old(store.strings), Taken(samples, n), roundText)
      invariant store.hashes == old(store.hashes)
      decreases |samples| - n
    {
      var reading := samples[n].reading;
      store.Execute(BatteryBatch(reading, roundText));
      assert Taken(samples, n + 1)[..n] == Taken(samples, n);
      n := n + 1;
    }
    IterationsStop(samples, n);
  }

  /** The loop's exit point is the first sample with the stop event set. */
  lemma {:induction false} IterationsStop(samples: seq<Sample>, n: nat)
    requires n <= |samples|
    requires forall i :: 0 <= i < n ==> !samples[i].stopSet
    requires n == |samples| || samples[n].stopSet
    ensures Iterations(samples) == n
    decreases n
  {
    if n > 0 {
      IterationsStop(samples[1..], n - 1);
    }
  }
}
