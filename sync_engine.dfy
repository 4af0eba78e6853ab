/**
  One poll cycle of `_update` as a pure transition on the published values
  and the charging-session state, and the consequences of running it again
  and again: the update index counts published cycles modulo 256, the
  charging time accumulates while a vehicle charges, and nothing moves while
  the charger cannot be read.
 */
module SyncEngine {
  import opened DeviceClient

  /** The 16 energy readings `nrg`, by fixed position (voltages, currents, powers, power factors). */
  type Nrg = s: seq<real> | |s| == 16 witness seq(16, _ => 0.0)

  /** The fields of a status read that the cycle uses. */
  datatype Snapshot = Snapshot(nrg: Nrg, amp: int, ama: int, car: int)

  /**
    The status read: it raised (no response, or no JSON), it returned None
    (the request itself failed), or it returned data.
   */
  datatype Poll = PollRaised | NoData | Data(snapshot: Snapshot)

  /** One timer tick: the status read, whether the surplus push raises, the device oracle, the clock. */
  datatype Tick = Tick(poll: Poll, surplusRaises: bool, device: Device, now: real)

  /** The published values and the instance fields `_charging_time` and `_last_update`. */
  datatype ServiceState = ServiceState(
    power: int, l1Power: int, l2Power: int, l3Power: int,
    current: real, setCurrent: int, maxCurrent: int,
    chargingTimeShown: int, status: int, updateIndex: int,
    startStop: int, mode: int,
    chargingTime: real, lastUpdate: real)

  /** The state right after construction: every published value 0, no poll yet. */
  function Initial(): (s: ServiceState)
    ensures s.updateIndex == 0 && s.lastUpdate == 0.0 && s.chargingTime == 0.0
  {
    ServiceState(0, 0, 0, 0, 0.0, 0, 0, 0, 0, 0, 0, 0, 0.0, 0.0)
  }

  /** Python's `int()` of a float: truncation toward zero. */
  function Trunc(x: real): (r: int)
    ensures 0.0 <= x ==> 0 <= r && r as real <= x < r as real + 1.0
    ensures x < 0.0 ==> r <= 0 && r as real - 1.0 < x <= r as real
  {
    if x >= 0.0 then x.Floor else -((-x).Floor)
  }

  /** Python's `max` of the three phase currents. */
  function Max3(a: real, b: real, c: real): (m: real)
    ensures a <= m && b <= m && c <= m
    ensures m == a || m == b || m == c
  {
    if a >= b && a >= c then a else if b >= c then b else c
  }

  /** The published `/Status` for a `car` code. */
  function StatusOf(car: int): (status: int)
    ensures status in {0, 2, 3, 6}
    ensures status == 2 <==> car == 2
    ensures status == 0 <==> car != 2 && car != 3 && car != 4
  {
    if car == 1 then 0
    else if car == 2 then 2
    else if car == 3 then 6
    else if car == 4 then 3
    else 0
  }

  /** The status table, code by code. */
  lemma StatusTable(car: int)
    ensures StatusOf(1) == 0 && StatusOf(2) == 2 && StatusOf(3) == 6 && StatusOf(4) == 3
    ensures !(1 <= car <= 4) ==> StatusOf(car) == 0
  {
  }

  /**
    The charging-time accumulator: it grows by the time since the last
    successful poll while a vehicle charges (and a poll happened before), it
    resets when no vehicle is connected, and it is otherwise frozen.
   */
  function AccumulateChargingTime(elapsed: real, lastUpdate: real, car: int, now: real): (r: real)
    ensures car == 1 ==> r == 0.0
    ensures car != 1 && now >= lastUpdate ==> r >= elapsed
    ensures elapsed >= 0.0 && now >= lastUpdate ==> r >= 0.0
  {
    if car == 2 && lastUpdate > 0.0 then elapsed + (now - lastUpdate)
    else if car == 1 then 0.0
    else elapsed
  }

  /** The accumulator, code by code. */
  lemma ChargingTimeTable(elapsed: real, lastUpdate: real, car: int, now: real)
    ensures car == 2 && lastUpdate > 0.0 ==>
              AccumulateChargingTime(elapsed, lastUpdate, car, now) == elapsed + (now - lastUpdate)
    ensures car == 2 && lastUpdate <= 0.0 ==> AccumulateChargingTime(elapsed, lastUpdate, car, now) == elapsed
    ensures car == 1 ==> AccumulateChargingTime(elapsed, lastUpdate, car, now) == 0.0
    ensures car != 1 && car != 2 ==> AccumulateChargingTime(elapsed, lastUpdate, car, now) == elapsed
  {
  }

  /** The charging time changes, other than by a reset, only while `/Status` reports charging. */
  lemma ChargingTimeMovesOnlyWhileCharging(elapsed: real, lastUpdate: real, car: int, now: real)
    ensures AccumulateChargingTime(elapsed, lastUpdate, car, now) != elapsed
            ==> StatusOf(car) == 2 || AccumulateChargingTime(elapsed, lastUpdate, car, now) == 0.0
  {
  }

  /** The next `/UpdateIndex`: one more, or 0 past 255. */
  function NextIndex(index: int): (r: int)
    ensures r <= 255
    ensures 0 <= index <= 255 ==> r == (index + 1) % 256
    ensures index >= 0 ==> r >= 0
  {
    if index + 1 > 255 then 0 else index + 1
  }

  /** Publishing a snapshot: every telemetry path, the session, the index and the timestamp. */
  function Publish(s: ServiceState, snap: Snapshot, now: real): (r: ServiceState)
    ensures r.mode == s.mode && r.startStop == s.startStop
    ensures r.lastUpdate == now
    ensures r.current >= snap.nrg[4] && r.current >= snap.nrg[5] && r.current >= snap.nrg[6]
  {
    var elapsed := AccumulateChargingTime(s.chargingTime, s.lastUpdate, snap.car, now);
    s.(l1Power := Trunc(snap.nrg[7]), l2Power := Trunc(snap.nrg[8]), l3Power := Trunc(snap.nrg[9]),
       power := Trunc(snap.nrg[11]),
       current := Max3(snap.nrg[4], snap.nrg[5], snap.nrg[6]),
       setCurrent := snap.amp, maxCurrent := snap.ama,
       chargingTime := elapsed, chargingTimeShown := Trunc(elapsed),
       status := StatusOf(snap.car),
       updateIndex := NextIndex(s.updateIndex),
       lastUpdate := now)
  }

  /** The automatic-mode bump of `amp` to `/MaxCurrent`, sent when `/SetCurrent` is below it. */
  predicate BumpsCurrent(s: ServiceState) {
    s.mode == 1 && s.setCurrent < s.maxCurrent
  }

  /**
    The tick gets as far as publishing: the read returned data, and in
    automatic mode neither the surplus push nor the current bump raised.
   */
  predicate Publishes(s: ServiceState, t: Tick) {
    && t.poll.Data?
    && (s.mode == 1 ==> !t.surplusRaises)
    && (BumpsCurrent(s) ==> Send(t.device, Amp, s.maxCurrent) != Failed)
  }

  datatype CycleResult = CycleResult(state: ServiceState, sent: seq<Write>)

  /** One call of `_update`. */
  function Cycle(s: ServiceState, t: Tick): (r: CycleResult)
    ensures r.state.mode == s.mode && r.state.startStop == s.startStop
    ensures r.state == (if Publishes(s, t) then Publish(s, t.poll.snapshot, t.now) else s)
    ensures r.sent == (if !t.poll.PollRaised? && BumpsCurrent(s) && !t.surplusRaises
                       then [Write(Amp, s.maxCurrent)] else [])
  {
    if t.poll.PollRaised? then CycleResult(s, [])
    else if s.mode == 1 && t.surplusRaises then CycleResult(s, [])
    else if BumpsCurrent(s) && Send(t.device, Amp, s.maxCurrent) == Failed then
      CycleResult(s, [Write(Amp, s.maxCurrent)])
    else
      var sent := if BumpsCurrent(s) then [Write(Amp, s.maxCurrent)] else [];
      if t.poll.Data? then CycleResult(Publish(s, t.poll.snapshot, t.now), sent)
      else CycleResult(s, sent)
  }

  /**
    The only device write of a cycle is the bump: at most one write, in
    automatic mode, of `amp` to `/MaxCurrent`, and only when that raises the
    published `/SetCurrent`.
   */
  lemma CycleOnlyRaisesCurrent(s: ServiceState, t: Tick)
    ensures |Cycle(s, t).sent| <= 1
    ensures forall w :: w in Cycle(s, t).sent ==>
              w == Write(Amp, s.maxCurrent) && s.mode == 1 && s.setCurrent < w.value
  {
  }

  /**
    A cycle sends the bump exactly when the status read did not raise, the
    service is in automatic mode, the surplus push did not raise and the
    published `/SetCurrent` is below `/MaxCurrent`.
   */
  lemma CycleSendsBumpExactly(s: ServiceState, t: Tick)
    ensures Cycle(s, t).sent == [Write(Amp, s.maxCurrent)]
            <==> !t.poll.PollRaised? && !t.surplusRaises && s.mode == 1 && s.setCurrent < s.maxCurrent
  {
  }

  /** A cycle keeps `/UpdateIndex` within 0..255. */
  lemma CycleKeepsIndexInRange(s: ServiceState, t: Tick)
    requires 0 <= s.updateIndex <= 255
    ensures 0 <= Cycle(s, t).state.updateIndex <= 255
  {
  }

  /**
    A cycle without data leaves every published value, the charging time and
    the timestamp as they were; in automatic mode it may still send the bump.
   */
  lemma NoDataChangesNothing(s: ServiceState, t: Tick)
    requires !t.poll.Data?
    ensures Cycle(s, t).state == s
    ensures t.poll.NoData? && BumpsCurrent(s) && !t.surplusRaises ==> Cycle(s, t).sent == [Write(Amp, s.maxCurrent)]
  {
  }

  /** The states after each tick in turn. */
  function Run(s: ServiceState, ticks: seq<Tick>): ServiceState
    decreases |ticks|
  {
    if |ticks| == 0 then s else Run(Cycle(s, ticks[0]).state, ticks[1..])
  }

  /** While the charger cannot be read, nothing that is published moves. */
  lemma {:induction false} FrozenWhileUnavailable(s: ServiceState, ticks: seq<Tick>)
    requires forall i :: 0 <= i < |ticks| ==> !ticks[i].poll.Data?
    ensures Run(s, ticks) == s
    decreases |ticks|
  {
    if |ticks| > 0 {
      NoDataChangesNothing(s, ticks[0]);
      FrozenWhileUnavailable(s, ticks[1..]);
    }
  }

  /** Outside automatic mode every poll that returns data advances `/UpdateIndex` by one, modulo 256. */
  lemma {:induction false} IndexCountsPolls(s: ServiceState, ticks: seq<Tick>)
    requires 0 <= s.updateIndex <= 255
    requires s.mode != 1
    requires forall i :: 0 <= i < |ticks| ==> ticks[i].poll.Data?
    ensures Run(s, ticks).updateIndex == (s.updateIndex + |ticks|) % 256
    decreases |ticks|
  {
    if |ticks| > 0 {
      var next := Cycle(s, ticks[0]).state;
      assert next.updateIndex == (s.updateIndex + 1) % 256;
      IndexCountsPolls(next, ticks[1..]);
    }
  }

  /** With a clock that never goes back, the charging time is never negative. */
  lemma {:induction false} ChargingTimeStaysNonNegative(s: ServiceState, ticks: seq<Tick>)
    requires s.chargingTime >= 0.0 && s.chargingTimeShown >= 0
    requires forall i :: 0 <= i < |ticks| ==> s.lastUpdate <= ticks[i].now
    requires forall i, j :: 0 <= i <= j < |ticks| ==> ticks[i].now <= ticks[j].now
    ensures Run(s, ticks).chargingTime >= 0.0 && Run(s, ticks).chargingTimeShown >= 0
    decreases |ticks|
  {
    if |ticks| > 0 {
      var next := Cycle(s, ticks[0]).state;
      assert next.lastUpdate == s.lastUpdate || next.lastUpdate == ticks[0].now;
      ChargingTimeStaysNonNegative(next, ticks[1..]);
    }
  }

  /**
    Outside automatic mode, a run of polls that all see a charging vehicle
    (after an earlier successful poll) adds up exactly the time between the
    previous poll and the last one.
   */
  lemma {:induction false} ChargingSessionAccumulates(s: ServiceState, ticks: seq<Tick>)
    requires s.mode != 1
    requires s.lastUpdate > 0.0
    requires |ticks| > 0
    requires forall i :: 0 <= i < |ticks| ==> ticks[i].poll.Data? && ticks[i].poll.snapshot.car == 2
    requires forall i :: 0 <= i < |ticks| ==> ticks[i].now > 0.0
    ensures Run(s, ticks).chargingTime == s.chargingTime + (ticks[|ticks| - 1].now - s.lastUpdate)
    ensures Run(s, ticks).lastUpdate == ticks[|ticks| - 1].now
    decreases |ticks|
  {
    var next := Cycle(s, ticks[0]).state;
    assert next.chargingTime == s.chargingTime + (ticks[0].now - s.lastUpdate);
    if |ticks| > 1 {
      ChargingSessionAccumulates(next, ticks[1..]);
    }
  }

  /** A tick whose status read sees the vehicle code `car`, at time `at`. */
  function PollAt(snap: Snapshot, car: int, device: Device, at: real): Tick {
    Tick(Data(snap.(car := car)), false, device, at)
  }

  /**
    A session seen at 10 s spacing as the codes 1, 2, 2, 2, 1 (ready, three
    polls charging, unplugged) publishes charging times 0, 10, 20, 30, 0:
    the first charging poll already counts the 10 s since the ready poll.
   */
  lemma ChargingTimeScenario(s: ServiceState, snap: Snapshot, device: Device, t0: real)
    requires s.mode != 1
    requires t0 > 0.0
    ensures var ticks := [PollAt(snap, 1, device, t0), PollAt(snap, 2, device, t0 + 10.0),
                          PollAt(snap, 2, device, t0 + 20.0), PollAt(snap, 2, device, t0 + 30.0),
                          PollAt(snap, 1, device, t0 + 40.0)];
      && Run(s, ticks[..1]).chargingTimeShown == 0
      && Run(s, ticks[..2]).chargingTimeShown == 10
      && Run(s, ticks[..3]).chargingTimeShown == 20
      && Run(s, ticks[..4]).chargingTimeShown == 30
      && Run(s, ticks[..5]).chargingTimeShown == 0
  {
    var ticks := [PollAt(snap, 1, device, t0), PollAt(snap, 2, device, t0 + 10.0),
                  PollAt(snap, 2, device, t0 + 20.0), PollAt(snap, 2, device, t0 + 30.0),
                  PollAt(snap, 1, device, t0 + 40.0)];
    var s1 := Cycle(s, ticks[0]).state;
    var s2 := Cycle(s1, ticks[1]).state;
    var s3 := Cycle(s2, ticks[2]).state;
    var s4 := Cycle(s3, ticks[3]).state;
    var s5 := Cycle(s4, ticks[4]).state;
    assert s1.chargingTime == 0.0 && s1.lastUpdate == t0;
    assert s2.chargingTime == 10.0 && s2.lastUpdate == t0 + 10.0;
    assert s3.chargingTime == 20.0 && s3.lastUpdate == t0 + 20.0;
    assert s4.chargingTime == 30.0;
    assert s5.chargingTime == 0.0;
    RunSteps(s, ticks[..1], [s1]);
    RunSteps(s, ticks[..2], [s1, s2]);
    RunSteps(s, ticks[..3], [s1, s2, s3]);
    RunSteps(s, ticks[..4], [s1, s2, s3, s4]);
    RunSteps(s, ticks[..5], [s1, s2, s3, s4, s5]);
  }

  /** If each state follows from the one before by the corresponding tick, the run ends in the last one. */
  lemma {:induction false} RunSteps(s: ServiceState, ticks: seq<Tick>, states: seq<ServiceState>)
    requires |states| == |ticks| > 0
    requires Cycle(s, ticks[0]).state == states[0]
    requires forall i :: 0 < i < |ticks| ==> Cycle(states[i - 1], ticks[i]).state == states[i]
    ensures Run(s, ticks) == states[|states| - 1]
    decreases |ticks|
  {
    if |ticks| > 1 {
      RunSteps(states[0], ticks[1..], states[1..]);
    }
  }
}
