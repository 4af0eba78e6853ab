/**
  `DbusGoeChargerService`: one charger instance, holding the values it
  publishes on the bus, its charging-session fields and, in place of the
  HTTP requests it makes, the log of parameter writes it has sent. Its
  methods change these fields step by step as the source does and are
  proved against the transitions of `SyncEngine` and `ModeController`.
 */
module Service {
  import opened DeviceClient
  import opened ModeController
  import opened SyncEngine

  /** Why construction is refused. */
  datatype ConfigError = PauseTooShort | HardwareTooOld

  datatype ConfigCheck = ConfigValid | ConfigInvalid(error: ConfigError)

  /** The constructor's validation: the pause is checked first, then the hardware version. */
  function CheckConfig(pauseBetweenRequests: int, hardwareVersion: int): (c: ConfigCheck)
    ensures c == ConfigValid <==> pauseBetweenRequests > 20 && hardwareVersion >= 3
    ensures c == ConfigInvalid(PauseTooShort) <==> pauseBetweenRequests <= 20
  {
    if pauseBetweenRequests <= 20 then ConfigInvalid(PauseTooShort)
    else if hardwareVersion < 3 then ConfigInvalid(HardwareTooOld)
    else ConfigValid
  }

  datatype Startup = Running(service: GoeChargerService) | Refused(error: ConfigError)

  class GoeChargerService {
    const pauseBetweenRequests: int
    const hardwareVersion: int

    // published paths
    var power: int          // /Ac/Power
    var l1Power: int        // /Ac/L1/Power
    var l2Power: int        // /Ac/L2/Power
    var l3Power: int        // /Ac/L3/Power
    var current: real       // /Current
    var setCurrent: int     // /SetCurrent
    var maxCurrent: int     // /MaxCurrent
    var chargingTimeShown: int  // /ChargingTime
    var status: int         // /Status
    var updateIndex: int    // /UpdateIndex
    var startStop: int      // /StartStop
    var mode: int           // /Mode

    // instance fields
    var chargingTime: real  // _charging_time
    var lastUpdate: real    // _last_update

    /** Every `amp`, `frc` and `lmo` write sent to the device, oldest first. */
    var writes: seq<Write>

    ghost predicate Valid()
      reads this
    {
      0 <= updateIndex <= 255 && pauseBetweenRequests > 20 && hardwareVersion >= 3
    }

    function State(): ServiceState
      reads this
    {
      ServiceState(power, l1Power, l2Power, l3Power, current, setCurrent, maxCurrent,
                   chargingTimeShown, status, updateIndex, startStop, mode,
                   chargingTime, lastUpdate)
    }

    constructor (pauseBetweenRequests: int, hardwareVersion: int)
      requires CheckConfig(pauseBetweenRequests, hardwareVersion) == ConfigValid
      ensures Valid() && State() == Initial() && writes == []
      ensures this.pauseBetweenRequests == pauseBetweenRequests
      ensures this.hardwareVersion == hardwareVersion
    {
      this.pauseBetweenRequests := pauseBetweenRequests;
      this.hardwareVersion := hardwareVersion;
      power, l1Power, l2Power, l3Power := 0, 0, 0, 0;
      current, setCurrent, maxCurrent := 0.0, 0, 0;
      chargingTimeShown, status, updateIndex := 0, 0, 0;
      startStop, mode := 0, 0;
      lastUpdate := 0.0;
      chargingTime := 0.0;
      writes := [];
    }

    /** `__init__`: refuses a pause of 20 or less, then a hardware version below 3. */
    static method Create(pauseBetweenRequests: int, hardwareVersion: int) returns (r: Startup)
      ensures r.Refused? <==> CheckConfig(pauseBetweenRequests, hardwareVersion) != ConfigValid
      ensures r.Refused? ==> CheckConfig(pauseBetweenRequests, hardwareVersion) == ConfigInvalid(r.error)
      ensures r.Running? ==> fresh(r.service) && r.service.Valid()
                             && r.service.State() == Initial() && r.service.writes == []
    {
      var check := CheckConfig(pauseBetweenRequests, hardwareVersion);
      if check.ConfigInvalid? {
        return Refused(check.error);
      }
      var service := new GoeChargerService(pauseBetweenRequests, hardwareVersion);
      r := Running(service);
    }

    /** `_set_goe_charger_value`: sends one write and reports what the device's reply means. */
    method SetValue(p: Param, value: int, device: Device) returns (o: WriteOutcome)
      modifies this`writes
      ensures writes == old(writes) + [Write(p, value)]
      ensures o == Send(device, p, value)
    {
      writes := writes + [Write(p, value)];
      var reply := device(p, value);
      if reply.NoResponse? || reply.NotJson? || Name(p) !in reply.fields {
        return Failed;
      }
      var echo := reply.fields[Name(p)];
      if Str(echo) == "true" || Str(echo) == "True" || echo == JStr(PyText.DecimalString(value)) {
        o := Accepted;
      } else {
        o := Rejected;
      }
    }

    /**
      `_handlechangedvalue`: translates an external write into device writes
      and the callback's result, reading the currently published values.
     */
    method HandleChangedValue(path: Path, value: int, device: Device) returns (r: HandlerResult)
      modifies this`writes
      ensures r == HandleWrite(path, value, mode, startStop, maxCurrent, device).result
      ensures writes == old(writes) + HandleWrite(path, value, mode, startStop, maxCurrent, device).sent
    {
      var o: WriteOutcome;
      if path == SetCurrent {
        if value > maxCurrent {
          o := SetValue(Amp, maxCurrent, device);
        } else {
          o := SetValue(Amp, value, device);
        }
        r := ResultOf(o);
      } else if path == StartStop {
        if mode == 0 {
          o := SetValue(Frc, value + 1, device);
          r := ResultOf(o);
        } else if mode == 1 {
          if value == 1 {
            o := SetValue(Frc, 0, device);
            return ResultOf(o);
          }
          if value == 0 {
            o := SetValue(Frc, 1, device);
            return ResultOf(o);
          }
          r := ReturnedNone;
        } else {
          r := Returned(false);
        }
      } else if path == MaxCurrent {
        r := Returned(false);
      } else if path == Mode {
        var lmo, frc := 0, 1;
        if value == 0 {
          lmo := 3;
          if startStop == 1 { frc := 2; }
        } else if value == 1 {
          lmo := 4;
          if startStop == 1 { frc := 0; }
        } else if value == 2 {
          lmo := 5;
        } else {
          return Returned(false);
        }
        o := SetValue(Lmo, lmo, device);
        if o == Failed {
          return Raised;
        }
        r := Returned(false);
        if o == Accepted {
          o := SetValue(Frc, frc, device);
          if o == Failed {
            return Raised;
          }
          r := Returned(o == Accepted);
        }
      } else {
        r := Returned(false);
      }
    }

    /**
      `_update`: one poll cycle. A raising status read changes nothing. In
      automatic mode the surplus push and the bump of `amp` to `/MaxCurrent`
      run before the data is looked at, and an exception from either ends
      the cycle. With data, every telemetry path, the charging time, the
      status, the index and the timestamp are published.
     */
    method Update(poll: Poll, surplusRaises: bool, device: Device, now: real)
      requires Valid()
      modifies this
      ensures Valid()
      ensures State() == Cycle(old(State()), Tick(poll, surplusRaises, device, now)).state
      ensures writes == old(writes) + Cycle(old(State()), Tick(poll, surplusRaises, device, now)).sent
    {
      ghost var before := State();
      if poll.PollRaised? {
        return;
      }
      if mode == 1 {
        if surplusRaises {
          return;
        }
        if setCurrent < maxCurrent {
          var o := SetValue(Amp, maxCurrent, device);
          if o == Failed {
            return;
          }
        }
      }
      assert Publishes(before, Tick(poll, surplusRaises, device, now)) <==> poll.Data?;
      if poll.Data? {
        PublishSnapshot(poll.snapshot, now);
      }
    }
  
    /** The publishing half of `_update`, run when the status read returned data. */
    method PublishSnapshot(snap: Snapshot, now: real)
      modifies this
      ensures State() == Publish(old(State()), snap, now)
      ensures writes == old(writes)
    {
      PublishTelemetry(snap);
      AdvanceSession(snap.car, now);
    }

    /** The telemetry paths taken from a status read: powers, current, set and maximum current, status. */
    method PublishTelemetry(snap: Snapshot)
      modifies this
      ensures State() == old(State()).(
        l1Power := Trunc(snap.nrg[7]), l2Power := Trunc(snap.nrg[8]), l3Power := Trunc(snap.nrg[9]),
        power := Trunc(snap.nrg[11]), current := Max3(snap.nrg[4], snap.nrg[5], snap.nrg[6]),
        setCurrent := snap.amp, maxCurrent := snap.ama, status := StatusOf(snap.car))
      ensures writes == old(writes)
    {
      var nrg := snap.nrg;
      var p1, p2, p3, p := Trunc(nrg[7]), Trunc(nrg[8]), Trunc(nrg[9]), Trunc(nrg[11]);
      var c := Max3(nrg[4], nrg[5], nrg[6]);
      var st := StatusOf(snap.car);
      l1Power, l2Power, l3Power, power, current, setCurrent, maxCurrent, status := p1, p2, p3, p, c, snap.amp, snap.ama, st;
    }

    /** The charging-time accumulator, the update index and the timestamp of a successful poll. */
    method AdvanceSession(car: int, now: real)
      modifies this
      ensures var elapsed := AccumulateChargingTime(old(chargingTime), old(lastUpdate), car, now);
        State() == old(State()).(chargingTime := elapsed, chargingTimeShown := Trunc(elapsed),
                                 updateIndex := NextIndex(old(updateIndex)), lastUpdate := now)
      ensures writes == old(writes)
    {
      var timeDelta := now - lastUpdate;
      if car == 2 && lastUpdate > 0.0 {
        chargingTime := chargingTime + timeDelta;
      } else if car == 1 {
        chargingTime := 0.0;
      }
      chargingTimeShown := Trunc(chargingTime);
      var index := updateIndex + 1;
      if index > 255 {
        index := 0;
      }
      updateIndex := index;
      lastUpdate := now;
    }
  }
}
