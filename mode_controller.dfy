/**
  The write-back translation of `_handlechangedvalue`: an external write to a
  published path becomes zero, one or two device writes and a result that
  the property bus reads for truthiness. `HandleWrite` is the decision table
  as a pure function of the path, the written value, the currently
  published `/Mode`, `/StartStop` and `/MaxCurrent`, and the device oracle.
 */
module ModeController {
  import opened DeviceClient

  /** The published paths that carry the change callback. */
  datatype Path =
    | AcPower | AcL1Power | AcL2Power | AcL3Power | AcEnergyForward
    | ChargingTime | AcVoltage | Current | SetCurrent | MaxCurrent
    | McuTemperature | StartStop | Mode | Status

  /**
    What the callback gives back: True or False, the implicit None of a
    branch that falls off the end, or an exception raised by a device write.
   */
  datatype HandlerResult = Returned(ok: bool) | ReturnedNone | Raised {
    /** The bus accepts the external write only when the callback's result is truthy. */
    predicate Truthy() {
      this == Returned(true)
    }
  }

  /** The device writes issued by one callback and what it returned. */
  datatype Transaction = Transaction(sent: seq<Write>, result: HandlerResult)

  /** A device write's outcome as the value `_set_goe_charger_value` hands back. */
  function ResultOf(o: WriteOutcome): (r: HandlerResult)
    ensures r.Truthy() <==> o == Accepted
    ensures r == Raised <==> o == Failed
  {
    match o
    case Accepted => Returned(true)
    case Rejected => Returned(false)
    case Failed => Raised
  }

  /** The go-eCharger loading mode for a published mode: manual, automatic, scheduled. */
  function LoadingMode(mode: int): (lmo: int)
    requires 0 <= mode <= 2
    ensures 3 <= lmo <= 5
    ensures lmo - 3 == mode
  {
    if mode == 0 then 3 else if mode == 1 then 4 else 5
  }

  /**
    The force state written with a mode switch: 2 (charge) when switching to
    manual while started, 0 (neutral) when switching to automatic while
    started, 1 (off) otherwise.
   */
  function ForceOnModeSwitch(mode: int, startStop: int): (frc: int)
    ensures 0 <= frc <= 2
    ensures frc != 1 <==> startStop == 1 && (mode == 0 || mode == 1)
  {
    if mode == 0 && startStop == 1 then 2
    else if mode == 1 && startStop == 1 then 0
    else 1
  }

  /** One device write and its outcome as the callback's result. */
  function Single(device: Device, p: Param, value: int): (t: Transaction)
    ensures t.result.Truthy() <==> Send(device, p, value) == Accepted
    ensures t.result == Raised <==> Send(device, p, value) == Failed
  {
    Transaction([Write(p, value)], ResultOf(Send(device, p, value)))
  }

  /** Every write sent was accepted by the device. */
  predicate AllAccepted(device: Device, sent: seq<Write>) {
    forall i :: 0 <= i < |sent| ==> Send(device, sent[i].param, sent[i].value) == Accepted
  }

  /**
    `_handlechangedvalue(path, value)` with `/Mode`, `/StartStop` and
    `/MaxCurrent` currently published as `mode`, `startStop` and `maxCurrent`.
   */
  function HandleWrite(path: Path, value: int, mode: int, startStop: int, maxCurrent: int,
                       device: Device): (t: Transaction)
    ensures |t.sent| <= 2
    ensures t.result.Truthy() ==> |t.sent| >= 1 && AllAccepted(device, t.sent)
    ensures t.result == Raised ==> |t.sent| >= 1
  {
    match path
    case SetCurrent =>
      var amp := if value > maxCurrent then maxCurrent else value;
      Single(device, Amp, amp)
    case StartStop =>
      if mode == 0 then Single(device, Frc, value + 1)
      else if mode == 1 then
        if value == 1 then Single(device, Frc, 0)
        else if value == 0 then Single(device, Frc, 1)
        else Transaction([], ReturnedNone)
      else Transaction([], Returned(false))
    case MaxCurrent =>
      Transaction([], Returned(false))
    case Mode =>
      if !(0 <= value <= 2) then Transaction([], Returned(false))
      else
        var lmo, frc := LoadingMode(value), ForceOnModeSwitch(value, startStop);
        (match Send(device, Lmo, lmo)
         case Failed => Transaction([Write(Lmo, lmo)], Raised)
         case Rejected => Transaction([Write(Lmo, lmo)], Returned(false))
         case Accepted =>
           Transaction([Write(Lmo, lmo), Write(Frc, frc)], ResultOf(Send(device, Frc, frc))))
    case _ =>
      Transaction([], Returned(false))
  }

  function Min(a: int, b: int): int {
    if a <= b then a else b
  }

  /** A `/SetCurrent` write sends one `amp` write, clamped to `/MaxCurrent`, and reports its outcome. */
  lemma SetCurrentIsClamped(value: int, mode: int, startStop: int, maxCurrent: int, device: Device)
    ensures var t := HandleWrite(SetCurrent, value, mode, startStop, maxCurrent, device);
      && t.sent == [Write(Amp, Min(value, maxCurrent))]
      && t.sent[0].value <= maxCurrent
      && t.result == ResultOf(Send(device, Amp, Min(value, maxCurrent)))
  {
  }

  /** In manual mode a `/StartStop` write sends `frc = value + 1` and reports its outcome. */
  lemma StartStopInManualMode(value: int, startStop: int, maxCurrent: int, device: Device)
    ensures var t := HandleWrite(StartStop, value, 0, startStop, maxCurrent, device);
      && t.sent == [Write(Frc, value + 1)]
      && (t.result.Truthy() <==> Send(device, Frc, value + 1) == Accepted)
      && t.result == ResultOf(Send(device, Frc, value + 1))
  {
  }

  /**
    In automatic mode `/StartStop` = 1 sends `frc = 0`, 0 sends `frc = 1`,
    and any other value sends nothing and returns None, which the bus reads
    as a refusal.
   */
  lemma StartStopInAutomaticMode(value: int, startStop: int, maxCurrent: int, device: Device)
    ensures var t := HandleWrite(StartStop, value, 1, startStop, maxCurrent, device);
      && (value == 1 ==> t.sent == [Write(Frc, 0)])
      && (value == 0 ==> t.sent == [Write(Frc, 1)])
      && (value == 0 || value == 1 ==> t.result == ResultOf(Send(device, Frc, 1 - value)))
      && (value != 0 && value != 1 ==> t == Transaction([], ReturnedNone) && !t.result.Truthy())
  {
  }

  /** In any mode other than manual or automatic a `/StartStop` write is refused without a device write. */
  lemma StartStopInOtherModes(value: int, mode: int, startStop: int, maxCurrent: int, device: Device)
    requires mode != 0 && mode != 1
    ensures HandleWrite(StartStop, value, mode, startStop, maxCurrent, device)
            == Transaction([], Returned(false))
  {
  }

  /** `/MaxCurrent` is not writable through the bus: every write is refused and nothing is sent. */
  lemma MaxCurrentIsRefused(value: int, mode: int, startStop: int, maxCurrent: int, device: Device)
    ensures HandleWrite(MaxCurrent, value, mode, startStop, maxCurrent, device)
            == Transaction([], Returned(false))
  {
  }

  /** The published paths without a mapping refuse every write and send nothing. */
  lemma UnmappedPathsAreRefused(path: Path, value: int, mode: int, startStop: int, maxCurrent: int,
                                device: Device)
    requires path !in {SetCurrent, StartStop, MaxCurrent, Mode}
    ensures HandleWrite(path, value, mode, startStop, maxCurrent, device)
            == Transaction([], Returned(false))
  {
  }

  /**
    A `/Mode` write of 0, 1 or 2 writes `lmo` first and `frc` only after the
    device accepted `lmo`; it succeeds exactly when both were accepted, a
    rejected `lmo` returns False, and a failing write raises. Any other value
    is refused before a write.
   */
  lemma ModeSwitch(value: int, mode: int, startStop: int, maxCurrent: int, device: Device)
    ensures var t := HandleWrite(Mode, value, mode, startStop, maxCurrent, device);
      if 0 <= value <= 2 then
        var lmo, frc := value + 3, ForceOnModeSwitch(value, startStop);
        && 1 <= |t.sent| && t.sent[0] == Write(Lmo, lmo)
        && (|t.sent| == 2 <==> Send(device, Lmo, lmo) == Accepted)
        && (|t.sent| == 2 ==> t.sent[1] == Write(Frc, frc))
        && (t.result.Truthy() <==> Send(device, Lmo, lmo) == Accepted
                                   && Send(device, Frc, frc) == Accepted)
        && t.result == (if Send(device, Lmo, lmo) == Failed then Raised
                        else if Send(device, Lmo, lmo) == Rejected then Returned(false)
                        else ResultOf(Send(device, Frc, frc)))
      else
        t == Transaction([], Returned(false))
  {
  }

  /** The `frc` value sent with a mode switch, for each mode and `/StartStop`. */
  lemma ForceOnModeSwitchTable(startStop: int)
    ensures ForceOnModeSwitch(0, startStop) == (if startStop == 1 then 2 else 1)
    ensures ForceOnModeSwitch(1, startStop) == (if startStop == 1 then 0 else 1)
    ensures ForceOnModeSwitch(2, startStop) == 1
  {
  }

  /**
    The known half-applied switch: a device that accepts `lmo` but not `frc`
    is left in the new loading mode while the callback reports failure.
   */
  lemma ModeSwitchCanHalfApply(device: Device, startStop: int, maxCurrent: int)
    requires device(Lmo, 4) == Acknowledge(Lmo)
    requires device(Frc, ForceOnModeSwitch(1, startStop)) == NoResponse
    ensures var t := HandleWrite(Mode, 1, 1, startStop, maxCurrent, device);
      && t.sent[0] == Write(Lmo, 4) && Send(device, Lmo, 4) == Accepted
      && |t.sent| == 2
      && !t.result.Truthy()
  {
    AcknowledgementIsAccepted(Lmo, 4);
  }
}
