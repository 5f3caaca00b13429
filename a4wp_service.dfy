/**
 * The A4WP receiver service: the transmitter's writes and reads on the
 * service's characteristics, connection changes, and the charging
 * manager's callbacks.  Calls on the charging manager, and the advertising
 * stop, are recorded in the service's `commands` trace.
 */
module A4wp {
  import opened JavaBits
  import opened Wrappers
  import opened Wipower
  import opened Alert
  import PruStatic
  import PtuStatic
  import Control

  /** The connection state reported for a lost connection. */
  const StateDisconnected: int := 0

  // Bits of the alert byte, one per alert kind.
  const OverVoltBit: bv32 := 0x80
  const OverCurrBit: bv8 := 0x40
  const OverTempBit: bv8 := 0x20
  const SelfProtBit: bv8 := 0x10
  const ChargeCompleteBit: bv8 := 0x08
  const WiredChargeDetect: bv8 := 0x04
  const ChargePortBit: bv8 := 0x02

  /** The service's characteristics, and any other one. */
  datatype CharId =
    | PruControlChar
    | PtuStaticChar
    | PruAlertChar
    | PruStaticChar
    | PruDynamicChar
    | OtherChar

  /** A response sent back to the transmitter. */
  datatype Response = Response(requestId: int, status: int, offset: int, value: seq<bv8>)

  /**
   * The manager calls a control record leads to, in order.  An output-enable
   * record starts charging, turns alert notifications off and data
   * notifications on, and stops advertising; any other stops data
   * notifications and charging.  Either way the last call sets the power
   * level; the charger-enable bit, the permission and the time issue no call.
   */
  function ControlCommands(c: Control.PruControl): (cmds: seq<Command>)
    ensures |cmds| == if Control.EnablePruOutput(c) then 5 else 3
    ensures cmds[|cmds| - 1] == SetPowerLevel(Control.ReducePower(c))
    ensures StartCharging in cmds <==> Control.EnablePruOutput(c)
    ensures StopCharging in cmds <==> !Control.EnablePruOutput(c)
    ensures StopAdvertising in cmds <==> Control.EnablePruOutput(c)
    ensures SetPowerLevel(Medium) !in cmds
  {
    (if Control.EnablePruOutput(c)
     then [StartCharging, EnableAlertNotification(false), EnableDataNotification(true), StopAdvertising]
     else [EnableDataNotification(false), StopCharging])
    + [SetPowerLevel(Control.ReducePower(c))]
  }

  /** The settings a control record leaves the hardware in. */
  lemma {:induction false} ControlSettings(s: Settings, c: Control.PruControl)
    ensures Control.EnablePruOutput(c) ==>
      Replay(s, ControlCommands(c))
        == s.(charging := true, alertNotification := false, dataNotification := true,
              advertising := false, powerLevel := Control.ReducePower(c))
    ensures !Control.EnablePruOutput(c) ==>
      Replay(s, ControlCommands(c))
        == s.(charging := false, dataNotification := false, powerLevel := Control.ReducePower(c))
  {
    var level := SetPowerLevel(Control.ReducePower(c));
    if Control.EnablePruOutput(c) {
      ReplaySnoc(s, [], StartCharging);
      ReplaySnoc(s, [StartCharging], EnableAlertNotification(false));
      ReplaySnoc(s, [StartCharging, EnableAlertNotification(false)], EnableDataNotification(true));
      ReplaySnoc(s, [StartCharging, EnableAlertNotification(false), EnableDataNotification(true)],
                 StopAdvertising);
      ReplaySnoc(s, [StartCharging, EnableAlertNotification(false), EnableDataNotification(true),
                     StopAdvertising], level);
    } else {
      ReplaySnoc(s, [], EnableDataNotification(false));
      ReplaySnoc(s, [EnableDataNotification(false)], StopCharging);
      ReplaySnoc(s, [EnableDataNotification(false), StopCharging], level);
    }
  }

  /** Only the output bit and the power-reduction code decide the calls. */
  lemma ControlCommandsDependOnlyOnOutputAndPower(c: Control.PruControl, d: Control.PruControl)
    requires c.enable & 0xB0 == d.enable & 0xB0
    ensures ControlCommands(c) == ControlCommands(d)
  {
  }

  /** The manager calls a connection-state change leads to. */
  function ConnectionCommands(newState: int): (cmds: seq<Command>)
    ensures newState != StateDisconnected ==> cmds == []
    ensures newState == StateDisconnected ==> StopCharging in cmds && EnableDataNotification(false) in cmds
  {
    if newState == StateDisconnected then [EnableDataNotification(false), StopCharging] else []
  }

  /**
   * A disconnect leaves charging and data notifications off, whatever came
   * before, and touches no other setting.
   */
  lemma {:induction false} DisconnectIsSafe(s: Settings, t: seq<Command>)
    ensures var before := Replay(s, t);
            Replay(s, t + ConnectionCommands(StateDisconnected))
              == before.(charging := false, dataNotification := false)
  {
    ReplaySnoc(s, t, EnableDataNotification(false));
    ReplaySnoc(s, t + [EnableDataNotification(false)], StopCharging);
    assert t + [EnableDataNotification(false)] + [StopCharging] == t + ConnectionCommands(StateDisconnected);
  }

  /** A second disconnect changes no setting. */
  lemma {:induction false} DisconnectIsIdempotent(s: Settings, t: seq<Command>)
    ensures var d := ConnectionCommands(StateDisconnected);
            Replay(s, t + d + d) == Replay(s, t + d)
  {
    var d := ConnectionCommands(StateDisconnected);
    DisconnectIsSafe(s, t);
    DisconnectIsSafe(s, t + d);
  }

  /** The alert byte for an alert kind: a single bit, one per kind. */
  function AlertBit(alert: WipowerAlert): (b: bv8)
    ensures b != 0 && b & (b - 1) == 0
    ensures b & 0x01 == 0
  {
    match alert
    case OverVoltage => 0x80
    case OverCurrent => 0x40
    case OverTemperature => 0x20
    case SelfProtection => 0x10
    case ChargeComplete => 0x08
    case WiredChargerDetected => 0x04
    case ChargePort => 0x02
  }

  /** The alert kind an alert byte with one bit set reports. */
  function AlertOfBit(b: bv8): Option<WipowerAlert>
  {
    if b == 0x80 then Some(OverVoltage)
    else if b == 0x40 then Some(OverCurrent)
    else if b == 0x20 then Some(OverTemperature)
    else if b == 0x10 then Some(SelfProtection)
    else if b == 0x08 then Some(ChargeComplete)
    else if b == 0x04 then Some(WiredChargerDetected)
    else if b == 0x02 then Some(ChargePort)
    else None
  }

  /** The alert kind can be read back from its byte, so no two share a bit. */
  lemma AlertBitRoundTrip(alert: WipowerAlert)
    ensures AlertOfBit(AlertBit(alert)) == Some(alert)
  {
  }

  class A4wpService {
    var state: int
    var ptuStaticParam: Option<PtuStatic.PtuStaticParam>
    /** The last telemetry record the manager delivered; None for null. */
    var pruDynamicParam: Option<seq<bv8>>
    const pruAlert: PruAlert
    /** Created with its defaults; nothing in the service changes it. */
    const pruStaticParam: PruStatic.PruStaticParam := PruStatic.Initial()
    /** Every call made on the charging manager, and advertising stops. */
    var commands: seq<Command>

    /**
     * The service as the transmitter first finds it.  The alert record's
     * byte is a parameter: the service never creates that record itself.
     */
    constructor (initialAlert: bv8)
      ensures state == StateDisconnected && commands == []
      ensures ptuStaticParam == None && pruDynamicParam == None
      ensures pruAlert.alert == initialAlert
      ensures fresh(pruAlert)
    {
      state := StateDisconnected;
      ptuStaticParam := None;
      pruDynamicParam := None;
      pruAlert := new PruAlert(initialAlert);
      commands := [];
    }

    /** One call on the charging manager. */
    method Issue(c: Command)
      modifies this
      ensures commands == old(commands) + [c]
      ensures state == old(state) && ptuStaticParam == old(ptuStaticParam)
      ensures pruDynamicParam == old(pruDynamicParam)
    {
      commands := commands + [c];
    }

    /** Acts on a control record written by the transmitter. */
    method ProcessPruControl(value: seq<bv8>) returns (status: int)
      requires |value| >= 4
      modifies this
      ensures status == 0
      ensures commands == old(commands) + ControlCommands(Control.Decode(value))
      ensures state == old(state) && ptuStaticParam == old(ptuStaticParam)
      ensures pruDynamicParam == old(pruDynamicParam)
    {
      status := 0;
      var control := Control.Decode(value);
      if Control.EnablePruOutput(control) {
        Issue(StartCharging);
        Issue(EnableAlertNotification(false));
        Issue(EnableDataNotification(true));
        Issue(StopAdvertising);
      } else {
        Issue(EnableDataNotification(false));
        Issue(StopCharging);
      }
      // The charger-enable bit is only logged.
      var level := Control.ReducePower(control);
      Issue(SetPowerLevel(level));
    }

    /** Stores a PTU static record written by the transmitter. */
    method ProcessPtuStaticParam(value: seq<bv8>) returns (status: int)
      requires |value| >= 15
      modifies this
      ensures status == 0
      ensures ptuStaticParam == Some(PtuStatic.Decode(value))
      ensures state == old(state) && commands == old(commands)
      ensures pruDynamicParam == old(pruDynamicParam)
    {
      status := 0;
      ptuStaticParam := Some(PtuStatic.Decode(value));
    }

    /**
     * The manager reports an alert.  The service works out the alert byte but
     * does not store it anywhere: no field changes.  The byte is returned here
     * only so that it can be stated.
     */
    method OnWipowerAlert(alert: WipowerAlert) returns (alertVal: bv8)
      ensures alertVal == AlertBit(alert)
    {
      alertVal := 0;
      if alert == OverVoltage {
        alertVal := OrIntoByte(alertVal, OverVoltBit & 0xFF);
      } else if alert == OverCurrent {
        alertVal := OrIntoByte(alertVal, WidenByte(OverCurrBit));
      } else if alert == OverTemperature {
        alertVal := OrIntoByte(alertVal, WidenByte(OverTempBit));
      } else if alert == SelfProtection {
        alertVal := OrIntoByte(alertVal, WidenByte(SelfProtBit));
      } else if alert == ChargeComplete {
        alertVal := OrIntoByte(alertVal, WidenByte(ChargeCompleteBit));
      } else if alert == WiredChargerDetected {
        alertVal := OrIntoByte(alertVal, WidenByte(WiredChargeDetect));
      } else if alert == ChargePort {
        alertVal := OrIntoByte(alertVal, WidenByte(ChargePortBit));
      }
    }

    /** The manager delivers a telemetry record, which replaces the stored one. */
    method OnWipowerData(data: seq<bv8>)
      modifies this
      ensures pruDynamicParam == Some(data)
      ensures state == old(state) && commands == old(commands)
      ensures ptuStaticParam == old(ptuStaticParam)
    {
      pruDynamicParam := Some(data);
    }

    /**
     * The connection state changes.  On a disconnect the service turns data
     * notifications and charging off, every time, so the hardware ends up
     * with both off whatever it was asked before.
     */
    method OnConnectionStateChange(newState: int)
      modifies this
      ensures state == newState
      ensures commands == old(commands) + ConnectionCommands(newState)
      ensures ptuStaticParam == old(ptuStaticParam) && pruDynamicParam == old(pruDynamicParam)
      ensures newState == StateDisconnected ==>
        forall s :: !Replay(s, commands).charging && !Replay(s, commands).dataNotification
    {
      state := newState;
      if state == StateDisconnected {
        Issue(EnableDataNotification(false));
        Issue(StopCharging);
      }
      if newState == StateDisconnected {
        assert commands == old(commands) + ConnectionCommands(StateDisconnected);
        forall s: Settings
          ensures !Replay(s, commands).charging && !Replay(s, commands).dataNotification
        {
          DisconnectIsSafe(s, old(commands));
        }
      }
    }

    /**
     * A write on one of the service's characteristics.  Control and PTU
     * static writes are processed; any other is ignored.  When the transmitter
     * asks for a response it gets the status (always 0), its offset and its
     * own bytes back.
     */
    method OnCharacteristicWriteRequest(requestId: int, id: CharId, responseNeeded: bool,
                                        offset: int, value: seq<bv8>)
      returns (response: Option<Response>)
      requires id == PruControlChar ==> |value| >= 4
      requires id == PtuStaticChar ==> |value| >= 15
      modifies this
      ensures response == if responseNeeded then Some(Response(requestId, 0, offset, value)) else None
      ensures id == PruControlChar ==>
        commands == old(commands) + ControlCommands(Control.Decode(value))
        && ptuStaticParam == old(ptuStaticParam)
      ensures id == PtuStaticChar ==>
        ptuStaticParam == Some(PtuStatic.Decode(value)) && commands == old(commands)
      ensures id != PruControlChar && id != PtuStaticChar ==>
        commands == old(commands) && ptuStaticParam == old(ptuStaticParam)
      ensures state == old(state) && pruDynamicParam == old(pruDynamicParam)
    {
      var status := 0;
      if id == PruControlChar {
        status := ProcessPruControl(value);
      } else if id == PtuStaticChar {
        status := ProcessPtuStaticParam(value);
      }
      if responseNeeded {
        response := Some(Response(requestId, status, offset, value));
      } else {
        response := None;
      }
    }

    /**
     * A read on one of the service's characteristics.  The alert and PRU
     * static records are encoded; the telemetry record is sent as stored,
     * and no response is sent while there is none; any other
     * characteristic reads as the single byte 0.
     */
    method OnCharacteristicReadRequest(requestId: int, id: CharId, offset: int)
      returns (response: Option<Response>)
      ensures id == PruAlertChar ==> response == Some(Response(requestId, 0, offset, [pruAlert.alert]))
      ensures id == PruStaticChar ==> response == Some(Response(requestId, 0, offset, PruStatic.DefaultRecord))
      ensures id == PruDynamicChar && pruDynamicParam.None? ==> response == None
      ensures id == PruDynamicChar && pruDynamicParam.Some? ==>
        response == Some(Response(requestId, 0, offset, pruDynamicParam.value))
      ensures id in {PruControlChar, PtuStaticChar, OtherChar} ==>
        response == Some(Response(requestId, 0, offset, [0]))
    {
      var value: seq<bv8> := [0];
      var status := 0;
      if id == PruAlertChar {
        value := pruAlert.Value();
      } else if id == PruStaticChar {
        value := PruStatic.Value(pruStaticParam);
      } else if id == PruDynamicChar {
        if pruDynamicParam.None? {
          return None;
        }
        value := pruDynamicParam.value;
      }
      response := Some(Response(requestId, status, offset, value));
    }
  }
}
