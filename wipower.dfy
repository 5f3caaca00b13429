/**
 * The charging hardware's interface as the service sees it: the power
 * levels and alert kinds it names, and the commands the service issues to
 * it.  The manager itself is not modelled; the service's calls on it are
 * recorded as a trace of `Command`s, and `Replay` reads off what a trace
 * asks of the hardware.
 */
module Wipower {

  datatype PowerLevel = Maximum | Medium | Minimum

  datatype WipowerAlert =
    | OverVoltage
    | OverCurrent
    | OverTemperature
    | SelfProtection
    | ChargeComplete
    | WiredChargerDetected
    | ChargePort

  /** One call on the charging manager, or the advertising stop. */
  datatype Command =
    | StartCharging
    | StopCharging
    | EnableAlertNotification(alertsOn: bool)
    | EnableDataNotification(dataOn: bool)
    | SetPowerLevel(level: PowerLevel)
    | StopAdvertising

  /**
   * What the commands issued so far ask of the hardware: each switch as the
   * last command that touched it left it.
   */
  datatype Settings = Settings(
    charging: bool,
    alertNotification: bool,
    dataNotification: bool,
    powerLevel: PowerLevel,
    advertising: bool)

  function Apply(s: Settings, c: Command): Settings
  {
    match c
    case StartCharging => s.(charging := true)
    case StopCharging => s.(charging := false)
    case EnableAlertNotification(on) => s.(alertNotification := on)
    case EnableDataNotification(on) => s.(dataNotification := on)
    case SetPowerLevel(level) => s.(powerLevel := level)
    case StopAdvertising => s.(advertising := false)
  }

  /** The settings after the commands `t`, issued in order from `s`. */
  function Replay(s: Settings, t: seq<Command>): Settings
    decreases |t|
  {
    if t == [] then s else Replay(Apply(s, t[0]), t[1..])
  }

  /** Replaying a trace in two pieces is replaying it whole. */
  lemma {:induction false} ReplayAppend(s: Settings, t: seq<Command>, u: seq<Command>)
    ensures Replay(s, t + u) == Replay(Replay(s, t), u)
    decreases |t|
  {
    if t == [] {
      assert t + u == u;
    } else {
      assert (t + u)[0] == t[0];
      assert (t + u)[1..] == t[1..] + u;
      ReplayAppend(Apply(s, t[0]), t[1..], u);
    }
  }

  /** Replaying a trace with one more command applies that command last. */
  lemma {:induction false} ReplaySnoc(s: Settings, t: seq<Command>, c: Command)
    ensures Replay(s, t + [c]) == Apply(Replay(s, t), c)
  {
    ReplayAppend(s, t, [c]);
    assert [c][1..] == [];
  }
}
