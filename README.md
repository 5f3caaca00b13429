# A4WP receiver service, modelled in Dafny

This project models the receiver side (PRU, power receiving unit) of the
Alliance for Wireless Power in-band signalling service in
`src/org/codeaurora/bluetooth/a4wp/A4wpService.java`. A wireless-power
transmitter (PTU) writes two records over GATT characteristics:
- a 4-byte PRU control record, which switches the receiver's output and charger and picks a power level;
- a PTU static parameter record, which describes the transmitter.

The transmitter reads back three records:
- a 1-byte alert;
- the receiver's 20-byte static parameter record;
- the receiver's telemetry (dynamic parameter) record.

The service turns control records into calls on the charging manager, maps
the manager's alert callbacks to alert bits, and, on a disconnect, stops
charging and data notifications.

Modules:

- `JavaBits` (`java_bits.dfy`): Java's `byte`, `short` and `int` as `bv8`,
  `bv16` and `bv32`. It spells out sign extension on widening, truncation
  on narrowing casts, the 5-bit masking of shift counts and the compound
  `|=` on `short` and `byte`.
- `Wrappers` (`wrappers.dfy`): `Option`.
- `Wipower` (`wipower.dfy`): power levels, alert kinds, and the manager
  calls as a `Command` datatype. It also gives a reference reading of a
  command trace: `Settings`, `Apply` and `Replay`, where each switch is left
  as the last command that touched it.
- `PruStatic` (`pru_static_param.dfy`): the PRU static record, meaning its
  defaults, its encoding (`Value`) and its decoding (`SetValue`). The
  decoder's 16-bit reconstruction is modelled exactly as written and
  characterised by lemmas.
- `Alert` (`pru_alert.dfy`): the alert record, a class with one byte field.
- `PtuStatic` (`ptu_static_param.dfy`): the PTU static record and its
  derived quantities. Power is in half-watts, impedance and resistance in
  ohms.
- `Control` (`pru_control.dfy`): the PRU control record and its accessors.
- `A4wp` (`a4wp_service.dfy`): the service as a class whose fields are:
  - the connection state;
  - the stored PTU record;
  - the telemetry record;
  - the alert and PRU static records;
  - `commands`, the trace of every call made on the charging manager (and
    of every advertising stop).

  Its methods are the write and read handlers, the connection-state
  handler, and the manager callbacks.

## Model

All source paths are under `src/org/codeaurora/bluetooth/a4wp/`.

| member | source | states |
|---|---|---|
| JavaBits.OrIntoShort | src/org/codeaurora/bluetooth/a4wp/A4wpService.java:165 | `x \|= y` on a `short` is a 16-bit or with the low half of the `int` operand |
| JavaBits.OrIntoByte | src/org/codeaurora/bluetooth/a4wp/A4wpService.java:454-478 | `x \|= y` on a `byte` is an 8-bit or with the low byte of the `int` operand |
| PruStatic.Initial | src/org/codeaurora/bluetooth/a4wp/A4wpService.java:118-132 | the record starts with the default id, category, revisions, max power 3650/100 = 36, Vrect 9000/18000/11000, Delta-R1 1 and Rrx 0, and it encodes to the fixed 20-byte default record |
| PruStatic.LowByte | src/org/codeaurora/bluetooth/a4wp/A4wpService.java:139 | `(byte)(0x00FF & s)` is the low eight bits of the field |
| PruStatic.HighByte | src/org/codeaurora/bluetooth/a4wp/A4wpService.java:140 | `(byte)(0xFF00 & s)` is always 0, because the cast keeps only bits the mask cleared |
| PruStatic.Value | src/org/codeaurora/bluetooth/a4wp/A4wpService.java:136-160 | the encoding has 20 bytes; each byte field sits in its slot; each 16-bit field contributes its low byte, and its high-byte slot is 0; bytes 10-11 repeat Vrect-min |
| PruStatic.ValueIgnoresVrectMax | src/org/codeaurora/bluetooth/a4wp/A4wpService.java:146-149 | Vrect-max never affects the encoding |
| PruStatic.Decode16 | src/org/codeaurora/bluetooth/a4wp/A4wpService.java:164-165 | `x = lo; x \|= (short)(8 << hi)` is the sign-extended low byte with at most one extra bit, at position (hi mod 32) + 3, and no bit at all when that position is past 15 |
| PruStatic.DecodeOfEncodedField | src/org/codeaurora/bluetooth/a4wp/A4wpService.java:139-165 | decoding an encoded field gives its sign-extended low byte with bit 3 set, so the field's high byte is lost, and the low byte (and so the re-encoded byte) comes back unchanged exactly when bit 3 was set |
| PruStatic.SetValue | src/org/codeaurora/bluetooth/a4wp/A4wpService.java:162-185 | each byte field takes its wire byte; id, Vrect-min (from bytes 10-11, the second assignment), Vrect-set, Delta-R1 and Rrx take the decoder's 16-bit reading of their byte pair; Vrect-max keeps its old value |
| PruStatic.ValueAfterSetValue | src/org/codeaurora/bluetooth/a4wp/A4wpService.java:136-185 | re-encoding after decoding gives back bytes 0, 3-7, 18 and 19 as written and 0 in every high-byte slot; bytes 1, 12, 14 and 16 carry the low byte of the field decoded from their pair, and bytes 8 and 10 both carry the low byte decoded from bytes 10-11 |
| PruStatic.DefaultDoesNotRoundTrip | src/org/codeaurora/bluetooth/a4wp/A4wpService.java:118-185 | decoding the default encoding does not give the defaults: Delta-R1 becomes 9 and Rrx becomes 8 |
| Alert.PruAlert.constructor | src/org/codeaurora/bluetooth/a4wp/A4wpService.java:192-194 | the record holds the given byte |
| Alert.PruAlert.SetValue | src/org/codeaurora/bluetooth/a4wp/A4wpService.java:196-198 | the stored byte is replaced, and the record then reads as that byte alone |
| Alert.PruAlert.Value | src/org/codeaurora/bluetooth/a4wp/A4wpService.java:200-204 | the record reads as exactly one byte, the stored alert |
| PtuStatic.Decode | src/org/codeaurora/bluetooth/a4wp/A4wpService.java:221-233 | validity, power, impedance, load resistance, class, hardware and firmware revisions and device count are bytes 0-3 and 6-9; the id is byte 4 and reserved-2 byte 14, both sign-extended; reserved-1 is byte 10 sign-extended to 32 bits; the protocol revision is never assigned and stays 0 |
| PtuStatic.DecodeReadsOnlyItsBytes | src/org/codeaurora/bluetooth/a4wp/A4wpService.java:221-233 | two writes that agree on bytes 0-4, 6-10 and 14 decode to the same record |
| PtuStatic.Bits2To7 | src/org/codeaurora/bluetooth/a4wp/A4wpService.java:242 | `(b & 0xfc) >> 2` on a sign-extended byte is the unsigned byte divided by 4, in [0, 64) |
| PtuStatic.Bits3To7 | src/org/codeaurora/bluetooth/a4wp/A4wpService.java:250 | `(b & 0xf8) >> 3` on a sign-extended byte is the unsigned byte divided by 8, in [0, 32) |
| PtuStatic.Power | src/org/codeaurora/bluetooth/a4wp/A4wpService.java:241-247 | the power is (field + 1) half-watts, capped at 44 half-watts (22 W): the result is 44 half-watts from field 43 up |
| PtuStatic.MaxSrcImpedance | src/org/codeaurora/bluetooth/a4wp/A4wpService.java:249-255 | the impedance is 50 + 10 * field ohms, between 50 and 360, so the 375 cap never applies |
| PtuStatic.MaxLoadResistance | src/org/codeaurora/bluetooth/a4wp/A4wpService.java:257-263 | the resistance is 5 * (field + 1) ohms, capped at 55, always a multiple of 5 |
| PtuStatic.MaxDevicesSupported | src/org/codeaurora/bluetooth/a4wp/A4wpService.java:265-270 | the count is the signed byte plus one, capped at 8: bytes below 7 give byte + 1, bytes 7 to 0x7F give 8, and bytes 0x80 and up give byte - 255, which is 0 or less |
| PtuStatic.PtuClass | src/org/codeaurora/bluetooth/a4wp/A4wpService.java:276-278 | the class is 5 exactly for signed fields 4..127; fields 0-3 give field + 1, and negative fields give the signed field + 1, which is 0 or less |
| Control.Decode | src/org/codeaurora/bluetooth/a4wp/A4wpService.java:302-307 | enable, permission and time are bytes 0-2; reserved is byte 3 sign-extended |
| Control.EnablePruOutput | src/org/codeaurora/bluetooth/a4wp/A4wpService.java:316-319 | the output is enabled exactly when bit 0x80 of the enable byte is set |
| Control.EnableCharger | src/org/codeaurora/bluetooth/a4wp/A4wpService.java:321-324 | the charger is enabled exactly when bit 0x40 of the enable byte is set |
| Control.ReducePower | src/org/codeaurora/bluetooth/a4wp/A4wpService.java:330-341 | reduction code 0 gives Maximum and every other code gives Minimum; Medium is never returned |
| Control.Permission | src/org/codeaurora/bluetooth/a4wp/A4wpService.java:350-355 | permission is granted exactly when the permission byte is non-negative as a Java byte |
| Control.SetTime | src/org/codeaurora/bluetooth/a4wp/A4wpService.java:358-360 | the time is ten times the signed byte: a multiple of 10 in [-1280, 1270] whose tenth is the byte modulo 256, negative exactly for bytes 0x80 and up |
| A4wp.ControlCommands | src/org/codeaurora/bluetooth/a4wp/A4wpService.java:383-410 | an output-enable record issues five calls, including start-charging and the advertising stop; any other record issues three, including stop-charging; the last call always sets the decoded power level, which is never Medium |
| A4wp.ControlSettings | src/org/codeaurora/bluetooth/a4wp/A4wpService.java:383-410 | after a control record, the manager is charging with alerts off, data on, advertising stopped and the decoded level (output enabled), or it has charging and data off and the decoded level; nothing else changes |
| A4wp.ControlCommandsDependOnlyOnOutputAndPower | src/org/codeaurora/bluetooth/a4wp/A4wpService.java:383-410 | two control records whose output bit and reduction code agree issue the same calls |
| A4wp.ConnectionCommands | src/org/codeaurora/bluetooth/a4wp/A4wpService.java:501-507 | a disconnect issues the data-off and stop-charging calls; any other state issues none |
| A4wp.DisconnectIsSafe | src/org/codeaurora/bluetooth/a4wp/A4wpService.java:501-507 | whatever was issued before, a disconnect leaves charging and data notifications off and every other setting as it was |
| A4wp.DisconnectIsIdempotent | src/org/codeaurora/bluetooth/a4wp/A4wpService.java:501-507 | a second disconnect changes no setting |
| A4wp.AlertBit | src/org/codeaurora/bluetooth/a4wp/A4wpService.java:424-430 | each alert kind maps to a byte with exactly one bit set, never bit 0 |
| A4wp.AlertBitRoundTrip | src/org/codeaurora/bluetooth/a4wp/A4wpService.java:424-430 | the alert kind can be recovered from its byte, so no two kinds share a bit |
| A4wp.A4wpService.constructor | src/org/codeaurora/bluetooth/a4wp/A4wpService.java:84 | the service starts disconnected, with no calls issued and no PTU record |
| A4wp.A4wpService.ProcessPruControl | src/org/codeaurora/bluetooth/a4wp/A4wpService.java:377-413 | a control write returns status 0 and appends exactly the control record's calls to the trace; nothing else changes |
| A4wp.A4wpService.ProcessPtuStaticParam | src/org/codeaurora/bluetooth/a4wp/A4wpService.java:415-422 | a PTU static write returns status 0 and stores the decoded record; nothing else changes |
| A4wp.A4wpService.OnWipowerAlert | src/org/codeaurora/bluetooth/a4wp/A4wpService.java:449-480 | the alert byte the chain computes is the alert kind's single bit; no state changes |
| A4wp.A4wpService.OnWipowerData | src/org/codeaurora/bluetooth/a4wp/A4wpService.java:484-490 | the delivered telemetry replaces the stored record; nothing else changes |
| A4wp.A4wpService.OnConnectionStateChange | src/org/codeaurora/bluetooth/a4wp/A4wpService.java:500-508 | the state is recorded and the connection calls are appended; after a disconnect the trace leaves charging and data notifications off, whatever came before |
| A4wp.A4wpService.OnCharacteristicWriteRequest | src/org/codeaurora/bluetooth/a4wp/A4wpService.java:511-532 | control and PTU static writes are processed and other writes change nothing; a response echoing the request id, status 0, the offset and the bytes is sent exactly when one is asked for |
| A4wp.A4wpService.OnCharacteristicReadRequest | src/org/codeaurora/bluetooth/a4wp/A4wpService.java:535-563 | the alert characteristic reads as the alert byte and PRU static as the default record; telemetry reads as stored, and gets no response while none is stored; any other characteristic reads as the single byte 0 |

## Left out

- Service lifecycle (`onCreate`, `onDestroy`, `onBind`, `onStartCommand`,
  `startServer`, `closeServer`, `cleanupService`): these are platform
  calls. The constructor stands for the state after start-up.
- Advertising: the adapter calls in `startAdvertising` and `stopAdvertising`
  are platform I/O. A stop is recorded as a `StopAdvertising` command.
  `startAdvertising` is never called by the service.
- The charging manager: its internals are not part of this model. Its
  calls are recorded in the `commands` trace. `Replay` is a reference
  reading of that trace, not the manager's behaviour.
- Logging, `print`, `toHex` and the `onWipowerReady`,
  `onWipowerStateChange` and `onServiceAdded` callbacks: they only log.
- The `mLock` object: it is declared but never acquired. Concurrency
  between the manager's callbacks and GATT requests is not modelled. Each
  handler runs as one atomic step.
- Characteristic identity: `CharId` stands for the five UUIDs and any other
  characteristic. The source compares UUIDs with `==`, which is reference
  equality. The model assumes each of the service's characteristics
  carries the same UUID object as its constant. The UUID strings and the
  alert descriptor are not modelled.
- The GATT response goes to `BluetoothGattServer.sendResponse`, which is
  modelled as the returned `Response`. The device, the prepared-write flag
  and the callback `status` parameters are left out. The read handler's
  `value != null` test always holds here, because no record encodes to
  null.
- PtuStatic.Power, PtuStatic.MaxSrcImpedance, PtuStatic.MaxLoadResistance:
  the `double` results are modelled as integers (half-watts and ohms). The
  values are exact in those units, so no rounding is lost.
- PtuStatic.MaxDevicesSupported: the `float` return is modelled as an
  integer. Every value is small and exact.
- PtuStatic: the getters `getId`, `getHwRev`, `getFwRev` and
  `getProtocolRev` are plain field selectors of the datatype.
- PruStatic.SetValue: the record is modelled as a value, and `SetValue`
  returns the updated record; the in-place update of the Java object's
  fields is not modelled. Aliasing of the record is therefore not modelled
  either. This is harmless here,
  because the service's only reference is never shared. The service never
  calls `setValue`, so its copy keeps the defaults.
- PruStatic.SetValue: each Java pair `x = lo; x |= (short)(8 << hi);` is
  modelled as one step, `Decode16`. The intermediate value of the first
  assignment is not kept.
- Alert.PruAlert.constructor: the service never creates `mPruAlert`, so in
  the source a read of the alert characteristic would meet a null field.
  The model instead takes the alert record's initial byte as a constructor
  parameter.
- A4wp.A4wpService.constructor: the telemetry record starts as `None`.
  The default `WipowerDynamicParam` that `onCreate` creates, and its
  `getValue`, are not part of this model. The record is modelled as the
  byte sequence last delivered, and `None` stands for the null field.
  The source assigns the field in `onCreate` (line 688) before the manager
  and its callbacks exist (line 690), so `onWipowerData` never meets a null
  field, and a null field coexists with a running GATT server only in the
  start-up window after `startServer` (line 685). An initial `None`
  followed by manager calls is therefore a chosen abstraction, not a state
  the source reaches.
- A4wp.A4wpService.OnWipowerAlert: the Java method discards the byte it
  computes, so the model changes no state. The method returns the byte
  only so that it can be stated.
- Record lengths are preconditions:
  - PruStatic.SetValue needs 20 bytes;
  - A4wp.A4wpService.ProcessPtuStaticParam needs 15 bytes;
  - A4wp.A4wpService.ProcessPruControl needs 4 bytes.

  A shorter write makes the Java code throw an index exception, which the
  service does not catch. The model does not describe that exception.
- Where the code differs from the protocol's intent, the model follows the
  code:
  - there is no length check or malformed-record error;
  - the alert byte is not written back;
  - the lock is not taken;
  - Medium power is unreachable;
  - a read of an unlisted characteristic answers with the single byte 0
    rather than no response.
