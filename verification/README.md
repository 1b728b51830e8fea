# Relay volume bridge: a Dafny model

`relay_volume.py` drives a six-relay attenuator over I2C from an ALSA mixer.
The `RelayVolume` object stores the current relay code (`vol`) and a mute flag
(`mute`). Its polling loop watches the mixer's volume and mute switch. Each
mute change, and each volume change while unmuted that changes the stored
code, becomes a relay update: a guard byte `0x3F`, then the code with its six
bits inverted and the control bit `0x40` set, both written to address `0x21`.
A volume change while muted, or one that translates to the code already
stored, writes nothing.

This project models that control logic:

- `options.dfy` defines `Option`, which stands for Python's `None` or a value.
- `relay_protocol.dfy` (module `RelayProtocol`) holds the pure part. It has the
  constants `RELAY_ADDR`, `MIN_VOL` and `MAX_VOL`. It translates a volume
  percentage into a code (`Translate`). It encodes a code into a relay byte
  (`EncodeRelay`) and decodes it back (`DecodeRelay`). It gives the writes of
  one relay update (`RelayFrame`) and the code the relay bank holds after a
  sequence of writes (`LatchedCode`).
- `relay_volume.dfy` (module `RelayVolumeModel`) holds the object. The value
  `Relay` is what a `RelayVolume` holds: `vol`, `mute` and the log of every
  bus write. Each operation is a function on that value (`WriteRelayOn`,
  `SetVolumeOn`, `SetMuteOn`, `Poll` for one loop iteration, `Run` for
  several). The class `RelayVolume` has the same fields and does the same
  operations in place. Its methods are proved equal to those functions.
- `bridge_properties.dfy` (module `BridgeProperties`) proves what the loop
  guarantees. The main result is `RunConverges`. Start from a new object and
  unset loop locals, and run any sequence of iterations. Provided every bus
  write reaches the device, the relay then holds the code of the most recent
  successful mixer reading: `MIN_VOL` when muted, the translated volume
  otherwise.

The bus is a field of the object, a sequence of `BusWrite(addr, data)` records.
The mixer readings are inputs to an iteration (`Observation`): either the
volume with the mute query's answer, or `MixerFailed`.

Three points of the source's behaviour that a reader might expect otherwise:

- `write_relay` reports nothing to its caller: it swallows every exception,
  including bus errors (relay_volume.py:41-42).
- `set_volume` decides whether to write by comparing the new code with the
  stored `vol` (relay_volume.py:50), not with the last code written to the
  relay. So right after a mute, setting the same volume again writes nothing
  and the relay stays at `MIN_VOL` (`SetVolumeAfterMuteWritesNothing`). The
  loop never does this, because it unmutes through `set_mute(False)` before
  any `set_volume`. `RunConverges` shows the loop still converges.
- Code `0x00` is both what 0% translates to and the mute target `MIN_VOL`;
  100% translates to `0x3F` (`TranslateExamples`).

## Model

| member | source | states |
|---|---|---|
| `RelayProtocol.TruncDiv100` | relay_volume.py:47 | the exact quotient by 100 rounded toward zero, as `int()` rounds at line 47: for `a >= 0`, `q*100 <= a < q*100 + 100`; for `a < 0`, `q*100 - 100 < a <= q*100 <= 0` |
| `RelayProtocol.Clamp` | relay_volume.py:48 | the result is a code in [0x00,0x3F]; a value in range is kept, one below is raised to `MIN_VOL` only, one above is lowered to `MAX_VOL` only |
| `RelayProtocol.Translate` | relay_volume.py:47-48 | for a percentage in [0,100] the code is `percent*63/100` (floor); at or below 0 it is `MIN_VOL`; at or above 100 it is `MAX_VOL`; every result is in [0x00,0x3F] |
| `RelayProtocol.TranslateMonotone` | relay_volume.py:47-48 | a larger percentage never gives a smaller code |
| `RelayProtocol.TranslateExamples` | relay_volume.py:47-48 | 0% gives 0, 50% gives 31, 100% gives 63; code 0x00 encodes to 0x7F and 0x3F to 0x40 |
| `RelayProtocol.EncodeRelay` | relay_volume.py:37 | the relay byte has bit 0x40 set, lies in [0x40,0x7F], and its low six bits are `63 - code` |
| `RelayProtocol.DecodeRelay` | relay_volume.py:37 | a byte carries a code exactly when it lies in [0x40,0x7F]; that code is `63 - (b & 0x3F)` |
| `RelayProtocol.DecodeEncode` | relay_volume.py:37 | decoding an encoded code gives that code back |
| `RelayProtocol.EncodeDecode` | relay_volume.py:37 | every byte in [0x40,0x7F] is the encoding of the code it decodes to |
| `RelayProtocol.EncodeInjective` | relay_volume.py:37 | distinct codes give distinct relay bytes |
| `RelayProtocol.RelayFrame` | relay_volume.py:30-42 | one relay update writes only to 0x21 and starts with the guard 0x3F; with a code it writes two bytes and the second decodes to the code; with `None` only the guard goes out |
| `RelayProtocol.LatchedCode` | relay_volume.py:33-39 | the relay holds a code exactly when the last byte written lies in [0x40,0x7F], and then it is the code whose encoding that byte is |
| `RelayVolumeModel.CurrentMute` | relay_volume.py:68-71 | the loop acts as muted exactly when the mute query reports true; an unsupported query counts as unmuted |
| `RelayVolumeModel.WriteRelayOn` | relay_volume.py:30-42 | `write_relay` keeps `vol` and `mute`, appends exactly one relay update to the bus, and afterwards the relay holds the value written (none for `None`) |
| `RelayVolumeModel.SetVolumeOn` | relay_volume.py:44-52 | `set_volume` stores the translated code and clears `mute`; it writes exactly when the code differs from the stored one, and then writes that code; a relay that held the stored code holds the new one |
| `RelayVolumeModel.SetMuteOn` | relay_volume.py:54-56 | `set_mute` records the flag, keeps `vol`, and appends exactly one relay update (guard 0x3F, then the encoded code, both to 0x21): `MIN_VOL` when muting, the stored code when unmuting (the guard alone when none is stored); the relay then holds that code |
| `RelayVolumeModel.Poll` | relay_volume.py:64-78 | one loop iteration, the reference definition `PollOnce` is proved against: a mixer failure changes nothing; otherwise `last_mute` becomes the current flag, `last_volume` and `vol` change only on an unmuted reading of a new volume (to it and its code), and the bus is only appended to. Its further properties are the lemmas `PollKeepsSynced`, `MutedIgnoresVolume`, `UnmuteRestoresThenApplies`, `UnchangedPollIsQuiet` and `FirstPoll` |
| `RelayVolumeModel.Run` | relay_volume.py:59-83 | the first n iterations of the loop, the reference definition `RunIterations` is proved against: the bus is only appended to, and iterations whose mixer calls all fail change nothing. Its convergence is `RunConverges` |
| `RelayVolumeModel.RelayVolume.constructor` | relay_volume.py:27-28 | a new object has no stored code, no mute flag and nothing on the bus |
| `RelayVolumeModel.RelayVolume.WriteRelay` | relay_volume.py:30-42 | appends the guard, then the encoded code; for `None` only the guard, and no error escapes |
| `RelayVolumeModel.RelayVolume.SetVolume` | relay_volume.py:44-52 | updates the object in place exactly as `SetVolumeOn` |
| `RelayVolumeModel.RelayVolume.SetMute` | relay_volume.py:54-56 | updates the object in place exactly as `SetMuteOn` |
| `RelayVolumeModel.RelayVolume.PollOnce` | relay_volume.py:64-78 | one loop iteration updates the object and the locals `last_volume`/`last_mute` exactly as `Poll` |
| `RelayVolumeModel.RelayVolume.RunIterations` | relay_volume.py:59-83 | the first n iterations from `last_volume = last_mute = None` update the object exactly as `Run` |
| `BridgeProperties.SetVolumeIdempotent` | relay_volume.py:44-52 | calling `set_volume` twice with the same percentage leaves the object as calling it once; the first call writes two bytes exactly when the code changes |
| `BridgeProperties.SetVolumeAfterMuteWritesNothing` | relay_volume.py:44-56 | after `set_mute(True)`, `set_volume` with the stored volume clears `mute` but writes nothing, so the relay stays at `MIN_VOL` |
| `BridgeProperties.SyncedAtStart` | relay_volume.py:27-28 | a new object and the unset loop locals satisfy the loop invariant `Synced` |
| `BridgeProperties.PollKeepsSynced` | relay_volume.py:64-78 | every iteration keeps `Synced`: `vol` is the translation of `last_volume`, `mute` equals `last_mute`, and the relay holds `MIN_VOL` when muted and `vol` when unmuted; after a successful reading the relay holds that reading's target code |
| `BridgeProperties.RunConverges` | relay_volume.py:59-83 | provided every bus write reaches the device: after any number of iterations from the start, `Synced` holds; the relay holds the target code of the most recent successful reading; with no successful reading nothing has changed |
| `BridgeProperties.FirstPoll` | relay_volume.py:59-78 | first iteration: `set_mute` always runs; muted, the bus gets 0x3F, 0x7F and the volume stays unrecorded; unmuted, the bus gets 0x3F (the failed `None` update), then 0x3F and the encoded translated volume |
| `BridgeProperties.MutedIgnoresVolume` | relay_volume.py:73-78 | in any iteration that reads the mixer muted, including the one where muting begins, the volume is neither applied nor recorded (`last_volume` and `vol` kept, `last_mute` becomes true); the bus gets one `MIN_VOL` update when muting begins and nothing while already muted |
| `BridgeProperties.UnchangedPollIsQuiet` | relay_volume.py:64-83 | an iteration whose reading matches the recorded one, or whose mixer calls fail, writes nothing and changes nothing |
| `BridgeProperties.UnmuteRestoresThenApplies` | relay_volume.py:73-78 | on unmuting, the stored code is written back first (only the guard byte when no code is stored yet, after a muted first iteration); then the volume that changed while muted is written if its code differs from the stored one; both locals are updated |

## Left out

- Opening the I2C bus, finding the sound card and opening the mixer control (relay_volume.py:13-25) are left out. They are foreign library calls with fatal startup handling.
- The mixer calls `handleevents`, `getvolume` and `getmute` (relay_volume.py:66-71) are inputs to an iteration (`Observation`). Only their outcome is modelled: a failure of any of them ends the iteration (`MixerFailed`), and the ALSA error of the mute query means unmuted.
- The `time.sleep` calls (relay_volume.py:34, 80, 83) are left out, including the 600 microsecond settle time between the two relay bytes. Wall-clock time is not modelled; the model only keeps the order of the writes.
- The endless `while True` loop and its catch-all backoff (relay_volume.py:63, 81-83) are modelled as a finite number of iterations (`Run`, `RunIterations`). A failing iteration changes nothing.
- `print` logging (relay_volume.py:22, 38, 49, 82) is left out.
- Bus write failures inside `write_relay` are left out. Every write is taken to reach the device. The only exception modelled there is the one raised by encoding `None`. This hides a behaviour of the source: a failed update is never re-sent, because `vol` and `last_volume`/`last_mute` are already updated, so later iterations see no change and the relay stays wrong until the mixer changes again.
- RelayProtocol.Translate: computes with integers, not with Python's floating-point division. For readings in [0,100] the float quotient truncates to the same integer, and outside that range the clamp gives the same code either way. A reading too large for a float, where Python raises an overflow error, is not modelled.
- The volume is the mixer's first channel only, as in the source. Other channels are not read.
- RelayProtocol.TruncDiv100: computes the exact truncated quotient by 100. Python's float expression `int(a / 100)` matches it only while `|a| < 2^47 * 100`; beyond that the float may round up to the next integer. `Translate` clamps, so its code is the same either way.
