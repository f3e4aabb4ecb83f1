# Waveshare 7.5" V2 e-paper driver, modelled in Dafny

This project models the MicroPython driver class `EPD` for the Waveshare 7.5"
V2 e-paper panel (`e7in5v2.py`). The driver is a serialiser of the panel
controller's command protocol:
- every public operation is a fixed sequence of command bytes (DC pin low),
  data bytes (DC pin high), reset-pin levels and millisecond delays;
- `wait_until_idle` interleaves a status-poll loop that runs until the busy
  pin reads 1.

The model records that traffic as a trace of events (`Trace.Event`: `Cmd`,
`Data`, `Rst`, `Delay`). Every operation is a pure function from the busy-pin
readings it will see to the trace it emits (`Epd`).

The busy pin is an input sequence. An operation either completes (`Done`),
handing back the readings it did not consume, or runs out of readings while
the panel still reports busy (`Hung`). `Hung` stands for the source's endless
poll loop.

## Modules

- `Base`: bytes, pin levels, `Option`, and the big-endian 16-bit encoding
  behind the resolution payload.
- `Trace`: the event trace, and its projections to command codes and data
  bytes. It also holds a decoder `Group` that regroups a trace into `Step`s
  (a command with the data bytes that follow it, a reset level, or a pause),
  with `Flatten` as its inverse. `Group(Flatten(s)) == Some(s)` and, when
  `Group(t)` succeeds, `Flatten(Group(t).value) == t`.
- `Wire`: the pin-level view of `spi_transfer`, `send_command` and
  `send_data`, and the lowering of events to pin activity. `Lift` reads
  events back from pin activity, and the two round-trip in both directions.
- `Epd`: the command codes and geometry constants, the ten 42-byte waveform
  tables, the voltage profile, and the operations `reset`, `init`, `set_lut`,
  `set_quick_lut`, `display_frame`, `display_frame_quick`, `clear` and
  `sleep`.
  - Each table has type `Lut`, a sequence of exactly 42 bytes. So every
    index the source's `for count in range(42)` loops read is in bounds by
    construction.
- `EpdShapes`: the exact shape of each operation's trace, stated as the step
  sequence it decodes to and as its command and data projections.
- `Panel`: what the controller holds after a trace. Each command code keeps
  the payload last written under it, and a reset pulse clears everything.
  From this comes which waveform tables (registers 0x20..0x24) are resident
  when a refresh starts.
- `Session`: sequences of public calls on one driver instance, each call
  reading the busy pin where the previous one stopped.
- `EpdLoops`: the operations written as the source writes them: one event
  appended per call, with the busy loop, the per-byte loops and the 48000-byte
  zero loop of `clear` as `while` loops. Each method is proved to compute
  exactly the trace of the matching `Epd` function.

What the code does not do, and so the model does not claim:
- `display_frame` does not reload the full tables. A `display_frame` after a
  bare `set_quick_lut` refreshes with the quick tables
  (`Panel.FrameAfterQuickLoadKeepsQuick`).
- No operation checks the frame-buffer length. Any buffer is streamed as it
  is.
- The driver keeps no uninitialised/ready/asleep state, so no call is
  rejected. There are no typed errors: bus faults are not modelled, and a
  panel that never becomes idle is `Hung`.

## Model

| member | source | states |
|---|---|---|
| Base.Be16 | e7in5v2.py:190-194 | the resolution payload is two bytes per dimension, high byte first, and the pair reads back as the value |
| Base.FromBe16 | e7in5v2.py:190-194 | any two bytes read as a 16-bit value that `Be16` encodes back to the same two bytes |
| Trace.GroupFlatten | e7in5v2.py:135-141 | a sequence of commands, each followed by its data bytes, is recovered exactly from the bytes and DC levels on the bus |
| Trace.FlattenGroup | e7in5v2.py:135-141 | every trace that decodes into steps is exactly those steps put back on the bus |
| Trace.GroupAppend | e7in5v2.py:135-141 | decoding two decodable traces one after the other gives the two step sequences concatenated |
| Trace.FlattenProjections | e7in5v2.py:135-141 | the command bytes and data bytes on the bus are the steps' codes and their payloads concatenated, in order |
| Wire.SpiTransfer | e7in5v2.py:127-133 | chip select goes low first; an int 0..255 or a buffer is written and chip select returns high; an int outside 0..255 raises with chip select left low and nothing written |
| Wire.SendCommand | e7in5v2.py:135-137 | DC is driven low before the transfer, and the call completes exactly when the payload is encodable |
| Wire.SendData | e7in5v2.py:139-141 | DC is driven high before the transfer, and the call completes exactly when the payload is encodable |
| Wire.LiftLower | e7in5v2.py:135-141 | the pin activity of any trace reads back as that trace: a DC level and a CS-bracketed one-byte write identify a command or a data byte |
| Wire.LowerLift | e7in5v2.py:135-141 | pin activity that reads back as a trace is exactly that trace's pin activity |
| Wire.WrittenLower | e7in5v2.py:127-141 | the bytes the SPI peripheral receives for a trace of commands and data are their bytes, one per event, in bus order |
| Epd.WaitUntilIdle | e7in5v2.py:143-148 | one status query and one 20 ms delay per leading busy reading; it completes exactly when an idle reading exists and consumes readings through the first idle one |
| Epd.AroundIdle | e7in5v2.py:244-246 | an operation that waits emits its prefix, the polls, then its suffix only if the panel became idle |
| Epd.HardwareReset | e7in5v2.py:150-156 | reset high, 20 ms, low, 4 ms, high, 20 ms, with no command or data byte |
| Epd.LoadLuts | e7in5v2.py:218-237 | a table load is 5 × (1 + 42) = 215 events long |
| EpdShapes.PollsShape | e7in5v2.py:143-148 | the busy loop decodes to `n` GET_STATUS commands each followed by 20 ms, carries no data byte and never pulses reset |
| EpdShapes.AroundSteps | e7in5v2.py:143-148 | the trace of any operation that waits once decodes to its own steps, the poll steps, and its trailing steps only when it completed |
| EpdShapes.LoadLutsShape | e7in5v2.py:218-237 | `set_lut`/`set_quick_lut` send commands 0x20, 0x21, 0x22, 0x23, 0x24 in that order, each followed by exactly its 42-byte table, 210 data bytes in all |
| EpdShapes.InitPanelSteps | e7in5v2.py:185-212 | the configuration after the power-on wait; the RESOLUTION_SETTING payload 03 20 01 E0 is 800 and 480 big-endian |
| EpdShapes.PowerSteps | e7in5v2.py:161-182 | POWER_SETTING carries 0x17 and voltage bytes 6, 1, 2, 3 (0x17 0x3F 0x3F 0x11), VCM_DC_SETTING carries voltage byte 4 (0x24), then the booster bytes, POWER_ON and 100 ms |
| EpdShapes.InitShape | e7in5v2.py:158-216 | `init` decodes to the reset pulse, the power-up commands, the polls, and, if the panel became idle, the panel configuration followed by one full table load; it completes exactly when an idle reading exists |
| EpdShapes.InitEndsWithFullLuts | e7in5v2.py:214-216 | a completed `init` ends with exactly one `set_lut` |
| EpdShapes.DisplayFrameShape | e7in5v2.py:239-246 | `display_frame` sends DATA_START_TRANSMISSION_2 with exactly the buffer's bytes in order, then DISPLAY_REFRESH, 100 ms and the polls; its command codes are 0x13, 0x12 and the status queries, and its data bytes are the buffer |
| EpdShapes.DisplayFrameQuickShape | e7in5v2.py:248-262 | `display_frame_quick` decodes to the quick table load, the frame transmission and refresh, the polls, and, if the panel became idle, the full table load |
| EpdShapes.DisplayFrameQuickIsFrameBetweenLoads | e7in5v2.py:248-262 | a completed `display_frame_quick` is `set_quick_lut`, then exactly the traffic of `display_frame` on the same buffer and readings, then `set_lut` |
| EpdShapes.DisplayFrameQuickEndsWithFullLuts | e7in5v2.py:261-262 | the last 215 events of a completed `display_frame_quick` are one `set_lut` |
| EpdShapes.ClearIsBlankFrame | e7in5v2.py:338-344 | `clear` sends exactly what `display_frame` sends for an all-zero buffer of `height * width // 8` = 48000 bytes, and its data bytes are those 48000 zeros |
| EpdShapes.SleepShape | e7in5v2.py:346-350 | `sleep` decodes to POWER_OFF, the polls, and, if the panel became idle, DEEP_SLEEP with the single data byte 0xA5; no other data byte is sent |
| Panel.LoadInstalls | e7in5v2.py:317-336 | loading a table set leaves exactly that set resident, whatever the controller held before |
| Panel.LutLoadsInstall | e7in5v2.py:218-237 | after `set_lut` the full tables are resident, and after `set_quick_lut` the quick ones |
| Panel.InitInstallsFull | e7in5v2.py:158-216 | after a completed `init` the full tables are resident |
| Panel.DisplayFrameKeepsLuts | e7in5v2.py:239-246 | `display_frame` leaves the resident tables as they were, even when it never returns |
| Panel.ClearKeepsLuts | e7in5v2.py:338-344 | `clear` leaves the resident tables as they were |
| Panel.SleepKeepsLuts | e7in5v2.py:346-350 | `sleep` leaves the resident tables as they were |
| Panel.QuickRefreshUsesQuickLuts | e7in5v2.py:251-259 | the DISPLAY_REFRESH of `display_frame_quick` is its seventh step, and the quick tables are resident when it is issued |
| Panel.QuickLeavesFullLuts | e7in5v2.py:259-262 | after a completed `display_frame_quick` the full tables are resident, whatever came before |
| Panel.FrameAfterQuickLoadKeepsQuick | e7in5v2.py:239-246 | `display_frame` loads no tables, so after `set_quick_lut` it refreshes with the quick tables still resident |
| Session.ResetClearsRegisters | e7in5v2.py:150-156 | the reset pulse returns the controller to its power-on state |
| Session.RunDecodes | e7in5v2.py:150-350 | the traffic of any sequence of public calls decodes into commands with their payloads |
| Session.RunLeavesFull | e7in5v2.py:158-262 | a completed run of `init`, `set_lut`, `display_frame`, `display_frame_quick` and `clear` calls leaves the full tables resident if it starts with them or with `init` |
| Session.MainLoopEndsWithFullLuts | main.py:22-36 | a completed session of `reset`, `init` and any number of `display_frame` calls ends with the full tables resident |
| EpdLoops.WaitUntilIdleLoop | e7in5v2.py:143-148 | the polling loop computes `wait_until_idle`'s outcome |
| EpdLoops.SendBytes | e7in5v2.py:219-221 | a command followed by a loop of `send_data` emits the command and then each byte in order |
| EpdLoops.LoadLutsLoop | e7in5v2.py:218-237 | the five command-and-loop blocks emit the table load |
| EpdLoops.InitPowerUpLoop | e7in5v2.py:159-182 | `init` up to the power-on wait, call by call |
| EpdLoops.InitPanelLoop | e7in5v2.py:185-212 | `init`'s configuration, call by call |
| EpdLoops.InitLoop | e7in5v2.py:158-216 | `init` as written computes the `init` outcome |
| EpdLoops.TransmitLoop | e7in5v2.py:240-245 | the transmission loop and refresh command |
| EpdLoops.DisplayFrameLoop | e7in5v2.py:239-246 | `display_frame` as written computes its outcome |
| EpdLoops.DisplayFrameQuickLoop | e7in5v2.py:248-262 | `display_frame_quick` as written computes its outcome |
| EpdLoops.SendZeros | e7in5v2.py:339-341 | a command followed by a counted loop of zero data bytes |
| EpdLoops.ClearLoop | e7in5v2.py:338-344 | `clear` as written, with its `range(height * width // 8)` loop, computes its outcome |
| EpdLoops.SleepLoop | e7in5v2.py:346-350 | `sleep` as written computes its outcome |

## Left out

- main.py and wificonnect.py are not part of this model. They construct the
  pins and the SPI bus, fetch the bitmap over HTTP, manage Wi-Fi and memory,
  and loop forever. `Session.MainLoopEndsWithFullLuts` states only the
  sequence of driver calls main.py makes.
- `print` logging in `wait_until_idle` has no bus effect and is not modelled.
- The real `Pin` and `SPI` objects and real time are not modelled. Pin writes
  and delays appear as events, and `time.sleep_ms` as a `Delay` of that many
  milliseconds.
- Busy-pin reads are not recorded in the trace; the readings are an input of
  each operation that waits.
- An unbounded wait is modelled as `Hung` once the finite sequence of
  readings is exhausted. The source would poll forever.
- The return value 0 of `init` is not modelled. A completed `init` (`Done`)
  stands for it.
- The `EPD` constructor's pin setup is left out. Its tables and voltage
  profile are the constants of `Epd`.
- `set_quick_lut` builds its five tables as local byte strings on every call.
  They are module constants here, which is equivalent because they never
  change.
- Constants `DATA_START_TRANSMISSION_1`, `DATA_STOP`, `AUTO_MEASURE_VCOM` and
  `VCOM_VALUE` are declared but never sent by the driver. They are carried
  as constants only.
- `Panel` interprets traffic by a simple register model (the last payload per
  command code, with a reset pulse clearing all). What `POWER_OFF` and
  `DEEP_SLEEP` do to the controller's memory is not modelled; sleep is
  treated as writing two ordinary registers.
- Bus faults (an exception from `spi.write` or a pin write) are not modelled.
  `Wire.SpiTransfer` models the `ValueError` of `bytes([v])` for an int
  outside 0..255 at the level of a single transfer only. The driver's own
  commands and table bytes are always in range.
- Frames are modelled as byte sequences (`seq<Byte>`). `display_frame` and
  `display_frame_quick` index whatever buffer the caller passes. A list
  element outside 0..255 makes `bytes([data])` raise partway through the
  stream, with chip select left low. That case is not modelled by
  `Epd.DisplayFrame`, `Epd.DisplayFrameQuick` or `Session.Call`.
