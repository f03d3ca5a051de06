# SteppIR CAT relay: a Dafny model

`steppir-gui.py` sits between a radio's CAT (Computer Aided Transceiver)
socket, one downstream CAT client (WSJT-X, Fldigi, ...) and a SteppIR SDA-100
antenna controller on a serial line. It relays the client's bytes to the radio
and the radio's bytes to the client. It snoops the radio's stream for `FA`
frequency reports and hands each changed frequency to a serial thread, which
retunes the antenna. A button panel jogs the antenna frequency and steps it
band by band.

This project models that core with the threads taken apart: each thread's loop
body is one step on explicit state.

- `Bytes` (`bytes.dfy`): bytes and chunks, decimal digit strings, and the parse
  `int(f_temp)` restricted to non-empty ASCII digit strings. Encoding and
  decoding are proved inverse in both directions.
- `CatFrame` (`cat_frame.dfy`): inspecting a received chunk. Only bytes 0-1 are
  checked for `FA`, and bytes `[2:13]` are the payload. The result is
  `Opaque`, `Report(hz)` or `Malformed`.
- `SerialHandoff` (`serial_handoff.dfy`): the one-slot mailbox `serial_bytes` /
  `serial_send` and the serial thread's drain step. It comes as a pure
  event-run semantics with "latest value wins" lemmas, plus the `SerialLoop`
  class.
- `Relay` (`relay.dfy`): the radio thread's receive step (`RadioLoop.HandleChunk`,
  specified by the function `OnChunk`), the client thread's accept / relay
  loop (`ClientLoop`), and the poll step (`PollStep`).
- `Tuning` (`tuning.dfy`): the jog arithmetic and the `band_up` / `band_down`
  ladders, related to a band plan (`Band`, `Bottom`, `Top`, `Next`, `Prev`).
- `Panel` (`panel.dfy`): the button callbacks of `SteppirApp` as methods that
  send commands to the controller and update the display.
- `Antenna` (`antenna.dfy`): the controller driver as a log of commands.
  `get_frequency` results come in as parameters (`read`).

Behaviours of the code that the model keeps as written:

- A tagged chunk whose payload is not a decimal number makes `int()` raise.
  The bare `except: raise` then ends the radio thread. The chunk is not
  skipped and not forwarded (`MalformedChunkRaises`).
- A tagged chunk shorter than 13 bytes is parsed from whatever digits it has.
  For example, `FA0001` reports 1 Hz (`ShortReportIsAccepted`).
- An empty `recv` from the radio (end of stream) is not a reconnect. It is
  treated like any untagged chunk and echoed to the client.
- The panel's jogs and band steps call the controller directly. Only the radio
  link goes through the serial slot, so only frequencies are ever coalesced.
- After a client session ends, `conn` still holds the closed socket until the
  accept loop resets it. Python treats that socket as truthy, so polling stays
  off during that window. A radio chunk echoed to it raises (`Conn.Closed`).
- Once the radio thread has raised, leaving its `with` block has closed its
  socket, and nothing reopens it. A later write to that socket from the client
  relay or the poll loop raises and ends that thread too (`RadioLoop.closed`).

## Model

| member | source | states |
|---|---|---|
| Bytes.DigitsValue | steppir-gui.py:322 | a digit string of length n has a value below 10^n |
| Bytes.EncodeDigits | steppir-gui.py:321-322 | the fixed-width rendering of a value has exactly the requested width and only digits |
| Bytes.ParseDecimal | steppir-gui.py:322 | the parse succeeds exactly on non-empty all-digit strings, with a value below 10^length |
| Bytes.DecodeEncode | steppir-gui.py:322 | parsing the zero-padded rendering of a value that fits gives the value back |
| Bytes.EncodeDecode | steppir-gui.py:322 | rendering a digit string's value at the same width gives the string back |
| Bytes.ParseEncoded | steppir-gui.py:322 | a rendering of width at least one always parses, to its value |
| CatFrame.Payload | steppir-gui.py:321 | the payload is bytes 2 to 13 of the chunk, fewer when the chunk is shorter |
| CatFrame.Inspect | steppir-gui.py:317-322 | opaque exactly when the first two bytes are not `FA`; malformed exactly when tagged and the payload does not parse; otherwise the payload's value, below 10^11 |
| CatFrame.FrequencyReport | steppir-gui.py:318-321 | a radio report is 14 bytes, tagged `FA`, ending in `;` |
| CatFrame.ReportIsRecognised | steppir-gui.py:317-322 | `FA` plus eleven digits of f plus anything parses as f |
| CatFrame.ShortReportIsAccepted | steppir-gui.py:321-322 | a chunk of `FA` and 1 to 11 digits is accepted with that shorter value |
| CatFrame.TailIsIgnored | steppir-gui.py:321 | bytes after index 13 never change the inspection |
| CatFrame.LateTagIsOpaque | steppir-gui.py:317-318 | `FA` preceded by any byte is opaque whatever follows: a later `FA` is not seen |
| CatFrame.ExampleReport | steppir-gui.py:317-322 | `FA00014074000;` reports 14074000 Hz |
| CatFrame.NineDigitReportIsMalformed | steppir-gui.py:321-322 | `FA014074000;` has `;` in its payload and is malformed |
| CatFrame.BareTagIsMalformed | steppir-gui.py:321-322 | a chunk of just `FA` has an empty payload and is malformed |
| SerialHandoff.Post | steppir-gui.py:333-334 | a hand-over sets the value and raises the flag, overwriting what was there |
| SerialHandoff.Drain | steppir-gui.py:471-476 | a drain delivers the value once if the flag is set, nothing otherwise, and leaves the flag clear and the value in place |
| SerialHandoff.Apply | steppir-gui.py:333-334 | a hand-over delivers nothing and leaves its value pending; a drain delivers at most one value and clears the flag |
| SerialHandoff.Run | steppir-gui.py:471-476 | a run of events delivers at most one value per event and ends with nothing pending when its last event is a drain |
| SerialHandoff.RunAppend | steppir-gui.py:471-476 | running two event sequences in turn is running their concatenation |
| SerialHandoff.HandoversOverwrite | steppir-gui.py:333-334 | hand-overs alone deliver nothing and leave the last value pending |
| SerialHandoff.LatestWins | steppir-gui.py:333-334 | any hand-overs followed by one drain deliver exactly the last value, once |
| SerialHandoff.TwoReportsCoalesce | steppir-gui.py:333-334 | A then B before a drain give one delivery, of B |
| SerialHandoff.DrainTwiceDeliversOnce | steppir-gui.py:472-476 | a second drain without a new hand-over delivers nothing |
| SerialHandoff.AtMostOnePerDrain | steppir-gui.py:471-476 | there are never more deliveries than drain passes |
| SerialHandoff.DeliveredWasHandedOver | steppir-gui.py:471-476 | every delivered value was handed over or was already pending |
| SerialHandoff.SerialLoop.constructor | steppir-gui.py:462-463 | the slot starts empty with value 0 |
| SerialHandoff.SerialLoop.Step | steppir-gui.py:471-476 | one pass updates the fields as `Drain` says and sends the controller exactly the delivered frequencies |
| Antenna.FrequencyCommands | steppir-gui.py:475 | one `SetFrequency` per delivered value, in order |
| Antenna.Controller.constructor | steppir-gui.py:483-495 | the driver starts with no command sent |
| Antenna.Controller.Send | steppir-gui.py:475 | each driver call is appended to the controller's log |
| Tuning.JogsAreInverse | steppir-gui.py:133-190 | each jog moves by exactly 10000, 100000 or 1000000 Hz, and down undoes up and up undoes down |
| Tuning.JogDownIsNotClamped | steppir-gui.py:142-150 | a jog down from below its step gives a negative frequency |
| Tuning.JogUp | steppir-gui.py:133-180 | a jog up lands above the frequency read by exactly 10000, 100000 or 1000000 Hz |
| Tuning.JogDown | steppir-gui.py:142-190 | a jog down lands below the frequency read by exactly 10000, 100000 or 1000000 Hz |
| Tuning.BandUp | steppir-gui.py:195-210 | band up lands on a band bottom for inputs below 54000001 and leaves the rest unchanged |
| Tuning.BandDown | steppir-gui.py:219-234 | band down lands on a band bottom for inputs from 7000000 up and leaves the rest unchanged |
| Tuning.BandUpGoesToNextBand | steppir-gui.py:195-210 | from above the previous band's top up to a band's top, band up goes to the next band's bottom, wrapping 6 m to 40 m |
| Tuning.BandDownGoesToPrevBand | steppir-gui.py:219-234 | from a band's bottom to below the next band's bottom, band down goes to the previous band's bottom, wrapping 40 m to 6 m |
| Tuning.BandBottomsAreThePlan | steppir-gui.py:195-234 | the eight frequencies the ladders land on are exactly the bottoms of the eight bands of the plan |
| Tuning.BandLaddersAreInverse | steppir-gui.py:192-234 | band down undoes band up and band up undoes band down on each of the eight band bottoms |
| Panel.SteppirPanel.constructor | steppir-gui.py:80 | the display starts without a frequency |
| Panel.SteppirPanel.Jog | steppir-gui.py:133-190 | a jog sends and shows the frequency read plus or minus the step |
| Panel.SteppirPanel.BandUpButton | steppir-gui.py:192-214 | band up sends and shows the band-up target of the frequency read |
| Panel.SteppirPanel.BandDownButton | steppir-gui.py:216-238 | band down sends and shows the band-down target of the frequency read |
| Panel.SteppirPanel.DirectionButton | steppir-gui.py:257-282 | a direction button sends its heading command and then shows the frequency read |
| Panel.SteppirPanel.OperationButton | steppir-gui.py:240-254 | autotrack, retract and calibrate send one command each and leave the display alone |
| Relay.Forward | steppir-gui.py:339-341 | the echo appends the chunk to an open client socket, raises on a closed one, does nothing without one, and changes nothing else |
| Relay.Observe | steppir-gui.py:324-337 | a parsed report becomes the last frequency; on a change the slot gets it with the flag raised and the display shows it; otherwise nothing changes |
| Relay.OnChunk | steppir-gui.py:315-341 | one receive pass keeps the connection, at most appends the chunk for the client, changes the last frequency only to a parsed report's value, and changes the slot only by handing over that value |
| Relay.OnChunks | steppir-gui.py:314-341 | successive passes keep the connection and only ever extend the client's bytes, by at most one chunk per chunk received |
| Relay.OpaqueChunkPassesThrough | steppir-gui.py:317-341 | an untagged chunk is appended unchanged to an open client socket, and last frequency, slot and display stay as they were |
| Relay.MalformedChunkRaises | steppir-gui.py:321-322 | an unparsable payload raises with nothing changed and nothing forwarded |
| Relay.ReportUpdatesOnChange | steppir-gui.py:318-341 | a report becomes the last frequency; slot and display are written exactly when it differs from the previous one; the chunk is forwarded either way |
| Relay.RepeatedReportSubmitsNothing | steppir-gui.py:324-334 | the same report twice in a row leaves the slot as the first left it |
| Relay.FirstZeroReportSubmitsNothing | steppir-gui.py:307-324 | a first report of 0 Hz submits nothing |
| Relay.OnChunkKeepsSync | steppir-gui.py:324-334 | each radio step keeps the slot's value equal to the last frequency |
| Relay.DrainDeliversLatest | steppir-gui.py:471-476 | a serial pass keeps that agreement and delivers only the radio's latest frequency |
| Relay.OpaqueStreamPassesThrough | steppir-gui.py:314-341 | over any run of untagged chunks, an attached client receives exactly those chunks |
| Relay.ReportsCoalesceBeforeDrain | steppir-gui.py:324-334 | two reports before a serial pass, of which at least one is a change, lead to one delivery, of the second |
| Relay.EndToEndReport | steppir-gui.py:305-341 | `FA00014074000;` at start-up sets 14074000, shows it, reaches the client unchanged and is delivered by the next serial pass |
| Relay.PollOutput | steppir-gui.py:372-376 | a poll sends `FA;` exactly when no client connection is present, nothing otherwise |
| Relay.PollRun | steppir-gui.py:370-379 | successive polls send at most one query per pass |
| Relay.PollsOnlyWhileDetached | steppir-gui.py:370-379 | over any run of polls, only `FA;` is sent, and nothing at all exactly when a client was attached at every pass |
| Relay.RelayedPrefix | steppir-gui.py:414-425 | the chunks one session forwards to the radio: each received chunk in turn, up to and including the first empty one |
| Relay.RelayedPrefixShape | steppir-gui.py:414-425 | a session relays a prefix of the received chunks, all non-empty except the last, ending at the first empty chunk exactly when one was received |
| Relay.RelayedUpTo | steppir-gui.py:414-425 | a run of non-empty chunks is relayed whole and relaying goes on after it |
| Relay.RadioLoop.constructor | steppir-gui.py:305-307 | the radio thread starts with last frequency 0, nothing sent and its socket open |
| Relay.RadioLoop.Send | steppir-gui.py:420 | bytes sent to the radio are appended to its socket's log while the socket is open; on the socket closed by a raised receive loop the send raises and appends nothing |
| Relay.RadioLoop.HandleChunk | steppir-gui.py:310-350 | one receive pass changes the last frequency, slot, display and client log exactly as `OnChunk` says, reports whether it raised, and a raise leaves the socket closed |
| Relay.ClientLoop.constructor | steppir-gui.py:388-390 | the client thread starts without a connection |
| Relay.ClientLoop.AwaitClient | steppir-gui.py:410 | `conn` is reset before each accept |
| Relay.ClientLoop.Accept | steppir-gui.py:411 | an accepted client makes the connection open |
| Relay.ClientLoop.Serve | steppir-gui.py:412-436 | with the radio socket open, every chunk up to and including the first empty one goes to the radio unchanged; the session then closes, or stays open if none was empty; with the radio socket closed, the first chunk read makes the send raise, nothing reaches the radio, the client socket closes and the thread ends |
| Relay.PollStep | steppir-gui.py:370-379 | one poll pass appends `FA;` to the radio's log exactly when no client is attached and the radio socket is open; when it is closed that send raises instead and ends the poll thread |

## Left out

- Tk widget construction, layout, `mainloop` and the display text formatting:
  UI and floating-point formatting. The display is modelled as the frequency
  in hertz that it shows.
- Socket creation, connect, bind, listen, `SO_REUSEADDR`, and the reconnect
  after `socket.timeout`: network I/O. Received chunks are inputs and sent
  bytes are logs.
- Threads, `stop_threads`, `join`, the `time.sleep` pacing and every
  interleaving between threads: concurrency and timing. The start-up window is
  one such interleaving: `radio_CAT_thread` or its socket may not exist yet,
  and `steppir_serial_thread` (bound at steppir-gui.py:516) and `app` (bound
  at steppir-gui.py:524) are used at steppir-gui.py:333-337 by the radio
  thread, which starts at steppir-gui.py:504. A first report that arrives
  before either is bound ends the radio thread with a `NameError`, after
  `last_frequency` has already been set. The model starts with all objects in
  place.
- The `steppir.SteppIR` driver: its code is not part of this model. It is a
  command log, and `get_frequency` values are parameters.
- `SteppirStatusLoop`: an empty sleep loop that is never started.
- `RadioQueryLoop` is modelled (`PollStep`, `PollRun`), but the script never starts it, because its start is commented out. As shipped, nothing polls the radio.
- SerialHandoff.SerialLoop.Step: one pass of the serial thread is one atomic step. So `LatestWins` and `DrainDeliversLatest` hold only when no hand-over lands while `set_frequency` runs. In the program, a report handed over while the driver call is in progress is lost when the thread then clears `serial_send`. That is the out-of-sync case the script's own TODO describes.
- Python `int()` accepting whitespace, signs and underscores: the parse takes
  non-empty ASCII digit strings only.
- `self.stop()` in the client loop, which runs only after shutdown and would
  itself raise: shutdown handling.
