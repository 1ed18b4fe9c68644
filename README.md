# sysinfo-osc-client: a Dafny model of the snapshot and delivery core

The client samples the local machine (wall-clock time, CPU, RAM, GPU) and,
every `interval` seconds, sends one text snapshot as an OSC message over
UDP to a chat-box overlay. This project models the deterministic core of
`src/main.rs` and proves its properties:

- `Snapshot`: `get_info`, which appends every provider's output followed by
  a newline and then pops the last character. `GetInfo` is proved equal to
  the outputs joined by single newlines (`Join`). The pop removes only the
  newline the loop appended, and with no providers the result is empty.
  The snapshot length is the sum of the output lengths plus one newline
  between each two. The snapshot's lines are the outputs' lines in
  registration order. So when every output is a single line, each output
  is exactly one line of the snapshot.
- `Providers`: the resolved flags (`Args`), the four provider kinds, and the
  registry that `main` builds with conditional pushes. It is proved to hold
  Time, Cpu, Ram, Gpu in that order, each kind exactly when its `no_*` flag
  is false, and as many providers as there are false flags. Cpu and Ram hold
  the same sampler. It also models the text templates of the Cpu, Ram and
  Gpu providers, with the optional temperature suffix `", T°C"`. Integers
  are rendered in decimal, and `Format` proves that rendering reads back.
- `PollLoop`: the `while running.load(..)` loop as a class `Client`. Its
  fields are the flag, the reusable encode buffer and the log of datagrams
  sent. A trace of events drives it: `Poll` is one iteration, and
  `Interrupt` is the ctrl-c handler, which only ever stores false. `Run`
  sends exactly the encodings of the snapshots that the reference function
  `Loop` delivers. Lemmas about `Loop` show that:
  - an empty snapshot is never sent;
  - nothing is sent once the flag is false;
  - no iteration whose flag load follows the handler's store of false
    sends anything, though the iteration in flight at that moment still
    sends, because the flag is loaded before the sleep;
  - each tick sends at most one datagram.

  The flag never becomes true again: `Interrupt` only stores false, and
  `Run`'s contract gives the final flag. The buffer is empty before every
  encode, so each datagram carries only its own tick's message.

Behaviour of the code worth noting, which the model keeps:

- Empty provider outputs are not skipped. An empty output still gets its
  newline, so an empty middle output becomes a blank line (`LinesOfJoin`).
- A failed send does not let the loop go on to the next tick. The `?` on
  `send_to` returns the error from `main`, which ends the loop. The model
  ends the run with `SendFailed`.
- The snapshot does not have one line per provider. The Gpu provider's
  text itself contains a newline, so it contributes two lines
  (`GpuTwoLines`).
- The final `pop` is unconditional, but it never removes a character of
  an output. It always removes the newline pushed after the last output
  (`PopRemovesSeparator`).

## Model

| member | source | states |
|---|---|---|
| `Snapshot.GetInfo` | src/main.rs:190-200 | the push-loop followed by `pop` returns exactly the outputs joined by single newlines, in vector order |
| `Snapshot.Pop` | src/main.rs:198 | `String::pop` leaves the empty string unchanged and otherwise removes exactly the last character |
| `Snapshot.PopRemovesSeparator` | src/main.rs:191-198 | with no providers the built string is empty and so is the snapshot; with providers the loop's string is the joined snapshot plus one final newline, so `pop` removes only that separator |
| `Snapshot.JoinLength` | src/main.rs:193-198 | for n ≥ 1 outputs the snapshot's length is the sum of the output lengths plus n − 1 |
| `Snapshot.LinesOfJoinAll` | src/main.rs:193-198 | for n ≥ 1 outputs, the lines of the snapshot are the lines of each output in provider order, so an output that holds a newline contributes several lines |
| `Snapshot.LinesOfJoin` | src/main.rs:193-196 | for n ≥ 1 outputs, splitting the snapshot at newlines gives back the outputs one per line in registration order (when no output contains a newline), empty outputs included as blank lines |
| `Format.Decimal` | src/main.rs:126 | an integer is rendered as a non-empty string of decimal digits without a leading zero |
| `Format.ParseDecimalOfDecimal` | src/main.rs:126 | reading back the rendered digits gives the number |
| `Format.DecimalInjective` | src/main.rs:126 | different numbers render differently |
| `Providers.BuildRegistry` | src/main.rs:151-163 | the registered kinds are the kinds of the order Time, Cpu, Ram, Gpu whose `no_*` flag is false; every Cpu and Ram provider holds the one shared sampler |
| `Providers.EnabledMembers` | src/main.rs:151-163 | a kind is registered exactly when its flag is false |
| `Providers.EnabledOrdered` | src/main.rs:151-163 | the registered kinds keep the fixed order |
| `Providers.RegistryShape` | src/main.rs:151-163 | the registry is in strict Time, Cpu, Ram, Gpu order, holds a kind iff its flag is false, and has as many entries as there are false flags |
| `Providers.TemperatureSuffix` | src/main.rs:125-128 | a failed temperature read gives the empty suffix; a successful one gives `", "`, the temperature's decimal digits (which read back to the temperature and have no leading zero), and `"°C"` |
| `Providers.CpuLine` | src/main.rs:76-80 | the Cpu format string `"CPU: {usage}%, Processes: {count}"`, with the process count in decimal (`Decimal`) and the `{:.2}` usage as an abstract string: the text starts with `"CPU: "`, ends in a digit, and is one line when the usage rendering is |
| `Providers.RamLine` | src/main.rs:97-102 | the Ram format string `"RAM: {used} ({percent}%)"`, with the `bytesize` size and the `{:.2}` percentage as abstract strings: the text starts with `"RAM: "`, ends with `"%)"`, and is one line when both renderings are |
| `Providers.GpuUsageLine` | src/main.rs:121-128 | the first line of the Gpu format string `"GPU: {util}% ({watts}W{suffix})"`, with the utilization in decimal and the `{:.2}` watts as an abstract string: it starts with `"GPU: "`, ends with `")"`, and holds no newline when the watts rendering holds none, the temperature suffix included |
| `Providers.GpuMemoryLine` | src/main.rs:121-130 | the second line of the Gpu format string `"{used} ({percent}%)"`, with the `bytesize` size and the `{:.2}` percentage as abstract strings: it ends with `"%)"` and is one line when both renderings are |
| `Providers.GpuLine` | src/main.rs:121-131 | the whole Gpu format string: it starts with `"GPU: "` and contains the newline between utilization and memory use |
| `Providers.GpuTwoLines` | src/main.rs:121-131 | the Gpu text is two lines: utilization, power and the optional temperature, then memory use |
| `Providers.FullSnapshotLines` | src/main.rs:55-131 | with all four providers registered, the snapshot has five lines: the time, the Cpu line, the Ram line and the Gpu's two lines, in that order |
| `PollLoop.Loop` | src/main.rs:165-184 | the reference behaviour of the `while` loop: the flag is read at the top of each iteration, an empty snapshot is skipped, and the loop ends on a false flag or a failed send; it stops only when it started with a false flag or an interrupt occurred, and it ends with a failed send only when some iteration's send failed |
| `PollLoop.DeliveredNonEmpty` | src/main.rs:167-170 | no delivered snapshot is empty |
| `PollLoop.StoppedDeliversNothing` | src/main.rs:139-165 | once the flag is false, nothing more is delivered and no send can fail, because nothing sets the flag back to true |
| `PollLoop.NothingAfterInterrupt` | src/main.rs:139-165 | no iteration whose flag load follows the handler's store of false delivers anything; the iteration in flight when the handler runs still sends |
| `PollLoop.AtMostOnePerTick` | src/main.rs:165-184 | at most one snapshot is delivered per loop iteration |
| `PollLoop.Client.constructor` | src/main.rs:146-163 | the client starts with the flag true, an empty buffer, nothing sent, and the registry of the flags, whose Cpu and Ram providers all hold the one sampler it created |
| `PollLoop.Client.Interrupt` | src/main.rs:139-141 | the handler leaves the flag false |
| `PollLoop.Client.Tick` | src/main.rs:166-183 | an empty snapshot is skipped; otherwise exactly the encoding of this tick's snapshot is sent and the buffer is empty again; a failed send ends the loop |
| `PollLoop.Client.Run` | src/main.rs:165-184 | the datagrams sent are exactly the encodings of the snapshots `Loop` delivers, in order, and the run ends as `Loop` says; a run that stopped leaves the flag false, and one still polling leaves it true exactly when it started true and no interrupt occurred |

## Left out

- Telemetry acquisition is foreign: the `sysinfo` refreshes and the NVML device queries, with their `unwrap` panics. The providers' outputs are inputs of the model, so the Time provider's text is an abstract string.
- Snapshot.GetInfo: a provider call is represented by the string it returned. The side effects of that call are not modelled (the Cpu and Ram refreshes of the shared sampler).
- The floating-point renderings `{:.2}` of usages, watts and percentages and the `bytesize` sizes are abstract string parameters of `CpuLine`, `RamLine` and `GpuLine`.
- The chrono time format is not modelled; it is library formatting.
- The OSC encoding by `rosc::encoder::encode_into` is an opaque function given to the client. Its possible error (`unwrap`) is not modelled.
- The UDP socket's bind, its `send_to` and the socket's lifetime are I/O. A send's success is part of each `Poll` event.
- `thread::sleep` is not modelled, so the interval is only recorded.
- The `AtomicBool` memory ordering is replaced by the interleaving of `Interrupt` and `Poll` events.
- Command-line parsing is not modelled; `Args` holds the resolved values, and `Valid` is clap's bound `interval ≥ 1`.
- The `println!` output is left out.
- The unsafe `set_len(0)` is modelled as resetting the buffer to empty.
- PollLoop.Client.Run: the loop runs until interrupted, but a model run covers a finite trace of events. A run whose trace ends first reports `Polling`.
