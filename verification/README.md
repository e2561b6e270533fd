# nrfProxy: a verified model

nrfProxy is firmware that bridges a UART to a phone over Bluetooth LE. An interrupt
handler, the Bluetooth callbacks, the system workqueue and a writer thread share a
handful of fields, two byte rings, a buffer slab and several timers. This project models
that concurrency and the pure logic it decides with, and proves what the firmware
promises about it, over every interleaving.

## How the model is laid out

Three state machines, each in the same parts:

| part | UART bridge (`src/uart_bridge.c`) | link lifecycle (`src/main.c`) | serial to phone (`src/main.c`, `src/uart_bridge.c`) |
|---|---|---|---|
| states, events, one step of each context | `BridgeModel` | `LinkModel` | `UplinkModel` |
| the invariant and why every step keeps it | `BridgeLaws` | `LinkLaws` | `UplinkLaws` |
| theorems over every reachable state and every run | `BridgeRuns`, `BridgeAnswers`, `BridgeLedger` | `LinkRuns`, `LinkTimes`, `LinkHistory` | `UplinkRuns` |
| the imperative code, section by section | `UartBridge` | `LinkManager` | `BleWriter` |
| any schedule of the code | `BridgeScheduler` | `LinkScheduler` | `BleWriter.Writer.Execute` |

A method of the imperative part is one section that nothing can interrupt (between
`irq_lock`/`irq_unlock`, `conn_mutex`, driver and work-queue calls). Its postcondition is
the step of the machine it takes; `Execute` composes the methods along any legal schedule,
so what the theorems say of the machine holds of the objects. `RingBuffer` is the
ring over a real array: claims stop at the physical wrap and a ghost sequence says what is
queued.

The three meet in a fourth, in the same parts: `FirmwareModel`, `FirmwareLaws`,
`FirmwareRuns`, `FirmwareCommands`, `FirmwareRecovery` and the class `Firmware.Device`. There the writer thread takes its
reference, claims and sends on the link in the same steps in which it moves the bytes, and
`nus_received` reads the link's gate, parses the write, calls into the UART bridge and
sends its echo. Each
stretch of a firmware run is, for each part, a stretch of a run of its own machine
(`FirmwareRuns.ProjectsLink`, `ProjectsUplink`, `ProjectsBridge`), so a theorem about all
states, all steps or all stretches of a part's runs holds of the whole. A theorem that
some run exists does not carry over that way, because a step that is free in the part
may have to wait for another; `FirmwareRecovery` proves those of the whole firmware.

The theorems speak, wherever they can, of what comes in from outside and what goes out:
the bytes of a packet, the answers of the driver and of `bt_nus_send`, the stack's own
events, milliseconds. They do not take the firmware's own classification of an answer, or
a flag it keeps, for what these are supposed to mean.

Beside the machines stand the parts without concurrency: `ProxyCore` (hooks, command
parser, policies), `CommandLaws` (the packet's laws), `Downlink` (what a write means and
what a list of writes amounts to), `SendLoops` (the two `bt_nus_send` loops), `DropStats`,
`UartRxRetry` and `Sequences`.

## What is assumed of Zephyr and of the callers

- Steps are sequentially consistent. An interrupt is atomic against threads.
- `uart_bridge_send` and `uart_bridge_set_baud` are called by one thread
  (`src/uart_bridge.h:18`, `src/uart_bridge.h:56-57`; both are called from `nus_received`).
- `uart_tx` accepts a transfer only when none is in flight, and reports each one exactly
  once, by TX_DONE or TX_ABORTED.
- `uart_rx_enable` returns -EBUSY only when reception is running or its DISABLED event is
  still to come, also inside the DISABLED callback, where either may be the case. The driver gives back all its
  buffers before it reports DISABLED. A buffer offered inside BUF_REQUEST is accepted.
- A failed `uart_configure` leaves the rate as it was.
- The stack has one connection object, and connectable advertising occupies it. `recycled`
  comes either inside `bt_le_adv_stop` or at any later time.
- Callbacks of a link are serial and ordered: connected, then security changes, writes
  and pairing, then disconnected, then recycled once no reference is left.
- One bond can be stored; a second peer's pairing leaves the bonds as they are. A filtered
  advertiser lets in only peers on its accept list.
- `on_disconnected` returns within the 60 s of the grace timer it has just armed.
  `LinkRuns.LateDisconnectStrandsRelay` and `LinkRuns.StrandingIsReachable` show that the
  relay argument needs this.

Handlers of the system workqueue are not assumed to exclude each other across the UART and
the link side, and extra wakeups of the writer are allowed. Everything else a library call may answer is left open: every error code, any free slab
block, any number of failures, any delay, any interleaving.

## Where the code and its documentation differ

- `src/uart_bridge.h:50-52` and RELAY_COMMAND.md say that a baud change drops buffered
  bytes. The code drops only the unsent rest of the transfer in flight; the TX ring is kept and sent at the
  new rate (`src/uart_bridge.c:339-345`). `BridgeRuns.QueueSurvivesBaudChange` proves it.
- `src/proxy_core.h:67` calls unused payload bytes zero. The parser does not look at them
  (`src/proxy_core.c:83-109`), and `ProxyCore.ProxyCmd.Parse` does not either.
- `src/uart_bridge.c:290-293` says that the flag stops a new RX retry from being scheduled.
  A handler that passed its check before the flag was set reschedules all the same:
  `BridgeRuns.RescheduledUnderFlag` reaches such a state. Reception is not harmed by it.
- `src/main.c:1017` guards against an empty claim. `UplinkRuns.ClaimNeverEmpty` shows that
  the guard never fires where it stands.
- A drop report that is due every 10 s can be held back by a whole turn of the 32-bit
  clock (`src/drop_stats.c:14`): `DropStats.FiresExactly` gives the exact condition and
  `DropStats.HiddenByWrap` an input beyond it.

## Model

| member | source | states |
|---|---|---|
| `FirmwareRuns.OnlyDataEnters` | src/main.c:840-899 | Over every run of all contexts, the TX ring has accepted exactly what hook buffer and room take of the unframed writes that met an encrypted link, in order; no framed packet and no write on a link that has not encrypted left a byte; the wire carries those payloads with bytes left out |
| `FirmwareRuns.RatesAreCommanded` | src/main.c:873-883 | The rates that went live are, in order, among those that packets on encrypted links spell, all of the documented six |
| `FirmwareRuns.RelayByPacket` | src/main.c:862-872 | The relay is only turned on by a framed packet with opcode 1 and payload 1 on an encrypted link |
| `FirmwareRuns.BytesNeverCrossLinks` | src/main.c:989-1039 | Over every run of all contexts, each byte the phone has been sent is a received byte that was claimed and sent on one and the same link; that link had been encrypted; and the bytes went out in the order they were received |
| `FirmwareRuns.DeliveriesAreTold` | src/main.c:1014-1036 | What is recorded of each byte sent is what the run's claims and its sends answered with 0 make it |
| `FirmwareRuns.AcksAreHonest` | src/main.c:860-887 | Every echo went out on its command's link, encrypted; the echo of a rate packet spells the live rate, that of a relay packet tells what the relay, where fitted, is; no command is echoed twice or out of order |
| `FirmwareCommands.CommandsObeyed` | src/main.c:846-887 | A relay packet goes to `relay_set`, a rate packet to `uart_bridge_set_baud` with the rate it spells, exactly on a link that has encrypted, each owed its echo; nothing else is |
| `FirmwareCommands.RelayObeys` | src/main.c:318-338 | After `relay_set` the relay, where fitted, is as the packet's payload says |
| `FirmwareCommands.EchoTells` | src/main.c:873-882 | When an echo is tried, its connection is its command's and the command has taken effect, in the state itself |
| `FirmwareCommands.OnlyFailuresGoUnanswered` | src/main.c:877-882 | Only a rate whose change returned an error goes without an echo being tried |
| `FirmwareCommands.AckLedger` | src/main.c:958-975 | Over every run each command is echoed, failed, given up after a fatal answer or five shortages, or still owed its echo |
| `FirmwareCommands.EncryptedLinkIsServed` | src/main.c:995-1012 | The writer goes on to forward exactly if the link has encrypted, holding it, and drains otherwise |
| `FirmwareRuns.GateIsLink` | src/main.c:846-848 | The gate a write has read is open exactly if its link has encrypted |
| `FirmwareRecovery.BecomesReachable` | src/main.c:505-607 | From every reachable state with no link up or being set up, at most 35 own steps or owed callbacks lead to a live advertiser, once one start is accepted and a pending send is answered with anything but a shortage |
| `FirmwareRecovery.ShortageHoldsLink` | src/main.c:940-943 | While all sends are answered with a shortage, a writer in its send loop keeps the connection object, and no advertiser comes up in any run |
| `FirmwareRecovery.GoneMidSend` | src/main.c:1036-1038 | From boot, a link can end with the writer in its send loop; its `bt_conn_unref` has to wait |
| `FirmwareRecovery.StepTowardsAdv` | src/main.c:786-830 | Some own or owed step is always enabled in the whole firmware that brings the next advertiser nearer |
| `FirmwareRecovery.CallerWinds` | src/uart_bridge.c:280-360 | Whatever its calls answer, every step of `uart_bridge_send` and `uart_bridge_set_baud` leads towards their return |
| `FirmwareRecovery.CallerSteps` | src/uart_bridge.c:280-360 | And they always have a step |
| `FirmwareRecovery.RxRecovers` | src/uart_bridge.c:225-249 | Reception comes back within nine steps in the whole firmware too |
| `FirmwareRecovery.WriterNeverStuck` | src/main.c:986-1045 | The writer blocks only with nothing queued and no reference held |
| `FirmwareRuns.PartsAreReachable` | src/main.c:1048-1134 | The parts of the running firmware reach only states of their own runs |
| `FirmwareRuns.ProjectsLink` | src/main.c:318-1046 | Every stretch of a firmware run is a stretch of a run of the link machine |
| `FirmwareRuns.ProjectsUplink` | src/main.c:977-1046 | Every stretch of a firmware run is a stretch of a run of the serial-to-phone machine |
| `FirmwareRuns.ProjectsBridge` | src/uart_bridge.c:86-360 | Every stretch of a firmware run is a stretch of a run of the bridge machine |
| `FirmwareRuns.RunFeeds` | src/main.c:840-899 | What the UART side holds and was asked for follows from the writes acted on, through every step of every context |
| `FirmwareRuns.ActScope` | src/main.c:862-898 | One write in the room it meets: bytes accepted and rate asked for are as the parse says |
| `FirmwareRuns.WireIsSettled` | src/uart_bridge.c:125-158 | The wire bytes are a subsequence of the settled stream |
| `FirmwareLaws.InvStep` | src/main.c:840-1046 | Every step keeps the writer's reference with its bytes, the deliveries on one link, the relay command with its write and the echo owed with its link and effect |
| `FirmwareLaws.BridgeInChange` | src/uart_bridge.c:280-348 | A baud change under way for a rate ends with a 0 only when that rate is live |
| `FirmwareLaws.HeldScope` | src/main.c:786-805 | While a callback has not returned, nothing else changes the link it runs on, the gate or, under an open gate, the relay |
| `FirmwareLaws.SendDelivers` | src/main.c:932-948 | A slice goes out on the link its bytes were claimed under |
| `Firmware.Device.NusArrives` | src/main.c:840-848 | The gate is read once, with the write and its connection at hand |
| `Firmware.Device.ParseWrite` | src/main.c:860-887 | What the parsed kind means for the UART, the rate the packet spells, and the packet for its echo |
| `Firmware.Device.Forward` | src/main.c:889-898 | The hook's output goes to `uart_bridge_send`, if there is any |
| `Firmware.Device.ChangeBaud` | src/main.c:873-877 | The rate goes to `uart_bridge_set_baud` |
| `Firmware.Device.Act` | src/main.c:860-898 | An encrypted write does in the UART bridge what its dispatch says; a command's packet is kept for its echo |
| `Firmware.Device.ActIf` | src/main.c:850-853 | Nothing is done or owed under a closed gate |
| `Firmware.Device.NusDispatches` | src/main.c:850-899 | The action in the bridge, the echo owed for it, and a relay command on its way to `relay_set` |
| `Firmware.Device.AckSends` | src/main.c:958-975 | One call of `bt_nus_send` for the echo: taken, tried again up to five times, or given up |
| `Firmware.Device.AckFails` | src/main.c:877-882 | A failed baud change is not echoed |
| `Firmware.Device.WriterDecides` | src/main.c:995-1012 | Decision and reference in one locked section: forward exactly with a reference on an encrypted link |
| `Firmware.Device.WriterClaims` | src/main.c:1014-1020 | A claim up to the link's MTU, under the reference |
| `Firmware.Device.WriterSends` | src/main.c:932-948 | One `bt_nus_send` on the reference's link with the slice's bytes, recorded with the link of the claim |
| `Firmware.Device.Step` | src/main.c:318-1046 | Whatever context runs next, the device takes the machine's step |
| `Firmware.Device.Execute` | src/main.c:318-1046 | Along every legal schedule from boot the device ends in the machine's state |
| `Firmware.PowerOn` | src/main.c:1056-1134 | `main()`, when nothing in it fails, sets up the machine's initial state |
| `BridgeRuns.TxConservation` | src/uart_bridge.c:125-158 | Over every run, the bytes accepted into the TX ring are, in order, the wire and lost pieces, the staged chunk and the queue; the drop counter is the lost bytes mod 2^32 |
| `BridgeRuns.OneTransfer` | src/uart_bridge.c:122-145 | `uart_tx` is never called on a busy driver or during a baud change, and the staging buffer is never rewritten under a transfer |
| `BridgeRuns.NoStalledTx` | src/uart_bridge.c:334-359 | With the calling thread at rest, queued bytes mean a transfer in flight or that the latest `uart_tx` was refused; kicks suppressed by a baud change are made up |
| `BridgeRuns.RxNeverDies` | src/uart_bridge.c:225-249 | In every interleaving reception is live, about to report DISABLED, on the retry timer, in the retry handler, or owed by a baud change |
| `BridgeRuns.RestartHasBuffer` | src/uart_bridge.c:69-84 | Whenever reception is off, the slab has a free block for restarting it |
| `BridgeRuns.RxRecovers` | src/uart_bridge.c:86-120 | From every reachable state with reception off, at most nine steps of the firmware's own threads bring it back once the driver accepts one enable |
| `BridgeRuns.RescheduleMatchesPolicy` | src/uart_bridge.c:86-120 | Over one whole activation of the retry handler, with every other context interleaved, it meets the flag at its check, an empty slab or the driver's answer; it leaves the timer alone if it met the flag, and otherwise puts the work back exactly when the policy says so |
| `BridgeRuns.RescheduledUnderFlag` | src/uart_bridge.c:290-296 | A reachable state in which the flag is set and the retry handler puts its work back |
| `BridgeRuns.InlineMatchesPolicy` | src/uart_rx_retry.c:10-16 | The inline restart leaves the work pending exactly when it was or the policy says so |
| `BridgeRuns.SlabOwnership` | src/uart_bridge.c:207-249 | Every slab block is free, with the driver or local to one handler, never two of these; no double free, no leak; at most one warning per outage |
| `BridgeRuns.BaudExit` | src/uart_bridge.c:334-348 | Every return of a baud change gives back the decided value, has cleared the flag and left RX and TX running or rescheduled; 0 exactly when the new rate is live (else the old stands), and only a 0 is acknowledged |
| `BridgeAnswers.BaudCall` | src/uart_bridge.c:280-348 | One whole call, everything else interleaved: it returns the first error of disable (but -EFAULT), wait (-ETIMEDOUT), read and configure, and 0 if there is none, exactly if `uart_configure` was called and answered 0; then and only then the rate changed |
| `BridgeAnswers.QuiesceIsFresh` | src/uart_bridge.c:304-313 | The wait is only satisfied by a DISABLED event that came since this change reset the semaphore |
| `BridgeAnswers.ChangeCancelsRetry` | src/uart_bridge.c:290-293 | After a baud change has begun, the retry work does not fire unless scheduled anew |
| `BridgeLedger.TxLedger` | src/uart_bridge.c:145-188 | Over every run, what is on the wire is what TX_DONE and TX_ABORTED reported sent, the counter is what was aborted or refused, mod 2^32, and with the queue they add up to what was accepted |
| `BridgeLedger.FullChunks` | src/uart_bridge.c:134-142 | A kick takes 64 bytes, or all there are |
| `BridgeLedger.OnlyRefusalStalls` | src/uart_bridge.c:145-157 | At rest, queued bytes mean a transfer in flight or that `uart_tx`, when last called, answered an error; the error kept for the report is the last one |
| `BridgeLedger.RequestServed` | src/uart_bridge.c:207-217 | A buffer request is answered whenever the slab has a block |
| `BridgeLedger.LatchFollows` | src/uart_rx_retry.c:18-30 | The warning latch goes up with a failed attempt and down with the end of the outage, over every run |
| `BridgeRuns.QueueSurvivesBaudChange` | src/uart_bridge.c:129-132 | While a baud change owns the port no byte enters or leaves the TX ring, and an idle transmitter stays as it is |
| `BridgeRuns.AcksAreRates` | src/main.c:873-883 | At rest, the acknowledged baud commands are exactly the rates that went live, in order |
| `BridgeRuns.RunInv` | src/uart_bridge.c:162-360 | The whole invariant holds after every legal run |
| `BridgeLaws.InvStep` | src/uart_bridge.c:86-360 | Every step of the thread, the ISR and the retry work keeps the invariant |
| `BridgeLaws.SettleKeeps` | src/uart_bridge.c:171-185 | A completed or aborted transfer moves its chunk to the wire and lost pieces without losing count or order |
| `BridgeLaws.CleanUpKeeps` | src/uart_bridge.c:147-156 | A refused `uart_tx` counts exactly the staged chunk as lost |
| `BridgeLaws.KickInIsrKeeps` | src/uart_bridge.c:125-158 | A kick moves bytes from the queue to the staging buffer in order |
| `BridgeLaws.StageKeeps` | src/uart_bridge.c:134-142 | Staging keeps conservation, and the front of the buffer is the head of the queue |
| `BridgeRuns.StepTowardsRx` | src/uart_bridge.c:86-119 | With reception off, the thread whose job the restart is has a step that brings it nearer; waiting for the quiesce it finds the semaphore given |
| `BridgeRuns.EveryStepTowardsRx` | src/uart_bridge.c:280-348 | Whatever its calls answer, every step of that thread brings reception nearer, but for a refused `uart_rx_enable` |
| `BridgeRuns.RxInevitable` | src/uart_bridge.c:86-120 | In any stretch of a run with no enable refused and no further baud change begun, whoever else runs, reception is off for at most nine steps of the responsible thread |
| `UartBridge.TxPath.Put` | src/uart_bridge.c:352-352 | Accepts into the ring what fits, in order, and records it |
| `UartBridge.TxPath.Stage` | src/uart_bridge.c:134-142 | Takes up to 64 bytes off the ring into the staging buffer; nothing happens on an empty ring |
| `UartBridge.TxPath.Start` | src/uart_bridge.c:145-145 | The driver holds exactly the staged bytes if it accepts |
| `UartBridge.TxPath.CleanUp` | src/uart_bridge.c:147-157 | Counts and settles the staged chunk as lost, frees the pipeline |
| `UartBridge.TxPath.KickInIsr` | src/uart_bridge.c:125-158 | The whole kick as one step: guard, stage, start, clean-up |
| `UartBridge.TxPath.Done` | src/uart_bridge.c:171-173 | The whole chunk is settled on the wire |
| `UartBridge.TxPath.Aborted` | src/uart_bridge.c:177-185 | The sent part is settled on the wire, the rest lost and counted |
| `UartBridge.RxPath.Alloc` | src/uart_bridge.c:74-77 | Takes a free block, or fails exactly on an empty slab |
| `UartBridge.RxPath.WarnOnce` | src/uart_bridge.c:99-101 | At most one warning until the latch is cleared |
| `UartBridge.RxPath.BufRequest` | src/uart_bridge.c:207-217 | Hands the driver a block if there is one, nothing otherwise |
| `UartBridge.RxPath.BufReleased` | src/uart_bridge.c:219-223 | The block goes from the driver back to the slab |
| `UartBridge.RxPath.Disabled` | src/uart_bridge.c:225-249 | Hand-off during a reconfigure, else one inline attempt; -EBUSY gives the block back, with reception live or its DISABLED still to come; any other failure leaves the retry work |
| `UartBridge.RxPath.RetryCheck` | src/uart_bridge.c:94-96 | Steps back during a reconfigure |
| `UartBridge.RxPath.RetryAlloc` | src/uart_bridge.c:98-104 | Allocates, or warns once and reschedules |
| `UartBridge.RxPath.RetryEnable` | src/uart_bridge.c:106-113 | Success hands over the block and clears the latch; -EBUSY and failure keep it to be freed |
| `UartBridge.RxPath.RetryGiveBack` | src/uart_bridge.c:108-119 | Frees the block; failure warns once and reschedules |
| `UartBridge.Bridge.Init` | src/uart_bridge.c:258-278 | Returns 0 exactly when device, callback and enable do, in the machine's initial state; failure leaks no block |
| `UartBridge.Bridge.Send` | src/uart_bridge.c:350-360 | Queues what fits and goes on to the kick |
| `UartBridge.Bridge.KickStage` | src/uart_bridge.c:127-143 | The locked part of a kick in thread context |
| `UartBridge.Bridge.KickStart` | src/uart_bridge.c:145-147 | The driver call, after the lock is released |
| `UartBridge.Bridge.KickCleanUp` | src/uart_bridge.c:147-157 | The error path, then return to the caller |
| `UartBridge.Bridge.TxEnded` | src/uart_bridge.c:171-188 | TX_DONE and TX_ABORTED settle the transfer and chain the next |
| `UartBridge.Bridge.SetBaud` | src/uart_bridge.c:286-293 | Refused before init; otherwise the retry work is cancelled |
| `UartBridge.Bridge.BaudClaim` | src/uart_bridge.c:294-296 | Takes ownership of both directions |
| `UartBridge.Bridge.BaudReset` | src/uart_bridge.c:306-306 | Forgets stale quiesce signals |
| `UartBridge.Bridge.BaudDisable` | src/uart_bridge.c:307-317 | Waits on 0, goes on with -EFAULT, restarts on any other error |
| `UartBridge.Bridge.BaudWait` | src/uart_bridge.c:308-313 | Goes on when quiesced, else times out to the restart label |
| `UartBridge.Bridge.BaudGetConfig` | src/uart_bridge.c:319-323 | An error skips the configure |
| `UartBridge.Bridge.BaudConfigure` | src/uart_bridge.c:324-332 | The rate changes exactly on success |
| `UartBridge.Bridge.BaudRelease` | src/uart_bridge.c:334-337 | Gives ownership up on every path |
| `UartBridge.Bridge.BaudAllocRx` | src/uart_bridge.c:74-77 | The restart's allocation |
| `UartBridge.Bridge.BaudEnableRx` | src/uart_bridge.c:79-83 | The restart's enable; any error, -EBUSY too, frees the block |
| `UartBridge.Bridge.BaudReschedule` | src/uart_bridge.c:342-345 | A failed restart leaves the retry work pending |
| `BridgeScheduler.Step` | src/uart_bridge.c:162-360 | Whatever context runs next, the objects take the machine's step |
| `BridgeScheduler.Execute` | src/uart_bridge.c:162-360 | Along every legal schedule the objects end in the machine's state, invariant kept |
| `RingBuffer.Ring.Put` | src/uart_bridge.c:195-195 | Queues exactly the prefix that fits, across the physical wrap |
| `RingBuffer.Ring.Claim` | src/uart_bridge.c:367-370 | A view of the oldest contiguous bytes, nothing consumed |
| `RingBuffer.Ring.ClaimLen` | src/uart_bridge.c:367-370 | The longest contiguous claim within what was asked, what is queued and the physical wrap |
| `RingBuffer.Ring.Finish` | src/uart_bridge.c:372-375 | Drops exactly the consumed bytes from the front |
| `RingBuffer.Ring.Get` | src/uart_bridge.c:134-135 | Moves the oldest bytes out in order, in one piece or two |
| `LinkRuns.NeverUnreachable` | src/main.c:505-607 | An advertiser is live, or the connection object is in use with somebody due to give it back, or a recycled callback, retry timer or in-flight handler will advertise again |
| `LinkRuns.StepFromFree` | src/main.c:505-607 | With the connection object free, a step of the link's own brings the next advertiser nearer |
| `LinkRuns.StepFromGone` | src/main.c:805-830 | With a link being given up, so does a step of whoever still holds it |
| `LinkRuns.StepFromLost` | src/main.c:786-805 | With a lost link, so does the next step of the callback that runs on it |
| `LinkRuns.SingleAdvertiser` | src/main.c:503-607 | A live advertiser implies `adv_active`, which excludes `current_conn`; `bt_le_adv_start` is never issued over a live advertiser |
| `LinkRuns.NoUseAfterFree` | src/main.c:673-695 | The reference count is the number of holders (stack, `current_conn`, watchdog, writer); no call uses a recycled object; `on_connected` never overwrites a live `current_conn` |
| `LinkRuns.BytesStayOnTheirLink` | src/main.c:989-1039 | Every send of the writer uses the link its claim was made under, and that link had been encrypted (the bytes themselves: `FirmwareRuns.BytesNeverCrossLinks`) |
| `LinkRuns.RelaySafety` | src/main.c:318-380 | Relay on implies the last accepted command was ENABLE on an encrypted link, and a secure link, or a grace deadline within 60 s of the last disconnect, or the handler about to decide |
| `LinkRuns.RelayChanges` | src/main.c:318-362 | Only a command on a secure link or the grace handler changes the relay; the handler only turns it off and never under a secure link |
| `LinkRuns.GraceExpires` | src/main.c:345-355 | Over any stretch without an encrypted link, whatever connects or disconnects, one decision of the grace handler leaves the relay off to its end |
| `LinkRuns.LateDisconnectStrandsRelay` | src/main.c:786-805 | Were `on_disconnected` to outlast its grace timer, the relay would stay on with nothing left to turn it off |
| `LinkRuns.StrandingIsReachable` | src/main.c:364-380 | The starting point of that schedule is reached from boot |
| `LinkRuns.SquatterBound` | src/main.c:649-695 | A link that is up and unencrypted has the watchdog due within 60 s of being armed, or its handler running, or a disconnect requested |
| `LinkRuns.BondedOnly` | src/main.c:627-647 | Over every run a live advertiser is filtered exactly when a bond is stored; its accept list is the stored bonds less those the stack refused at the last rebuild, so equal to them when it refused none; the list is never edited under it and no stranger gets in |
| `LinkRuns.EncryptionGate` | src/main.c:846-853 | The gate of `nus_received` and the writer's decision are open exactly on a link that has encrypted |
| `LinkRuns.EncryptedByEvents` | src/main.c:697-711 | A link has encrypted if and only if level 2 or more was reported for it without an error |
| `LinkTimes.RelaySurvives` | src/main.c:364-380 | From the start of the grace window, with no grace handler already running, the relay stays on in every stretch of less than 60 s without a relay command |
| `LinkTimes.WatchdogWaits` | src/main.c:780-781 | From the arming of the watchdog, with its handler not already running, no disconnect is requested in any stretch of less than 60 s |
| `LinkTimes.WatchdogSpares` | src/main.c:673-684 | The watchdog takes a link to disconnect it exactly when there is one that has not encrypted |
| `LinkTimes.ConnectCancelsSlow` | src/main.c:774-775 | After a connect the slow switch does not fire unless scheduled anew |
| `LinkTimes.CallbacksCancelWatchdog` | src/main.c:712-712 | After encryption or a disconnect the watchdog does not fire until the next connect |
| `LinkTimes.CallbacksCancelGrace` | src/main.c:713-717 | After encryption or an accepted command the grace timer does not fire until the next disconnect |
| `LinkTimes.FastAdvertisingEnds` | src/main.c:532-537 | As long as an advertiser is fast, the switch to the slow interval is scheduled, running or to be tried again |
| `LinkTimes.Intervals` | src/main.c:505-575 | An advertiser comes up fast, but for the switch, which brings it up slow |
| `LinkHistory.HistoryIsTold` | src/main.c:318-822 | What the other theorems call the last command, the last disconnect, the last arming and a requested disconnect is a matter of the run's events alone |
| `LinkHistory.StartsOverNone` | src/main.c:505-571 | Where `bt_le_adv_start` is called, by `advertising_start` or by the switch after its stop, no advertiser is live |
| `LinkHistory.CallsAreAlive` | src/main.c:673-695 | Watchdog, writer and `current_conn` hold the object that is there, and `on_connected` finds none published |
| `LinkHistory.ListEditedAtRest` | src/main.c:627-647 | The accept list is edited with no advertiser live; with a bond stored only a bonded peer connects |
| `LinkHistory.NoCommandNoGrace` | src/main.c:364-380 | Without a relay command since boot the relay stays off and no grace window starts |
| `LinkRuns.RunInv` | src/main.c:505-830 | The whole invariant holds after every legal run from boot |
| `LinkLaws.InvStep` | src/main.c:318-830 | Every step of stack, callbacks, work handlers, writer and clock keeps the invariant |
| `LinkLaws.AdvertisesWork` | src/main.c:549-607 | The slow switch and the retry keep one advertiser and a way back to one, also when the stop runs `on_recycled` inline |
| `LinkLaws.HoldsRelayWork` | src/main.c:345-362 | The grace handler keeps relay safety against every race with a reconnect |
| `LinkLaws.CountsCallback` | src/main.c:786-805 | Callbacks keep the reference count equal to the holders |
| `LinkLaws.WatchesWork` | src/main.c:673-695 | The watchdog keeps the squatter bound |
| `LinkManager.Link.constructor` | src/main.c:1118-1129 | At the first `advertising_start`, mode and accept list match the stored bonds |
| `LinkManager.Link.RelayApply` | src/main.c:318-327 | Drives and records the relay only on a board that has one |
| `LinkManager.Link.AdvertisingStart` | src/main.c:509-524 | Starts only when neither connected nor advertising; the flag records the result |
| `LinkManager.Link.StartAdvertiser` | src/main.c:477-485 | The filter follows `locked_mode` |
| `LinkManager.Link.ScheduleRetry` | src/main.c:526-531 | A failed start is retried |
| `LinkManager.Link.ScheduleSlow` | src/main.c:532-537 | A successful start schedules the slow switch |
| `LinkManager.Link.StopAdvertiser` | src/main.c:559-569 | The stop frees the object; `recycled` may run inside it |
| `LinkManager.Link.AdvSlowHandler` | src/main.c:549-575 | The locked section of the switch: skip, stop failure, start failure, success |
| `LinkManager.Link.SlowRecheck` | src/main.c:585-593 | Tells the connect race from a failure |
| `LinkManager.Link.SlowRetry` | src/main.c:596-604 | A failed slow start is retried |
| `LinkManager.Link.RetryFire` | src/main.c:542-545 | The retry calls `advertising_start` |
| `LinkManager.Link.RefUnsecuredConn` | src/main.c:673-684 | A reference is taken exactly on a connected, unencrypted link |
| `LinkManager.Link.WatchdogDisconnect` | src/main.c:690-692 | Asks the stack to drop the link |
| `LinkManager.Link.WatchdogUnref` | src/main.c:693-693 | Gives the reference back |
| `LinkManager.Link.RelayGraceHandler` | src/main.c:345-355 | Decides under the mutex on the link's present state |
| `LinkManager.Link.OnConnected` | src/main.c:751-769 | Consumes the advertiser; success publishes a referenced, unencrypted link |
| `LinkManager.Link.CancelSlow` | src/main.c:774-775 | The slow switch is called off |
| `LinkManager.Link.ArmWatchdog` | src/main.c:780-781 | The watchdog is armed with the policy's window |
| `LinkManager.Link.OnSecurityChanged` | src/main.c:697-711 | Level 2 without error publishes the link as encrypted, anything else changes nothing |
| `LinkManager.Link.CancelGrace` | src/main.c:713-717 | The grace timer is cancelled after the publication |
| `LinkManager.Link.NusReceived` | src/main.c:846-848 | The gate is read once |
| `LinkManager.Link.RelaySet` | src/main.c:331-333 | An accepted command first cancels the grace timer |
| `LinkManager.Link.RelaySetApply` | src/main.c:335-337 | Then applies, under the mutex |
| `LinkManager.Link.ClearList` | src/main.c:637-639 | Counts the bonds and empties the accept list |
| `LinkManager.Link.AddBonds` | src/main.c:640-642 | Adds the bonds the stack takes |
| `LinkManager.Link.SetMode` | src/main.c:644-644 | Locked exactly when bonds were counted |
| `LinkManager.Link.OnDisconnected` | src/main.c:367-371 | Reads whether the relay is held |
| `LinkManager.Link.RelayGraceStart` | src/main.c:373-380 | Arms 60 s exactly when it is held |
| `LinkManager.Link.DropConn` | src/main.c:799-805 | Gives `current_conn` back and clears the gate |
| `LinkManager.Link.WriterTakeRef` | src/main.c:995-1004 | The writer takes a reference exactly when it may forward |
| `LinkManager.Link.WriterClaim` | src/main.c:1014-1020 | The link's side of the claim: a call on the held reference (MTU and bytes: `Firmware.Device.WriterClaims`) |
| `LinkManager.Link.WriterSend` | src/main.c:932-933 | The link's side of the send: a call on the held reference (bytes: `Firmware.Device.WriterSends`) |
| `LinkManager.Link.WriterUnref` | src/main.c:1038-1038 | The reference is given back |
| `LinkScheduler.Step` | src/main.c:318-1046 | Whatever context runs next, the objects take the machine's step |
| `LinkScheduler.StepSafely` | src/main.c:318-1046 | One section of any context, for a caller who has the invariant and wants it back |
| `LinkScheduler.Execute` | src/main.c:318-1046 | Along every legal schedule the objects end in the machine's state, invariant kept |
| `UplinkRuns.UplinkConservation` | src/main.c:986-1038 | Over every run, the bytes received are those queued, still to be sent of the claim and notified, and those its steps lost to the full ring (the firmware's counter mod 2^32), drained, cut off or dropped with a failed send |
| `UplinkRuns.Ledger` | src/main.c:926-1038 | Over every run, the bytes with each final fate are exactly those the run's arrivals, drains, finishes and sends gave it |
| `UplinkRuns.NotifiedInOrder` | src/main.c:1028-1036 | The notified stream is a subsequence of the received one |
| `UplinkRuns.HookTruncation` | src/proxy_core.c:13-19 | Over every run without a claim under an MTU above 515, the hook cuts nothing off |
| `UplinkRuns.CutsLongClaims` | src/main.c:1014-1029 | It cuts exactly when the MTU is above 515 and more than 512 contiguous bytes are queued |
| `UplinkRuns.NeverSleepsOnData` | src/main.c:986-1045 | A writer past its last emptiness or drain check has the semaphore up if bytes are queued |
| `UplinkRuns.FullRingStillWakes` | src/main.c:41-48 | A put that queues nothing gives nothing, and the writer is awake or will be woken all the same |
| `UplinkRuns.WriterNeverStuck` | src/main.c:986-1045 | The writer blocks only with nothing queued |
| `UplinkRuns.ClaimNeverEmpty` | src/main.c:1014-1020 | Whenever the writer claims, the claim is not empty, and all that one notification's room and the ring's wrap allow |
| `UplinkRuns.NotificationsFit` | src/main.c:1014-1036 | Over every run, one send puts on the air exactly as much of the unsent bytes as ATT_MTU less 3 (else 20) takes, and only if answered with 0 |
| `UplinkRuns.ShortageKeeps` | src/main.c:940-943 | Exactly -ENOMEM and -EAGAIN leave everything as it was, the same slice to be offered again |
| `UplinkRuns.ArrivalGives` | src/uart_bridge.c:195-203 | The semaphore is given for an arrival exactly when some of it was queued |
| `UplinkRuns.WakeIsKept` | src/main.c:41-48 | A wakeup is kept until the writer takes it |
| `UplinkRuns.WriterSettles` | src/main.c:986-1045 | Left alone and not held up by shortages, the writer takes a bounded number of steps |
| `UplinkRuns.RunInv` | src/main.c:986-1045 | The whole invariant holds after every legal run from boot |
| `UplinkLaws.InvStep` | src/main.c:986-1045 | Every step of the interrupt and the writer keeps order, accounting and wakeups |
| `UplinkLaws.FinishKeeps` | src/main.c:1028-1034 | The finish moves the claimed positions out of the ring without loss or reordering, whatever arrived since the hook |
| `UplinkLaws.SendStepKeeps` | src/main.c:926-949 | Each answer of the stack notifies, keeps or drops exactly the slice or the rest |
| `BleWriter.Writer.CheckEmpty` | src/main.c:989-989 | The inner loop goes on exactly while bytes are queued |
| `BleWriter.Writer.Decide` | src/main.c:995-1012 | Forward exactly on an encrypted link, else drain |
| `BleWriter.Writer.ClaimStep` | src/main.c:1014-1020 | Claims up to the notification limit, contiguously |
| `BleWriter.Writer.Hook` | src/main.c:1028-1029 | The hook copies the claimed bytes while they stay in the ring; arrivals may follow before the finish |
| `BleWriter.Writer.Finish` | src/main.c:1031-1034 | The ring bytes are given up and the hook's copy is what is to be sent |
| `BleWriter.Writer.SendStep` | src/main.c:932-948 | Sends the next slice, retries it, or drops the rest |
| `BleWriter.Writer.OnAirInOrder` | src/main.c:1028-1036 | The bytes on the air are a subsequence of the bytes received |
| `BleWriter.Writer.Step` | src/main.c:986-1045 | Whatever runs next, the buffers take the machine's step |
| `BleWriter.Writer.Execute` | src/main.c:986-1045 | Along every legal schedule from boot, the bytes on the air are a subsequence of those received |
| `SendLoops.SendProcessed` | src/main.c:926-949 | Ends whenever shortages do; notifies an initial run of the planned slices, one per answer 0, all of them unless an answer was none of 0, -ENOMEM and -EAGAIN, and then stops at the first of those |
| `SendLoops.NotifiedStream` | src/main.c:919-925 | The notifications join to a prefix of the hook output, each non-empty and within the limit; undropped, to all of it in ceil(len/max) |
| `SendLoops.CmdAckSend` | src/main.c:958-975 | At most five calls; the echo goes out exactly when a 0 comes within them after only -ENOMEM or -EAGAIN |
| `Downlink.WhatEnters` | src/main.c:840-899 | One write: nothing enters from an unencrypted link or of a framed packet; any other enters verbatim as far as hook buffer and room go |
| `Downlink.EnteredFits` | src/main.c:855-899 | Of a list of writes, what enters is what hook buffer and room take of the data writes, in order |
| `Downlink.CorruptedCommandIsData` | src/main.c:855-864 | One changed byte turns a command into 16 bytes of data and no action |
| `BleWriter.Writer.UartRxReady` | src/uart_bridge.c:190-205 | What fits is queued, the rest counted, the semaphore given exactly when something was queued |
| `BleWriter.Writer.DrainStep` | src/uart_bridge.c:377-385 | Each round discards the contiguous part until the ring is empty |
| `UplinkLaws.RxReadyStep` | src/uart_bridge.c:190-205 | An arrival keeps order, overflow count and wakeups |
| `UplinkLaws.DrainStepKeeps` | src/uart_bridge.c:377-385 | A round of draining keeps order and wakeups |
| `SendLoops.SlicesJoin` | src/proxy_core.c:200-210 | The slices join to the whole output |
| `SendLoops.SlicesCount` | src/proxy_core.c:200-210 | There are ceil(len/max) of them |
| `ProxyCore.CopyHook` | src/proxy_core.c:13-27 | Copies the prefix that fits and touches nothing else |
| `ProxyCore.CmdChecksum` | src/proxy_core.c:34-42 | The byte sum mod 256 of the first fifteen bytes |
| `ProxyCore.BaudSupported` | src/proxy_core.c:44-56 | True exactly for a listed rate |
| `ProxyCore.ProxyCmd.Parse` | src/proxy_core.c:64-120 | The struct ends up as the packet table says: kind, rate and echo |
| `ProxyCore.NusChunkLimit` | src/proxy_core.c:192-198 | Never 0; ATT_MTU less 3 wherever that is positive, else 20; within the hook buffer up to MTU 515 |
| `ProxyCore.NextSlice` | src/proxy_core.c:200-210 | The largest slice within limit and output; 0 exactly when nothing is left or the limit is 0 |
| `CommandLaws.BuildIsFramed` | src/proxy_core.h:64-68 | A packet built by the layout passes the framing gate and carries opcode and payload |
| `CommandLaws.Le32RoundTrip` | src/proxy_core.c:58-62 | Decoding little-endian bytes recovers the value |
| `CommandLaws.Le32Injective` | src/proxy_core.c:58-62 | Only one spelling decodes to a value |
| `CommandLaws.RelayRoundTrip` | src/proxy_core.c:86-94 | Building then parsing recovers the relay command with an exact echo |
| `CommandLaws.BaudRoundTrip` | src/proxy_core.c:95-105 | Building then parsing recovers every supported rate with an exact echo; any other is refused without one |
| `CommandLaws.ParsedMeaning` | src/proxy_core.h:73-92 | What the parser makes of any bytes: each command exactly of its packets, with the packet as its echo, INVALID of every other framed packet |
| `CommandLaws.DocumentedPackets` | RELAY_COMMAND.md:182-190 | The three packets the documentation spells out parse as it says |
| `Downlink.DispatchMeaning` | src/main.c:850-898 | What a write does, in terms of its bytes: nothing under a closed gate, each command exactly of its packets, data of everything unframed |
| `CommandLaws.SingleByteCorruption` | src/proxy_core.c:73-81 | Any single changed byte makes a framed packet ordinary data |
| `DropStats.RxOverflow` | src/drop_stats.c:3-6 | Queued and lost add up to attempted; loss exactly when something did not fit |
| `DropStats.WrappedElapsed` | src/drop_stats.c:14-14 | The wrapped difference is the true one mod 2^32 and never more |
| `DropStats.ReportsSpaced` | src/uart_bridge.c:387-408 | Over any run, however often the clock wraps, reports are at least 10 s of true time apart and differ from the one before |
| `DropStats.FiresExactly` | src/drop_stats.c:8-15 | The exact firing condition; below 2^32 ms of elapsed time, exactly when due |
| `DropStats.HiddenByWrap` | src/drop_stats.c:14-14 | One full clock turn hides a due report |
| `DropStats.DropReporter.LogDropsIfDue` | src/uart_bridge.c:387-408 | Fires and moves its state exactly as the run semantics says |

## Left out

- LinkRuns.RelaySafety: the 60 s run from the latest disconnect, not from the end of the last encrypted link, because every disconnect with the relay held re-arms the timer, that of an unencrypted reconnect too.
- LinkRuns.SquatterBound: the 60 s run from the moment `on_connected` arms the watchdog, which is the code's own starting point, not from the radio event before it. A stale handler may shorten the window, so no full window is claimed.
- LinkTimes.RelaySurvives: a grace handler that was already running when the window starts may cut it short, so the full window is claimed without one only; the same holds of LinkTimes.WatchdogWaits.
- UplinkRuns.WriterSettles: bounds the steps with nothing new arriving and no shortage; a steady stream keeps the writer busy, and shortages hold it up, as in the code.
- FirmwareRecovery.BecomesReachable: a path exists from every state and each of its steps is owed; that the scheduler takes them is fairness, which is not modelled.
- LinkRuns.BytesStayOnTheirLink: speaks of links and sends only; the bytes are in FirmwareRuns.BytesNeverCrossLinks.
- LinkManager.Link.WriterClaim: is the link's side of the claim only; MTU and bytes are in Firmware.Device.WriterClaims.
- LinkManager.Link.WriterSend: is the link's side of the send only; the bytes are in Firmware.Device.WriterSends.
- SendLoops.SendProcessed: needs the shortages to end; with a stack that answers -ENOMEM for ever the source loops for ever as well. Sleeps are not modelled.
- BridgeRuns.RescheduleMatchesPolicy: is about the retry handler and says nothing of the restart at the end of a baud change, which treats -EBUSY as a failure and reschedules (`src/uart_bridge.c:342-344`).
- A clean stream for the next client: bytes still in the TX ring or received during a disconnect may reach the next link.
- A transmitter that has stopped before `uart_configure`: the code only asks for the abort.
- Weak memory, compiler reordering, and the length of any delay other than the watchdog and grace windows.
- The ring's lock-free implementation, the slab, the work queue, SMP, GATT, address resolution and NVS: only the contracts named above.
- LEDs, the bond-reset button, GPIO electrics, logging, `proxy_identity_derive`, board files, scripts and the planned modules: input and output, formatting or not written yet.
- Boot paths of `main()` that give up before advertising starts.
