# Three concurrent state machines of the nRF Connect SDK samples

This project models the three concurrent engines of the samples and proves what every interleaving of
their threads, interrupts and callbacks keeps:

* the event engine of the Bluetooth HID locker (`bluetooth/hid_locker/src/main.c`): a pool of 255 blocks and
  a FIFO shared by a GPIO interrupt, a BLE event handler and the main loop;
* the Google Cloud session machine (`cellular/nrf_to_gcloud_with_ble/src/gcloud.c`): a queue of three commands
  fed by the application, a reconnect timer and MQTT callbacks, and drained by one thread;
* the MQTT work-queue client (`cellular/mqtt_work/src/main.c`): a chunked payload reader, jobs that
  synchronise with a callback through binary semaphores, and a 32-bit minute counter.

Each engine appears twice. A *machine* (`HidMachine`, `GcloudMachine`, `MqttJobs`) gives one step of one actor
as a function `Step(state, action)`, with `None` when the step is not enabled; a run is any sequence of enabled
steps, and the theorems speak about every run or every reachable state. A *class* (`HidLocker`, `Gcloud`,
`Worker`, `Client`, `AppTimer`) has the source's variables as fields and its functions as methods that change
them in place. The methods run undisturbed; the results of library calls, and the events that come in while a job waits, are
their inputs. What a method does is a run of the machine: `Gcloud` and `Worker`
return that run, `HidRuns` gives it for `HidLocker`. `Client` and `AppTimer`, which have no machine, are proved
against specification functions. The last fields of a state are histories (events put, commands
accepted, calls made), so that the theorems can speak about the past.

| module | role |
|---|---|
| `Kernel` | counting functions shared by all |
| `HidMachine` | the locker's steps, one statement each |
| `HidOwnership`, `HidReports`, `HidBalance`, `HidInputs`, `HidWakeup`, `HidEnds`, `HidCapacity`, `HidTight` | theorems over its runs |
| `HidSequential`, `HidDrain`, `HidRuns`, `HidLocker` | undisturbed executions in closed form, the proof that they are runs, and the class |
| `GcloudMachine` | the session machine's steps, between two points where another thread can get in |
| `GcloudSession`, `GcloudQueue`, `GcloudPosts`, `GcloudThreads`, `GcloudDisconnect`, `GcloudReconnect`, `GcloudLost`, `GcloudSubscribe`, `GcloudAcks` | theorems over its runs |
| `GcloudClient` | the class |
| `MqttPayload`, `MqttTimer` | payload reader and minute counter |
| `MqttJobs`, `MqttWords`, `MqttAcks`, `MqttWorker` | the job machine, theorems over its runs, and the class |

## How the source is read

HID locker:

* `app_evt_alloc` returns NULL when its first allocation fails, also when the second one succeeds
  (`bluetooth/hid_locker/src/main.c:102-115`). The model keeps that: the block of the second allocation moves to
  `leaked`, and the caller's write through the null pointer sets `halted`, after which nothing runs.
* A wait on `usb_sem` ends only by the in-ready callback, which comes once for each successful
  `hid_int_ep_write`. The result of that call is not looked at; a failed one has no callback and wedges the
  endpoint. `HidWakeup.OneReport` counts it.
* `event->btn_val` is read into an `int8_t`, so a byte of 128 or more is negative and no press
  (`bluetooth/hid_locker/src/main.c:189-193`).
* A press is one activation of `btn0`, or of the BLE handler with a positive value. A press is outstanding from
  then until its clear report is written.

Google Cloud session machine:

* Application threads and the timer may act between any two steps. The step of a thread ends where it
  operates on the queue or the semaphore, or calls a library function that blocks. Threads that wait for room
  in the queue are pended and get in when a command leaves; they may also time out.
* A CONNACK comes only while one is due: after an `mqtt_connect` that returned 0, while the MQTT thread polls,
  and until `mqtt_disconnect` has returned or called back or a disconnect event has come. In particular a CONNACK
  that is due, from a second CONNECT inside a session, may be handled while the gcloud thread blocks in
  `mqtt_disconnect`.
* `mqtt_disconnect` may or may not deliver MQTT_EVT_DISCONNECT on the calling thread, whatever it returns.
  `mqtt_connect`, `mqtt_publish` and `mqtt_subscribe` are assumed not to deliver events on the gcloud thread.
* The comment at `cellular/nrf_to_gcloud_with_ble/src/gcloud.c:488` announces a reconnect after a lost
  connection. On the MQTT thread it does not happen: `k_thread_abort(mqtt_tid)` ends the thread that runs the
  callback, before `gcloud_connect`. The model follows the code; `GcloudLost.LostConnectionStaysLost` says what
  follows.
* `gcloud_connect` ignores the result of its wait, so 0 means only that CONNECT was queued.
* CONFIGURATION_SUBSCRIPTION is taken as defined: a successful CONNACK posts a SUBSCRIBE.
* `k_thread_create` replaces an MQTT thread that still runs.

MQTT work-queue client:

* Events may reach the callback at any time while a job runs, and after it; the main loop that polls for them
  is more restrictive. The counting theorems hold for any events. The theorems in `MqttAcks` about whose ack a job
  takes assume an honest broker: a PUBACK acks a message that was sent and not acked before. It may come late,
  even after its job has ended. Messages are numbered in the order of `data_publish`, which stands for their ids.
* `lte_lc_connect` is retried any number of times, a sample job waits for its ack without limit, and the result
  of `data_publish` is not looked at, as in the source.
* The comment above `app_timer_handler` promises one submission per period. It holds but for the wrap of the
  32-bit counter; see `MqttTimer.SubmissionGap`.

Claims one might expect that are false of the code. Each has its exact condition and a run that shows it fails:

| claim | it holds exactly if | run in which it fails |
|---|---|---|
| the two flags are never up together | no CONNECT was executed inside the window (`GcloudSession.BothFlags`) | `GcloudSession.BothFlagsHappen` |
| after a DISCONNECT took effect both flags stay down | no CONNECT is queued or pended and no CONNACK is due (`GcloudDisconnect.DisconnectTakesEffect`) | `GcloudDisconnect.QueuedConnectUndoesDisconnect`, `LateConnackUndoesDisconnect` |
| after a RECONNECT_TIMEOUT took effect the next call is mqtt_connect | no CONNACK is due (`GcloudReconnect.ReconnectTakesEffect`) | `GcloudReconnect.LateConnackLetsPublishThrough` |
| a reconnect always posts its CONNECT | its put finds room (`GcloudReconnect.RepostedOnlyWithRoom`) | `GcloudReconnect.RepostMeetsFullQueue` |
| after an unexpected disconnect the connection can come back by itself | the gcloud thread is inside mqtt_connect, mqtt_disconnect or its callback (`GcloudLost.LostConnectionStaysLost`) | `GcloudLost.ConnectionIsLost` |
| an ack belongs to the message last published | the semaphore is empty and no earlier message is unacknowledged (`MqttAcks.AckBelongsIff`) | `MqttAcks.StaleAckHappens`, `LateAckHappens` |
| 255 presses fit | at most 254 are outstanding (`HidCapacity.CapacityBound`, `MainSeesEmptyPool`) | `HidTight.BoundIsTight` |
| an allocation succeeds after a flush | never (`HidCapacity.ExhaustionIsFatal`) | |
| submissions are five minutes apart | the counter does not wrap between them (`MqttTimer.SubmissionGap`) | |

## Model

| member | source | states |
|---|---|---|
| HidOwnership.OwnershipInEveryRun | bluetooth/hid_locker/src/main.c:63-121 | In every run each of the 255 blocks is free, queued once, leaked, or held by exactly one actor, nothing else is in any of these places, and no block was freed twice |
| HidOwnership.OwnedStep | bluetooth/hid_locker/src/main.c:66-121 | Every statement of every actor keeps that partition |
| HidOwnership.NoDoubleFree | bluetooth/hid_locker/src/main.c:66-91 | No statement frees a free block |
| HidOwnership.FreesAreExclusive | bluetooth/hid_locker/src/main.c:81-91 | A block about to be freed, by a flush or by the main loop, is held by that actor alone and is neither free, queued nor leaked, so a flush never frees the event main is reading |
| HidOwnership.QueuedBlocksAreUnheld | bluetooth/hid_locker/src/main.c:71-79 | A queued block is queued once, held by nobody, not free, not leaked |
| HidReports.FlowInEveryRun | bluetooth/hid_locker/src/main.c:81-91 | In every run, flushes included, the events reported, in hand and queued are events that were put, in the order they were put, and each event put is among them or among those that flushes dropped |
| HidReports.NothingVanishes | bluetooth/hid_locker/src/main.c:71-91 | The same as multisets: reported, in hand, queued and dropped events are exactly the events put |
| HidBalance.ReportsFollowPosts | bluetooth/hid_locker/src/main.c:251-302 | The reports are distinct events in the order they were put; while no flush dropped one they are exactly the first events put |
| HidBalance.ClearsNeverOutrunLocks | bluetooth/hid_locker/src/main.c:254-301 | No prefix of the reports of any run has more clears than locks |
| HidBalance.ClearAnswersItsLock | bluetooth/hid_locker/src/main.c:139-146 | While nothing was dropped, the n-th clear report is the n-th clear event put, and that event was put for the n-th lock report |
| HidBalance.NeverUnknown | bluetooth/hid_locker/src/main.c:293-297 | The default branch of the switch is never taken |
| HidBalance.CountsHold | bluetooth/hid_locker/src/main.c:139-156 | In every reachable state clear events put, plus the one main is about to put, equal lock reports, and presses equal lock events put plus those under way |
| HidInputs.InputsAreCounted | bluetooth/hid_locker/src/main.c:149-207 | In every run, from its actions: each activation of btn0, and each activation of the BLE handler with a byte of 1 to 127 and no other, posts one event of its own kind or is on its way to; the reports are the calls of hid_int_ep_write; those that failed are counted as failed, and each of the others has had its callback or is in flight |
| HidWakeup.SemaphoresHold | bluetooth/hid_locker/src/main.c:126-133 | No lost wake-up: if main waits and the FIFO is not empty, evt_sem is up or a producer is between put and give. One report: the permit of usb_sem, writes in flight, main between take and write, and failed writes sum to one |
| HidWakeup.QuiescentRuns | bluetooth/hid_locker/src/main.c:251-302 | A state in which nothing but a new press can happen is a halt on a null pointer, a wedged endpoint, or the loop at rest with an empty FIFO, where locks equal clears plus the clears that were dropped |
| HidWakeup.NoKeyStaysDown | bluetooth/hid_locker/src/main.c:254-301 | If main waits on an empty FIFO and nothing was dropped, every lock report was answered and the last report is a clear |
| HidEnds.MeasureDrops | bluetooth/hid_locker/src/main.c:66-156 | Every statement of every actor, but a new button event, lowers a measure on the state, although handling a lock event puts an event back and a flush works through the whole FIFO |
| HidEnds.EveryRunEnds | bluetooth/hid_locker/src/main.c:251-302 | Without new button events every run from a reachable state is finite, with the measure as bound, and it can only end in a halt, a wedged endpoint, or at rest with all work done |
| HidCapacity.LeaksAreCounted | bluetooth/hid_locker/src/main.c:106-114 | In every reachable state the leaked blocks are exactly one for each actor whose retried allocation succeeded, at most three, and the 255 blocks are accounted for in number |
| HidCapacity.FreeBlocks | bluetooth/hid_locker/src/main.c:60-64 | Until an allocation sees an empty pool: free blocks = 255 - outstanding presses + presses still asking for a block - the handled event main has not freed yet |
| HidCapacity.MainSeesEmptyPool | bluetooth/hid_locker/src/main.c:93-102 | When main asks for the clear event's block, the pool is empty if and only if 255 presses that already hold a block are outstanding |
| HidCapacity.CapacityBound | bluetooth/hid_locker/src/main.c:93-121 | In every run with at most 254 outstanding presses no allocation sees an empty pool: nothing is flushed, leaked, or written through a null pointer |
| HidCapacity.ExhaustionIsFatal | bluetooth/hid_locker/src/main.c:102-115 | An allocation that saw an empty pool never delivers an event, in any continuation of the run |
| HidTight.BoundIsTight | bluetooth/hid_locker/src/main.c:254-266 | Some run with never more than 255 outstanding presses makes main's allocation flush: 254 is the exact bound |
| HidRuns.PostOutcomeIsRun | bluetooth/hid_locker/src/main.c:93-156 | Whatever the posting routine does undisturbed, in btn0, in ble_event_handler or in clear_kbd_report, is a run of the machine: an event posted in some free block, or on an empty pool a flush, a lost block and a halt |
| HidRuns.FlushIsRun | bluetooth/hid_locker/src/main.c:81-91 | app_evt_flush in closed form is a run of the machine, for any caller and a FIFO of any length |
| HidRuns.Btn0IsRun | bluetooth/hid_locker/src/main.c:149-156 | An activation of btn0, with or without a block to hand out, is a run |
| HidRuns.BleEventIsRun | bluetooth/hid_locker/src/main.c:182-207 | So is an activation of ble_event_handler, for every byte |
| HidRuns.SendReportIsRun | bluetooth/hid_locker/src/main.c:255-291 | So is taking usb_sem and writing a report, whether or not the previous report is still in flight |
| HidRuns.HandledIsRun | bluetooth/hid_locker/src/main.c:254-301 | So is one pass of the inner loop |
| HidRuns.HaltsIsRun | bluetooth/hid_locker/src/main.c:102-115 | So is a pass that finds the pool empty for the clear event of a lock and halts |
| HidDrain.DrainIsQueueThenClears | bluetooth/hid_locker/src/main.c:254-301 | Draining a FIFO reports its events in order, and then one clear for each of its locks |
| HidDrain.DrainLength | bluetooth/hid_locker/src/main.c:254-301 | L lock events and C clear events take exactly 2L + C reports, the measure of the loop |
| HidDrain.DrainingStep | bluetooth/hid_locker/src/main.c:254-301 | Each handled event keeps the end of the drain and the blocks, and lowers the measure, although a handled lock puts an event back |
| HidLocker.HidLocker.AppEvtFree | bluetooth/hid_locker/src/main.c:66-69 | The block joins the pool; freeing a free block is recorded |
| HidLocker.HidLocker.AppEvtPut | bluetooth/hid_locker/src/main.c:71-74 | The block goes to the end of the FIFO, the event it holds to the end of the events posted, and nothing else changes |
| HidLocker.HidLocker.AppEvtGet | bluetooth/hid_locker/src/main.c:76-79 | The head leaves the FIFO, or NULL and no change if it is empty |
| HidLocker.HidLocker.AppEvtFlush | bluetooth/hid_locker/src/main.c:81-91 | The loop ends with an empty FIFO, all its blocks free, and its events dropped in order |
| HidLocker.HidLocker.AppEvtAlloc | bluetooth/hid_locker/src/main.c:93-121 | A free block if there is one; else NULL, the FIFO flushed, and one block lost if the flush freed any |
| HidLocker.HidLocker.ClearKbdReport | bluetooth/hid_locker/src/main.c:139-146 | Queues one clear event behind the others, in a free block, and raises evt_sem; on an empty pool the FIFO is flushed, its events are dropped, nothing is posted, and it halts |
| HidLocker.HidLocker.Btn0 | bluetooth/hid_locker/src/main.c:149-156 | The same for a GPIO event |
| HidLocker.HidLocker.BleEventHandler | bluetooth/hid_locker/src/main.c:182-207 | The same for a BLE event, exactly when the byte is in 1..127; otherwise no change |
| HidLocker.HidLocker.InReadyCb | bluetooth/hid_locker/src/main.c:130-133 | The report in flight is done and the permit is back |
| HidLocker.HidLocker.ServeNext | bluetooth/hid_locker/src/main.c:254-301 | One pass of the inner loop takes the head, reports it, posts the clear of a lock and frees the head; if the head is a lock and the pool is empty, it sends the lock, flushes and halts |
| HidLocker.HidLocker.ServeWakeup | bluetooth/hid_locker/src/main.c:251-302 | One pass of the outer loop terminates; it halts exactly when the first event is a lock and the pool is empty, and otherwise writes the queue in order and a clear for each lock, 2L + C reports, and ends with an empty FIFO and all blocks free; either way it is a run of the machine |
| GcloudSession.FlagsHold | cellular/nrf_to_gcloud_with_ble/src/gcloud.c:417-428 | In every reachable state connected, connecting and the timer are exactly functions of the order of connection events and executed commands; every library call but mqtt_connect, mqtt_publish and mqtt_subscribe in particular, falls inside a session window, and every ignored command was taken outside |
| GcloudSession.TimerFollowsSession | cellular/nrf_to_gcloud_with_ble/src/gcloud.c:426-428 | An armed timer implies connected; connected without the timer implies a disconnect event since the last successful CONNACK |
| GcloudSession.BothFlags | cellular/nrf_to_gcloud_with_ble/src/gcloud.c:655-668 | Both flags are up if and only if a CONNECT was executed inside the current window |
| GcloudSession.BothFlagsHappen | cellular/nrf_to_gcloud_with_ble/src/gcloud.c:667 | A run in which both flags are up |
| GcloudQueue.CommandsAreConserved | cellular/nrf_to_gcloud_with_ble/src/gcloud.c:121-122 | Every accepted command is executed, ignored, purged or still queued; fates are given in acceptance order; the queue holds exactly the commands without one; and the calls made and commands skipped are exactly what the fates say |
| GcloudQueue.LibraryCalls | cellular/nrf_to_gcloud_with_ble/src/gcloud.c:650-754 | Across any number of purges and reconnects: commands are called or skipped in acceptance order, with the accepted command; a call occurs exactly once for an executed command and never for another, a skip exactly once for an ignored one |
| GcloudQueue.SettledExactlyOnce | cellular/nrf_to_gcloud_with_ble/src/gcloud.c:650-754 | The counting behind it, for all histories |
| GcloudPosts.PostsAreConserved | cellular/nrf_to_gcloud_with_ble/src/gcloud.c:121-122 | In every run, from its actions: each command that the application, the timer or a callback posted was accepted, is pended, or was given up by a timeout, an abort or a purge; and nothing else was accepted or is pended |
| GcloudPosts.QueueOfThree | cellular/nrf_to_gcloud_with_ble/src/gcloud.c:121-122 | In every reachable state the queue holds at most three commands and threads are pended only when it holds three; a posted command goes to its end exactly if it holds fewer, else its thread is pended behind the others, and the command of the timer is lost |
| GcloudPosts.PublishesWereChecked | cellular/nrf_to_gcloud_with_ble/src/gcloud.c:309-315 | In every run each publish that was posted passed its own check of connected before: checks that passed equal publishes posted plus those still on their way |
| GcloudThreads.ThreadsHold | cellular/nrf_to_gcloud_with_ble/src/gcloud.c:485-503 | Once the callback on the gcloud thread posts there is no MQTT thread; a CONNACK is due only while the MQTT thread polls and the callback does not run; the gcloud thread is pended only in the put of its callback |
| GcloudDisconnect.DisconnectTakesEffect | cellular/nrf_to_gcloud_with_ble/src/gcloud.c:717-740 | A DISCONNECT that takes effect lowers both flags and stops the timer; they stay down in every run until the application posts a CONNECT if and only if at that moment no CONNECT is queued or pended and no CONNACK is due |
| GcloudDisconnect.CallbackIsFinalIff | cellular/nrf_to_gcloud_with_ble/src/gcloud.c:485-503 | If and only if no CONNACK was due: whatever happens until mqtt_disconnect calls back, a CONNECT posted by the application included, from the callback on no flag goes up and no library call is made before the application posts a CONNECT |
| GcloudDisconnect.QueuedConnectUndoesDisconnect | cellular/nrf_to_gcloud_with_ble/src/gcloud.c:283-305 | A run in which a DISCONNECT takes effect with a CONNECT behind it and the session comes up again |
| GcloudDisconnect.LateConnackUndoesDisconnect | cellular/nrf_to_gcloud_with_ble/src/gcloud.c:424-427 | A run in which it takes effect while a CONNACK is due and the session comes up again |
| GcloudDisconnect.DownStaysDown | cellular/nrf_to_gcloud_with_ble/src/gcloud.c:717-740 | Once down without a pending CONNECT, no library call at all is made until the application posts a CONNECT |
| GcloudDisconnect.QueuedConnectRuns | cellular/nrf_to_gcloud_with_ble/src/gcloud.c:655-667 | A CONNECT anywhere in the queue is executed by the gcloud thread alone |
| GcloudDisconnect.PendedConnectRuns | cellular/nrf_to_gcloud_with_ble/src/gcloud.c:283-286 | So is a CONNECT whose thread is pended on the full queue |
| GcloudReconnect.ReconnectTakesEffect | cellular/nrf_to_gcloud_with_ble/src/gcloud.c:715-739 | A RECONNECT_TIMEOUT that takes effect ends the session, raises connecting and stops the timer; the next library call of every run is mqtt_connect if and only if no CONNACK is due |
| GcloudReconnect.ReconnectPostsConnect | cellular/nrf_to_gcloud_with_ble/src/gcloud.c:485-503 | From that command through the put of the callback, any threads acting in between: with room in the queue the CONNECT is accepted and stays queued, and no library call is made, until a CONNECT is executed |
| GcloudReconnect.LateConnackLetsPublishThrough | cellular/nrf_to_gcloud_with_ble/src/gcloud.c:700-707 | A run in which a RECONNECT_TIMEOUT takes effect while a CONNACK is due and a publish comes before the CONNECT |
| GcloudReconnect.NextCallIsConnect | cellular/nrf_to_gcloud_with_ble/src/gcloud.c:684-749 | Without a session the next library call of any run is mqtt_connect, whatever is queued and whatever other threads do |
| GcloudReconnect.RepostedOnlyWithRoom | cellular/nrf_to_gcloud_with_ble/src/gcloud.c:283-290 | In every step a reconnect's CONNECT is accepted exactly when its put finds room; on a full queue it is lost, since its own thread is the one that takes commands out |
| GcloudReconnect.RepostMeetsFullQueue | cellular/nrf_to_gcloud_with_ble/src/gcloud.c:494-497 | A run in which the callback of a reconnect finds the queue full |
| GcloudLost.LostConnectionStaysLost | cellular/nrf_to_gcloud_with_ble/src/gcloud.c:485-503 | After a disconnect event on the MQTT thread with a flag up, in any interleaving of the callback: in no run without a CONNECT or DISCONNECT of the application a flag changes or a CONNECT is executed, if and only if the gcloud thread was waiting for commands |
| GcloudLost.ConnectionIsLost | cellular/nrf_to_gcloud_with_ble/src/gcloud.c:485-503 | A run in which the connection is lost for good |
| GcloudLost.ConnectionComesBack | cellular/nrf_to_gcloud_with_ble/src/gcloud.c:655-668 | A run in which it comes back |
| GcloudSubscribe.SubscribesFollowConnacks | cellular/nrf_to_gcloud_with_ble/src/gcloud.c:430-442 | In every run the successful CONNACKs are exactly the mqtt_subscribe calls, plus the SUBSCRIBEs ignored, purged, still queued, held by the MQTT thread, and lost on the way to the queue |
| GcloudSubscribe.ExecutedIffInWindow | cellular/nrf_to_gcloud_with_ble/src/gcloud.c:741-749 | A command other than CONNECT, a SUBSCRIBE in particular, that left the queue unpurged is called exactly once if it was taken inside a session window, and skipped exactly once if outside |
| GcloudSubscribe.TakenOnce | cellular/nrf_to_gcloud_with_ble/src/gcloud.c:650-654 | Every command that left the queue unpurged was taken |
| GcloudAcks.AcksFollowArrivals | cellular/nrf_to_gcloud_with_ble/src/gcloud.c:447-534 | In every run the PUBACKs carry the ids of the QoS 1 publishes among the actions of the run, in arrival order, whatever length or result; the PUBRELs those of the successful PUBRECs (sections 4.3 and 4.6 of MQTT Version 3.1.1); each handler acks in the step that receives, so this is a check of the handler rather than of the interleaving |
| GcloudClient.Gcloud.Post | cellular/nrf_to_gcloud_with_ble/src/gcloud.c:309-364 | gcloud_publish and gcloud_publish_state: not connected, queued, or timed out on a full queue, and the run of the machine that the call is |
| GcloudClient.Gcloud.GcloudConnect | cellular/nrf_to_gcloud_with_ble/src/gcloud.c:273-293 | 0 exactly when the queue had room, and then CONNECT is at its end, whether or not a connection came; the permit of the semaphore is taken |
| GcloudClient.Gcloud.GcloudDisconnect | cellular/nrf_to_gcloud_with_ble/src/gcloud.c:295-305 | 0 exactly when the queue had room, session or not, and then DISCONNECT is at its end; else nothing is queued |
| GcloudClient.Gcloud.DisconnectCallback | cellular/nrf_to_gcloud_with_ble/src/gcloud.c:485-503 | On the gcloud thread the callback stops the timer, purges queue and pended threads, ends the CONNACK that was due, and with a flag up ends the MQTT thread and leaves CONNECT alone in the queue; a run of that thread |
| GcloudClient.Gcloud.MqttEventHandler | cellular/nrf_to_gcloud_with_ble/src/gcloud.c:409-545 | On the MQTT thread, event by event: a CONNACK with result 0 sets connected, the timer and the semaphore, clears connecting and posts SUBSCRIBE if there is room, another only is no longer due; QoS 1 publishes and successful PUBRECs are acked; a disconnect stops the timer, purges the queue and with a flag up ends the thread; each a run of that thread |
| GcloudClient.Gcloud.HandleCommand | cellular/nrf_to_gcloud_with_ble/src/gcloud.c:650-754 | One pass of the thread, for any results of the library calls: the command at the head is executed, with its call as the next event, if it is CONNECT or there is a session, and skipped otherwise; the session, the queue and the fates afterwards; a run of that thread alone |
| GcloudClient.Gcloud.GcloudThread | cellular/nrf_to_gcloud_with_ble/src/gcloud.c:637-760 | With no other thread queueing, the loop reaches its blocking wait, the CONNECT of a reconnect included; its calls and skips are in order those of Serving; in an open session that no queued command ends, each queued or pended command gets exactly its call, in order |
| GcloudClient.OpenSessionServesAll | cellular/nrf_to_gcloud_with_ble/src/gcloud.c:650-754 | In an open session, for a queue and pended threads of any number, other than the MQTT thread, that hold no DISCONNECT or RECONNECT_TIMEOUT, the gcloud thread makes exactly one call for each command, in order |
| GcloudClient.NoSessionSkipsAll | cellular/nrf_to_gcloud_with_ble/src/gcloud.c:650-754 | Without a session, for the same pended threads, it calls for the CONNECTs only and skips every other command, in order |
| MqttPayload.Client.PublishGetPayload | cellular/mqtt_work/src/main.c:170-208 | For all answers of the library with finitely many EAGAINs the loop terminates; it is left after some number of good answers, the bytes got are those they delivered, in stream order, and the buffer is untouched behind them; the result is the error of the answer that follows them, -EIO or 0 |
| MqttPayload.Client.ReadChunk | cellular/mqtt_work/src/main.c:179-180 | A read delivers the next bytes of the stream, no more than asked for, and changes nothing else |
| MqttPayload.ReadSucceedsIff | cellular/mqtt_work/src/main.c:179-207 | A chunked read succeeds if and only if the stream is long enough and the answers are bytes and successful polls until enough bytes came: however the payload is split, it refines a one-shot read |
| MqttPayload.ReadFailsIff | cellular/mqtt_work/src/main.c:182-187 | It returns an error code of the library if and only if good answers that deliver too little lead up to exactly that error |
| MqttPayload.ReadIsCutIff | cellular/mqtt_work/src/main.c:189-202 | It returns -EIO if and only if they lead up to a poll without input, an empty chunk, or a stream that has no more |
| MqttTimer.AppTimer.AppTimerHandler | cellular/mqtt_work/src/main.c:463-474 | The 32-bit counter and the number of submissions after every tick |
| MqttTimer.SubmissionCount | cellular/mqtt_work/src/main.c:463-474 | After q * 2^32 + r ticks there were exactly q * 858993460 + r / 5 submissions |
| MqttTimer.SubmissionGap | cellular/mqtt_work/src/main.c:46 | Consecutive submissions are five ticks apart, except for a gap of one at each wrap of the counter |
| MqttWords.JobsAreWords | cellular/mqtt_work/src/main.c:484-629 | In every run, from its actions: the finished jobs went through one word each, in order, that is LTE tried until it is up, mqtt_connect and fds_init each going on with 0 only, the wait for the CONNACK, one publication and its wait, then abort and offline without a connection, or mqtt_disconnect with one and offline exactly if that returned 0; their records say what their words do; and a job under way is in the middle of a word |
| MqttWords.HappensIff | cellular/mqtt_work/src/main.c:484-629 | Finished jobs can do exactly the sequences of such words: each valid combination of kind, errors and timeouts is reached by some run, and no other |
| MqttJobs.JobsAreBracketed | cellular/mqtt_work/src/main.c:484-629 | In every run each finished job issued exactly one of abort and disconnect, published once if it took a connect permit and never otherwise, tried to take LTE offline unless the disconnect failed, and app_connected is false between jobs |
| MqttJobs.AcksAreCounted | cellular/mqtt_work/src/main.c:255-265 | In every run the finished sample jobs that published and alarm jobs that saw an ack, plus the permit of the current job, the one in the semaphore and those lost on a full semaphore, equal the successful PUBACKs among the actions of the run; likewise for connect permits and CONNACKs |
| MqttJobs.AckTiming | cellular/mqtt_work/src/main.c:548-554 | A job that finds the ack semaphore empty when it publishes sees an ack only if one came in afterwards; a waiting job can take an ack exactly if one was there or came in since |
| MqttAcks.AckBelongsIff | cellular/mqtt_work/src/main.c:507-510 | With an honest broker, a job takes no ack but that of its own message, in every continuation, if and only if the ack semaphore is empty and no earlier message is unacknowledged when it publishes |
| MqttAcks.StaleAckHappens | cellular/mqtt_work/src/main.c:551 | A run in which an alarm job takes the ack of another message although none came in after it published |
| MqttAcks.LateAckHappens | cellular/mqtt_work/src/main.c:551 | A run in which one that found the semaphore empty takes the ack of another message |
| MqttWorker.Worker.OnConnack | cellular/mqtt_work/src/main.c:218-227 | A successful CONNACK raises the semaphore, which saturates at one; another changes nothing |
| MqttWorker.Worker.OnPuback | cellular/mqtt_work/src/main.c:255-265 | The same for a PUBACK, whatever its message id |
| MqttWorker.Worker.AppConnect | cellular/mqtt_work/src/main.c:561-603 | It succeeds exactly if mqtt_connect and fds_init return 0 and a connect permit is there or comes in during the wait, and then has taken it with app_connected set; every error leaves app_connected clear; and the calls made, in order |
| MqttWorker.Worker.AppDisconnect | cellular/mqtt_work/src/main.c:605-629 | Without a connection it aborts and goes offline; with one it disconnects, and goes offline exactly if that returned 0; the job is recorded and app_connected is clear |
| MqttWorker.Worker.AwaitPuback | cellular/mqtt_work/src/main.c:551-554 | The wait ends with an ack if there is one; without one an alarm job gives up and a sample job goes on waiting |
| MqttWorker.Worker.PublishJob | cellular/mqtt_work/src/main.c:484-559 | publish_samples and publish_alarm, for any results of the library calls and any events: a job that ends has done exactly the word that these give, is recorded as that, and leaves app_connected clear; a sample job that gets no ack is still waiting |

## Left out

- Library internals: MQTT, TLS, LTE, USB, Bluetooth and the Zephyr kernel appear only as the steps described above.
- Set-up code: `broker_init`, `client_init`, `config_tls`, `make_jwt`, `modem_configure`, device and callback configuration.
- Message contents: `create_message`, the cJSON calls, topics and message ids; a message is a number.
- Logging, LEDs, RSRP reporting, date and time, and `received_config_handler`.
- Real time: delays, timeouts and the reconnect interval are steps that may come at any moment.
- HidLocker.HidLocker.ServeWakeup: runs undisturbed, so presses that arrive while main drains the FIFO are covered by the theorems about `HidMachine` only.
- HidLocker.HidLocker.ServeNext: the write succeeds; a failed write is covered by `HidMachine` only.
- HidLocker.HidLocker.SendCell: the write succeeds; a failed write, after which `usb_sem` is never given again, is covered by `HidMachine` only.
- GcloudClient.Gcloud.MsgqPut: the caller's wait for room ends in a timeout because no other thread runs meanwhile; threads that get in while they wait are covered by `GcloudMachine` only.
- GcloudClient.Gcloud.Post: a put that waits on a full queue and then gets in is covered by `GcloudMachine` only.
- GcloudClient.Gcloud.GcloudConnect: a put that waits on a full queue and then gets in is covered by `GcloudMachine` only.
- GcloudClient.Gcloud.GcloudDisconnect: a put that waits on a full queue and then gets in is covered by `GcloudMachine` only.
- GcloudClient.Gcloud.GcloudThread: a library call returns before the next command is taken, and no other thread queues meanwhile; other interleavings are covered by `GcloudMachine` only.
- GcloudClient.Gcloud.MqttEventHandler: the payload of a received publish is not read, and the configuration handler is not called; an event comes when the MQTT thread is not itself pended on the queue, which is so because it delivers the event.
- MqttWorker.Worker.ConnectLte: the link comes up after any finite number of failures; that it never does is a run of `MqttJobs` that stays in the retry.
- MqttPayload.Client.PublishGetPayload: an endless series of "try again" answers, on which the source does not terminate either, is excluded.
- An interleaving inside one step of the gcloud machine, such as an abort of the MQTT thread between receiving a packet and acking it.
- The payload callback of the MQTT client, which disconnects when a read fails, and the polling loop of its main thread.
- Events that `mqtt_publish` or `mqtt_subscribe` might deliver on the gcloud thread when a write fails: assumed not to occur.
- PUBREL and SUBACK events and received payloads of the Google Cloud client: they only write log lines or fill a buffer.
- The other demos (SPI, I2C, ADC, timestamps, SPM) and the generated build output: straight-line driver calls and constants.
