# ESPlant irrigation controller — Dafny model

ESPlant is ESP32 firmware that opens a garden-hose valve on GPIO 26 at a
configurable interval for a configurable duration. A small HTTP server accepts
new settings. The settings are kept in the ESP32's non-volatile key/value store
(NVS). An HTTP client asks a time service for the current time and for
successive increments of a stored "next date".

This project models the sequential logic of three components. Each one is a
class whose methods change its state in place, as the C globals do. Each method
is tied by its postcondition to a pure specification function, and lemmas
prove what those functions promise.

- `water_timer.dfy` (module `WaterTimer`) models the watering timer.
  - `start_time`, `current_time` and `time_left` are 64-bit unsigned fields.
  - A trace records the platform calls: GPIO direction and levels, timer create/start/stop/delete, the clock, task create/delete and delays.
  - The time-left subtraction is computed modulo 2^64.
  - The handles `watering_timer` and `time_left_calc_handle` are tracked by what they name. Either they name a running timer and task, or nothing that runs. Timers whose handles were overwritten by a second start keep firing and are kept in a list of orphans. A stop on handles that name nothing is recorded as a stale stop.
- `data_storage.dfy` (module `DataStorage`) models the newer settings schema.
  - The 2048-byte response buffer is an `array<bv8>` with its counter, driven by the HTTP client events.
  - `get_data_values` and `save_new_time_data` run against the store.
  - It covers the increment handler and the `update_incr_time` catch-up loop.
- `http_server.dfy` (module `HttpServer`) models the older settings schema.
  - The POST handler covers the receive loop, the unit scaling and the store writes.
  - It covers the store read at the end of `setup_wifi` and the WiFi reconnect counter.
- `nvs.dfy` (module `Nvs`) is the key/value store the components call.
  - Items are typed: a 16-bit and a 64-bit item under the same key are different, and a read of the wrong width finds nothing.
  - A store object carries a fixed set of failing operations.
  - A store is either write-through or transactional. On a write-through store each successful write is durable at once. On a transactional store writes are staged on the open handle, commit makes them durable, and close drops what was not committed.
  - A write or commit on a handle that is not open fails with an invalid-handle status.
- `machine.dfy` (module `Machine`) models C integer conversions: `uint16_t`, `uint64_t`, and the 32-bit `int`/`long` of the ESP32. A conversion to a signed type wraps in two's complement, which is what the ESP32 compiler does.
- `wrappers.dfy` holds `Option`.

The two settings components declare `watering_duration` with different widths:
`uint16_t` milliseconds in `http_server.c` and `uint64_t` milliseconds in
`data_storage.c`. They come from two revisions of the settings schema, so they
are modelled as two independent modules, each with its own globals.

The model follows the code where the code and its own comments or log messages
suggest different behaviour. For example, the duration is multiplied by 1000
both before it is saved and after it is loaded. As a result, a save followed by
a reboot turns a 5-second duration into 5000 seconds (`DataStorage.SaveThenLoad`).

## Model

| member | source | states |
|---|---|---|
| WaterTimer.Timer.constructor | components/water_timer/water_timer.c:20-26 | the three time globals start at zero; the handles name nothing running, there are no orphans and no stale stop |
| WaterTimer.Timer.Initialize | components/water_timer/water_timer.c:28-51 | the new state is `Initialized` of the old: pin set to output, watering timer created and started with the configured interval, `start_time` read from the clock, time-left task created, in this order; the handles name the new pair; a pair they named before keeps running as an orphan with its period; the other time globals are unchanged |
| WaterTimer.Timer.WateringTask | components/water_timer/water_timer.c:64-73 | `start_time` becomes the firing time before the pin is touched; the pin goes to 1, the task waits the duration, the pin goes to 0; every other part of the state is unchanged |
| WaterTimer.Timer.MonitorStep | components/water_timer/water_timer.c:75-86 | one round of the monitor: `current_time` is the clock reading, `time_left` is `TimeLeft` of the start time, interval and clock, then a one-second delay; every other part of the state is unchanged |
| WaterTimer.Timer.StopTimers | components/water_timer/water_timer.c:89-96 | the new state is `Stopped` of the old: the time-left task is deleted, then the watering timer is stopped and deleted; the handles name nothing running; if they already named nothing the stop is stale; period, times and orphans are unchanged |
| WaterTimer.StartAndStopAccounting | components/water_timer/water_timer.c:28-96 | a start adds one running timer; a stop removes one exactly when the handles named a running pair, and is stale exactly when they did not |
| WaterTimer.StopTwiceIsStale | components/water_timer/water_timer.c:89-96 | two stops in a row: the second deletes the task and the timer again, a stale stop, and stops nothing |
| WaterTimer.StartTwiceOrphans | components/water_timer/water_timer.c:28-51 | two starts without a stop leave the first timer running without a handle; a later stop leaves one timer more running than before the starts |
| WaterTimer.StartThenStopRestores | components/water_timer/water_timer.c:28-96 | a start on stopped handles followed by a stop leaves as many timers running as before, and adds no stale stop |
| WaterTimer.TimeLeftWithinPeriod | components/water_timer/water_timer.c:81 | inside the current period (no 64-bit overflow) the value is the whole seconds left, and never more than the interval in seconds |
| WaterTimer.TimeLeftWrapsWhenOverdue | components/water_timer/water_timer.c:81 | once the clock passes the end of the period, the unsigned subtraction wraps to 2^64 minus the overrun, a huge number of seconds instead of 0 |
| WaterTimer.OverdueExample | components/water_timer/water_timer.c:81 | with the 20 s default interval, one microsecond late reads 18446744073709 seconds left |
| WaterTimer.LevelsOfOp | components/water_timer/water_timer.c:28-96 | of the four operations, only the watering task writes the hose pin, and it writes 1 then 0 |
| WaterTimer.ValveFollowsWaterings | components/water_timer/water_timer.c:64-73 | over any sequence of initialise, water, monitor and stop steps, the levels written to the hose pin are 1, 0 repeated once per watering |
| WaterTimer.ValveEndsClosed | components/water_timer/water_timer.c:68-72 | over any such sequence the last level written to the hose pin is 0 |
| DataStorage.Appended | components/data_storage/data_storage.c:45-57 | ON_DATA: the first chunk of a response zeroes the buffer; a chunk that leaves room for the terminator is appended after the received bytes and the counter grows by its length, otherwise buffer and counter are unchanged; received bytes are never overwritten; the counter stays below 2048 |
| DataStorage.Finished | components/data_storage/data_storage.c:58-62 | ON_FINISH: the terminator is written at the counter, inside the buffer; the received text is handed on; the counter becomes 0 |
| DataStorage.FeedKeepsWhatFits | components/data_storage/data_storage.c:51-56 | after any sequence of chunks the buffer holds what it held followed by exactly the chunks that found room, in arrival order |
| DataStorage.AllKeptWhenTheyFit | components/data_storage/data_storage.c:51-53 | when the chunks together fit below the limit, none is dropped |
| DataStorage.ResponseIsReassembled | components/data_storage/data_storage.c:45-62 | a response shorter than the buffer that starts on a reset counter reaches the parser whole |
| DataStorage.NextResponseStartsEmpty | components/data_storage/data_storage.c:58-115 | after ON_FINISH or DISCONNECTED the next response is gathered from an empty buffer; nothing of the previous one leaks in |
| DataStorage.OversizedChunkLeavesGap | components/data_storage/data_storage.c:51-56 | a dropped chunk does not stop later chunks that fit, so the parser sees a response with a gap in it |
| DataStorage.ResponseBuffer.constructor | components/data_storage/data_storage.c:22-23 | a 2048-byte buffer and a zero counter |
| DataStorage.ResponseBuffer.OnData | components/data_storage/data_storage.c:45-57 | the in-place memset/memcpy leaves the array equal to `Appended` of the old contents |
| DataStorage.ResponseBuffer.OnFinish | components/data_storage/data_storage.c:58-62 | the in-place terminator write and counter reset give `Finished` of the old contents, and the text returned is what was received |
| DataStorage.ResponseBuffer.OnDisconnected | components/data_storage/data_storage.c:106-115 | DISCONNECTED resets the counter and keeps the bytes |
| DataStorage.Storage.constructor | components/data_storage/data_storage.c:22-29 | days 0, hours 0, duration 5000 ms, `incr_time` 0, an empty response buffer |
| DataStorage.Storage.BufferEvent | components/data_storage/data_storage.c:140-221 | the buffer part of an event of either handler: the new buffer is `AfterEvent` of the old one, and only ON_FINISH yields a response, namely the received bytes |
| DataStorage.Storage.CurrTimeHandler | components/data_storage/data_storage.c:31-124 | the current-time handler updates the buffer as `AfterEvent` does and hands the finished response to the parser |
| DataStorage.Storage.ApplyIncrement | components/data_storage/data_storage.c:188-208 | `incr_time` is set before the store is opened; the durable entries become `Persisted` of the old ones, with `incr_time` as a 64-bit item; the handler fails exactly when the open or the write fails, and a failing commit is ignored |
| DataStorage.Storage.IncrTimeHandler | components/data_storage/data_storage.c:126-230 | the increment handler: buffer as `AfterEvent`; a parsed ON_FINISH response sets and persists `incr_time`; every other event changes neither the globals nor the store |
| DataStorage.CatchUp | components/data_storage/data_storage.c:275-321 | the loop ends at a time not behind `now`, strictly later than a start that was behind, and leaves a start that was not behind alone |
| DataStorage.CatchUpWithFixedSpan | components/data_storage/data_storage.c:275-292 | with a service that adds a fixed span, the loop stops after k requests at start + k × span, the first such time not behind `now` |
| DataStorage.StalledServiceNeverCatchesUp | components/data_storage/data_storage.c:275-321 | when a round from a time behind `now` brings no new time (no reply, or the same time), every number of rounds leaves `incr_time` at that time, still behind `now`: the loop does not end |
| DataStorage.Storage.UpdateIncrTime | components/data_storage/data_storage.c:257-322 | each round sends the current `incr_time` with the fixed span "00:00:01:00" and applies the reply; the loop ends with `incr_time` = `CatchUp` of the start; the store then holds what `Persisted` gives for that value, or is unchanged when no request was sent |
| DataStorage.LoadChangesOnlyWhatItReads | components/data_storage/data_storage.c:419-483 | each global changes only when its own key is read with success; a failed open changes nothing; an empty store leaves the defaults 0, 0, 5000, 0 |
| DataStorage.OlderDurationEntryIsIgnored | components/data_storage/data_storage.c:454-466 | a `waterDurat` entry written as 16 bits is not found by the 64-bit read, so the duration keeps its value |
| DataStorage.LoadIsIdempotent | components/data_storage/data_storage.c:419-483 | loading twice from an unchanged store gives the same globals as loading once |
| DataStorage.SaveThenLoad | components/data_storage/data_storage.c:367-458 | when the open and the three writes succeed (and the commit, on a transactional store), save then load returns days and hours as saved but multiplies the saved duration by 1000 once more, modulo 2^64; the loaded duration equals the saved one exactly when the saved one is 0, and for a positive duration below 2^64/10^6 s it is exactly 1000 times the saved one |
| Machine.ScaleByThousandFixesOnlyZero | components/data_storage/data_storage.c:458 | the 64-bit load scaling `stored * 1000` leaves a value unchanged exactly when it is 0, because 999 is odd and so invertible modulo 2^64 |
| DataStorage.SavedCases | components/data_storage/data_storage.c:371-406 | what a save leaves durable: on a write-through store the entries written before the first failing write; on a transactional store all three when every call succeeds, otherwise none; nothing when the open fails |
| DataStorage.InterruptedSaveMixesSchedules | components/data_storage/data_storage.c:377-389 | on a write-through store a save whose hours write fails is loaded as the new days with the old hours; a transactional store keeps the old entries |
| DataStorage.IncrementThenLoad | components/data_storage/data_storage.c:468-473 | an `incr_time` persisted by the increment handler (open and write succeed, and the commit on a transactional store) is loaded back unchanged |
| DataStorage.PersistedCases | components/data_storage/data_storage.c:188-208 | the handler's one write is durable exactly when the open and the write succeed and, on a transactional store, the commit too; otherwise the store is unchanged |
| DataStorage.PersistedOverwrites | components/data_storage/data_storage.c:188-208 | of two increments persisted in turn only the later one remains |
| DataStorage.SetOrReport | components/data_storage/data_storage.c:378-383 | one write of the save sequence: it succeeds only on an open handle, and is then durable on a write-through store or staged on a transactional one; on failure the handle is closed, staged writes are dropped and "Failed to set NVS value" is reported |
| DataStorage.StageSettings | components/data_storage/data_storage.c:371-397 | open and the three writes: a failure is reported and the sequence goes on; the handle stays open exactly when every call succeeds; a write-through store then holds `Saved` of the old entries, a transactional store has all three staged or none; a failed open yields one open and three write failures |
| DataStorage.WriteSettings | components/data_storage/data_storage.c:371-406 | the whole store sequence: the durable entries become `Saved` of the old ones, the handle ends closed, no message exactly when every call succeeds, and the commit failure is the last message whenever anything failed |
| DataStorage.Storage.SaveNewTimeData | components/data_storage/data_storage.c:361-416 | the globals are set before any store call; the durable entries become `Saved` of the old ones; failures are reported but the sequence goes on; the timer state becomes `Initialized` of the old one in every case, without a stop first |
| DataStorage.Storage.GetDataValues | components/data_storage/data_storage.c:419-483 | the globals become `Load` of the old globals and the stored entries; the store is unchanged and the handle ends closed |
| HttpServer.IntervalScaling | components/http_server/http_server.c:115-118 | up to 2147 s the interval is exactly seconds × 1000000 µs |
| HttpServer.IntervalOverflow | components/http_server/http_server.c:118 | from 2148 s to 4294 s the 32-bit product overflows to a negative value and the interval becomes more than 2^64 − 2^32 µs |
| HttpServer.IntervalWraps | components/http_server/http_server.c:118 | for every number of seconds the interval is seconds × 1000000 modulo 2^32, kept below 2^31 and otherwise raised by 2^64 − 2^32; so 4295 s gives 32704 µs and 8590 s gives 65408 µs |
| HttpServer.DurationScaling | components/http_server/http_server.c:116-119 | the duration is seconds × 1000 modulo 65536: exact up to 65 s, 464 ms for 66 s |
| HttpServer.ReceiveVerdict | components/http_server/http_server.c:92-106 | the loop completes at the first receive that brings the bytes received up to the content length, every earlier receive having returned data or a timeout; it fails at the first other non-positive return; a timeout leaves the count unchanged |
| HttpServer.Receive | components/http_server/http_server.c:91-106 | the loop's outcome is `ReceiveFrom`, and each receive asks for min(remaining, 100) bytes, between 1 and the buffer size |
| HttpServer.LoadKeepsDefaults | components/http_server/http_server.c:266-299 | a missing key, a wrong-width entry, a failing read or a failing open keep the 20 s and 5000 ms defaults |
| HttpServer.PostThenLoad | components/http_server/http_server.c:118-137 | after a POST whose open and writes succeed (and the commit, on a transactional store), a reboot brings the duration back as set, and the interval when the seconds fit in 16 bits |
| HttpServer.IntervalAboveU16IsNotRestored | components/http_server/http_server.c:118-129 | an interval of 65536 s whose write is durable is stored as 0 and loads as 0 µs, while the POST had set it to 1111490560 µs |
| HttpServer.RetryStaysWithinLimit | components/http_server/http_server.c:186-205 | over any sequence of WiFi events the retry counter stays between 0 and `WIFI_MAX_RETRY`, and the FAIL bit once set stays set |
| HttpServer.DisconnectsThenFail | components/http_server/http_server.c:190-203 | from a zero counter with the FAIL bit clear, n disconnects give min(n, limit) reconnect attempts and set the FAIL bit exactly when n exceeds the limit |
| HttpServer.Server.constructor | components/http_server/http_server.c:39-41 | interval 20 s in µs, duration 5000 ms, retry counter 0, no event bit set |
| HttpServer.Server.OnWifiEvent | components/http_server/http_server.c:186-205 | the handler's new state is `WifiStep` of the old; it asks to connect on start and on a disconnect below the limit; the counter stays within the limit |
| HttpServer.WriteConfig | components/http_server/http_server.c:121-153 | open, write `waterIntrv`, write `waterDurat`, commit, close: the first failure ends the sequence with ESP_FAIL; success exactly when every call succeeds; the durable entries become `Posted` of the old ones |
| HttpServer.PostedCases | components/http_server/http_server.c:121-153 | what the POST leaves durable: both unscaled values as 16-bit items when every call succeeds; on a write-through store the interval alone when the duration write fails, or both when only the commit fails; otherwise nothing |
| HttpServer.Server.PostUpdateData | components/http_server/http_server.c:87-163 | the timers are stopped first, whatever the handles name; a failed receive returns failure with globals and store untouched; otherwise the globals take the scaled values and the durable entries become `Posted` of the old ones; the handler succeeds exactly when every store call does; the timer state is `Initialized` of `Stopped` of the old on success and `Stopped` of the old on failure, so a failed POST leaves the handles naming nothing |
| HttpServer.Server.LoadStoredConfig | components/http_server/http_server.c:266-299 | the globals become `Loaded` of the old globals and the stored entries; the store is unchanged and the handle ends closed |

## Left out

- Network and time services: JSON parsing, `strptime`/`mktime`, `strftime`, `localtime_r` and the time zone are not modelled. The current-time and increment handlers take a parse function from the received bytes to an epoch. The catch-up loop takes the increment service as a function from request to optional reply.
- HTTP transport is not modelled: client set-up and perform, redirects, TLS error reporting, echoing the body with `httpd_resp_send_chunk`, and the response strings sent to the POST client. The messages of `save_new_time_data` are returned as a list instead.
- The GET handlers (`get_handler`, `get_time_left_handler`, `get_watering_interval_handler`) are left out. They only format a global into a response.
- WiFi bring-up is left out: `nvs_flash_init`, netif, the event group wait, and server start-up with URI registration. Only the counter in `wifi_event_handler` and the store read at the end of `setup_wifi` are modelled.
- FreeRTOS concurrency is left out. `calculate_time_left` runs forever in its own task, and the periodic timer fires `watering_task` asynchronously. The model has single steps (`MonitorStep`, `WateringTask`) and any interleaving of whole steps (`Trace`). It does not model races on the shared globals.
- Delays and clock readings appear as entries in the call trace. The clock value is a parameter.
- `ESP_ERROR_CHECK` aborts are not modelled. The timer creation and start in `initialize_water_timer` are assumed to succeed.
- The NULL dereferences of `save_new_time_data` (after a missing JSON field) are not modelled, and neither is the parse of the possibly unterminated `buf` in `post_update_data_handler`. Both are undefined behaviour. The model takes the parsed field values as inputs.
- HttpServer.Server.PostUpdateData: requires that the receive loop reaches a verdict within the given socket replies. If the socket keeps timing out, the C loop never ends, and that case is not modelled.
- DataStorage.Storage.UpdateIncrTime: requires that the increment service moves every time behind `now` strictly forward. If the service fails for good or does not advance, the C loop spins forever. The method does not model that case, because a method must end. `DataStorage.StalledServiceNeverCatchesUp` proves the loop cannot end, using the one-round function `Round`.
- DataStorage.Storage.UpdateIncrTime: the service is a function of the request, so it answers a repeated request the same way. A temporary failure that a retry gets through is not modelled, although the C loop re-sends the request and can still end.
- DataStorage.Storage.UpdateIncrTime: the reply of each round is applied directly. The catch-up exchange does not pass through the response buffer model, although in C each reply is gathered in `output_buffer` by the same ON_DATA and ON_FINISH code.
- Faults in the store are fixed per store object: a key's write fails every time or never. A fault that appears only on a second attempt is not modelled.
- Whether a write reaches flash before the commit is a parameter of the store. A write-through store keeps every successful write. A transactional store keeps all writes of a sequence or none. This is a choice the NVS interface leaves open. A write or commit after close fails with an invalid handle.
- Undefined behaviour of the timer handles is not modelled beyond recording it. A stop on handles that name nothing is recorded as a stale stop. This happens after a POST that failed, or at a POST before the first start. Before the first start, `vTaskDelete(NULL)` would delete the calling server task itself. A start over handles that name a running pair is recorded as an orphan. This is what `save_new_time_data` does. What the platform then does is not modelled.
- Signed overflow in `new_watering_interval * 1000000` is undefined behaviour in C. It is modelled as the two's-complement wrap the ESP32 compiler produces.
