# minerstat rig: miner supervision and request parameters

This project models two parts of the minerstat agent and proves properties of them.

The first is the miner supervisor in `minerstat/rig.py`. It covers:

- the lookup of the configured miner in the plugin catalogue;
- the current coin and the current process handle of `Rig`;
- `start_miner`, `stop_miner` and `setup_miner` (stop, then switch the coin, then start);
- the reaction to a remote command;
- the restart that `miner_ended` schedules after every end of a miner process;
- the fixed order of the steps of one `mainloop` tick;
- `MinerProcessProtocol` with its two one-shot Deferreds and `stop_it`.

The second is the query-parameter merge of `MinerStatRemoteProtocol` in `minerstat/remote.py`, and the parameters that `make_request` actually sends.

Files:

- `wrappers.dfy`: `Option` and `Result`.
- `utils.dfy`: the configuration fields the code reads.
- `remote.dfy`: module `Remote`.
- `rig.dfy`: module `Rig`, with the classes `MinerProcessProtocol` and `Rig`.

The Twisted reactor is replaced by explicit event methods on `Rig`:

- `ProcessExited`: the child is reaped.
- `ProcessEnded`: `processEnded` fires, and with it the `miner_ended` callback.
- `RestartTimerFires`: a restart timer set by `miner_ended` fires.
- `AdvanceClock`: the reactor clock moves on.

The `deferLater` timers form a queue of due times, `pending`. Everything the rig does to the outside world goes into a `trace`, in order: every spawn with its executable, arguments and working directory, every KILL, and every mainloop step. This lets contracts state the order of steps. `SpawnedCoins(trace)` is the spawn log, the coins spawned in order. `Rig.Valid()` is kept by every method. It says:

- the current handle is one the rig created;
- there is no handle without a coin;
- a running loop has a handle;
- every protocol is in a consistent Deferred state (`connected` exactly when `on_started` has fired, `on_ended` only after the child is reaped);
- restart timers are sorted and due at most one delay ahead.

The model follows the code in places where a supervisor might be expected to behave otherwise:

- Every process end schedules a restart, including the end caused by `stop_miner`. The code has no stop-requested flag.
- `miner_ended` is the first callback on `on_ended`, and it returns a Deferred that waits out the one-unit restart delay. So the `await` in `stop_miner` resumes only after that restart has run `start_miner`. That restart spawns the coin that is still current, which is the OLD coin.
- A restart creates a new handle and does not stop the one it replaces. After `setup_miner` from a running miner A to B, the spawn log reads A, A, B. Two miner processes are alive: the restarted A and the new B. No restart is left pending. `Rig.SwitchRestartsOldCoin` proves this for a started rig. So "at most one live miner process" does not hold.
- `Rig.stop` likewise returns only after the stopped coin has been restarted.
- `check_remote_commands` sets up any commanded coin, even the current one.
- A spawned process gets `[config.client]` as its arguments, not the name of the coin being started.
- A tick whose remote fetch fails stops at that point. `Rig.Rig.Mainloop` returns the error, skips the watchdog step and marks the loop as no longer running, because a Twisted `LoopingCall` whose call fails stops looping. A later `stop` is then refused and leaves the miner running (`Rig.FailedTickStopsLoop`).

## Model

| member | source | states |
|---|---|---|
| Remote.MakeUrlParams | minerstat/remote.py:25-35 | Result keys are exactly token, worker and the caller's keys. Every caller entry keeps the caller's value and overrides a default on a clash. Token and worker default to the config's access key and worker when the caller does not give them. With no or empty params the result is exactly the two defaults. |
| Remote.RequestParams | minerstat/remote.py:44-50 | The parameters `make_request` sends are exactly the token and worker defaults, whatever params its caller passed. |
| Rig.JoinPath | minerstat/rig.py:145-152 | For a relative name, the executable path starts with the miner directory and ends with `start.bash`. A single `/` separates them unless the directory is empty or already ends with one. |
| Rig.Lookup | minerstat/rig.py:93-102 | A found miner is in the catalogue and has the configured name. Nothing is found exactly when no entry has that name. |
| Rig.LookupIsFirstMatch | minerstat/rig.py:95-100 | When entry i is the first with the name, the lookup returns entry i, whatever follows it. |
| Rig.FindMiner | minerstat/rig.py:94-102 | The early-return for loop returns exactly the first entry with the name, or nothing. |
| Rig.MinerProcessProtocol.constructor | minerstat/rig.py:23-25 | A new protocol has both Deferreds pending and is not attached to a process. |
| Rig.MinerProcessProtocol.ConnectionMade | minerstat/rig.py:27-28 | Attaching the protocol marks it connected and fires `on_started`. `on_ended` is untouched. |
| Rig.MinerProcessProtocol.ProcessExited | minerstat/rig.py:36-38 | The child is reaped. The Deferreds are untouched, because `processExited` only logs. |
| Rig.MinerProcessProtocol.ProcessEnded | minerstat/rig.py:40-43 | `on_ended` fires once, with the exit status. It can only fire for a reaped child. |
| Rig.MinerProcessProtocol.StopIt | minerstat/rig.py:45-52 | An alive child receives one KILL and the caller must wait for `on_ended`. A child already gone receives nothing and the result is an already-succeeded one. |
| Rig.Rig.constructor | minerstat/rig.py:59-70 | No coin, no process handle, no loop running, no timers. |
| Rig.Rig.LoadConfiguredMiner | minerstat/rig.py:93-102 | When the catalogue has an entry with the configured name, the first such entry is returned and becomes the current coin. Otherwise "No miner configured in global config." is returned, the coin is unchanged, and nothing is spawned. |
| Rig.Rig.StartMiner | minerstat/rig.py:140-156 | With no coin: no new handle and no spawn. Otherwise: a fresh handle becomes current and the coin's `start.bash` is spawned with `[config.client]` in the coin's directory. On return the handle is connected with `on_started` fired. The old handle is untouched. |
| Rig.Rig.MinerEnded | minerstat/rig.py:162-169 | Exactly one restart is queued, due one time unit from now, whatever the status. |
| Rig.Rig.ProcessExited | minerstat/rig.py:36-38 | A live child of the rig is reaped. Nothing else changes. |
| Rig.Rig.ProcessEnded | minerstat/rig.py:153-155 | The end of any child of the rig fires its `on_ended`, and the hooked `miner_ended` queues exactly one restart. This holds whether the end was a crash, a clean exit or a KILL. |
| Rig.Rig.AdvanceClock | minerstat/rig.py:166-168 | Only the reactor clock moves. Pending timers keep their due times. |
| Rig.Rig.RestartTimerFires | minerstat/rig.py:166-168 | The earliest due timer leaves the queue, and `start_miner` runs with the coin current at that moment. The replaced handle is not stopped. |
| Rig.Rig.RunDueTimers | minerstat/rig.py:162-168 | Every due timer fires, earliest first, and no due timer is left. Each one spawns the current coin once more and leaves a fresh running handle. Timers not yet due stay queued. |
| Rig.Rig.AwaitKilledEnd | minerstat/rig.py:153-168 | After the KILL, the child ends with a KILL status. `miner_ended` queues its restart, and the wait lasts one delay. Every pending restart, the new one last, spawns the current coin before the wait is over. No timer is left. |
| Rig.Rig.StopMiner | minerstat/rig.py:158-160 | A connected, alive process gets one KILL and ends with a KILL status. Before `stop_miner` returns, the current coin is spawned once per pending restart plus once for this end. Those new handles are running and the last one is current. A process already gone gets nothing and nothing waits. The coin stays. |
| Rig.Rig.StopActionsLog | minerstat/rig.py:158-168 | The spawn log of what `stop_miner` does is the current coin, once per restart it waits for. |
| Rig.Rig.SetupMiner | minerstat/rig.py:117-121 | The trace is the stop's KILL and restarts (if alive), then one spawn of the new coin. The spawn log grows by the old coin once per restart, then the new coin. The restarted handles and the new one are all running. The old handle was killed (if alive) or is untouched. |
| Rig.Rig.CheckRemoteCommands | minerstat/rig.py:123-127 | A present command with a coin sets that coin up, even the current one, with the restarts that the stop causes. The old handle was killed (if alive) or is untouched. Otherwise nothing changes. |
| Rig.Rig.OpenTick | minerstat/rig.py:108-111 | A tick first appends collect, send logs, check algorithms and check remote commands, in that order. |
| Rig.Rig.Mainloop | minerstat/rig.py:107-112 | Steps are appended in the fixed order collect, send logs, check algorithms, check remote commands, with any setup's actions, then watchdog. In a setup, the old handle was killed (if alive) or is untouched. A failed fetch ends the tick before the watchdog with no change to coin, handle or timers, and the loop stops running. |
| Rig.Rig.Start | minerstat/rig.py:83-87 | A missing configured miner aborts with its error and nothing is started. Otherwise the first matching miner becomes current, is spawned, and the loop runs. If the loop was already running, the miner is still spawned and then the "already running" error is returned. |
| Rig.Rig.Stop | minerstat/rig.py:89-91 | A loop that is not running refuses with its error, and the miner is left alone. Otherwise the loop stops, then the miner is stopped as by `stop_miner`, and its coin is restarted before `stop` returns. |
| Rig.StartedRig | minerstat/rig.py:83-87 | After `start` with a catalogue holding only the configured miner, that miner is current and running as the only handle. The spawn log is that miner, and no restart is pending. |
| Rig.SwitchRestartsOldCoin | minerstat/rig.py:117-168 | After `start` on coin A and `setup_miner` to coin B, the rig's spawn log is A, A, B and no timer is pending. The rig holds three handles: the first, the restarted A and the new, current B. The last two are distinct and both running. |
| Rig.FailedTickStopsLoop | minerstat/rig.py:87-91 | After `start` and a tick whose fetch fails, `stop` is refused with "Tried to stop a LoopingCall that was not running." and the miner is still running. |

## Left out

- Rig.Rig.AwaitKilledEnd: the wait from the KILL to the end of the restart is one atomic step. No other reactor event (another orphan's end, a mainloop tick) falls inside that one time unit. Every timer already pending is due within the unit, so all of them fire in it.
- Rig.Rig.SetupMiner: the `asyncio.Lock` around the coin is left out together with all concurrency; `setup_miner` and `load_configured_miner` are single sequential steps.
- Rig.Rig.StartMiner: a spawn always succeeds and the reactor attaches the protocol during the spawn, as `spawnProcess` does. A failed launch is OS process behaviour and is not modelled. So in the model, every handle that exists is connected.
- Rig.Rig.StartMiner: the environment passed to the child (`os.environ`) and the child's stdout/stderr (`outReceived`, `errReceived`) are OS process I/O.
- Rig.Rig.LoadConfiguredMiner: the call to `remote.dlconf(coin)` is treated as a no-op step. `dlconf` at minerstat/remote.py:66 takes no argument and returns nothing awaitable, so the call as written would raise after the coin has been set.
- Rig.Rig.LoadConfiguredMiner: the catalogue from `getPlugins(IMiner)` is a parameter. `MinerUtils.miner_path` is unseen code, so each descriptor's `path` stands for its miner directory.
- Rig.Rig.Mainloop: the remote command is a parameter (a fetched command or a fetch error), because `fetch_remote_command` is a network call and is not defined in minerstat/remote.py. `collect_miner_data`, `send_logs_to_server`, `check_algorithms` and `watchdog` are stubs, so they appear only as named steps.
- Rig.Rig.Start: the `LoopingCall` is left out apart from whether it runs. Its one-unit interval and its immediate first call are left to whoever calls `Mainloop`. The log header is left out.
- `reboot` runs `shutdown` through `subprocess`: OS I/O.
- Logging in every method is left out.
- `make_full_url` is a wrapper over `urljoin` and `urlencode`.
- `make_request` (apart from its parameters), `get_request`, `algoinfo`, `send_log` and `algo_check` are HTTP calls through `treq`.
- `dispatch_remote_command` and `poll_remote` are empty stubs.
- Remote.MakeUrlParams: the insertion order of the Python dict (defaults first, then the caller's new keys) is not modelled, because maps are unordered. The order only shows in the URL encoding, which is left out.
