/**
 * The miner supervisor of minerstat/rig.py: the catalogue lookup, the
 * stop/switch/start sequence of the current coin, the restart that follows
 * every end of a miner process, and the fixed order of one mainloop tick.
 *
 * The Twisted reactor is replaced by explicit event methods on Rig
 * (ProcessExited, ProcessEnded, RestartTimerFires, AdvanceClock); the timers
 * that miner_ended sets are a queue of due times; and every spawn, KILL and
 * mainloop step is appended to a trace, so contracts can state order.
 */
module Rig {
  import opened Wrappers
  import opened Utils

  /** An IMiner plugin as the catalogue lists it: its name and the directory of its start script. */
  datatype Miner = Miner(name: string, path: string)

  /** A command fetched from the remote service; its coin may be missing. */
  datatype Command = Command(coin: Option<Miner>)

  /** How Twisted reports the end of a process to processEnded. */
  datatype ExitStatus = ProcessDone | ProcessTerminated(signal: string)

  /** A one-shot Twisted Deferred: pending until it fires, once, with a result. */
  datatype Deferred<T> = Pending | Fired(result: T)

  /** What stop_it hands back: an already-succeeded Deferred, or on_ended to wait on. */
  datatype StopResult = AlreadySucceeded | AwaitEnded

  /** The named steps of one mainloop tick. */
  datatype LoopStep = Collect | SendLogs | CheckAlgorithms | CheckRemote | Watchdog

  /** What the rig does to the outside world, in order. */
  datatype Action =
    | Spawn(coin: Miner, executable: string, args: seq<string>, cwd: string)
    | Kill(target: MinerProcessProtocol)
    | Step(step: LoopStep)

  const StartScript := "start.bash"
  const KillSignal := "KILL"
  const NoMinerConfigured := "No miner configured in global config."
  const LoopAlreadyRunning := "Tried to start an already running LoopingCall."
  const LoopNotRunning := "Tried to stop a LoopingCall that was not running."
  /** The delay, in reactor time units, before miner_ended restarts the miner. */
  const RestartDelay := 1

  /** The steps of a tick that run before the remote command is acted on. */
  const TickOpening := [Step(Collect), Step(SendLogs), Step(CheckAlgorithms), Step(CheckRemote)]

  /**
   * os.path.join(dir, name) on POSIX for a relative name: a separator is put
   * between the two unless dir is empty or already ends with one.
   */
  function JoinPath(dir: string, name: string): (r: string)
    requires name == [] || name[0] != '/'
    ensures |dir| + |name| <= |r| <= |dir| + 1 + |name|
    ensures r[..|dir|] == dir && r[|r| - |name|..] == name
    ensures dir != [] ==> r[|r| - |name| - 1] == '/'
    ensures |r| == |dir| + 1 + |name| <==> dir != [] && dir[|dir| - 1] != '/'
  {
    if dir == [] || dir[|dir| - 1] == '/' then dir + name else dir + "/" + name
  }

  /** The first catalogue entry whose name is `name`, if there is one. */
  function Lookup(catalogue: seq<Miner>, name: string): (r: Option<Miner>)
    ensures r.Some? ==> r.value in catalogue && r.value.name == name
    ensures r.None? <==> forall i :: 0 <= i < |catalogue| ==> catalogue[i].name != name
  {
    if |catalogue| == 0 then None
    else if catalogue[0].name == name then Some(catalogue[0])
    else
      var rest := Lookup(catalogue[1..], name);
      assert forall i :: 1 <= i < |catalogue| ==> catalogue[i] == catalogue[1..][i - 1];
      rest
  }

  /** Lookup returns exactly the first entry with the name, whatever follows it. */
  lemma {:induction false} LookupIsFirstMatch(catalogue: seq<Miner>, name: string, i: nat)
    requires i < |catalogue| && catalogue[i].name == name
    requires forall j :: 0 <= j < i ==> catalogue[j].name != name
    ensures Lookup(catalogue, name) == Some(catalogue[i])
  {
    if i > 0 {
      assert catalogue[0].name != name;
      assert catalogue[1..][i - 1] == catalogue[i];
      LookupIsFirstMatch(catalogue[1..], name, i - 1);
    }
  }

  /** The for loop of load_configured_miner: return at the first entry named `name`. */
  method FindMiner(catalogue: seq<Miner>, name: string) returns (r: Option<Miner>)
    ensures r == Lookup(catalogue, name)
  {
    var i := 0;
    while i < |catalogue|
      invariant 0 <= i <= |catalogue|
      invariant forall j :: 0 <= j < i ==> catalogue[j].name != name
    {
      if catalogue[i].name == name {
        LookupIsFirstMatch(catalogue, name, i);
        return Some(catalogue[i]);
      }
      i := i + 1;
    }
    return None;
  }


  /** n copies of x. */
  function Repeat<T>(x: T, n: nat): (r: seq<T>)
    ensures |r| == n && forall i :: 0 <= i < n ==> r[i] == x
  {
    if n == 0 then [] else Repeat(x, n - 1) + [x]
  }

  /** The coins of the spawns in a trace, in order: the spawn log. */
  function SpawnedCoins(trace: seq<Action>): (coins: seq<Miner>)
  {
    if |trace| == 0 then []
    else
      var last := trace[|trace| - 1];
      SpawnedCoins(trace[..|trace| - 1]) + (if last.Spawn? then [last.coin] else [])
  }

  /** The spawn log of a trace extended by more actions is the old log extended by theirs. */
  lemma {:induction false} SpawnedCoinsAppend(s: seq<Action>, t: seq<Action>)
    ensures SpawnedCoins(s + t) == SpawnedCoins(s) + SpawnedCoins(t)
  {
    if |t| > 0 {
      assert (s + t)[..|s + t| - 1] == s + t[..|t| - 1];
      SpawnedCoinsAppend(s, t[..|t| - 1]);
    } else {
      assert s + t == s;
    }
  }

  /** A run of spawns of one coin logs that coin once per spawn. */
  lemma {:induction false} SpawnedCoinsOfSpawns(t: seq<Action>, coin: Miner)
    requires forall i :: 0 <= i < |t| ==> t[i].Spawn? && t[i].coin == coin
    ensures SpawnedCoins(t) == Repeat(coin, |t|)
  {
    if |t| > 0 {
      SpawnedCoinsOfSpawns(t[..|t| - 1], coin);
    }
  }

  /** A trace without spawns adds nothing to the spawn log. */
  lemma {:induction false} SpawnedCoinsOfNoSpawns(t: seq<Action>)
    requires forall i :: 0 <= i < |t| ==> !t[i].Spawn?
    ensures SpawnedCoins(t) == []
  {
    if |t| > 0 {
      SpawnedCoinsOfNoSpawns(t[..|t| - 1]);
    }
  }

  /** The spawn log after some actions and one final spawn: their log, then that spawn's coin. */
  lemma SetupSpawnLog(before: seq<Action>, actions: seq<Action>, last: Action)
    requires last.Spawn?
    ensures SpawnedCoins(before + actions + [last]) == SpawnedCoins(before) + SpawnedCoins(actions) + [last.coin]
  {
    SpawnedCoinsAppend(before, actions);
    SpawnedCoinsAppend(before + actions, [last]);
    assert [last][..0] == [];
  }

  /** The coin `check_remote_commands` sets up (`command and command.coin`), if any. */
  function CommandedCoin(command: Option<Command>): (coin: Option<Miner>)
  {
    if command.Some? && command.value.coin.Some? then command.value.coin else None
  }

  /** Due times of pending timers, earliest first. */
  ghost predicate Sorted(s: seq<int>)
  {
    forall i, j :: 0 <= i < j < |s| ==> s[i] <= s[j]
  }

  /**
   * MinerProcessProtocol together with the Twisted transport it is attached
   * to: whether the transport is connected, its two Deferreds, whether the
   * child has been reaped, and how many KILL signals were sent.
   */
  class MinerProcessProtocol {
    /** BaseProtocol.connected: set when the reactor attaches the transport. */
    var connected: bool
    var onStarted: Deferred<()>
    var onEnded: Deferred<ExitStatus>
    /** The child has been reaped: signalProcess raises ProcessExitedAlready. */
    var exited: bool
    var kills: nat

    ghost predicate Valid()
      reads this
    {
      (connected <==> onStarted.Fired?) && (exited ==> connected) && (onEnded.Fired? ==> exited)
    }

    /** Started and not yet ended: a miner process that is running. */
    ghost predicate Running()
      reads this
    {
      connected && onStarted.Fired? && !exited && onEnded == Pending
    }

    /** __init__: both Deferreds pending, not yet attached to a process. */
    constructor ()
      ensures Valid() && !connected && !exited && kills == 0
      ensures onStarted == Pending && onEnded == Pending
    {
      connected := false;
      onStarted := Pending;
      onEnded := Pending;
      exited := false;
      kills := 0;
    }

    /** makeConnection, then connectionMade, which fires on_started. */
    method ConnectionMade()
      requires Valid() && !connected
      modifies this
      ensures Valid() && connected && onStarted == Fired(())
      ensures onEnded == old(onEnded) && exited == old(exited) && kills == old(kills)
    {
      connected := true;
      onStarted := Fired(());
    }

    /** The reactor reaps the child; processExited itself only logs. */
    method ProcessExited()
      requires Valid() && connected && !exited
      modifies this
      ensures Valid() && exited
      ensures connected && onStarted == old(onStarted) && onEnded == old(onEnded) && kills == old(kills)
    {
      exited := true;
    }

    /** processEnded: fires on_ended, once, with the exit status. */
    method ProcessEnded(status: ExitStatus)
      requires Valid() && exited && onEnded == Pending
      modifies this
      ensures Valid() && onEnded == Fired(status)
      ensures connected && exited && onStarted == old(onStarted) && kills == old(kills)
    {
      onEnded := Fired(status);
    }

    /**
     * stop_it: send KILL and hand back on_ended; when the child is already
     * gone the signal raises ProcessExitedAlready and an already-succeeded
     * result comes back instead, without waiting.
     */
    method StopIt() returns (r: StopResult)
      requires Valid() && connected
      modifies this
      ensures Valid()
      ensures r == (if old(exited) then AlreadySucceeded else AwaitEnded)
      ensures kills == (if old(exited) then old(kills) else old(kills) + 1)
      ensures connected && exited == old(exited) && onStarted == old(onStarted) && onEnded == old(onEnded)
    {
      if exited {
        r := AlreadySucceeded;
      } else {
        kills := kills + 1;
        r := AwaitEnded;
      }
    }
  }

  /**
   * Rig: the current coin, the current process handle (absent until the
   * first start_miner, as __init__ never sets it), and the reactor state the
   * rig drives: every protocol ever created, the pending restart timers, the
   * clock and whether the LoopingCall runs.
   */
  class Rig {
    const config: Config
    var currentCoin: Option<Miner>
    var process: Option<MinerProcessProtocol>
    /** Every protocol start_miner has created, oldest first; the reactor keeps them all. */
    var procs: seq<MinerProcessProtocol>
    var trace: seq<Action>
    /** Due times of the restarts miner_ended has scheduled with deferLater. */
    var pending: seq<int>
    var now: int
    var looping: bool

    ghost predicate Valid()
      reads this`currentCoin, this`process, this`procs, this`pending, this`now, this`looping, procs
    {
      (process.Some? ==> process.value in procs)
      && (currentCoin.None? ==> process.None? && procs == [] && pending == [])
      && (looping ==> process.Some?)
      && (forall i :: 0 <= i < |procs| ==> procs[i].Valid())
      && Sorted(pending)
      && (forall i :: 0 <= i < |pending| ==> pending[i] <= now + RestartDelay)
    }

    /** The spawn start_miner issues for a coin: its start.bash, with the configured client name as argument. */
    function SpawnOf(coin: Miner): (a: Action)
    {
      Spawn(coin, JoinPath(coin.path, StartScript), [config.client], coin.path)
    }

    /** n restarts of the current coin, as the spawns they issue. */
    ghost function Respawns(n: nat): seq<Action>
      reads this`currentCoin
    {
      if currentCoin.None? then [] else Repeat(SpawnOf(currentCoin.value), n)
    }

    /** The current process is attached and alive, so stop_miner will KILL it. */
    ghost predicate Killable()
      requires process.Some?
      reads this`process, process.value
    {
      process.value.connected && !process.value.exited
    }

    /**
     * The restarts stop_miner waits for: when it KILLs the process, every
     * pending timer and the one the end adds come due before it returns.
     */
    ghost function Restarts(): nat
      requires process.Some?
      reads this`process, this`pending, process.value
    {
      if Killable() then |pending| + 1 else 0
    }

    /** What stop_miner does to the outside world: the KILL, then the restarts of the current coin. */
    ghost function StopActions(): seq<Action>
      requires process.Some?
      reads this`process, this`pending, this`currentCoin, process.value
    {
      if Killable() then [Kill(process.value)] + Respawns(Restarts()) else []
    }

    /** The spawn log of what stop_miner does: the current coin, once per restart it waits for. */
    lemma StopActionsLog()
      requires Valid() && process.Some?
      ensures SpawnedCoins(StopActions()) == Repeat(currentCoin.value, Restarts())
    {
      if Killable() {
        var respawns := Repeat(SpawnOf(currentCoin.value), Restarts());
        assert StopActions() == [Kill(process.value)] + respawns;
        SpawnedCoinsAppend([Kill(process.value)], respawns);
        SpawnedCoinsOfNoSpawns([Kill(process.value)]);
        SpawnedCoinsOfSpawns(respawns, currentCoin.value);
      }
    }

    constructor (config: Config)
      ensures Valid() && this.config == config
      ensures currentCoin == None && process == None && !looping
      ensures procs == [] && trace == [] && pending == [] && now == 0
    {
      this.config := config;
      currentCoin := None;
      process := None;
      procs := [];
      trace := [];
      pending := [];
      now := 0;
      looping := false;
    }

    /**
     * load_configured_miner: the first catalogue entry named like the
     * configured client becomes the current coin and is returned; with none,
     * the error is raised and nothing changes.
     */
    method LoadConfiguredMiner(catalogue: seq<Miner>) returns (r: Result<Miner, string>)
      requires Valid()
      modifies this`currentCoin
      ensures Valid()
      ensures Lookup(catalogue, config.client).Some? ==>
        r == Ok(Lookup(catalogue, config.client).value) && currentCoin == Some(r.value)
      ensures Lookup(catalogue, config.client).None? ==>
        r == Err(NoMinerConfigured) && currentCoin == old(currentCoin)
    {
      var found := FindMiner(catalogue, config.client);
      if found.Some? {
        currentCoin := found;
        r := Ok(found.value);
      } else {
        r := Err(NoMinerConfigured);
      }
    }

    /**
     * start_miner: without a coin, nothing happens. Otherwise a fresh protocol
     * becomes the current handle, start.bash of the coin is spawned, the
     * reactor attaches the protocol (firing on_started) and the method returns
     * with the process running. The handle it replaces is not touched.
     */
    method StartMiner()
      requires Valid()
      modifies this`process, this`procs, this`trace
      ensures Valid()
      ensures currentCoin.None? ==> process == old(process) && procs == old(procs) && trace == old(trace)
      ensures currentCoin.Some? ==>
        process.Some? && fresh(process.value)
        && procs == old(procs) + [process.value]
        && trace == old(trace) + [SpawnOf(currentCoin.value)]
        && process.value.Running()
    {
      if currentCoin.None? {
        return;
      }
      var p := new MinerProcessProtocol();
      process := Some(p);
      procs := procs + [p];
      trace := trace + [SpawnOf(currentCoin.value)];
      p.ConnectionMade();
    }

    /**
     * miner_ended, hooked to on_ended as callback and errback: whatever the
     * status, schedule one restart after the fixed delay.
     */
    method MinerEnded(status: ExitStatus)
      requires Valid() && currentCoin.Some?
      modifies this`pending
      ensures Valid()
      ensures pending == old(pending) + [now + RestartDelay]
    {
      pending := pending + [now + RestartDelay];
    }

    /** The reactor reaps a child the rig started. */
    method ProcessExited(p: MinerProcessProtocol)
      requires Valid() && p in procs && p.connected && !p.exited
      modifies p
      ensures Valid() && p.exited
      ensures p.connected && p.onStarted == old(p.onStarted) && p.onEnded == old(p.onEnded) && p.kills == old(p.kills)
    {
      p.ProcessExited();
    }

    /**
     * The reactor calls processEnded on a reaped child: on_ended fires, and
     * the miner_ended callback that start_miner hooked to it schedules one
     * restart, whether the end was a crash, a clean exit or a KILL.
     */
    method ProcessEnded(p: MinerProcessProtocol, status: ExitStatus)
      requires Valid() && p in procs && p.exited && p.onEnded == Pending
      modifies p, this`pending
      ensures Valid() && p.onEnded == Fired(status)
      ensures p.connected && p.exited && p.onStarted == old(p.onStarted) && p.kills == old(p.kills)
      ensures pending == old(pending) + [now + RestartDelay]
    {
      p.ProcessEnded(status);
      MinerEnded(status);
    }

    /** The reactor clock moves on. */
    method AdvanceClock(dt: nat)
      requires Valid()
      modifies this`now
      ensures Valid() && now == old(now) + dt
    {
      now := now + dt;
    }

    /**
     * The earliest restart timer is due: it is dropped from the queue and
     * start_miner runs with whatever coin is current at that moment. The
     * handle it replaces is not stopped.
     */
    method RestartTimerFires()
      requires Valid() && |pending| > 0 && pending[0] <= now
      modifies this`pending, this`process, this`procs, this`trace
      ensures Valid() && pending == old(pending)[1..] && currentCoin.Some?
      ensures process.Some? && fresh(process.value) && process.value.Running()
      ensures procs == old(procs) + [process.value]
      ensures trace == old(trace) + [SpawnOf(currentCoin.value)]
    {
      pending := pending[1..];
      StartMiner();
    }

    /**
     * The reactor runs every restart timer that is due, earliest first; each
     * spawns the current coin again and leaves a fresh running handle. The
     * handles spawned are returned in order.
     */
    method RunDueTimers() returns (ghost spawned: seq<MinerProcessProtocol>)
      requires Valid()
      modifies this`pending, this`process, this`procs, this`trace
      ensures Valid() && |spawned| <= |old(pending)| && pending == old(pending)[|spawned|..]
      ensures forall i :: 0 <= i < |spawned| ==> old(pending)[i] <= now
      ensures pending == [] || pending[0] > now
      ensures trace == old(trace) + Respawns(|spawned|)
      ensures procs == old(procs) + spawned
      ensures forall i :: 0 <= i < |spawned| ==> fresh(spawned[i]) && spawned[i].Running()
      ensures |spawned| == 0 ==> process == old(process)
      ensures |spawned| > 0 ==> process == Some(spawned[|spawned| - 1])
    {
      spawned := [];
      while |pending| > 0 && pending[0] <= now
        invariant Valid() && |spawned| <= |old(pending)| && pending == old(pending)[|spawned|..]
        invariant forall i :: 0 <= i < |spawned| ==> old(pending)[i] <= now
        invariant trace == old(trace) + Respawns(|spawned|)
        invariant procs == old(procs) + spawned
        invariant forall i :: 0 <= i < |spawned| ==> fresh(spawned[i]) && spawned[i].Running()
        invariant |spawned| == 0 ==> process == old(process)
        invariant |spawned| > 0 ==> process == Some(spawned[|spawned| - 1])
        decreases |pending|
      {
        assert old(pending)[|spawned|] == pending[0];
        RestartTimerFires();
        assert forall i :: 0 <= i < |spawned| ==> spawned[i].Running();
        assert old(procs) + spawned + [process.value] == old(procs) + (spawned + [process.value]);
        assert old(trace) + Respawns(|spawned|) + [SpawnOf(currentCoin.value)] == old(trace) + Respawns(|spawned| + 1);
        spawned := spawned + [process.value];
      }
    }

    /**
     * stop_miner: a connected process is asked to stop. If it is already gone
     * nothing is sent and nothing waits. If it is alive it receives KILL and
     * ends; on_ended runs the miner_ended callback first, whose Deferred
     * waits out the restart delay, so the awaited stop completes only after
     * the due restarts have spawned the current coin again. The handles those
     * restarts created are returned in order.
     */
    method StopMiner() returns (ghost restarted: seq<MinerProcessProtocol>)
      requires Valid() && process.Some?
      modifies this`trace, this`pending, this`now, this`process, this`procs, process.value
      ensures Valid()
      ensures trace == old(trace) + old(StopActions())
      ensures pending == (if old(Killable()) then [] else old(pending))
      ensures now == old(now) + (if old(Killable()) then RestartDelay else 0)
      ensures procs == old(procs) + restarted && |restarted| == old(Restarts())
      ensures forall i :: 0 <= i < |restarted| ==> fresh(restarted[i]) && restarted[i].Running()
      ensures old(Killable()) ==>
        process == Some(restarted[|restarted| - 1])
        && old(process).value.exited
        && old(process).value.onEnded == Fired(ProcessTerminated(KillSignal))
        && old(process).value.kills == old(process.value.kills) + 1
      ensures !old(Killable()) ==>
        process == old(process) && old(process).value.exited == old(process.value.exited)
        && old(process).value.onEnded == old(process.value.onEnded)
        && old(process).value.kills == old(process.value.kills)
      ensures old(process).value.connected == old(process.value.connected)
      ensures old(process).value.onStarted == old(process.value.onStarted)
    {
      restarted := [];
      var p := process.value;
      if p.connected {
        var result := p.StopIt();
        if result == AwaitEnded {
          trace := trace + [Kill(p)];
          restarted := AwaitKilledEnd(p);
        }
      }
    }

    /**
     * The wait of stop_miner after the KILL it sent: the child ends and fires on_ended;
     * the miner_ended callback runs first and its Deferred waits out the
     * restart delay, so the awaited stop resumes only once the due restarts
     * have spawned the current coin again.
     */
    method AwaitKilledEnd(p: MinerProcessProtocol) returns (ghost restarted: seq<MinerProcessProtocol>)
      requires Valid() && process == Some(p) && p.connected && !p.exited
      modifies this`trace, this`pending, this`now, this`process, this`procs, p
      ensures Valid()
      ensures trace == old(trace) + Respawns(|old(pending)| + 1)
      ensures pending == [] && now == old(now) + RestartDelay
      ensures procs == old(procs) + restarted && |restarted| == |old(pending)| + 1
      ensures forall i :: 0 <= i < |restarted| ==> fresh(restarted[i]) && restarted[i].Running()
      ensures process == Some(restarted[|restarted| - 1])
      ensures p.exited && p.onEnded == Fired(ProcessTerminated(KillSignal))
      ensures p.connected && p.kills == old(p.kills) && p.onStarted == old(p.onStarted)
    {
      ProcessExited(p);
      ProcessEnded(p, ProcessTerminated(KillSignal));
      AdvanceClock(RestartDelay);
      restarted := RunDueTimers();
      assert pending == [];
    }

    /**
     * setup_miner: stop the current process, make `coin` current, start it,
     * in that order. Stopping a live process restarts the old coin before
     * the switch, and those restarted processes are left running; they are
     * returned in order.
     */
    method SetupMiner(coin: Miner) returns (ghost restarted: seq<MinerProcessProtocol>)
      requires Valid() && process.Some?
      modifies this`currentCoin, this`process, this`procs, this`trace, this`pending, this`now, process.value
      ensures Valid() && currentCoin == Some(coin)
      ensures trace == old(trace) + old(StopActions()) + [SpawnOf(coin)]
      ensures SpawnedCoins(trace) == SpawnedCoins(old(trace)) + Repeat(old(currentCoin).value, old(Restarts())) + [coin]
      ensures pending == (if old(Killable()) then [] else old(pending))
      ensures now == old(now) + (if old(Killable()) then RestartDelay else 0)
      ensures process.Some? && procs == old(procs) + restarted + [process.value] && |restarted| == old(Restarts())
      ensures forall i :: 0 <= i < |restarted| ==> fresh(restarted[i]) && restarted[i].Running()
      ensures fresh(process.value) && process.value.Running() && process.value !in restarted
      ensures old(Killable()) ==>
        old(process).value.exited
        && old(process).value.onEnded == Fired(ProcessTerminated(KillSignal))
        && old(process).value.kills == old(process.value.kills) + 1
      ensures !old(Killable()) ==>
        old(process).value.exited == old(process.value.exited)
        && old(process).value.onEnded == old(process.value.onEnded)
        && old(process).value.kills == old(process.value.kills)
      ensures old(process).value.connected == old(process.value.connected)
      ensures old(process).value.onStarted == old(process.value.onStarted)
    {
      ghost var before := trace;
      ghost var stopActions := StopActions();
      StopActionsLog();
      restarted := StopMiner();
      currentCoin := Some(coin);
      StartMiner();
      assert forall i :: 0 <= i < |restarted| ==> restarted[i].Running();
      SetupSpawnLog(before, stopActions, SpawnOf(coin));
    }

    /**
     * check_remote_commands: a present command carrying a coin sets that coin
     * up, even when it is the current one; anything else changes nothing.
     */
    method CheckRemoteCommands(command: Option<Command>) returns (ghost restarted: seq<MinerProcessProtocol>)
      requires Valid() && (CommandedCoin(command).Some? ==> process.Some?)
      modifies this`currentCoin, this`process, this`procs, this`trace, this`pending, this`now
      modifies if process.Some? then {process.value} else {}
      ensures Valid()
      ensures CommandedCoin(command).None? ==>
        currentCoin == old(currentCoin) && process == old(process) && procs == old(procs)
        && trace == old(trace) && pending == old(pending) && now == old(now)
        && (process.Some? ==> unchanged(process.value))
      ensures CommandedCoin(command).Some? ==>
        currentCoin == CommandedCoin(command)
        && trace == old(trace) + old(StopActions()) + [SpawnOf(CommandedCoin(command).value)]
        && pending == (if old(Killable()) then [] else old(pending))
        && now == old(now) + (if old(Killable()) then RestartDelay else 0)
        && process.Some? && procs == old(procs) + restarted + [process.value] && |restarted| == old(Restarts())
        && (forall i :: 0 <= i < |restarted| ==> fresh(restarted[i]) && restarted[i].Running())
        && fresh(process.value) && process.value.Running()
      ensures CommandedCoin(command).Some? && old(Killable()) ==>
        old(process).value.exited
        && old(process).value.onEnded == Fired(ProcessTerminated(KillSignal))
        && old(process).value.kills == old(process.value.kills) + 1
      ensures CommandedCoin(command).Some? && !old(Killable()) ==>
        old(process).value.exited == old(process.value.exited)
        && old(process).value.onEnded == old(process.value.onEnded)
        && old(process).value.kills == old(process.value.kills)
    {
      restarted := [];
      if command.Some? && command.value.coin.Some? {
        restarted := SetupMiner(command.value.coin.value);
      }
    }

    /** The steps of a tick before its remote commands are acted on, in order. */
    method OpenTick()
      modifies this`trace
      ensures trace == old(trace) + TickOpening
    {
      trace := trace + [Step(Collect)];
      trace := trace + [Step(SendLogs)];
      trace := trace + [Step(CheckAlgorithms)];
      trace := trace + [Step(CheckRemote)];
    }

    /**
     * mainloop: collect, send logs, check algorithms, check remote commands,
     * watchdog, in that order. A failed fetch of the remote command raises
     * out of the tick, so the watchdog step does not run, and the LoopingCall
     * that called the tick stops running.
     */
    method Mainloop(fetched: Result<Option<Command>, string>)
      returns (r: Result<(), string>, ghost restarted: seq<MinerProcessProtocol>)
      requires Valid() && (fetched.Ok? && CommandedCoin(fetched.value).Some? ==> process.Some?)
      modifies this`currentCoin, this`process, this`procs, this`trace, this`pending, this`now, this`looping
      modifies if process.Some? then {process.value} else {}
      ensures Valid() && looping == (old(looping) && fetched.Ok?)
      ensures fetched.Err? ==>
        r == Err(fetched.error) && trace == old(trace) + TickOpening
        && currentCoin == old(currentCoin) && process == old(process) && procs == old(procs)
        && pending == old(pending) && now == old(now) && (process.Some? ==> unchanged(process.value))
      ensures fetched.Ok? && CommandedCoin(fetched.value).None? ==>
        r == Ok(()) && trace == old(trace) + TickOpening + [Step(Watchdog)]
        && currentCoin == old(currentCoin) && process == old(process) && procs == old(procs)
        && pending == old(pending) && now == old(now) && (process.Some? ==> unchanged(process.value))
      ensures fetched.Ok? && CommandedCoin(fetched.value).Some? ==>
        r == Ok(()) && currentCoin == CommandedCoin(fetched.value)
        && trace == old(trace) + TickOpening + old(StopActions())
                    + [SpawnOf(CommandedCoin(fetched.value).value)] + [Step(Watchdog)]
        && pending == (if old(Killable()) then [] else old(pending))
        && now == old(now) + (if old(Killable()) then RestartDelay else 0)
        && process.Some? && procs == old(procs) + restarted + [process.value] && |restarted| == old(Restarts())
        && (forall i :: 0 <= i < |restarted| ==> fresh(restarted[i]) && restarted[i].Running())
        && fresh(process.value) && process.value.Running()
      ensures fetched.Ok? && CommandedCoin(fetched.value).Some? && old(Killable()) ==>
        old(process).value.exited
        && old(process).value.onEnded == Fired(ProcessTerminated(KillSignal))
        && old(process).value.kills == old(process.value.kills) + 1
      ensures fetched.Ok? && CommandedCoin(fetched.value).Some? && !old(Killable()) ==>
        old(process).value.exited == old(process.value.exited)
        && old(process).value.onEnded == old(process.value.onEnded)
        && old(process).value.kills == old(process.value.kills)
    {
      restarted := [];
      OpenTick();
      if fetched.Err? {
        looping := false;
        return Err(fetched.error), restarted;
      }
      restarted := CheckRemoteCommands(fetched.value);
      trace := trace + [Step(Watchdog)];
      r := Ok(());
    }

    /**
     * start: load the configured miner (a missing one aborts with its error),
     * start it, and start the LoopingCall. A LoopingCall that already runs
     * refuses to start again, but only after the miner has been spawned.
     */
    method Start(catalogue: seq<Miner>) returns (r: Result<(), string>)
      requires Valid()
      modifies this`currentCoin, this`process, this`procs, this`trace, this`looping
      ensures Valid()
      ensures Lookup(catalogue, config.client).None? ==>
        r == Err(NoMinerConfigured) && currentCoin == old(currentCoin) && process == old(process)
        && procs == old(procs) && trace == old(trace) && looping == old(looping)
      ensures Lookup(catalogue, config.client).Some? ==>
        currentCoin == Lookup(catalogue, config.client) && looping
        && r == (if old(looping) then Err(LoopAlreadyRunning) else Ok(()))
        && trace == old(trace) + [SpawnOf(currentCoin.value)]
        && procs == old(procs) + [process.value]
        && process.Some? && fresh(process.value) && process.value.Running()
    {
      var loaded := LoadConfiguredMiner(catalogue);
      if loaded.Err? {
        return Err(loaded.error);
      }
      StartMiner();
      if looping {
        return Err(LoopAlreadyRunning);
      }
      looping := true;
      r := Ok(());
    }

    /**
     * stop: stop the LoopingCall, then stop the miner; a LoopingCall that is
     * not running refuses to stop and the miner is left alone. Like any other
     * end, the end this causes restarts the current coin before stop returns.
     */
    method Stop() returns (r: Result<(), string>, ghost restarted: seq<MinerProcessProtocol>)
      requires Valid()
      modifies this`looping, this`trace, this`pending, this`now, this`process, this`procs
      modifies if process.Some? then {process.value} else {}
      ensures Valid() && !looping
      ensures !old(looping) ==>
        r == Err(LoopNotRunning) && process == old(process) && procs == old(procs)
        && trace == old(trace) && pending == old(pending) && now == old(now)
        && (process.Some? ==> unchanged(process.value))
      ensures old(looping) ==>
        r == Ok(()) && old(process).Some?
        && trace == old(trace) + old(StopActions())
        && pending == (if old(Killable()) then [] else old(pending))
        && now == old(now) + (if old(Killable()) then RestartDelay else 0)
        && procs == old(procs) + restarted && |restarted| == old(Restarts())
        && (forall i :: 0 <= i < |restarted| ==> fresh(restarted[i]) && restarted[i].Running())
      ensures old(looping) && old(Killable()) ==>
        process == Some(restarted[|restarted| - 1])
        && old(process).value.exited
        && old(process).value.onEnded == Fired(ProcessTerminated(KillSignal))
        && old(process).value.kills == old(process.value.kills) + 1
      ensures old(looping) && !old(Killable()) ==>
        process == old(process) && old(process).value.exited == old(process.value.exited)
        && old(process).value.onEnded == old(process.value.onEnded)
        && old(process).value.kills == old(process.value.kills)
    {
      restarted := [];
      if !looping {
        return Err(LoopNotRunning), restarted;
      }
      looping := false;
      restarted := StopMiner();
      r := Ok(());
    }
  }

  /** A rig after `start` with a catalogue holding only the configured miner `first`. */
  method StartedRig(config: Config, first: Miner) returns (rig: Rig)
    requires first.name == config.client
    ensures fresh(rig) && rig.Valid() && rig.currentCoin == Some(first) && rig.looping
    ensures rig.process.Some? && fresh(rig.process.value) && rig.process.value.Running()
    ensures rig.procs == [rig.process.value] && rig.pending == [] && SpawnedCoins(rig.trace) == [first]
  {
    assert Lookup([first], config.client) == Some(first);
    rig := new Rig(config);
    var started := rig.Start([first]);
    assert rig.trace[..0] == [];
  }

  /**
   * A switch away from a running miner: the KILL of the first miner restarts
   * the first coin before setup_miner switches, so the spawn log reads first,
   * first, next, and the restarted first miner is still running beside the
   * new one when setup_miner returns.
   */
  method SwitchRestartsOldCoin(config: Config, first: Miner, next: Miner)
    returns (rig: Rig, restarted: MinerProcessProtocol, switched: MinerProcessProtocol, log: seq<Miner>)
    requires first.name == config.client
    ensures rig.Valid() && rig.currentCoin == Some(next) && rig.pending == []
    ensures |rig.procs| == 3 && rig.procs[1] == restarted && rig.procs[2] == switched && rig.process == Some(switched)
    ensures log == SpawnedCoins(rig.trace) && log == [first, first, next]
    ensures restarted != switched && restarted.Running() && switched.Running()
  {
    rig := StartedRig(config, first);
    assert rig.Restarts() == 1;
    ghost var restarts := rig.SetupMiner(next);
    restarted := rig.procs[1];
    switched := rig.procs[2];
    assert restarted == restarts[0] && switched == rig.process.value;
    log := SpawnedCoins(rig.trace);
    assert Repeat(first, 1) == [first];
  }

  /**
   * A failed fetch ends the LoopingCall: a later stop is refused and leaves
   * the running miner alone.
   */
  method FailedTickStopsLoop(config: Config, first: Miner, error: string)
    returns (stopped: Result<(), string>, miner: MinerProcessProtocol)
    requires first.name == config.client
    ensures stopped == Err(LoopNotRunning) && miner.Running()
  {
    var rig := StartedRig(config, first);
    miner := rig.process.value;
    var ticked;
    ghost var restartedByTick, restartedByStop;
    ticked, restartedByTick := rig.Mainloop(Err(error));
    stopped, restartedByStop := rig.Stop();
  }
}
