/** The agent's connection manager (CAgentConnectionManager): it creates the
    channel to the commander, sends the handshake once connected, stops every
    tracked channel on request, and decides for each watched user task whether
    its watchdog keeps running. */
module ConnectionManager {
  import opened Wrappers
  import opened Protocol
  import opened Commander

  /** One run of a user task's watchdog: whether it stays registered, and
      whether it waited on the child (which reaps a child that has exited). */
  datatype WatchdogStep = WatchdogStep(keep: bool, waited: bool)

  /** The watchdog of user task `pid`, given whether a process with that pid
      exists and what the non-blocking wait returns when it is called (the pid
      itself when the child has changed state and was reaped). */
  function Watchdog(pid: int, processExists: bool, waitResult: int): (s: WatchdogStep)
    ensures s.waited == processExists
    ensures !processExists ==> !s.keep
    ensures processExists && waitResult == pid ==> !s.keep
    ensures processExists && waitResult != pid ==> s.keep
  {
    if !processExists then WatchdogStep(false, false)
    else if waitResult == pid then WatchdogStep(false, true)
    else WatchdogStep(true, true)
  }

  /** The watchdog stays registered exactly while the task's process exists and
      has not been reaped. */
  lemma WatchdogKeepsExactlyLiveTasks(pid: int, processExists: bool, waitResult: int)
    ensures Watchdog(pid, processExists, waitResult).keep <==> processExists && waitResult != pid
  {
  }

  /** The successive decisions of a watchdog fed `observations`, one pair
      (process exists, wait result) per run, up to and including the first run
      that deregisters it: after that the watchdog is never run again. */
  function WatchdogRuns(pid: int, observations: seq<(bool, int)>): (runs: seq<WatchdogStep>)
    ensures |runs| <= |observations|
    ensures forall i :: 0 <= i < |runs| ==> runs[i] == Watchdog(pid, observations[i].0, observations[i].1)
    ensures forall i :: 0 <= i < |runs| - 1 ==> runs[i].keep
    ensures |runs| < |observations| ==> |runs| > 0 && !runs[|runs| - 1].keep
  {
    if observations == [] then []
    else
      var first := Watchdog(pid, observations[0].0, observations[0].1);
      if !first.keep then [first]
      else [first] + WatchdogRuns(pid, observations[1..])
  }

  /** A task seen alive and unreaped at its first `n` runs, and gone or reaped
      at the next, is watched for exactly `n + 1` runs, the last deregistering. */
  lemma WatchdogStopsAtFirstExit(pid: int, observations: seq<(bool, int)>, n: nat)
    requires n < |observations|
    requires forall i :: 0 <= i < n ==> observations[i].0 && observations[i].1 != pid
    requires !observations[n].0 || observations[n].1 == pid
    ensures |WatchdogRuns(pid, observations)| == n + 1
    ensures !WatchdogRuns(pid, observations)[n].keep
  {
  }

  class AgentConnectionManager {
    /** The channels this manager stops when it stops. */
    var agents: set<CommanderChannel>
    /** The I/O service has been stopped. */
    var serviceStopped: bool
    /** The user-task pids a watchdog has been registered for, oldest first. */
    var watchedTasks: seq<int>
    /** Messages logged at fatal severity, oldest first. */
    var fatalLog: seq<string>

    constructor ()
      ensures agents == {} && !serviceStopped && watchedTasks == [] && fatalLog == []
    {
      agents := {};
      serviceStopped := false;
      watchedTasks := [];
      fatalLog := [];
    }

    /** Stops the service and every tracked channel, then forgets them all. A
        second call finds no channel to stop: its frame is empty. */
    method Stop()
      modifies this`serviceStopped, this`agents, agents`stopped
      ensures serviceStopped && agents == {}
      ensures forall c :: c in old(agents) ==> c.stopped
    {
      serviceStopped := true;
      var rest := agents;
      while rest != {}
        invariant agents == old(agents) && serviceStopped
        invariant rest <= agents
        invariant forall c :: c in agents - rest ==> c.stopped
        decreases |rest|
      {
        var c :| c in rest;
        c.Stop();
        rest := rest - {c};
      }
      agents := {};
    }

    /** Stopping twice leaves the same state as stopping once. */
    method StopTwice()
      modifies this`serviceStopped, this`agents, agents`stopped
      ensures serviceStopped && agents == {}
      ensures forall c :: c in old(agents) ==> c.stopped
    {
      Stop();
      Stop();
    }

    /** The connect callback: once connected, the handshake is queued and then
        the channel starts reading; a failed connect is logged as fatal and
        touches nothing else. */
    method OnConnect(ch: CommanderChannel, connectError: Option<string>)
      modifies ch`outgoing, ch`started, this`fatalLog
      ensures connectError.None? ==>
        ch.outgoing == old(ch.outgoing) + [HandshakeAgent] && ch.started && fatalLog == old(fatalLog)
      ensures connectError.Some? ==>
        ch.outgoing == old(ch.outgoing) && ch.started == old(ch.started)
        && fatalLog == old(fatalLog) + ["Cannot connect to server: " + connectError.value]
    {
      if connectError.None? {
        ch.PushMsg(HandshakeAgent);
        ch.Start();
      } else {
        fatalLog := fatalLog + ["Cannot connect to server: " + connectError.value];
      }
    }

    /** Startup: `serverInfoFile` is where the server info file was found (empty
        when it was not); `resolveError` is what reading that file or resolving
        the commander's address throws, if it throws; `connectError` is how the
        connect attempt fails, if it fails. A failure before the channel exists
        is caught and logged as fatal. The new channel is not added to the
        tracked channels. */
    method Start(serverInfoFile: string, resolveError: Option<string>, connectError: Option<string>,
                 uuidFilePath: string, uuidFile: Option<string>)
      returns (channel: Option<CommanderChannel>)
      requires uuidFilePath == "" ==> uuidFile.None?
      modifies this`fatalLog
      ensures serverInfoFile == "" ==>
        channel == None && fatalLog == old(fatalLog) + ["Cannot find server info file."]
      ensures serverInfoFile != "" && resolveError.Some? ==>
        channel == None && fatalLog == old(fatalLog) + [resolveError.value]
      ensures serverInfoFile != "" && resolveError.None? ==> channel.Some? && fresh(channel.value)
      ensures channel.Some? ==>
        var ch := channel.value;
        ch.Valid() && ch.onNewUserTaskRegistered && !ch.isHandShakeOK
        && (connectError.None? ==> ch.outgoing == [HandshakeAgent] && ch.started && fatalLog == old(fatalLog))
        && (connectError.Some? ==>
              ch.outgoing == [] && !ch.started
              && fatalLog == old(fatalLog) + ["Cannot connect to server: " + connectError.value])
    {
      if serverInfoFile == "" {
        fatalLog := fatalLog + ["Cannot find server info file."];
        return None;
      }
      if resolveError.Some? {
        fatalLog := fatalLog + [resolveError.value];
        return None;
      }
      var ch := new CommanderChannel(uuidFilePath, uuidFile);
      ch.RegisterOnNewUserTaskCallback();
      OnConnect(ch, connectError);
      channel := Some(ch);
    }

    /** A user task has started: register a watchdog for its pid. */
    method OnNewUserTask(pid: int)
      modifies this`watchedTasks
      ensures watchedTasks == old(watchedTasks) + [pid]
    {
      watchedTasks := watchedTasks + [pid];
    }
  }
}
