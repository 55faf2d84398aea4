# DDS agent: command channel and connection manager

This project models the agent side of DDS, the distributed deployment system.
The agent runs on each worker node and connects to the central commander. It
answers the commander's commands over one channel, and it supervises the user
task it starts.

The model covers two parts:

- `CCommanderChannel`: the class that handles each incoming command. Its
  handlers update the channel's own fields (handshake flag, identity, assigned
  user task, header-read time). They also maintain the identity file on disk,
  and each queues at most one reply.
- `CAgentConnectionManager`: three pieces of it.
  - the watchdog decision for a running user task;
  - stopping every tracked channel;
  - the startup path up to the connect callback, which queues the handshake
    and then starts the channel.

The files and their modules:

- `wrappers.dfy`, module `Wrappers`: `Option`, and `Try` for steps that
  throw a C++ exception.
- `checksum.dfy`, module `Checksum`: the CRC-32 of `boost::crc_32_type`.
  - It is defined bit by bit as in section 8 of RFC 1952.
  - It is proved to detect any change confined to one byte.
  - It is proved to give the standard check value 0xCBF43926 for "123456789".
- `uuid.dfy`, module `Uuid`: the 16-byte identity and its 8-4-4-4-12 text
  form, as the boost stream operators write and read it. Reading back what was
  written gives the same identity.
- `protocol.dfy`, module `Protocol`: command identifiers, message bodies,
  outgoing messages, and the decimal printing used in error texts.
- `commander.dfy`, module `Commander`: class `CommanderChannel`, with one
  method per handler.
  - The identity file is the field `uuidFile`: its text content, `None` when
    the file does not exist.
  - Outgoing messages are the sequence `outgoing`.
  - Stopping and `exit()` are the fields `stopped` and `exitStatus`.
  - Every effect a handler depends on is a parameter: the clock, the host,
    the file system, `do_execv` and `smart_path`.
  - The multi-step handlers (GET_LOG, DOWNLOAD_TEST) are each tied to a
    specification function of those parameters (`LogReply`,
    `DownloadTestReply`).
- `connection_manager.dfy`, module `ConnectionManager`: the watchdog function
  and class `AgentConnectionManager`.
- `scenarios.dfy`, module `Scenarios`: command sequences across a restart of
  the agent. A restart is modelled as a new channel over the identity file the
  old one left behind.

Two facts of the code shape the connection manager's part of the model:

- `start()` registers a new-user-task callback on the channel
  (`AgentConnectionManager.cpp`, lines 92-95). Nothing in
  `CommanderChannel.cpp` ever calls it, ACTIVATE_AGENT included. So
  `OnActivateAgent` reports only failures and starts no watchdog, and
  `OnNewUserTask` is reached only when called directly.
- `start()` never inserts the channel it creates into `m_agents`. So `Start`
  leaves `agents` unchanged, and `Stop` stops only channels added some other
  way.

## Model

| member | source | states |
|---|---|---|
| Commander.CommanderChannel.constructor | dds-agent/src/CommanderChannel.cpp:26-30 | a new channel has the handshake flag down, no assigned task, header time at the clock's epoch, an empty queue, and is neither started, stopped nor exited; the identity is left indeterminate |
| Commander.CommanderChannel.OnHeaderRead | dds-agent/src/CommanderChannel.cpp:32-35 | the header-read time becomes the current clock reading |
| Commander.CommanderChannel.OnReplyHandshakeOk | dds-agent/src/CommanderChannel.cpp:37-42 | the handshake flag becomes true, the handler returns true, and nothing else changes (its frame is the flag only, so nothing is queued) |
| Commander.CommanderChannel.OnSimpleMsg | dds-agent/src/CommanderChannel.cpp:44-47 | returns true and changes no state |
| Commander.CommanderChannel.OnGetHostInfo | dds-agent/src/CommanderChannel.cpp:49-67 | queues exactly one REPLY_HOST_INFO carrying the user, host, version, DDS path and pid, with port 0 and time stamp 0 |
| Commander.CommanderChannel.OnDisconnect | dds-agent/src/CommanderChannel.cpp:69-75 | stops the channel; the identity file and the queue are untouched |
| Commander.CommanderChannel.OnShutdown | dds-agent/src/CommanderChannel.cpp:77-85 | stops the channel, leaves no identity file, and exits with status 0 |
| Commander.CommanderChannel.OnBinaryAttachment | dds-agent/src/CommanderChannel.cpp:87-115 | queues exactly one BINARY_DOWNLOAD_STAT whose checksum is the CRC-32 of the bytes received, whatever checksum the sender stated, whose size is their count, and whose time is the microseconds since the header was read |
| Commander.CommanderChannel.OnGetUuid | dds-agent/src/CommanderChannel.cpp:117-139 | without an identity file: identity becomes nil and REPLY_UUID(nil) is queued; with one that opens: the identity read from it is replied; with one that does not open: the open error propagates, nothing is queued and the identity is unchanged |
| Commander.CommanderChannel.OnSetUuid | dds-agent/src/CommanderChannel.cpp:141-153 | the identity becomes the received one and its text is written to the file; if the file cannot be opened the error propagates after the identity was adopted and the file is unchanged |
| Commander.CommanderChannel.OnGetLog | dds-agent/src/CommanderChannel.cpp:155-241 | queues exactly one reply, the one `LogReply` gives for what each step observes |
| Commander.LogReply | dds-agent/src/CommanderChannel.cpp:155-241 | the reply is BINARY_ATTACHMENT_LOG exactly when every step succeeds, and GET_LOG_ERROR otherwise; the attachment carries the archive bytes, their CRC-32, their count and the name `<timestamp>_<host>_<id>.tar.gz`; a directory that cannot be created gives "Could not create directory: " and its path |
| Commander.CopyLogFiles | dds-agent/src/CommanderChannel.cpp:184-191 | copies the log files in order into `<archive dir>/<file name>`; every file listed as copied copied without error; it stops at the first file that throws and returns that file's error; with no error every file was copied |
| Commander.FirstCopyErrorIsFirst | dds-agent/src/CommanderChannel.cpp:187-191 | the copy error is absent exactly when every file copies, and otherwise is the error of the earliest file that does not |
| Commander.BaseNameHasNoSeparator | dds-agent/src/CommanderChannel.cpp:189 | the name a log file is copied under holds no path separator |
| Commander.BaseNameIsSuffix | dds-agent/src/CommanderChannel.cpp:189 | that name is the end of the file's path, preceded by a separator unless it is the whole path |
| Commander.CommanderChannel.SendGetLogError | dds-agent/src/CommanderChannel.cpp:243-250 | queues exactly one GET_LOG_ERROR with the given text |
| Commander.CommanderChannel.OnDownloadTest | dds-agent/src/CommanderChannel.cpp:252-289 | queues exactly one reply, the one `DownloadTestReply` gives |
| Commander.DownloadTestReply | dds-agent/src/CommanderChannel.cpp:257-286 | the reply is DOWNLOAD_TEST_STAT exactly when the CRC-32 of the bytes received equals the stated one (then with that checksum, the byte count and the download time), and otherwise DOWNLOAD_TEST_ERROR naming the computed and the stated checksum, the size and the file name |
| Commander.IntactDownloadTestPasses | dds-agent/src/CommanderChannel.cpp:257-275 | bytes that arrive as they were sent, with their checksum, pass the test |
| Commander.CorruptedDownloadTestFails | dds-agent/src/CommanderChannel.cpp:257-286 | bytes with one byte changed in transit fail the test |
| Commander.Microseconds | dds-agent/src/CommanderChannel.cpp:93 | the nanosecond difference is converted to microseconds truncating toward zero, for both signs |
| Commander.CommanderChannel.ReadAgentUuidFile | dds-agent/src/CommanderChannel.cpp:291-303 | a file that does not open gives the error "Could not open an agent UUID file: " and the path, and leaves the identity unchanged; one that opens sets the identity to the UUID its text starts with, and leaves it unchanged when the text does not start with one |
| Commander.ReadBackWritten | dds-agent/src/CommanderChannel.cpp:302-317 | an identity file holding the text `CreateAgentUuidFile` wrote reads back as the identity written, whatever the identity held before and whatever follows that text |
| Commander.CommanderChannel.CreateAgentUuidFile | dds-agent/src/CommanderChannel.cpp:305-318 | a file that opens now holds exactly the identity's text; otherwise the open error is returned and the file is unchanged |
| Commander.CommanderChannel.DeleteAgentUuidFile | dds-agent/src/CommanderChannel.cpp:320-328 | afterwards no identity file exists; with no configured path nothing changes |
| Commander.CommanderChannel.OnRemoteEndDisconnected | dds-agent/src/CommanderChannel.cpp:330-336 | like SHUTDOWN: stops the channel, leaves no identity file, exits with status 0 |
| Commander.CommanderChannel.OnAssignUserTask | dds-agent/src/CommanderChannel.cpp:338-347 | records the task path, returns true, and queues nothing |
| Commander.CommanderChannel.OnActivateAgent | dds-agent/src/CommanderChannel.cpp:349-376 | runs the path-expanded recorded task without changing the recorded path; queues nothing on success, and on failure exactly one error-severity SIMPLE_MSG with the error text and ACTIVATE_AGENT as its source command |
| Checksum.CorruptedByteDetected | dds-agent/src/CommanderChannel.cpp:95-99 | any change confined to one byte changes the CRC-32 the receiver computes |
| Checksum.CheckValue | dds-agent/src/CommanderChannel.cpp:96-97 | the checksum is the standard CRC-32: "123456789" gives 0xCBF43926 |
| Checksum.HelloChecksum | dds-agent/src/CommanderChannel.cpp:96-97 | "hello" gives 0x3610A686 |
| Uuid.ToText | dds-agent/src/CommanderChannel.cpp:317 | the identity is written as 36 characters with dashes at positions 8, 13, 18 and 23 |
| Uuid.ParseToText | dds-agent/src/CommanderChannel.cpp:302-317 | an identity written to the file reads back as the same identity, whatever follows it |
| Protocol.Decimal | dds-agent/src/CommanderChannel.cpp:279-280 | numbers in the checksum error text are non-empty digit strings without leading zeros |
| Protocol.DecimalRoundTrip | dds-agent/src/CommanderChannel.cpp:279-280 | each printed number reads back as the number printed |
| ConnectionManager.Watchdog | dds-agent/src/AgentConnectionManager.cpp:147-171 | a task whose process is gone deregisters without a wait; one that the wait reaps deregisters; one that exists and is not reaped stays registered; the wait is called exactly when the process exists |
| ConnectionManager.WatchdogKeepsExactlyLiveTasks | dds-agent/src/AgentConnectionManager.cpp:149-170 | the watchdog stays registered exactly when the process exists and was not reaped |
| ConnectionManager.WatchdogRuns | dds-agent/src/AgentConnectionManager.cpp:147-171 | the successive runs of one watchdog all keep it except possibly the last, and runs stop only at a run that deregisters |
| ConnectionManager.WatchdogStopsAtFirstExit | dds-agent/src/AgentConnectionManager.cpp:149-168 | a task seen alive for n runs and gone or reaped at the next is watched for exactly n + 1 runs, the last one deregistering |
| ConnectionManager.AgentConnectionManager.constructor | dds-agent/src/AgentConnectionManager.cpp:26-31 | a new manager tracks no channel and has no watched task |
| ConnectionManager.AgentConnectionManager.Stop | dds-agent/src/AgentConnectionManager.cpp:125-140 | stops the service and every tracked channel, then tracks none |
| ConnectionManager.AgentConnectionManager.StopTwice | dds-agent/src/AgentConnectionManager.cpp:125-140 | a second stop changes nothing further: the outcome is that of one stop |
| ConnectionManager.AgentConnectionManager.OnConnect | dds-agent/src/AgentConnectionManager.cpp:99-115 | on success HANDSHAKE_AGENT is queued and the channel starts; on failure "Cannot connect to server: " and the error are logged as fatal, nothing is queued, and the channel is not started |
| ConnectionManager.AgentConnectionManager.Start | dds-agent/src/AgentConnectionManager.cpp:59-123 | an empty server-info location logs "Cannot find server info file." as fatal and creates no channel; a read or resolve error is logged and creates none; otherwise the new channel has the task callback registered, and after a successful connect its only queued message is the handshake; the tracked set is unchanged |
| ConnectionManager.AgentConnectionManager.OnNewUserTask | dds-agent/src/AgentConnectionManager.cpp:142-147 | registers a watchdog for the task's pid |
| Scenarios.IdentitySurvivesRestart | dds-agent/src/CommanderChannel.cpp:117-153 | after SET_UUID of u and a restart, GET_UUID replies u |
| Scenarios.IdentityForgottenAfterShutdown | dds-agent/src/CommanderChannel.cpp:77-139 | after SHUTDOWN and a restart, GET_UUID replies the nil identity |
| Scenarios.IdentityKeptAfterDisconnect | dds-agent/src/CommanderChannel.cpp:69-153 | after SET_UUID of u, DISCONNECT and a restart, GET_UUID still replies u |
| Scenarios.HelloAttachmentReply | dds-agent/src/CommanderChannel.cpp:87-115 | "hello" sent with a claimed checksum of 0 is answered with 0x3610A686, size 5 and the elapsed time |
| Scenarios.HelloDownloadTestReply | dds-agent/src/CommanderChannel.cpp:252-289 | the same bytes as a download test draw the error naming 0x3610A686 and 0 |
| Scenarios.AssignThenActivate | dds-agent/src/CommanderChannel.cpp:338-376 | ACTIVATE_AGENT runs the task ASSIGN_USER_TASK recorded and reports only a failure |

## Left out

- The wire format. Messages are decoded values, and the command dispatch table and message framing are not modelled.
- Asynchronous I/O: the I/O service's run and stop, the resolver, the asynchronous connect, the INI parsing of the server-info file, and the signal set with its wait. Signals reach the model only through `Stop`.
- The monitoring thread. Its ticker, idle callback and registry are not modelled. `OnNewUserTask` records the pid, and `WatchdogRuns` states what the registry does with the predicate's answers.
- Clocks, `getpid`, `get_hostname`, the user name, `CUserDefaults`, `CFindCfgFile`, `smart_path` and `do_execv`. These are parameters holding what the handler observes of them.
- Logging. The exception is fatal-severity entries of the connection manager, which are the only trace its failure paths leave.
- The files GET_LOG creates: the archive directory, the copies and the archive. Only the outcome of each step is modelled, so the model does not say that a failed GET_LOG leaves the directory or the archive behind.
- Process exit. `exit()` is modelled as recording the exit status. The model does not prevent later calls.
- Commander.CommanderChannel.DeleteAgentUuidFile: assumes `unlink` succeeds. The code ignores its result, so a file that cannot be removed stays behind in reality but not in the model.
- Uuid.Parse: does not accept whitespace before or between the digits. boost's stream extraction skips such whitespace, so the model accepts fewer file contents than the code does.
- Protocol.BinaryAttachment: sizes are unbounded naturals, not 32- or 64-bit fields. The simple-message bodies of DOWNLOAD_TEST_ERROR and GET_LOG_ERROR keep only their text, not their default severity and source command.
- Checksum.Crc32: an empty attachment is given the checksum of no bytes. The code takes the address of element 0 of the empty vector, which C++ leaves undefined.
- `registerOnNewUserTaskCallback` and the connection base class (`pushMsg`, `start`, `stop`) are declared outside the two files modelled here. They appear as the plain state changes `PushMsg`, `Start`, `Stop` and `RegisterOnNewUserTaskCallback`.
- `dds-submit/src/Options.h` (command-line option plumbing) is not part of this model.
