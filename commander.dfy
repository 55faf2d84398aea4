/** The agent's command handlers (CCommanderChannel): each handler reads one
    decoded command, updates the channel's own state and the identity file, and
    queues at most one reply. Clocks, the host, the file system and child
    processes enter as parameters holding what the handler observes of them. */
module Commander {
  import opened Wrappers
  import opened Uuid
  import opened Checksum
  import opened Protocol

  /** How a handler ends: it returns a value (every handler here returns true),
      an exception escapes it, or it ends the process through exit(). */
  datatype Outcome = Returned(value: bool) | Raised(what: string) | Exited(status: int)

  const EXIT_SUCCESS: int := 0

  /** What GET_HOST_INFO learns about the agent's process and host. */
  datatype HostEnv = HostEnv(userName: string, hostName: string, version: string, ddsPath: string, pid: int)

  /** The message of the exception thrown when the identity file cannot be opened. */
  function OpenErrorText(path: string): string {
    "Could not open an agent UUID file: " + path
  }

  /** The identity after reading the file text `text` into an identity that held
      `previous`: the stream extraction stores a UUID only when it parses one. */
  function IdAfterRead(text: string, previous: Uuid): (u: Uuid)
    ensures Parse(text).Some? ==> u == Parse(text).value
    ensures Parse(text).None? ==> u == previous
  {
    match Parse(text)
    case Some(v) => v
    case None => previous
  }

  /** An identity file holding what CreateAgentUuidFile wrote reads back as the
      identity written, whatever the identity held before and whatever follows
      the text in the file. */
  lemma ReadBackWritten(u: Uuid, rest: string, previous: Uuid)
    ensures IdAfterRead(ToText(u) + rest, previous) == u
  {
    ParseToText(u, rest);
  }

  /** duration_cast to microseconds of a nanosecond clock difference: the
      quotient by 1000 truncated toward zero. */
  function Microseconds(ns: int): (us: int)
    ensures ns >= 0 ==> 0 <= 1000 * us <= ns < 1000 * us + 1000
    ensures ns < 0 ==> ns <= 1000 * us <= 0 && 1000 * us < ns + 1000
  {
    if ns >= 0 then ns / 1000 else -((-ns) / 1000)
  }

  /** The text of a DOWNLOAD_TEST_ERROR reply. */
  function WrongChecksumText(received: bv32, expected: bv32, size: nat, name: string): string {
    "Received binary has wrong checksum: " + Decimal(received as int) + " instead of "
      + Decimal(expected as int) + " | size: " + Decimal(size) + " name: " + name
  }

  /** The one reply DOWNLOAD_TEST queues for attachment `att`, received in
      `downloadTime` microseconds. */
  function DownloadTestReply(att: BinaryAttachment, downloadTime: int): (m: Msg)
    ensures m.DownloadTestStat? || m.DownloadTestError?
    ensures m.DownloadTestStat? <==> Crc32(att.fileData) == att.crc32
    ensures m.DownloadTestStat? ==> m.stat == DownloadStat(att.crc32, |att.fileData|, downloadTime)
    ensures m.DownloadTestError? ==>
      m.text == WrongChecksumText(Crc32(att.fileData), att.crc32, |att.fileData|, att.fileName)
  {
    var crc := Crc32(att.fileData);
    if crc == att.crc32 then DownloadTestStat(DownloadStat(crc, |att.fileData|, downloadTime))
    else DownloadTestError(WrongChecksumText(crc, att.crc32, |att.fileData|, att.fileName))
  }

  /** An attachment that arrives as it was sent passes the download test. */
  lemma IntactDownloadTestPasses(data: seq<bv8>, name: string, downloadTime: int)
    ensures DownloadTestReply(BinaryAttachment(data, Crc32(data), name, |data|), downloadTime)
         == DownloadTestStat(DownloadStat(Crc32(data), |data|, downloadTime))
  {
  }

  /** An attachment with one byte changed in transit fails the download test. */
  lemma CorruptedDownloadTestFails(sent: seq<bv8>, k: nat, v: bv8, name: string, downloadTime: int)
    requires k < |sent| && v != sent[k]
    ensures DownloadTestReply(BinaryAttachment(sent[k := v], Crc32(sent), name, |sent|), downloadTime).DownloadTestError?
  {
    CorruptedByteDetected(sent, k, v);
  }

  // ---------------------------------------------------------------------------
  // GET_LOG

  /** What GET_LOG observes of its environment, step by step: the names it
      builds the archive from, then the result of each file-system or process
      step (`Throw` when that step throws). */
  datatype LogEnv = LogEnv(
    logDir: string,                  // the DDS directory the logs live in
    hostName: string,
    timeStamp: string,               // the local time as "%Y-%m-%d-%H-%M-%S"
    dirExists: Try<bool>,            // does the archive directory exist already
    dirCreated: Try<bool>,           // creating it
    logFiles: Try<seq<string>>,      // the *.log files of the log directory
    copyErrors: map<string, string>, // for a log file that cannot be copied, what copying it throws
    tarError: Option<string>,        // what running tar throws, if it throws
    archive: Option<seq<bv8>>,       // the archive's bytes; None when it cannot be opened
    cleanupError: Option<string>)    // what removing the archive and directory throws, if it throws

  /** `<timestamp>_<hostname>_<id>`: the stem of the archive and of its directory. */
  function ArchiveName(env: LogEnv, id: Uuid): string {
    env.timeStamp + "_" + env.hostName + "_" + ToText(id)
  }

  /** The last component of a path, as boost::filesystem's filename() gives it
      for a path that does not end in a separator. */
  function BaseName(path: string): string
  {
    if path == [] || path[|path| - 1] == '/' then []
    else BaseName(path[..|path| - 1]) + [path[|path| - 1]]
  }

  /** BaseName holds no separator. */
  lemma {:induction false} BaseNameHasNoSeparator(path: string)
    ensures '/' !in BaseName(path)
  {
    if path != [] && path[|path| - 1] != '/' {
      BaseNameHasNoSeparator(path[..|path| - 1]);
    }
  }

  /** BaseName is a suffix of the path, preceded in it by a separator unless it
      is the whole path. */
  lemma {:induction false} BaseNameIsSuffix(path: string)
    ensures var name := BaseName(path);
      |name| <= |path| && name == path[|path| - |name|..]
      && (|name| < |path| ==> path[|path| - |name| - 1] == '/')
  {
    if path != [] && path[|path| - 1] != '/' {
      var init, last := path[..|path| - 1], path[|path| - 1];
      BaseNameIsSuffix(init);
      var name := BaseName(init);
      assert BaseName(path) == name + [last];
      assert path == init + [last];
      SuffixSnoc(init, last, |init| - |name|);
    }
  }

  /** Appending a character to a text extends each of its suffixes by it. */
  lemma SuffixSnoc(init: string, last: char, start: nat)
    requires start <= |init|
    ensures (init + [last])[start..] == init[start..] + [last]
    ensures start > 0 ==> (init + [last])[start - 1] == init[start - 1]
  {
  }

  /** The error thrown by the first log file that cannot be copied, if any. */
  function FirstCopyError(files: seq<string>, copyErrors: map<string, string>): (e: Option<string>)
  {
    if files == [] then None
    else if files[0] in copyErrors then Some(copyErrors[files[0]])
    else FirstCopyError(files[1..], copyErrors)
  }

  /** FirstCopyError is None exactly when every file copies, and otherwise the
      error of the earliest file that does not. */
  lemma {:induction false} FirstCopyErrorIsFirst(files: seq<string>, copyErrors: map<string, string>)
    ensures FirstCopyError(files, copyErrors).None? <==> forall j :: 0 <= j < |files| ==> files[j] !in copyErrors
    ensures FirstCopyError(files, copyErrors).Some? ==>
      exists k :: 0 <= k < |files| && files[k] in copyErrors
        && FirstCopyError(files, copyErrors).value == copyErrors[files[k]]
        && forall j :: 0 <= j < k ==> files[j] !in copyErrors
  {
    if files != [] && files[0] !in copyErrors {
      FirstCopyErrorIsFirst(files[1..], copyErrors);
      assert forall j :: 1 <= j < |files| ==> files[j] == files[1..][j - 1];
      if FirstCopyError(files, copyErrors).Some? {
        var k :| 0 <= k < |files[1..]| && files[1..][k] in copyErrors
          && FirstCopyError(files[1..], copyErrors).value == copyErrors[files[1..][k]]
          && forall j :: 0 <= j < k ==> files[1..][j] !in copyErrors;
        assert files[k + 1] == files[1..][k];
      }
    } else if files != [] {
      assert files[0] in copyErrors;
    }
  }

  /** Every step of GET_LOG succeeds. */
  predicate LogBundled(env: LogEnv) {
    && env.dirExists.Ok?
    && (env.dirExists.value || env.dirCreated == Ok(true))
    && env.logFiles.Ok?
    && (forall f :: f in env.logFiles.value ==> f !in env.copyErrors)
    && env.tarError.None?
    && env.archive.Some?
    && env.cleanupError.None?
  }

  /** The one reply GET_LOG queues when the identity is `id`. */
  function LogReply(env: LogEnv, id: Uuid): (m: Msg)
    ensures m.GetLogError? || m.BinaryAttachmentLog?
    ensures m.BinaryAttachmentLog? <==> LogBundled(env)
    ensures m.BinaryAttachmentLog? ==>
      var data := env.archive.value;
      m.attachment == BinaryAttachment(data, Crc32(data), ArchiveName(env, id) + ".tar.gz", |data|)
    ensures env.dirExists == Ok(false) && env.dirCreated == Ok(false) ==>
      m == GetLogError("Could not create directory: " + env.logDir + ArchiveName(env, id))
  {
    var archiveName := ArchiveName(env, id);
    var archiveDir := env.logDir + archiveName;
    if env.dirExists.Throw? then GetLogError(env.dirExists.what)
    else if !env.dirExists.value && env.dirCreated.Throw? then GetLogError(env.dirCreated.what)
    else if !env.dirExists.value && !env.dirCreated.value then GetLogError("Could not create directory: " + archiveDir)
    else if env.logFiles.Throw? then GetLogError(env.logFiles.what)
    else
      var copyError := FirstCopyError(env.logFiles.value, env.copyErrors);
      FirstCopyErrorIsFirst(env.logFiles.value, env.copyErrors);
      if copyError.Some? then GetLogError(copyError.value)
      else if env.tarError.Some? then GetLogError(env.tarError.value)
      else if env.archive.None? then GetLogError("Could not open archive with log files: " + archiveDir + ".tar.gz")
      else if env.cleanupError.Some? then GetLogError(env.cleanupError.value)
      else
        var data := env.archive.value;
        BinaryAttachmentLog(BinaryAttachment(data, Crc32(data), archiveName + ".tar.gz", |data|))
  }

  /** Where a log file is copied to inside the archive directory. */
  function Destination(archiveDir: string, file: string): string
  {
    archiveDir + "/" + BaseName(file)
  }

  /** Copies the log files one by one into `archiveDir`, stopping at the first
      that throws. Returns the destinations written and the error, if any. */
  method CopyLogFiles(files: seq<string>, archiveDir: string, copyErrors: map<string, string>)
    returns (copied: seq<string>, error: Option<string>)
    ensures error == FirstCopyError(files, copyErrors)
    ensures |copied| <= |files| && (error.None? ==> |copied| == |files|)
    ensures forall j :: 0 <= j < |copied| ==> copied[j] == Destination(archiveDir, files[j])
    ensures forall j :: 0 <= j < |copied| ==> files[j] !in copyErrors
    ensures error.Some? ==>
      |copied| < |files| && files[|copied|] in copyErrors && error.value == copyErrors[files[|copied|]]
  {
    copied := [];
    var i := 0;
    while i < |files|
      invariant i <= |files| && |copied| == i
      invariant forall j :: 0 <= j < i ==> copied[j] == Destination(archiveDir, files[j])
      invariant forall j :: 0 <= j < i ==> files[j] !in copyErrors
      invariant FirstCopyError(files, copyErrors) == FirstCopyError(files[i..], copyErrors)
    {
      if files[i] in copyErrors {
        return copied, Some(copyErrors[files[i]]);
      }
      assert files[i..][1..] == files[i + 1..];
      copied := copied + [Destination(archiveDir, files[i])];
      i := i + 1;
    }
    assert files[i..] == [];
    error := None;
  }

  // ---------------------------------------------------------------------------
  // The channel

  class CommanderChannel {
    /** Set once the commander has confirmed the handshake. */
    var isHandShakeOK: bool
    /** The agent's identity. */
    var id: Uuid
    /** The user task assigned for later activation. */
    var usrExe: string
    /** When the last header finished reading, in nanoseconds of the steady clock. */
    var headerReadTime: int
    /** Where the identity file lives (empty when none is configured). */
    const uuidFilePath: string
    /** The identity file's content; None while it does not exist. */
    var uuidFile: Option<string>
    /** Messages queued for sending, oldest first. */
    var outgoing: seq<Msg>
    /** The connection has started reading. */
    var started: bool
    /** The connection has been stopped. */
    var stopped: bool
    /** The status the process exited with, once it has. */
    var exitStatus: Option<int>
    /** A callback for newly started user tasks is registered. */
    var onNewUserTaskRegistered: bool

    /** No identity file exists where no path is configured. */
    predicate Valid()
      reads this
    {
      uuidFilePath == "" ==> uuidFile.None?
    }

    constructor (uuidFilePath: string, uuidFile: Option<string>)
      requires uuidFilePath == "" ==> uuidFile.None?
      ensures Valid()
      ensures !isHandShakeOK && usrExe == "" && headerReadTime == 0
      ensures this.uuidFilePath == uuidFilePath && this.uuidFile == uuidFile
      ensures outgoing == [] && !started && !stopped && exitStatus == None
      ensures !onNewUserTaskRegistered
    {
      isHandShakeOK := false;
      id := *;
      usrExe := "";
      headerReadTime := 0;
      this.uuidFilePath := uuidFilePath;
      this.uuidFile := uuidFile;
      outgoing := [];
      started, stopped := false, false;
      exitStatus := None;
      onNewUserTaskRegistered := false;
    }

    // Operations of the underlying connection.

    /** Queues a message for sending. */
    method PushMsg(m: Msg)
      modifies this`outgoing
      ensures outgoing == old(outgoing) + [m]
    {
      outgoing := outgoing + [m];
    }

    /** Starts reading from the connection. */
    method Start()
      modifies this`started
      ensures started
    {
      started := true;
    }

    /** Stops the connection; stopping twice is the same as stopping once. */
    method Stop()
      modifies this`stopped
      ensures stopped
    {
      stopped := true;
    }

    method RegisterOnNewUserTaskCallback()
      modifies this`onNewUserTaskRegistered
      ensures onNewUserTaskRegistered
    {
      onNewUserTaskRegistered := true;
    }

    // The identity file.

    /** Reads the identity from the file; `canOpen` is whether the file opens.
        A file that does not open (in particular one that does not exist) throws. */
    method ReadAgentUuidFile(canOpen: bool) returns (error: Option<string>)
      modifies this`id
      ensures uuidFile.None? || !canOpen ==> error == Some(OpenErrorText(uuidFilePath)) && id == old(id)
      ensures uuidFile.Some? && canOpen ==> error == None && id == IdAfterRead(uuidFile.value, old(id))
    {
      if uuidFile.None? || !canOpen {
        return Some(OpenErrorText(uuidFilePath));
      }
      id := IdAfterRead(uuidFile.value, id);
      error := None;
    }

    /** Writes the identity's text form to the file, replacing its content;
        `canOpen` is whether the file opens for writing (an empty path never does). */
    method CreateAgentUuidFile(canOpen: bool) returns (error: Option<string>)
      requires Valid()
      modifies this`uuidFile
      ensures Valid()
      ensures canOpen && uuidFilePath != "" ==> error == None && uuidFile == Some(ToText(id))
      ensures !canOpen || uuidFilePath == "" ==>
        error == Some(OpenErrorText(uuidFilePath)) && uuidFile == old(uuidFile)
    {
      if !canOpen || uuidFilePath == "" {
        return Some(OpenErrorText(uuidFilePath));
      }
      uuidFile := Some(ToText(id));
      error := None;
    }

    /** Removes the identity file; does nothing when no path is configured. */
    method DeleteAgentUuidFile()
      requires Valid()
      modifies this`uuidFile
      ensures Valid() && uuidFile == None
      ensures uuidFilePath == "" ==> uuidFile == old(uuidFile)
    {
      if uuidFilePath == "" {
        return;
      }
      uuidFile := None;
    }

    // Handlers.

    method OnHeaderRead(now: int)
      modifies this`headerReadTime
      ensures headerReadTime == now
    {
      headerReadTime := now;
    }

    method OnReplyHandshakeOk() returns (r: Outcome)
      modifies this`isHandShakeOK
      ensures isHandShakeOK && r == Returned(true)
    {
      isHandShakeOK := true;
      r := Returned(true);
    }

    /** A simple message from the commander changes nothing. */
    method OnSimpleMsg(text: string) returns (r: Outcome)
      ensures r == Returned(true)
    {
      r := Returned(true);
    }

    method OnGetHostInfo(env: HostEnv) returns (r: Outcome)
      modifies this`outgoing
      ensures r == Returned(true)
      ensures outgoing == old(outgoing)
        + [ReplyHostInfo(HostInfo(env.userName, env.hostName, env.version, env.ddsPath, 0, env.pid, 0))]
    {
      PushMsg(ReplyHostInfo(HostInfo(env.userName, env.hostName, env.version, env.ddsPath, 0, env.pid, 0)));
      r := Returned(true);
    }

    /** DISCONNECT stops the connection and leaves the identity file alone. */
    method OnDisconnect() returns (r: Outcome)
      modifies this`stopped
      ensures stopped && r == Returned(true)
    {
      Stop();
      r := Returned(true);
    }

    /** SHUTDOWN stops the connection, deletes the identity file and exits. */
    method OnShutdown() returns (r: Outcome)
      requires Valid()
      modifies this`stopped, this`uuidFile, this`exitStatus
      ensures Valid() && uuidFile == None
      ensures stopped && exitStatus == Some(EXIT_SUCCESS) && r == Exited(EXIT_SUCCESS)
    {
      Stop();
      DeleteAgentUuidFile();
      exitStatus := Some(EXIT_SUCCESS);
      r := Exited(EXIT_SUCCESS);
    }

    /** BINARY_ATTACHMENT replies with the CRC-32 and size of the bytes that
        arrived, whatever checksum the sender stated, and with the time since the
        header was read. */
    method OnBinaryAttachment(att: BinaryAttachment, now: int) returns (r: Outcome)
      modifies this`outgoing
      ensures r == Returned(true)
      ensures outgoing == old(outgoing)
        + [BinaryDownloadStat(DownloadStat(Crc32(att.fileData), |att.fileData|, Microseconds(now - headerReadTime)))]
    {
      var downloadTime := Microseconds(now - headerReadTime);
      var crc := Crc32(att.fileData);
      PushMsg(BinaryDownloadStat(DownloadStat(crc, |att.fileData|, downloadTime)));
      r := Returned(true);
    }

    /** GET_UUID replies with the identity read from the file, or with the nil
        identity when there is no file; a file that does not open throws and
        nothing is queued. */
    method OnGetUuid(canOpen: bool) returns (r: Outcome)
      modifies this`id, this`outgoing
      ensures uuidFile.None? ==> r == Returned(true) && id == Nil && outgoing == old(outgoing) + [ReplyUuid(Nil)]
      ensures uuidFile.Some? && !canOpen ==>
        r == Raised(OpenErrorText(uuidFilePath)) && id == old(id) && outgoing == old(outgoing)
      ensures uuidFile.Some? && canOpen ==>
        r == Returned(true) && id == IdAfterRead(uuidFile.value, old(id)) && outgoing == old(outgoing) + [ReplyUuid(id)]
    {
      if uuidFile.Some? {
        var error := ReadAgentUuidFile(canOpen);
        if error.Some? {
          return Raised(error.value);
        }
      } else {
        id := Nil;
      }
      PushMsg(ReplyUuid(id));
      r := Returned(true);
    }

    /** SET_UUID adopts the commander's identity and writes it to the file; a
        file that does not open throws after the identity has been adopted. */
    method OnSetUuid(u: Uuid, canOpen: bool) returns (r: Outcome)
      requires Valid()
      modifies this`id, this`uuidFile
      ensures Valid() && id == u
      ensures canOpen && uuidFilePath != "" ==> r == Returned(true) && uuidFile == Some(ToText(u))
      ensures !canOpen || uuidFilePath == "" ==>
        r == Raised(OpenErrorText(uuidFilePath)) && uuidFile == old(uuidFile)
    {
      id := u;
      var error := CreateAgentUuidFile(canOpen);
      if error.Some? {
        return Raised(error.value);
      }
      r := Returned(true);
    }

    method SendGetLogError(text: string)
      modifies this`outgoing
      ensures outgoing == old(outgoing) + [GetLogError(text)]
    {
      PushMsg(GetLogError(text));
    }

    /** GET_LOG bundles the log files into an archive and queues exactly one
        reply: the archive, or the error that stopped it. */
    method OnGetLog(env: LogEnv) returns (r: Outcome)
      modifies this`outgoing
      ensures r == Returned(true)
      ensures outgoing == old(outgoing) + [LogReply(env, id)]
    {
      r := Returned(true);
      var archiveName := env.timeStamp + "_" + env.hostName + "_" + ToText(id);
      var archiveDir := env.logDir + archiveName;
      if env.dirExists.Throw? {
        SendGetLogError(env.dirExists.what);
        return;
      }
      if !env.dirExists.value {
        if env.dirCreated.Throw? {
          SendGetLogError(env.dirCreated.what);
          return;
        }
        if !env.dirCreated.value {
          SendGetLogError("Could not create directory: " + archiveDir);
          return;
        }
      }
      if env.logFiles.Throw? {
        SendGetLogError(env.logFiles.what);
        return;
      }
      var copied, copyError := CopyLogFiles(env.logFiles.value, archiveDir, env.copyErrors);
      if copyError.Some? {
        SendGetLogError(copyError.value);
        return;
      }
      if env.tarError.Some? {
        SendGetLogError(env.tarError.value);
        return;
      }
      if env.archive.None? {
        SendGetLogError("Could not open archive with log files: " + archiveDir + ".tar.gz");
        return;
      }
      var data := env.archive.value;
      var attachment := BinaryAttachment(data, Crc32(data), archiveName + ".tar.gz", |data|);
      if env.cleanupError.Some? {
        SendGetLogError(env.cleanupError.value);
        return;
      }
      PushMsg(BinaryAttachmentLog(attachment));
    }

    /** DOWNLOAD_TEST queues exactly one reply: the download statistics when the
        CRC-32 of the bytes that arrived matches the stated one, an error
        otherwise. */
    method OnDownloadTest(att: BinaryAttachment, now: int) returns (r: Outcome)
      modifies this`outgoing
      ensures r == Returned(true)
      ensures outgoing == old(outgoing) + [DownloadTestReply(att, Microseconds(now - headerReadTime))]
    {
      var crc := Crc32(att.fileData);
      if crc == att.crc32 {
        var downloadTime := Microseconds(now - headerReadTime);
        PushMsg(DownloadTestStat(DownloadStat(crc, |att.fileData|, downloadTime)));
      } else {
        PushMsg(DownloadTestError(WrongChecksumText(crc, att.crc32, |att.fileData|, att.fileName)));
      }
      r := Returned(true);
    }

    /** Losing the commander stops the connection, deletes the identity file and
        exits, as SHUTDOWN does. */
    method OnRemoteEndDisconnected()
      requires Valid()
      modifies this`stopped, this`uuidFile, this`exitStatus
      ensures Valid() && uuidFile == None
      ensures stopped && exitStatus == Some(EXIT_SUCCESS)
    {
      Stop();
      DeleteAgentUuidFile();
      exitStatus := Some(EXIT_SUCCESS);
    }

    /** ASSIGN_USER_TASK only records the task. */
    method OnAssignUserTask(exe: string) returns (r: Outcome)
      modifies this`usrExe
      ensures usrExe == exe && r == Returned(true)
    {
      usrExe := exe;
      r := Returned(true);
    }

    /** ACTIVATE_AGENT runs the recorded task, its path expanded by `smartPath`;
        `execError` is what running it throws, if it throws. Only a failure is
        reported, as an error-severity simple message naming ACTIVATE_AGENT. */
    method OnActivateAgent(smartPath: string -> string, execError: Option<string>)
      returns (r: Outcome, executed: string)
      modifies this`outgoing
      ensures r == Returned(true) && executed == smartPath(usrExe)
      ensures execError.None? ==> outgoing == old(outgoing)
      ensures execError.Some? ==> outgoing == old(outgoing) + [SimpleMsg(execError.value, Error, ACTIVATE_AGENT)]
    {
      executed := smartPath(usrExe);
      if execError.Some? {
        PushMsg(SimpleMsg(execError.value, Error, ACTIVATE_AGENT));
      }
      r := Returned(true);
    }
  }
}
