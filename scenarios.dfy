/** Sequences of commands on freshly created channels, as the agent meets them
    across a session and across restarts (a restart is a new channel over the
    identity file the old one left behind). */
module Scenarios {
  import opened Wrappers
  import opened Uuid
  import opened Checksum
  import opened Protocol
  import opened Commander

  /** An identity assigned by SET_UUID is what GET_UUID reports after a
      restart. */
  method IdentitySurvivesRestart(path: string, file: Option<string>, u: Uuid) returns (replies: seq<Msg>)
    requires path != ""
    ensures replies == [ReplyUuid(u)]
  {
    var first := new CommanderChannel(path, file);
    var r1 := first.OnSetUuid(u, true);
    var second := new CommanderChannel(path, first.uuidFile);
    ParseToText(u, []);
    assert ToText(u) + [] == ToText(u);
    var r2 := second.OnGetUuid(true);
    replies := second.outgoing;
  }

  /** After SHUTDOWN has deleted the identity file, GET_UUID on the next run
      reports the nil identity, whatever the file held before. */
  method IdentityForgottenAfterShutdown(path: string, file: Option<string>, canOpen: bool)
    returns (replies: seq<Msg>)
    requires path == "" ==> file.None?
    ensures replies == [ReplyUuid(Nil)]
  {
    var first := new CommanderChannel(path, file);
    var r1 := first.OnShutdown();
    var second := new CommanderChannel(path, first.uuidFile);
    var r2 := second.OnGetUuid(canOpen);
    replies := second.outgoing;
  }

  /** DISCONNECT keeps the identity: the next run still reports it. */
  method IdentityKeptAfterDisconnect(path: string, u: Uuid) returns (replies: seq<Msg>)
    requires path != ""
    ensures replies == [ReplyUuid(u)]
  {
    var first := new CommanderChannel(path, None);
    var r1 := first.OnSetUuid(u, true);
    var r2 := first.OnDisconnect();
    var second := new CommanderChannel(path, first.uuidFile);
    ParseToText(u, []);
    assert ToText(u) + [] == ToText(u);
    var r3 := second.OnGetUuid(true);
    replies := second.outgoing;
  }

  /** A BINARY_ATTACHMENT of "hello" whose sender claimed checksum 0 is answered
      with the checksum of the bytes themselves, and the time since its header. */
  method HelloAttachmentReply(headerTime: int, now: int) returns (replies: seq<Msg>)
    ensures replies == [BinaryDownloadStat(DownloadStat(0x3610_A686, 5, Microseconds(now - headerTime)))]
  {
    var ch := new CommanderChannel("", None);
    ch.OnHeaderRead(headerTime);
    var r := ch.OnBinaryAttachment(BinaryAttachment(Hello, 0, "hello", 5), now);
    HelloChecksum();
    replies := ch.outgoing;
  }

  /** The same bytes as a DOWNLOAD_TEST with the wrong checksum draw an error
      naming both checksums. */
  method HelloDownloadTestReply(now: int) returns (replies: seq<Msg>)
    ensures replies == [DownloadTestError(WrongChecksumText(0x3610_A686, 0, 5, "hello"))]
  {
    var ch := new CommanderChannel("", None);
    HelloChecksum();
    var r := ch.OnDownloadTest(BinaryAttachment(Hello, 0, "hello", 5), now);
    replies := ch.outgoing;
  }

  /** ASSIGN_USER_TASK then ACTIVATE_AGENT runs the assigned task; only a failure
      to run it is reported. */
  method AssignThenActivate(exe: string, smartPath: string -> string, execError: Option<string>)
    returns (executed: string, replies: seq<Msg>)
    ensures executed == smartPath(exe)
    ensures execError.None? ==> replies == []
    ensures execError.Some? ==> replies == [SimpleMsg(execError.value, Error, ACTIVATE_AGENT)]
  {
    var ch := new CommanderChannel("", None);
    var r1 := ch.OnAssignUserTask(exe);
    var r2;
    r2, executed := ch.OnActivateAgent(smartPath, execError);
    replies := ch.outgoing;
  }
}
