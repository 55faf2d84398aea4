/** The commands and message bodies the agent exchanges with the commander, as
    decoded values. The wire encoding (headers, body serialisation) is not part
    of this model. */
module Protocol {
  import opened Uuid

  /** Command identifiers (the cmd* constants) that the agent's code uses. */
  datatype Command =
    | HANDSHAKE_AGENT
    | REPLY_HANDSHAKE_OK
    | SIMPLE_MSG
    | GET_HOST_INFO
    | REPLY_HOST_INFO
    | DISCONNECT
    | SHUTDOWN
    | BINARY_ATTACHMENT
    | BINARY_DOWNLOAD_STAT
    | GET_UUID
    | REPLY_UUID
    | SET_UUID
    | GET_LOG
    | BINARY_ATTACHMENT_LOG
    | GET_LOG_ERROR
    | DOWNLOAD_TEST
    | DOWNLOAD_TEST_STAT
    | DOWNLOAD_TEST_ERROR
    | ASSIGN_USER_TASK
    | ACTIVATE_AGENT

  /** Severity levels a simple message can carry. */
  datatype Severity = Info | Error | Fatal

  /** SHostInfoCmd: who and where the agent is. */
  datatype HostInfo = HostInfo(
    userName: string,
    host: string,
    version: string,
    ddsPath: string,
    agentPort: int,
    agentPid: int,
    timeStamp: int)

  /** SBinaryAttachmentCmd: a file with the checksum, name and size its sender states. */
  datatype BinaryAttachment = BinaryAttachment(
    fileData: seq<bv8>,
    crc32: bv32,
    fileName: string,
    fileSize: nat)

  /** SBinaryDownloadStatCmd: what the receiver observed of a download; the
      download time is in microseconds. */
  datatype DownloadStat = DownloadStat(
    receivedCrc32: bv32,
    receivedFileSize: nat,
    downloadTime: int)

  /** One outgoing message, as the agent queues it. */
  datatype Msg =
    | HandshakeAgent
    | ReplyHostInfo(info: HostInfo)
    | ReplyUuid(id: Uuid)
    | BinaryDownloadStat(stat: DownloadStat)
    | DownloadTestStat(stat: DownloadStat)
    | DownloadTestError(text: string)
    | GetLogError(text: string)
    | BinaryAttachmentLog(attachment: BinaryAttachment)
    | SimpleMsg(text: string, severity: Severity, srcCommand: Command)
  {
    /** The command identifier the message is encoded with. */
    function Command(): Command {
      match this
      case HandshakeAgent => HANDSHAKE_AGENT
      case ReplyHostInfo(_) => REPLY_HOST_INFO
      case ReplyUuid(_) => REPLY_UUID
      case BinaryDownloadStat(_) => BINARY_DOWNLOAD_STAT
      case DownloadTestStat(_) => DOWNLOAD_TEST_STAT
      case DownloadTestError(_) => DOWNLOAD_TEST_ERROR
      case GetLogError(_) => GET_LOG_ERROR
      case BinaryAttachmentLog(_) => BINARY_ATTACHMENT_LOG
      case SimpleMsg(_, _, _) => SIMPLE_MSG
    }
  }

  /** The decimal digit for a value below 10. */
  function DigitChar(d: nat): char
    requires d < 10
  {
    ('0' as int + d) as char
  }

  /** A number as a C++ output stream prints it: decimal digits, no sign, no
      leading zeros. */
  function Decimal(n: nat): (s: string)
    ensures |s| >= 1
    ensures forall i :: 0 <= i < |s| ==> '0' <= s[i] <= '9'
    ensures |s| > 1 ==> s[0] != '0'
  {
    if n < 10 then [DigitChar(n)] else Decimal(n / 10) + [DigitChar(n % 10)]
  }

  /** The value of a string of decimal digits. */
  function DecimalValue(s: string): nat
    requires forall i :: 0 <= i < |s| ==> '0' <= s[i] <= '9'
  {
    if s == [] then 0 else 10 * DecimalValue(s[..|s| - 1]) + (s[|s| - 1] as int - '0' as int)
  }

  /** The printed number reads back as the number that was printed. */
  lemma {:induction false} DecimalRoundTrip(n: nat)
    ensures DecimalValue(Decimal(n)) == n
  {
    if n >= 10 {
      var s := Decimal(n);
      assert s[..|s| - 1] == Decimal(n / 10);
      DecimalRoundTrip(n / 10);
    }
  }
}
