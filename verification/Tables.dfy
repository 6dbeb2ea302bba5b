/** The ten tables, and what SQLite does with the values bound to a statement. */
module Tables {
  import opened Json
  import opened JsonText
  import opened Documents
  import Signing

  datatype Channel = Channel(candidate: Option<string>, active: Option<string>, generation: nat)

  datatype Assignment = Assignment(channel: string, revision: string, kind: string, document: string)

  datatype Report = Report(result: string, document: string)

  datatype AssignmentReport = AssignmentReport(
    enrollmentGeneration: int, channel: string, channelGeneration: int, revision: string, kind: string,
    result: string, document: string
  )

  datatype Remembered = Remembered(operation: string, response: string)

  /** What a heartbeat rewrites. */
  datatype Presence = Presence(
    lastSeen: Option<int>, clientVersion: Option<string>, capabilities: string, platform: Option<string>,
    documentDigest: Option<string>
  )

  datatype Enrollment = Enrollment(
    device: string, generation: nat, channel: string, roles: string, keyId: string, publicKey: string,
    encryption: (Option<string>, Option<string>), tokenDigest: string, tags: string, revoked: bool, createdAt: int,
    presence: Presence
  )

  datatype Pairing = Pairing(
    device: string, channel: string, roles: string, tags: string, expiresAt: int, attempts: int, consumed: bool
  )

  datatype AdminRequest = AdminRequest(requestDigest: string, expiresAt: int)

  datatype BlobRow = BlobRow(size: nat, mediaType: string, createdAt: int)

  datatype Db = Db(
    revisions: map<string, string>,
    channels: map<string, Channel>,
    assignments: map<string, Assignment>,
    reports: map<(string, string, string), Report>,
    assignmentReports: map<(string, string), AssignmentReport>,
    idempotency: map<string, Remembered>,
    enrollments: map<string, Enrollment>,
    pairingCodes: map<string, Pairing>,
    adminRequests: map<(string, string), AdminRequest>,
    blobs: map<string, BlobRow>
  )

  const EMPTY := Db(map[], map[], map[], map[], map[], map[], map[], map[], map[], map[])

  /** What the store is built with: the digest, the verifier of signed documents, the native backend and the
      public keys handed to newly paired devices. */
  datatype Env = Env(digest: Digest, verify: (string, Json) -> bool, backend: Signing.Backend, trust: Json)

  /** The value that a TEXT column sees for a bound parameter. */
  datatype Bound = NullValue | Text(s: string)

  /** Lists and dicts cannot be bound, nor integers beyond 64 bits; numbers and truth values become text. */
  function Bind(v: Json): Outcome<Bound> {
    match v
    case Null => Ok(NullValue)
    case Bool(b) => Ok(Text(if b then "1" else "0"))
    case Num(n) => if -0x8000_0000_0000_0000 <= n < 0x8000_0000_0000_0000 then Ok(Text(Decimal(n))) else Fail(Broken)
    case Str(s) => Ok(Text(s))
    case Arr(_) => Fail(Broken)
    case Obj(_) => Fail(Broken)
  }

  function ReadJson(text: string): Outcome<Json> {
    match Loads(text)
    case None => Fail(Broken)
    case Some(v) => Ok(v)
  }

  /** `_validate_target_tags(json.loads(text))`. */
  function ReadTags(text: string): Outcome<seq<string>> {
    var tags :- ReadJson(text);
    TargetTags(tags)
  }

  function TagText(tags: seq<string>): string {
    Dumps(Arr(Strings(tags)))
  }

  function ChannelOf(channels: map<string, Channel>, channel: string): Channel {
    if channel in channels then channels[channel] else Channel(None, None, 0)
  }

  /** `DELETE FROM assignments WHERE channel=?`. */
  function ClearChannel(rows: map<string, Assignment>, channel: string): map<string, Assignment> {
    map e | e in rows && rows[e].channel != channel :: rows[e]
  }

  function OnChannel(rows: map<string, Assignment>, channel: string): map<string, Assignment> {
    map e | e in rows && rows[e].channel == channel :: rows[e]
  }
}
