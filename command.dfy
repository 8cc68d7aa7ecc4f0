/** The command envelope exchanged between brokers: a header (direction, type
    code, status, error text) and an optional payload, together with the
    process-wide tables it refers to (status codes and their messages, command
    type codes) and the blank-string test the acknowledgement builder uses. */
module Transport {

  datatype Option<+T> = None | Some(value: T)

  /** Java's `int`. */
  newtype int32 = x: int | -0x8000_0000 <= x < 0x8000_0000

  /** Java's `short`: the width of the status field of a header. */
  newtype int16 = x: int | -0x8000 <= x < 0x8000

  predicate IsShortRange(x: int32) {
    -0x8000 <= x < 0x8000
  }

  /** The narrowing cast `(short) x`: keeps the low 16 bits, read as two's
      complement. */
  function ToShort(x: int32): (s: int16)
    ensures IsShortRange(x) ==> s as int == x as int
    ensures (x as int - s as int) % 0x1_0000 == 0
  {
    ((x as int + 0x8000) % 0x1_0000 - 0x8000) as int16
  }

  datatype Direction = Request | Response

  /** The fields of a header that the builders in this model set. */
  datatype Header = Header(direction: Direction, typeCode: int32, status: int16, error: Option<string>)

  /** The view of a partition group carried by a leader-change request. */
  datatype PartitionGroup = PartitionGroup(topic: string, group: int32, leader: int32)

  /** Payloads, one variant per payload class that matters here; any other
      payload class is `OtherPayload`. A `null` partition group inside an
      `UpdatePartitionGroup` is `None`. */
  datatype Payload =
    | BooleanAckBody
    | UpdatePartitionGroup(partitionGroup: Option<PartitionGroup>)
    | OtherPayload(typeCode: int32)

  /** A command; a `null` payload is `None`. */
  datatype Command = Command(header: Header, payload: Option<Payload>)

  /** An entry of the status-code enumeration. */
  datatype JournalqCode = JournalqCode(name: string, code: int32)

  /** An `Object` passed as a format argument: here always a string or `null`. */
  type Arg = Option<string>

  /** The status-code enumeration, whose contents are not part of this model:
      its two members used here, the lookup by code (which may find nothing)
      and the two message accessors, left uninterpreted. */
  datatype CodeTable = CodeTable(
    success: JournalqCode,
    unknownError: JournalqCode,
    valueOf: int32 -> Option<JournalqCode>,
    message: JournalqCode -> string,
    format: (JournalqCode, seq<Arg>) -> string)

  /** What the model needs of the enumeration: looking up the code of SUCCESS
      or CN_UNKNOWN_ERROR finds that member, the two codes differ, and the
      success code fits a header's status field. */
  predicate WellFormed(t: CodeTable) {
    && t.valueOf(t.success.code) == Some(t.success)
    && t.valueOf(t.unknownError.code) == Some(t.unknownError)
    && t.success.code != t.unknownError.code
    && IsShortRange(t.success.code)
  }

  /** The command type codes used here, whose values are not part of this
      model. */
  datatype CommandTypes = CommandTypes(booleanAck: int32, leaderChangePartitionGroup: int32)

  /** Java's `Character.isWhitespace`: the space, line and paragraph
      separators other than the non-breaking ones, and the control characters
      U+0009..U+000D and U+001C..U+001F. */
  predicate IsWhitespace(c: char) {
    var n := c as int;
    || 0x09 <= n <= 0x0D
    || 0x1C <= n <= 0x1F
    || n == 0x20
    || n == 0x1680
    || (0x2000 <= n <= 0x200A && n != 0x2007)
    || n == 0x2028
    || n == 0x2029
    || n == 0x205F
    || n == 0x3000
  }

  /** The character-by-character scan of a non-null string. */
  function AllWhitespace(s: string): (r: bool)
    ensures r <==> forall i :: 0 <= i < |s| ==> IsWhitespace(s[i])
  {
    |s| == 0 || (IsWhitespace(s[0]) && AllWhitespace(s[1..]))
  }

  /** `StringUtils.isBlank`: null, empty or whitespace only. */
  function IsBlank(s: Option<string>): (r: bool)
    ensures s == None ==> r
    ensures s.Some? ==> (r <==> forall i :: 0 <= i < |s.value| ==> IsWhitespace(s.value[i]))
  {
    match s
    case None => true
    case Some(str) => AllWhitespace(str)
  }
}
