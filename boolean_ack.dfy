/** The boolean acknowledgement: a RESPONSE command of type BOOLEAN_ACK with
    a status code, an error text and no payload, and its four builders. */
module BooleanAck {
  import opened Transport

  /** What a builder produces: the acknowledgement, or the failure of looking
      up the canonical message of a code the enumeration does not know. */
  datatype Built = Ack(command: Command) | NoSuchCode(code: int32)

  /** The payload's own type code. */
  function Type(types: CommandTypes): (t: int32) {
    types.booleanAck
  }

  /** The shape every acknowledgement has. */
  predicate IsAck(c: Command, types: CommandTypes) {
    && c.header.direction == Response
    && c.header.typeCode == types.booleanAck
    && c.payload == None
  }

  /** A RESPONSE of type BOOLEAN_ACK with the given status and error text
      and no payload. */
  function AckCommand(types: CommandTypes, code: int32, error: Option<string>): (c: Command) {
    Command(Header(Response, types.booleanAck, ToShort(code), error), None)
  }

  /** `build(int code, String message)`. The status is the 16-bit truncation
      of `code`, while the success test looks at the whole `int`. */
  function Build(t: CodeTable, types: CommandTypes, code: int32, message: Option<string>): (r: Built)
    ensures r.Ack? <==> (code == t.success.code || !IsBlank(message) || t.valueOf(code).Some?)
    ensures r.NoSuchCode? ==> r.code == code
    ensures r.Ack? ==> IsAck(r.command, types) && r.command.header.status == ToShort(code)
    ensures code == t.success.code ==> r.Ack? && r.command.header.error == None
    ensures code != t.success.code && !IsBlank(message) ==> r.Ack? && r.command.header.error == message
    ensures code != t.success.code && IsBlank(message) && t.valueOf(code).Some? ==>
              r.Ack? && r.command.header.error == Some(t.message(t.valueOf(code).value))
  {
    if code == t.success.code then Ack(AckCommand(types, code, None))
    else if !IsBlank(message) then Ack(AckCommand(types, code, message))
    else match t.valueOf(code)
      case Some(jc) => Ack(AckCommand(types, code, Some(t.message(jc))))
      case None => NoSuchCode(code)
  }

  /** `build(int code)`: no message, so a failure code always carries its
      canonical message. */
  function BuildCode(t: CodeTable, types: CommandTypes, code: int32): (r: Built)
    ensures r.Ack? <==> (code == t.success.code || t.valueOf(code).Some?)
    ensures r.Ack? ==> IsAck(r.command, types) && r.command.header.status == ToShort(code)
    ensures r.Ack? ==> (r.command.header.error == None <==> code == t.success.code)
    ensures code != t.success.code && t.valueOf(code).Some? ==>
              r.Ack? && r.command.header.error == Some(t.message(t.valueOf(code).value))
  {
    Build(t, types, code, None)
  }

  /** `build(JournalqCode code, Object... args)`: the message is the code's
      message formatted with `args`. */
  function BuildArgs(t: CodeTable, types: CommandTypes, jc: JournalqCode, args: seq<Arg>): (r: Built)
    ensures t.valueOf(jc.code) == Some(jc) ==> r.Ack?
    ensures r.Ack? ==> IsAck(r.command, types) && r.command.header.status == ToShort(jc.code)
    ensures jc.code == t.success.code ==> r.Ack? && r.command.header.error == None
    ensures jc.code != t.success.code && !IsBlank(Some(t.format(jc, args))) ==>
              r.Ack? && r.command.header.error == Some(t.format(jc, args))
    ensures jc.code != t.success.code && IsBlank(Some(t.format(jc, args))) && t.valueOf(jc.code) == Some(jc) ==>
              r.Ack? && r.command.header.error == Some(t.message(jc))
  {
    Build(t, types, jc.code, Some(t.format(jc, args)))
  }

  /** `build()`: the success acknowledgement. */
  function BuildSuccess(t: CodeTable, types: CommandTypes): (r: Built)
    ensures r.Ack? && IsAck(r.command, types)
    ensures r.command.header.status == ToShort(t.success.code) && r.command.header.error == None
  {
    BuildArgs(t, types, t.success, [])
  }

  /** The header invariant "an error text is present exactly when the status
      is not SUCCESS" holds for every code that fits in a `short`. */
  lemma StatusAgreesWithError(t: CodeTable, types: CommandTypes, code: int32, message: Option<string>)
    requires WellFormed(t) && IsShortRange(code)
    requires Build(t, types, code, message).Ack?
    ensures var h := Build(t, types, code, message).command.header;
            h.error == None <==> h.status == ToShort(t.success.code)
  {
  }

  /** It fails outside that range: the code 65536 above SUCCESS is stored as
      the SUCCESS status, yet the success test on the full `int` fails, so a
      non-blank message is kept as the error text. */
  lemma WrappedSuccessKeepsError(t: CodeTable, types: CommandTypes, message: Option<string>)
    requires WellFormed(t) && !IsBlank(message)
    ensures var r := Build(t, types, (t.success.code as int + 0x1_0000) as int32, message);
            && r.Ack?
            && r.command.header.status == ToShort(t.success.code)
            && r.command.header.error == message
  {
  }

  /** On SUCCESS the message does not matter: every message, and every
      argument list given to `build(SUCCESS, args...)`, yields `build()`. */
  lemma SuccessIgnoresMessage(t: CodeTable, types: CommandTypes, message: Option<string>, args: seq<Arg>)
    ensures Build(t, types, t.success.code, message) == BuildSuccess(t, types)
    ensures BuildArgs(t, types, t.success, args) == BuildSuccess(t, types)
  {
  }

  /** Arguments that format to a blank message are as good as none:
      `build(jcode, args...)` is then `build(jcode.getCode())`, for a code
      the enumeration knows. */
  lemma BlankFormatIsBuildCode(t: CodeTable, types: CommandTypes, jc: JournalqCode, args: seq<Arg>)
    requires t.valueOf(jc.code) == Some(jc) && IsBlank(Some(t.format(jc, args)))
    ensures BuildArgs(t, types, jc, args) == BuildCode(t, types, jc.code)
  {
  }

  /** A non-blank message never depends on the enumeration: two tables that
      agree on SUCCESS build the same acknowledgement from it. */
  lemma ExplicitMessageIgnoresTable(a: CodeTable, b: CodeTable, types: CommandTypes, code: int32, message: Option<string>)
    requires a.success == b.success && !IsBlank(message)
    ensures Build(a, types, code, message) == Build(b, types, code, message)
  {
  }

  /** The type code in the header of every acknowledgement is the payload's
      own `type()`. */
  lemma HeaderTypeIsPayloadType(t: CodeTable, types: CommandTypes, code: int32, message: Option<string>)
    requires Build(t, types, code, message).Ack?
    ensures Build(t, types, code, message).command.header.typeCode == Type(types)
  {
  }
}
