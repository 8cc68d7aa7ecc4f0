# Boolean acknowledgements and the partition-group leader-change handler

This project models two pieces of the broker's control path, in Dafny:

- **`BooleanAck`**: the boolean acknowledgement. It is a RESPONSE command
  whose header has type `BOOLEAN_ACK`, a status code and an error text, and
  it has no payload. It has four static builders. The rule for the error text
  is this:
  - on the SUCCESS code there is no error text, whatever message is given;
  - on any other code with a blank message (`null`, empty or whitespace only,
    as `StringUtils.isBlank` defines it) the error text is the code's
    canonical message from the status-code enumeration;
  - otherwise the error text is the message.

  The status is stored as `(short) code`, but the success test compares the
  full `int` code. So the header invariant "error text present exactly when
  the status is not SUCCESS" holds for every code that fits in 16 bits
  (`StatusAgreesWithError`) and fails for a code that wraps onto SUCCESS
  (`WrappedSuccessKeepsError`).
- **`PartitionGroupLeaderChangeHandler`**: the broker's handler for the name
  server's leader-change command.
  - A `null` command gets no reply.
  - A payload that is not an `UpdatePartitionGroup` lets its exception escape,
    and no call is made (see below).
  - A `null` partition group or a `null` election service fails inside the
    `try`: the reply is a CN_UNKNOWN_ERROR acknowledgement, and no call is
    made.
  - Otherwise the handler calls the election service's
    `onLeaderChange(topic, group, leader)` exactly once.
  - It answers `build()` when that call returns, and
    `build(CN_UNKNOWN_ERROR, e.getMessage())` when it throws an `Exception`.
    An `Error` is not caught by `catch (Exception e)` and escapes.

Files:
- `command.dfy`: module `Transport`. It holds the command envelope, the
  `short`/`int` widths, the status-code enumeration and command type codes as
  uninterpreted context, and `isBlank`.
- `boolean_ack.dfy`: module `BooleanAck`.
- `leader_change_handler.dfy`: module `BrokerHandler`. It holds the election
  service as an opaque object with a ghost log of its calls, the broker
  context and the handler class.

The contents of the status-code enumeration are not part of this model. It is
a `CodeTable` value passed to the builders. Its lookup `valueOf(int)` may find
nothing; a builder that would then need the canonical message returns
`NoSuchCode` instead of a command. The handler only needs SUCCESS and
CN_UNKNOWN_ERROR to be found by their own codes (`WellFormed`). The
enumeration has a no-argument `getMessage()` and a formatting
`getMessage(Object...)`; they are kept as two separate functions, `message`
and `format`.

Two overload bindings matter:
- `build()` is `build(SUCCESS)`, which binds to
  `build(JournalqCode, Object...)` with no arguments.
- The handler's `build(CN_UNKNOWN_ERROR, e.getMessage())` also binds to
  `build(JournalqCode, Object...)`. So the exception's message is a format
  argument of CN_UNKNOWN_ERROR's message, not the error text itself.

The handler's casts are outside its `try`, so a malformed payload is not a
precondition here. It is an exception that escapes (`Raised`).
- A `null` payload raises `NullPointerException` at `getPartitionGroup()`.
- A payload of another class raises `ClassCastException`.
- A `null` partition group fails at `group.getTopic()`, and a `null` election
  service (when the broker context had none) fails at the call itself. Both
  are inside the `try`, so the exception is caught and becomes a failure
  acknowledgement, and no service call is made.

## Model

| member | source | states |
|---|---|---|
| `Transport.ToShort` | journalq-common/journalq-network/src/main/java/com/jd/journalq/network/command/BooleanAck.java:75 | the `(short)` cast keeps every code that fits in 16 bits, and otherwise differs from the code by a multiple of 65536 |
| `Transport.AllWhitespace` | journalq-common/journalq-network/src/main/java/com/jd/journalq/network/command/BooleanAck.java:76 | the character-by-character scan of `isBlank` is true exactly when every character is Java whitespace |
| `Transport.IsBlank` | journalq-common/journalq-network/src/main/java/com/jd/journalq/network/command/BooleanAck.java:76 | `null` is blank, and a string is blank exactly when all its characters are whitespace (so the empty string is blank) |
| `BooleanAck.Build` | journalq-common/journalq-network/src/main/java/com/jd/journalq/network/command/BooleanAck.java:73-78 | `build(int, String)`: a RESPONSE of type BOOLEAN_ACK with no payload and status `(short) code`. It carries no error text on SUCCESS, the message when it is not blank, and otherwise the canonical message. It fails exactly when the canonical message is needed for a code the enumeration does not know |
| `BooleanAck.BuildCode` | journalq-common/journalq-network/src/main/java/com/jd/journalq/network/command/BooleanAck.java:62-64 | `build(int)`: an error text is present exactly when the code is not SUCCESS, and it is then the code's canonical message. It fails exactly on unknown non-success codes |
| `BooleanAck.BuildArgs` | journalq-common/journalq-network/src/main/java/com/jd/journalq/network/command/BooleanAck.java:52-54 | `build(JournalqCode, Object...)`: status `(short) code.getCode()`, and the error text is the formatted message. A blank formatted message falls back to the canonical one, and SUCCESS carries none. It never fails for a code the enumeration knows |
| `BooleanAck.BuildSuccess` | journalq-common/journalq-network/src/main/java/com/jd/journalq/network/command/BooleanAck.java:41-43 | `build()` is a RESPONSE/BOOLEAN_ACK with no payload, status SUCCESS and no error text |
| `BooleanAck.StatusAgreesWithError` | journalq-common/journalq-network/src/main/java/com/jd/journalq/network/command/BooleanAck.java:75-76 | for every code that fits in a `short`, the error text is absent exactly when the stored status is SUCCESS |
| `BooleanAck.WrappedSuccessKeepsError` | journalq-common/journalq-network/src/main/java/com/jd/journalq/network/command/BooleanAck.java:75-76 | SUCCESS's code plus 65536 is stored as the SUCCESS status, yet it keeps a non-blank message as its error text |
| `BooleanAck.SuccessIgnoresMessage` | journalq-common/journalq-network/src/main/java/com/jd/journalq/network/command/BooleanAck.java:76 | on the SUCCESS code every message given to `build(int, String)`, and every argument list given to `build(SUCCESS, args...)`, yields the same acknowledgement as `build()` |
| `BooleanAck.BlankFormatIsBuildCode` | journalq-common/journalq-network/src/main/java/com/jd/journalq/network/command/BooleanAck.java:52-64 | when a known code's message formats to a blank string, `build(jcode, args...)` equals `build(jcode.getCode())` |
| `BooleanAck.ExplicitMessageIgnoresTable` | journalq-common/journalq-network/src/main/java/com/jd/journalq/network/command/BooleanAck.java:76 | a non-blank message is used as given: the enumeration's lookups and messages play no part, only the SUCCESS code does |
| `BooleanAck.HeaderTypeIsPayloadType` | journalq-common/journalq-network/src/main/java/com/jd/journalq/network/command/BooleanAck.java:31-34 | the header type of every built acknowledgement is the payload's own `type()`, BOOLEAN_ACK |
| `BrokerHandler.CallsFor` | journalq-server/journalq-broker-core/src/main/java/com/jd/journalq/broker/handler/PartitionGroupLeaderChangeHandler.java:54-55 | a sequence of forwarded partition groups gives exactly one call per group, in the same order |
| `BrokerHandler.Acknowledge` | journalq-server/journalq-broker-core/src/main/java/com/jd/journalq/broker/handler/PartitionGroupLeaderChangeHandler.java:56-60 | a returned call gives a SUCCESS ack with no error text. A caught exception gives a CN_UNKNOWN_ERROR ack whose error text is CN_UNKNOWN_ERROR's message formatted with the exception's message (not that message itself), or the canonical message when the formatted one is blank |
| `BrokerHandler.PartitionGroupLeaderChangeHandler.constructor` | journalq-server/journalq-broker-core/src/main/java/com/jd/journalq/broker/handler/PartitionGroupLeaderChangeHandler.java:38-40 | the election service is the broker context's, possibly `null`, and nothing has been forwarded yet |
| `BrokerHandler.PartitionGroupLeaderChangeHandler.Type` | journalq-server/journalq-broker-core/src/main/java/com/jd/journalq/broker/handler/PartitionGroupLeaderChangeHandler.java:42-44 | the handler's type is always NSR_LEADERCHANAGE_PARTITIONGROUP |
| `BrokerHandler.PartitionGroupLeaderChangeHandler.Handle` | journalq-server/journalq-broker-core/src/main/java/com/jd/journalq/broker/handler/PartitionGroupLeaderChangeHandler.java:47-61 | A `null` command gives no reply and no call. A payload that is not an `UpdatePartitionGroup` lets its exception escape before any call. A `null` group or a `null` service gives a CN_UNKNOWN_ERROR ack and no call. Otherwise there is exactly one call with the group's topic, group and leader; an exception from it becomes the ack of its outcome and never escapes, while an `Error` escapes. The service reference is not reassigned, and the service's log stays its earlier calls followed by one call per forwarded group, in order |
| `BrokerHandler.LeaderChangeAccepted` | journalq-server/journalq-broker-core/src/main/java/com/jd/journalq/broker/handler/PartitionGroupLeaderChangeHandler.java:54-60 | a leader change for ("orders", 3, 7) against a service that returns records exactly that call and answers SUCCESS with no error text |
| `BrokerHandler.LeaderChangeRejected` | journalq-server/journalq-broker-core/src/main/java/com/jd/journalq/broker/handler/PartitionGroupLeaderChangeHandler.java:54-59 | the same change against a service that throws "quorum lost" records that one call and answers CN_UNKNOWN_ERROR, with "quorum lost" formatted into the code's message as the error text |

## Left out

- The contents of the status-code enumeration and the values of
  `CommandType.BOOLEAN_ACK` and `NsrCommandType.NSR_LEADERCHANAGE_PARTITIONGROUP`
  are not in the source. They are uninterpreted context (`CodeTable`,
  `CommandTypes`). This includes whether `valueOf` finds a code, and whether
  `getMessage()` equals `getMessage(Object...)` with no arguments.
- A `getMessage(args)` that throws, for example on a bad format, is not
  modelled. `format` always returns a string.
- Header fields the builders do not set (request id, version and the other
  defaults of the header constructor) are not modelled.
- The election service's internals are not modelled. Each call is recorded,
  and its outcome is an arbitrary function (`decide`) chosen by whoever
  creates the service. Consensus, ordering against concurrent elections and
  idempotence belong to the service.
- `Transport` (the `handle` parameter) is not used by the handler and is left
  out. Logging is left out.
- Concurrency and thread safety are left out. `handle` is modelled as one
  sequential call.
- `BrokerHandler.PartitionGroupLeaderChangeHandler.Handle`: the log
  invariant assumes the handler is the only caller of its election service.
- `BrokerHandler.PartitionGroupLeaderChangeHandler.Handle`: the message of the
  caught NullPointerException is the single constant `npeMessage`, whether the
  `null` is the partition group or the election service; on a JVM with helpful
  NullPointerException messages the two texts differ.
- `BrokerHandler.PartitionGroupLeaderChangeHandler.Handle`: an `Error` from the
  election service is a single `JavaError` outcome; its class and message are
  not modelled.
- The message of a JVM-raised `NullPointerException` depends on the JVM. It is
  the handler constant `npeMessage`.
- A `null` topic or leader inside a partition group is not modelled. The
  parameter types of `onLeaderChange` are not in the source.
- `Character.isWhitespace` follows Unicode 6.3 and later, where U+180E is not
  whitespace. Older JVMs differ on that one character.
- The status-code table, type-code constants and handler context are explicit
  parameters (the code table, the command types and `npeMessage`). In the
  source they are static globals.
- Dafny strings are sequences of Unicode scalar values, while Java strings are
  UTF-16, so a message holding a lone surrogate cannot be represented. The
  blank test is unaffected: no surrogate is whitespace.
