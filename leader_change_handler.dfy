/** The broker's handler for the name server's "partition group leader
    changed" command: it forwards the new leader to the election service and
    answers with a boolean acknowledgement. */
module BrokerHandler {
  import opened Transport
  import BooleanAck

  /** One call `onLeaderChange(topic, group, leader)`. */
  datatype LeaderChange = LeaderChange(topic: string, group: int32, leader: int32)

  /** How a call to the election service ends: normally, by an `Exception`,
      or by an `Error` (a `Throwable` that `catch (Exception e)` does not
      catch). An exception's `getMessage()` may be `null`. */
  datatype Outcome = Returned | Threw(message: Option<string>) | ThrewError

  /** An exception or error the handler does not catch. */
  datatype Uncaught = ClassCastException | NullPointerException | JavaError

  /** What `handle` does for its caller: returns `null`, returns a command, or
      lets a throwable escape. */
  datatype Reply = NoReply | Reply(command: Command) | Raised(exception: Uncaught)

  /** The call the handler makes for a partition group. */
  function CallFor(g: PartitionGroup): LeaderChange {
    LeaderChange(g.topic, g.group, g.leader)
  }

  /** The calls made for a sequence of partition groups: one per group, in the
      same order. */
  function CallsFor(gs: seq<PartitionGroup>): (cs: seq<LeaderChange>)
    ensures |cs| == |gs|
    ensures forall i :: 0 <= i < |gs| ==>
              cs[i].topic == gs[i].topic && cs[i].group == gs[i].group && cs[i].leader == gs[i].leader
  {
    if gs == [] then [] else CallsFor(gs[..|gs| - 1]) + [CallFor(gs[|gs| - 1])]
  }

  /** The acknowledgement for a caught outcome of the service call: `build()`
      when it returned, `build(CN_UNKNOWN_ERROR, e.getMessage())` when it
      threw an exception. In the second case the exception's message is a
      format argument of CN_UNKNOWN_ERROR's message, not the error text
      itself. An `Error` is never acknowledged: it escapes. */
  function Acknowledge(t: CodeTable, types: CommandTypes, outcome: Outcome): (c: Command)
    requires WellFormed(t) && !outcome.ThrewError?
    ensures BooleanAck.IsAck(c, types)
    ensures outcome.Returned? ==> c.header.status == ToShort(t.success.code) && c.header.error == None
    ensures outcome.Threw? ==> c.header.status == ToShort(t.unknownError.code)
    ensures outcome.Threw? ==>
              var text := t.format(t.unknownError, [outcome.message]);
              c.header.error == Some(if IsBlank(Some(text)) then t.message(t.unknownError) else text)
  {
    match outcome
    case Returned => BooleanAck.BuildSuccess(t, types).command
    case Threw(m) => BooleanAck.BuildArgs(t, types, t.unknownError, [m]).command
  }

  /** The election service, whose internals are not part of this model. It
      records every call it receives; `decide` stands for whatever makes a
      call return or throw. */
  class ElectionService {
    ghost var calls: seq<LeaderChange>
    var decide: LeaderChange -> Outcome

    constructor (decide: LeaderChange -> Outcome)
      ensures calls == [] && this.decide == decide
    {
      calls := [];
      this.decide := decide;
    }

    method OnLeaderChange(topic: string, group: int32, leader: int32) returns (outcome: Outcome)
      modifies this`calls
      ensures calls == old(calls) + [LeaderChange(topic, group, leader)]
      ensures outcome == decide(LeaderChange(topic, group, leader))
    {
      calls := calls + [LeaderChange(topic, group, leader)];
      outcome := decide(LeaderChange(topic, group, leader));
    }
  }

  /** The part of the broker context the handler reads; its election service
      may be `null`. */
  class BrokerContext {
    var electionService: ElectionService?

    constructor (electionService: ElectionService?)
      ensures this.electionService == electionService
    {
      this.electionService := electionService;
    }
  }

  class PartitionGroupLeaderChangeHandler {
    var electionService: ElectionService?
    /** The status-code enumeration and the command type codes. */
    const table: CodeTable
    const types: CommandTypes
    /** The message of a NullPointerException raised by the JVM itself
        (`null`, or a "helpful" message on recent JVMs). */
    const npeMessage: Option<string>

    /** The partition groups forwarded to the election service, in order. */
    ghost var forwarded: seq<PartitionGroup>
    /** The service's calls before this handler existed. */
    ghost var before: seq<LeaderChange>

    /** Without a service nothing is forwarded; with one, the service has
        received, after the calls it had already, exactly one call per
        forwarded partition group, in order. */
    ghost predicate Valid()
      reads this, electionService
    {
      && WellFormed(table)
      && (electionService == null ==> forwarded == [])
      && (electionService != null ==> electionService.calls == before + CallsFor(forwarded))
    }

    constructor (brokerContext: BrokerContext, table: CodeTable, types: CommandTypes, npeMessage: Option<string>)
      requires WellFormed(table)
      ensures Valid()
      ensures electionService == brokerContext.electionService
      ensures this.table == table && this.types == types && this.npeMessage == npeMessage
      ensures forwarded == [] && (electionService != null ==> before == electionService.calls)
    {
      electionService := brokerContext.electionService;
      this.table := table;
      this.types := types;
      this.npeMessage := npeMessage;
      forwarded := [];
      before := if brokerContext.electionService == null then [] else brokerContext.electionService.calls;
    }

    /** The command type this handler is registered for. */
    function Type(): (t: int32)
      ensures t == types.leaderChangePartitionGroup
    {
      types.leaderChangePartitionGroup
    }

    /** Whether `command` reaches the service call: a command whose payload is
        an `UpdatePartitionGroup` with a partition group. */
    static predicate Forwards(command: Option<Command>) {
      && command.Some?
      && command.value.payload.Some?
      && command.value.payload.value.UpdatePartitionGroup?
      && command.value.payload.value.partitionGroup.Some?
    }

    /** `handle(transport, command)`; the transport is not used. */
    method Handle(command: Option<Command>) returns (reply: Reply)
      requires Valid()
      modifies this`forwarded, electionService
      ensures Valid()
      ensures electionService != null ==> electionService.decide == old(electionService.decide)
      // A null command: no reply and no call.
      ensures command == None ==>
                reply == NoReply && forwarded == old(forwarded)
                && (electionService != null ==> electionService.calls == old(electionService.calls))
      // The payload cast and getPartitionGroup() are outside the try: their exceptions escape, and no call is made.
      ensures command.Some? && command.value.payload == None ==>
                && reply == Raised(NullPointerException) && forwarded == old(forwarded)
                && (electionService != null ==> electionService.calls == old(electionService.calls))
      ensures command.Some? && command.value.payload.Some? && !command.value.payload.value.UpdatePartitionGroup? ==>
                && reply == Raised(ClassCastException) && forwarded == old(forwarded)
                && (electionService != null ==> electionService.calls == old(electionService.calls))
      // A null partition group or a null service fails inside the try, before the call: a failure acknowledgement.
      ensures command.Some? && command.value.payload.Some? && command.value.payload.value.UpdatePartitionGroup?
              && (command.value.payload.value.partitionGroup == None || electionService == null) ==>
                && reply == Reply(Acknowledge(table, types, Threw(npeMessage))) && forwarded == old(forwarded)
                && (electionService != null ==> electionService.calls == old(electionService.calls))
      // A partition group and a service: exactly one call with its topic, group and leader; an exception
      // becomes the acknowledgement of the outcome, an Error escapes.
      ensures Forwards(command) && electionService != null ==>
                var g := command.value.payload.value.partitionGroup.value;
                var outcome := old(electionService.decide)(CallFor(g));
                && forwarded == old(forwarded) + [g]
                && electionService.calls == old(electionService.calls) + [CallFor(g)]
                && reply == (if outcome.ThrewError? then Raised(JavaError) else Reply(Acknowledge(table, types, outcome)))
    {
      if command == None {
        return NoReply;
      }
      match command.value.payload
      case None =>
        reply := Raised(NullPointerException);
      case Some(BooleanAckBody) =>
        reply := Raised(ClassCastException);
      case Some(OtherPayload(_)) =>
        reply := Raised(ClassCastException);
      case Some(UpdatePartitionGroup(group)) =>
        if group == None || electionService == null {
          reply := Reply(Acknowledge(table, types, Threw(npeMessage)));
        } else {
          var g := group.value;
          var outcome := electionService.OnLeaderChange(g.topic, g.group, g.leader);
          forwarded := forwarded + [g];
          assert CallsFor(forwarded) == CallsFor(old(forwarded)) + [CallFor(g)];
          if outcome.ThrewError? {
            reply := Raised(JavaError);
          } else {
            reply := Reply(Acknowledge(table, types, outcome));
          }
        }
    }
  }

  /** A leader-change command for topic "orders", group 3, leader 7, handled
      against a service that returns normally: the service records exactly
      that call and the reply is the success acknowledgement. */
  method LeaderChangeAccepted(t: CodeTable, types: CommandTypes) returns (reply: Reply, ghost calls: seq<LeaderChange>)
    requires WellFormed(t)
    ensures calls == [LeaderChange("orders", 3, 7)]
    ensures reply.Reply? && reply.command.header.status == ToShort(t.success.code)
    ensures reply.command.header.error == None
  {
    var service := new ElectionService(_ => Returned);
    var context := new BrokerContext(service);
    var handler := new PartitionGroupLeaderChangeHandler(context, t, types, None);
    var request := Command(Header(Request, types.leaderChangePartitionGroup, 0, None),
                           Some(UpdatePartitionGroup(Some(PartitionGroup("orders", 3, 7)))));
    reply := handler.Handle(Some(request));
    calls := service.calls;
  }

  /** The same command against a service that throws "quorum lost": the
      reply is a CN_UNKNOWN_ERROR acknowledgement whose error text is
      CN_UNKNOWN_ERROR's message formatted with "quorum lost" (or its
      canonical message if that is blank), and nothing escapes. */
  method LeaderChangeRejected(t: CodeTable, types: CommandTypes) returns (reply: Reply, ghost calls: seq<LeaderChange>)
    requires WellFormed(t)
    ensures calls == [LeaderChange("orders", 3, 7)]
    ensures reply.Reply? && reply.command.header.status == ToShort(t.unknownError.code)
    ensures var text := t.format(t.unknownError, [Some("quorum lost")]);
            reply.command.header.error == Some(if IsBlank(Some(text)) then t.message(t.unknownError) else text)
  {
    var service := new ElectionService(_ => Threw(Some("quorum lost")));
    var context := new BrokerContext(service);
    var handler := new PartitionGroupLeaderChangeHandler(context, t, types, None);
    var request := Command(Header(Request, types.leaderChangePartitionGroup, 0, None),
                           Some(UpdatePartitionGroup(Some(PartitionGroup("orders", 3, 7)))));
    reply := handler.Handle(Some(request));
    calls := service.calls;
  }
}
