/**
The client functions over the streams: each changes the server's state by its commands and can
be cut off by a connection error before a command ran, or after it ran but before its reply.
*/
module StreamClient {
  import opened Common
  import opened Streams

  /** RedisServiceError: every failure surfaces as this. */
  datatype ServiceError = ServiceError

  /** Where the connection breaks, if it does. */
  datatype Fault = NoFault | Unreached | ReplyLost

  /** A dead-letter move sends two commands, so it can also break between them. */
  datatype MoveFault = MoveOk | MoveUnreached | BetweenCommands | AckReplyLost

  datatype Parsed<+J> = Json(value: J) | ParseError(raw: string)

  function RawData(fields: Fields): string {
    var key := if Bytes("data") in fields then Bytes("data") else Text("data");
    if key in fields then fields[key].text else "{}"
  }

  function Parse<J>(parse: string -> Option<J>, fields: Fields): Parsed<J> {
    match parse(RawData(fields))
    case Some(value) => Json(value)
    case None => ParseError(RawData(fields))
  }

  function EntriesOf(source: Stream<Fields>, ids: seq<Id>): (entries: seq<(Id, Fields)>)
    requires forall k :: 0 <= k < |ids| ==> source.Present(ids[k])
    ensures |entries| == |ids|
    ensures forall k :: 0 <= k < |ids| ==> entries[k] == (ids[k], source.At(ids[k]))
  {
    seq(|ids|, k requires 0 <= k < |ids| => (ids[k], source.At(ids[k])))
  }

  /** One tuple per id, in order. */
  ghost predicate ReportsExactly<J>(result: seq<(Id, Parsed<J>)>, source: Stream<Fields>, ids: seq<Id>, parse: string -> Option<J>)
    requires forall k :: 0 <= k < |ids| ==> source.Present(ids[k])
  {
    && |result| == |ids|
    && forall k :: 0 <= k < |ids| ==> result[k] == (ids[k], Parse(parse, source.At(ids[k])))
  }

  // ---------------------------------------------------------------------------
  // Round trip
  // ---------------------------------------------------------------------------

  /** What a connection sees of a text: text when it decodes responses, bytes when it does not. */
  function Wired(decodes: bool, text: string): Wire {
    if decodes then Text(text) else Bytes(text)
  }

  /** The one field add_to_stream writes. */
  function Payload(decodes: bool, json: string): Fields {
    map[Wired(decodes, "data") := Wired(decodes, json)]
  }

  /** A run in which messages are added by add_to_stream alone, under either decoding. */
  datatype Call = AddJson(decodes: bool, json: string, maxLen: nat, wish: nat) | Server(op: ServerOp)

  type ServerOp = op: Op | !op.Add? witness LoseGroup

  function OpOf(call: Call): Op {
    match call
    case AddJson(decodes, json, maxLen, wish) => Add(Payload(decodes, json), maxLen, wish)
    case Server(op) => op
  }

  function OpsOf(calls: seq<Call>): seq<Op> {
    if calls == [] then [] else [OpOf(calls[0])] + OpsOf(calls[1..])
  }

  /** The JSON texts the run added, in order: text k belongs to message k + 1. */
  function Texts(calls: seq<Call>): seq<string> {
    if calls == [] then []
    else (if calls[0].AddJson? then [calls[0].json] else []) + Texts(calls[1..])
  }

  predicate IsPayload(fields: Fields, json: string) {
    fields == Payload(true, json) || fields == Payload(false, json)
  }

  /** Each message in the stream is the payload of its text. */
  ghost predicate Holds(source: Stream<Fields>, texts: seq<string>) {
    && source.Added() == |texts|
    && forall i :: source.Present(i) ==> IsPayload(source.At(i), texts[i - 1])
  }

  lemma StepHolds(w: World, call: Call, texts: seq<string>)
    requires Holds(w.source, texts)
    ensures Holds(Step(w, OpOf(call)).source, texts + Texts([call]))
  {
    hide Payload;
    if call.AddJson? {
      var v := Step(w, OpOf(call));
      XAddEntries(w.source, Payload(call.decodes, call.json), call.maxLen, call.wish);
      forall i | v.source.Present(i)
        ensures IsPayload(v.source.At(i), (texts + [call.json])[i - 1])
      {
        if i == v.source.Added() {
          assert IsPayload(Payload(call.decodes, call.json), call.json);
        } else {
          assert w.source.Present(i);
        }
      }
    }
  }

  lemma {:induction false} RunHolds(w: World, calls: seq<Call>, texts: seq<string>)
    requires Holds(w.source, texts)
    ensures Holds(Run(w, OpsOf(calls)).source, texts + Texts(calls))
    decreases |calls|
  {
    hide Holds, Step, OpOf;
    if calls == [] {
      assert texts + [] == texts;
    } else {
      var ops := OpsOf(calls);
      StepHolds(w, calls[0], texts);
      RunHolds(Step(w, ops[0]), calls[1..], texts + Texts([calls[0]]));
      assert ops[1..] == OpsOf(calls[1..]);
      assert texts + Texts([calls[0]]) + Texts(calls[1..]) == texts + Texts(calls);
    }
  }

  /**
  What is added is what is read: for each id, a read answers the parse of the JSON text added under that
  id, or the wrapper holding exactly that text when it does not parse, whichever way the connections decode.
  */
  lemma ReadsWhatWasAdded<J>(calls: seq<Call>, parse: string -> Option<J>, ids: seq<Id>, result: seq<(Id, Parsed<J>)>)
    requires forall k :: 0 <= k < |ids| ==> Run(EMPTY, OpsOf(calls)).source.Present(ids[k])
    requires ReportsExactly(result, Run(EMPTY, OpsOf(calls)).source, ids, parse)
    ensures |Texts(calls)| == Run(EMPTY, OpsOf(calls)).source.Added()
    ensures |result| == |ids|
    ensures forall k :: 0 <= k < |ids| ==>
              var text := Texts(calls)[ids[k] - 1];
              result[k] == (ids[k], if parse(text).Some? then Json(parse(text).value) else ParseError(text))
  {
    assert Holds(EMPTY.source, []);
    RunHolds(EMPTY, calls, []);
    assert [] + Texts(calls) == Texts(calls);
    var source := Run(EMPTY, OpsOf(calls)).source;
    forall k | 0 <= k < |ids|
      ensures RawData(source.At(ids[k])) == Texts(calls)[ids[k] - 1]
    {
      PayloadReads(source.At(ids[k]), Texts(calls)[ids[k] - 1]);
    }
  }

  lemma PayloadReads(fields: Fields, json: string)
    requires IsPayload(fields, json)
    ensures RawData(fields) == json
  {
  }

  class Redis {
    /** decode_responses, True on the connection the repository opens. */
    const decodes: bool
    var source: Stream<Fields>
    var group: Option<Group>
    var dlq: Stream<DeadLetter>
    ghost var fates: map<Id, Fate>
    ghost var deliveries: seq<Id>
    ghost var dlqLog: seq<Id>

    ghost function Contents(): World
      reads this
    {
      World(source, group, dlq, fates, deliveries, dlqLog)
    }

    constructor (decodes: bool)
      ensures Contents() == EMPTY && this.decodes == decodes
    {
      this.decodes := decodes;
      source, group, dlq := Stream(0, []), None, Stream(0, []);
      fates, deliveries, dlqLog := map[], [], [];
    }

    method AddToStream(json: string, maxLen: nat, wish: nat, fault: Fault) returns (r: Result<Id, ServiceError>)
      modifies this
      ensures Contents() == if fault.Unreached? then old(Contents())
                            else Step(old(Contents()), OpOf(AddJson(decodes, json, maxLen, wish)))
      ensures r == if fault.NoFault? then Ok(old(source).Added() + 1) else Err(ServiceError)
    {
      if fault.Unreached? {
        return Err(ServiceError);
      }
      source := source.XAdd(map[Wired(decodes, "data") := Wired(decodes, json)], maxLen, wish);
      if fault.ReplyLost? {
        return Err(ServiceError);
      }
      return Ok(source.Added());
    }

    /** XGROUP CREATE MKSTREAM; an existing group answers BUSYGROUP, which is not an error. */
    method CreateConsumerGroup(start: Start, fault: Fault) returns (r: Result<bool, ServiceError>)
      modifies this
      ensures Contents() == if fault.Unreached? then old(Contents()) else Step(old(Contents()), Create(start))
      ensures r == if fault.NoFault? then Ok(old(group).None?) else Err(ServiceError)
    {
      if fault.Unreached? {
        return Err(ServiceError);
      }
      var created := group.None?;
      if created {
        group := Some(Group(if start.Latest? then source.Added() else start.id, map[]));
      }
      if fault.ReplyLost? {
        return Err(ServiceError);
      }
      return Ok(created);
    }

    /** XREADGROUP ">" on the one stream: at most one stream in the reply. */
    method XReadGroup(consumer: string, count: nat) returns (messages: seq<(string, seq<(Id, Fields)>)>)
      requires group.Some? && count >= 1
      modifies this
      ensures Contents() == Step(old(Contents()), Read(consumer, count))
      ensures var ids := Fetch(old(Contents()), count);
              if ids == [] then messages == []
              else |messages| == 1 && messages[0].1 == EntriesOf(old(source), ids)
    {
      var ids := Fetch(World(source, group, dlq, map[], [], []), count);
      assert ids == Fetch(Contents(), count);
      if ids == [] {
        return [];
      }
      var entries := EntriesOf(source, ids);
      group := Some(Group(ids[|ids| - 1], group.value.pending + map i | i in ids :: consumer));
      deliveries := deliveries + ids;
      return [("incoming_messages", entries)];
    }

    /**
    read_from_stream. A missing group is created and nothing is returned; a count below 1 is refused
    by the client library; otherwise one tuple comes back per delivered message, bad JSON or not.
    */
    method ReadFromStream<J>(parse: string -> Option<J>, consumer: string, count: nat, fault: Fault)
      returns (r: Result<seq<(Id, Parsed<J>)>, ServiceError>)
      modifies this
      ensures Contents() == if fault.Unreached? then old(Contents()) else Step(old(Contents()), Read(consumer, count))
      ensures r.Ok? <==> fault.NoFault? && count >= 1
      ensures r.Ok? && old(group).None? ==> r.value == []
      ensures r.Ok? && old(group).Some? ==> ReportsExactly(r.value, old(source), Fetch(old(Contents()), count), parse)
    {
      if fault.Unreached? || count < 1 {
        return Err(ServiceError);
      }
      if group.None? {
        var created := CreateConsumerGroup(From(0), fault);
        return if created.Ok? then Ok([]) else Err(ServiceError);
      }
      ghost var was, ids := source, Fetch(Contents(), count);
      var messages := XReadGroup(consumer, count);
      if fault.ReplyLost? {
        return Err(ServiceError);
      }
      var result: seq<(Id, Parsed<J>)> := [];
      for s := 0 to |messages|
        invariant s == 0 ==> result == []
        invariant s == 1 ==> ReportsExactly(result, was, ids, parse)
      {
        var streamMessages := messages[s].1;
        for m := 0 to |streamMessages|
          invariant |result| == m
          invariant forall k :: 0 <= k < m ==> result[k] == (ids[k], Parse(parse, was.At(ids[k])))
        {
          var id, fields: Fields := streamMessages[m].0, streamMessages[m].1;
          var dataKey := if Bytes("data") in fields then Bytes("data") else Text("data");
          var raw := if dataKey in fields then fields[dataKey].text else "{}";
          var parsed := parse(raw);
          result := result + [(id, if parsed.Some? then Json(parsed.value) else ParseError(raw))];
        }
      }
      return Ok(result);
    }

    method XAck(id: Id, ghost fate: Fate) returns (n: nat)
      modifies this
      ensures Contents() == Settled(old(Contents()), id, fate)
      ensures n == if IsPending(old(Contents()), id) then 1 else 0
    {
      if group.Some? && id in group.value.pending {
        group := Some(group.value.(pending := group.value.pending - {id}));
        fates := fates[id := fate];
        return 1;
      }
      return 0;
    }

    method AcknowledgeMessage(id: Id, fault: Fault) returns (r: Result<nat, ServiceError>)
      modifies this
      ensures Contents() == if fault.Unreached? then old(Contents()) else Step(old(Contents()), Ack(id))
      ensures r == if fault.NoFault? then Ok(if IsPending(old(Contents()), id) then 1 else 0) else Err(ServiceError)
    {
      if fault.Unreached? {
        return Err(ServiceError);
      }
      var n := XAck(id, Acked);
      return if fault.NoFault? then Ok(n) else Err(ServiceError);
    }

    /** XADD to the dead-letter stream, then XACK on the source; the error text is cut to 1000 characters. */
    method MoveToDeadLetter(id: Id, data: string, error: string, wish: nat, fault: MoveFault) returns (r: Result<Id, ServiceError>)
      modifies this
      ensures var letter := DeadLetter(id, data, if |error| > 1000 then error[..1000] else error);
              Contents() == if fault.MoveUnreached? then old(Contents())
                            else Step(old(Contents()), Op.MoveToDeadLetter(letter, wish, fault.BetweenCommands?))
      ensures r == if fault.MoveOk? then Ok(old(dlq).Added() + 1) else Err(ServiceError)
    {
      if fault.MoveUnreached? {
        return Err(ServiceError);
      }
      var letter := DeadLetter(id, data, if |error| > 1000 then error[..1000] else error);
      dlq := dlq.XAdd(letter, STREAM_MAX_LEN, wish);
      dlqLog := dlqLog + [id];
      var dlqId := dlq.Added();
      if fault.BetweenCommands? {
        return Err(ServiceError);
      }
      var n := XAck(id, DeadLettered);
      return if fault.MoveOk? then Ok(dlqId) else Err(ServiceError);
    }
  }
}
