/**
Redis Streams with a consumer group and a dead-letter stream: one source stream, one group
on it, and the client functions that add, read, acknowledge and dead-letter messages.

Message ids are numbered in the order they are added, from 1; only their order matters.
A stream keeps a suffix of what was added, because XADD with an approximate MAXLEN removes
entries from the front.
*/
module Streams {
  import opened Common

  type Id = nat

  const STREAM_MAX_LEN := 10000

  datatype Stream<T> = Stream(trimmed: nat, entries: seq<T>) {
    function Added(): nat { trimmed + |entries| }

    predicate Present(i: Id) { trimmed < i <= Added() }

    function At(i: Id): T
      requires Present(i)
    {
      entries[i - trimmed - 1]
    }

    /**
    XADD MAXLEN ~ maxLen: append, then drop some entries from the front. How many is up to the
    server (it drops whole nodes), but it never goes below maxLen: wish is its choice, cut to that.
    */
    function XAdd(x: T, maxLen: nat, wish: nat): Stream<T> {
      var longer := entries + [x];
      var drop := Min(wish, Max(0, |longer| - maxLen));
      Stream(trimmed + drop, longer[drop..])
    }
  }

  /** Keys and values come back as bytes or as text, depending on the connection's decoding. */
  datatype Wire = Bytes(text: string) | Text(text: string)

  type Fields = map<Wire, Wire>

  datatype Group = Group(cursor: Id, pending: map<Id, string>)

  datatype DeadLetter = DeadLetter(originalId: Id, data: string, error: string)

  /** How a delivered message left the pending list. */
  datatype Fate = Acked | DeadLettered

  /**
  The server's state, and the history a theorem needs: the fates, the ids reads have returned
  since the group last came into being, and the original id of every dead letter ever added.
  */
  datatype World = World(
    source: Stream<Fields>, group: Option<Group>, dlq: Stream<DeadLetter>,
    fates: map<Id, Fate>, deliveries: seq<Id>, dlqLog: seq<Id>)

  const EMPTY := World(Stream(0, []), None, Stream(0, []), map[], [], [])

  // ---------------------------------------------------------------------------
  // The server's commands
  // ---------------------------------------------------------------------------

  function Added(w: World, fields: Fields, maxLen: nat, wish: nat): World {
    w.(source := w.source.XAdd(fields, maxLen, wish))
  }

  /** The id after which a group created with start_id begins: "0" is From(0), "$" is the last id. */
  datatype Start = From(id: Id) | Latest

  function Created(w: World, start: Start): World {
    if w.group.Some? then w
    else w.(group := Some(Group(if start.Latest? then w.source.Added() else start.id, map[])))
  }

  /** The ids XREADGROUP ">" returns: the first count present ones after the cursor. */
  function Fetch(w: World, count: nat): (ids: seq<Id>)
    requires w.group.Some?
    ensures forall k :: 0 <= k < |ids| ==> w.source.Present(ids[k])
  {
    var from := Max(w.group.value.cursor, w.source.trimmed);
    seq(Min(count, Max(0, w.source.Added() - from)), k requires 0 <= k => from + 1 + k)
  }

  function Delivered(w: World, consumer: string, count: nat): World {
    if w.group.None? then Created(w, From(0))
    else
      var ids := Fetch(w, count);
      if ids == [] then w
      else
        var g := w.group.value;
        w.(group := Some(Group(ids[|ids| - 1], g.pending + map i | i in ids :: consumer)),
           deliveries := w.deliveries + ids)
  }

  predicate IsPending(w: World, id: Id) {
    w.group.Some? && id in w.group.value.pending
  }

  /** XACK takes the id off the pending list; the caller's reason is the message's fate. */
  function Settled(w: World, id: Id, fate: Fate): World {
    if IsPending(w, id) then
      w.(group := Some(w.group.value.(pending := w.group.value.pending - {id})), fates := w.fates[id := fate])
    else w
  }

  function Copied(w: World, letter: DeadLetter, wish: nat): World {
    w.(dlq := w.dlq.XAdd(letter, STREAM_MAX_LEN, wish), dlqLog := w.dlqLog + [letter.originalId])
  }

  /** Someone destroys the group: its cursor and pending list are gone, present messages are open again. */
  function GroupLost(w: World): World {
    w.(group := None, deliveries := [], fates := map i | i in w.fates && !w.source.Present(i) :: w.fates[i])
  }

  // ---------------------------------------------------------------------------
  // Runs
  // ---------------------------------------------------------------------------

  datatype Op =
    | Add(fields: Fields, maxLen: nat, wish: nat)
    | Create(start: Start)
    | Read(consumer: string, count: nat)
    | Ack(id: Id)
    | MoveToDeadLetter(letter: DeadLetter, wish: nat, crashBeforeAck: bool)
    | LoseGroup

  function Step(w: World, op: Op): World {
    match op
    case Add(fields, maxLen, wish) => Added(w, fields, maxLen, wish)
    case Create(start) => Created(w, start)
    case Read(consumer, count) => if count < 1 then w else Delivered(w, consumer, count)
    case Ack(id) => Settled(w, id, Acked)
    case MoveToDeadLetter(letter, wish, crash) =>
      var copied := Copied(w, letter, wish);
      if crash then copied else Settled(copied, letter.originalId, DeadLettered)
    case LoseGroup => GroupLost(w)
  }

  function Run(w: World, ops: seq<Op>): World
    decreases |ops|
  {
    if ops == [] then w else Run(Step(w, ops[0]), ops[1..])
  }

  // ---------------------------------------------------------------------------
  // Where a message is
  // ---------------------------------------------------------------------------

  predicate Undelivered(w: World, i: Id) {
    w.source.Present(i) && (w.group.None? || w.group.value.cursor < i)
  }

  predicate IsAcked(w: World, i: Id) { i in w.fates && w.fates[i].Acked? }

  predicate IsDeadLettered(w: World, i: Id) { i in w.fates && w.fates[i].DeadLettered? }

  /** Removed from the stream before any read returned it (or, after a group loss, before any read returned it again). */
  predicate Trimmed(w: World, i: Id) {
    1 <= i <= w.source.trimmed && i !in w.deliveries && i !in w.fates
  }

  function Count(b: bool): nat { if b then 1 else 0 }

  /** How many of the five places claim message i. */
  function Places(w: World, i: Id): nat {
    Count(Trimmed(w, i)) + Count(Undelivered(w, i)) + Count(IsPending(w, i)) + Count(IsAcked(w, i)) + Count(IsDeadLettered(w, i))
  }

  ghost predicate StrictlyIncreasing(s: seq<Id>) {
    forall a, b :: 0 <= a < b < |s| ==> s[a] < s[b]
  }

  /** What was delivered: in order, up to the cursor, and settled once it is no longer pending. */
  ghost predicate DeliveryInv(w: World) {
    && StrictlyIncreasing(w.deliveries)
    && (forall i :: i in w.deliveries ==> w.group.Some? && 1 <= i <= w.source.Added() && i <= w.group.value.cursor)
    && (forall i :: i in w.deliveries ==> (i in w.fates <==> !IsPending(w, i)))
    && (forall i :: IsPending(w, i) ==> i in w.deliveries)
    && (forall i :: i in w.fates ==> 1 <= i <= w.source.Added() && (i in w.deliveries || i <= w.source.trimmed))
  }

  /** The dead-letter stream is the end of its log, and every dead-lettered message is in the log. */
  ghost predicate DeadLetterInv(fates: map<Id, Fate>, dlq: Stream<DeadLetter>, dlqLog: seq<Id>) {
    && (forall i :: i in fates && fates[i].DeadLettered? ==> i in dlqLog)
    && |dlqLog| == dlq.Added()
    && (forall k :: 0 <= k < |dlq.entries| ==> dlq.entries[k].originalId == dlqLog[dlq.trimmed + k])
    && (dlq.trimmed == 0 || |dlq.entries| >= STREAM_MAX_LEN)
  }

  ghost predicate Inv(w: World) {
    DeliveryInv(w) && DeadLetterInv(w.fates, w.dlq, w.dlqLog)
  }

  lemma XAddEntries<T>(s: Stream<T>, x: T, maxLen: nat, wish: nat)
    ensures var t := s.XAdd(x, maxLen, wish);
            && t.Added() == s.Added() + 1 && s.trimmed <= t.trimmed
            && (forall i :: t.Present(i) ==> t.At(i) == if i == t.Added() then x else s.At(i))
            && (t.trimmed == s.trimmed || |t.entries| >= maxLen)
            && |t.entries| <= |s.entries| + 1
  {
  }

  lemma AddKeeps(w: World, fields: Fields, maxLen: nat, wish: nat)
    requires Inv(w)
    ensures Inv(Added(w, fields, maxLen, wish))
  {
    XAddEntries(w.source, fields, maxLen, wish);
  }

  lemma CreateKeeps(w: World, start: Start)
    requires Inv(w)
    ensures Inv(Created(w, start))
  {
  }

  /** A read fetches the ids right after the cursor, none of them delivered or settled before. */
  lemma FetchIsNew(w: World, count: nat)
    requires DeliveryInv(w) && w.group.Some?
    ensures var ids, from := Fetch(w, count), Max(w.group.value.cursor, w.source.trimmed);
            && (forall k :: 0 <= k < |ids| ==> ids[k] == from + 1 + k)
            && forall i :: i in ids ==> i !in w.fates && i !in w.deliveries && from < i <= from + |ids|
  {
    var ids, from := Fetch(w, count), Max(w.group.value.cursor, w.source.trimmed);
    forall i | i in ids
      ensures i !in w.fates && i !in w.deliveries && from < i <= from + |ids|
    {
      var k :| 0 <= k < |ids| && ids[k] == i;
    }
  }

  lemma ReadKeeps(w: World, consumer: string, count: nat)
    requires Inv(w)
    ensures Inv(Delivered(w, consumer, count))
  {
    hide DeadLetterInv;
    if w.group.None? {
      CreateKeeps(w, From(0));
    } else if Fetch(w, count) != [] {
      var ids, from := Fetch(w, count), Max(w.group.value.cursor, w.source.trimmed);
      FetchIsNew(w, count);
      assert ids[|ids| - 1] == from + |ids|;
      DeliveriesGrow(w, ids, from);
      hide Fetch, StrictlyIncreasing;
    }
  }

  lemma DeliveriesGrow(w: World, ids: seq<Id>, from: Id)
    requires StrictlyIncreasing(w.deliveries) && forall k :: 0 <= k < |ids| ==> ids[k] == from + 1 + k
    requires forall i :: i in w.deliveries ==> i <= from
    ensures StrictlyIncreasing(w.deliveries + ids)
  {
    var d := w.deliveries;
    forall a, b | 0 <= a < b < |d + ids|
      ensures (d + ids)[a] < (d + ids)[b]
    {
      if a < |d| { assert d[a] in d; }
    }
  }

  lemma SettleKeeps(w: World, id: Id, fate: Fate)
    requires Inv(w) && (fate.DeadLettered? ==> id in w.dlqLog)
    ensures Inv(Settled(w, id, fate))
  {
  }

  lemma CopyKeeps(w: World, letter: DeadLetter, wish: nat)
    requires Inv(w)
    ensures Inv(Copied(w, letter, wish)) && letter.originalId in Copied(w, letter, wish).dlqLog
  {
    var v := Copied(w, letter, wish);
    LettersMatchLog(w.dlq, w.dlqLog, letter, wish);
    assert v.dlqLog[|v.dlqLog| - 1] == letter.originalId;
    assert forall i :: i in w.dlqLog ==> i in v.dlqLog;
  }

  lemma LettersMatchLog(dlq: Stream<DeadLetter>, log: seq<Id>, letter: DeadLetter, wish: nat)
    requires |log| == dlq.Added() && (dlq.trimmed == 0 || |dlq.entries| >= STREAM_MAX_LEN)
    requires forall k :: 0 <= k < |dlq.entries| ==> dlq.entries[k].originalId == log[dlq.trimmed + k]
    ensures var t := dlq.XAdd(letter, STREAM_MAX_LEN, wish);
            && |log| + 1 == t.Added() && (t.trimmed == 0 || |t.entries| >= STREAM_MAX_LEN)
            && forall k :: 0 <= k < |t.entries| ==> t.entries[k].originalId == (log + [letter.originalId])[t.trimmed + k]
  {
  }

  lemma LossKeeps(w: World)
    requires Inv(w)
    ensures Inv(GroupLost(w))
  {
  }

  lemma StepKeeps(w: World, op: Op)
    requires Inv(w)
    ensures Inv(Step(w, op))
  {
    hide Inv;
    match op
    case Add(fields, maxLen, wish) => AddKeeps(w, fields, maxLen, wish);
    case Create(start) => CreateKeeps(w, start);
    case Read(consumer, count) => ReadKeeps(w, consumer, count);
    case Ack(id) => SettleKeeps(w, id, Acked);
    case MoveToDeadLetter(letter, wish, crash) =>
      CopyKeeps(w, letter, wish);
      SettleKeeps(Copied(w, letter, wish), letter.originalId, DeadLettered);
    case LoseGroup => LossKeeps(w);
  }

  lemma {:induction false} RunKeeps(w: World, ops: seq<Op>)
    requires Inv(w)
    ensures Inv(Run(w, ops))
    decreases |ops|
  {
    if ops != [] {
      StepKeeps(w, ops[0]);
      RunKeeps(Step(w, ops[0]), ops[1..]);
    }
  }

  // ---------------------------------------------------------------------------
  // Exactly one place
  // ---------------------------------------------------------------------------

  /** Where the current group began, after one more operation: the id it was created after. */
  function StartAfter(w: World, start: Id, op: Op): Id {
    if w.group.Some? then start
    else
      match op
      case Create(From(id)) => id
      case Create(Latest) => w.source.Added()
      case Read(_, count) => if count >= 1 then 0 else start
      case _ => start
  }

  /** Where the group that stands at the end of a run began. */
  function StartOf(w: World, start: Id, ops: seq<Op>): Id
    decreases |ops|
  {
    if ops == [] then start else StartOf(Step(w, ops[0]), StartAfter(w, start, ops[0]), ops[1..])
  }

  /** In the stream, at or before the point where the group began. */
  predicate PassedOver(w: World, start: Id, i: Id) {
    w.source.Present(i) && w.group.Some? && i <= start
  }

  /** The cursor has moved from start by reads only, and those returned every present message on the way. */
  ghost predicate StartInv(w: World, start: Id) {
    w.group.Some? ==>
      && start <= w.group.value.cursor
      && (w.group.value.cursor == start || w.group.value.cursor <= w.source.Added())
      && (forall i :: i in w.deliveries ==> start < i)
      && (forall i: Id :: w.source.Present(i) && start < i <= w.group.value.cursor ==> i in w.deliveries)
  }

  lemma StepStart(w: World, start: Id, op: Op)
    requires Inv(w) && StartInv(w, start)
    ensures StartInv(Step(w, op), StartAfter(w, start, op))
  {
    var v := Step(w, op);
    match op
    case Add(fields, maxLen, wish) => XAddEntries(w.source, fields, maxLen, wish);
    case Read(consumer, count) =>
      if count >= 1 && w.group.Some? {
        forall i: Id
          ensures v.source.Present(i) && w.group.value.cursor < i <= v.group.value.cursor ==> i in v.deliveries
        {
          ReadReaches(w, consumer, count, i);
        }
      }
    case _ =>
  }

  /** A read returns every present message between the old cursor and the new one. */
  lemma ReadReaches(w: World, consumer: string, count: nat, i: Id)
    requires w.group.Some?
    ensures var v := Delivered(w, consumer, count);
            v.group.Some? && (v.source.Present(i) && w.group.value.cursor < i <= v.group.value.cursor ==> i in v.deliveries)
  {
    var ids := Fetch(w, count);
    if ids != [] && w.source.Present(i) && w.group.value.cursor < i <= ids[|ids| - 1] {
      var from := Max(w.group.value.cursor, w.source.trimmed);
      assert ids[i - from - 1] == i;
    }
  }

  lemma {:induction false} RunStart(w: World, start: Id, ops: seq<Op>)
    requires Inv(w) && StartInv(w, start)
    ensures Inv(Run(w, ops)) && StartInv(Run(w, ops), StartOf(w, start, ops))
    decreases |ops|
  {
    hide Inv, StartInv, Step;
    if ops != [] {
      StepKeeps(w, ops[0]);
      StepStart(w, start, ops[0]);
      RunStart(Step(w, ops[0]), StartAfter(w, start, ops[0]), ops[1..]);
    }
  }

  /**
  In every reachable state a message is in exactly one of the five places, unless it is still in the
  stream at or before the point where its group began; such a message is in none.
  */
  lemma EveryMessageInOnePlace(ops: seq<Op>, i: Id)
    requires 1 <= i <= Run(EMPTY, ops).source.Added()
    ensures var w := Run(EMPTY, ops); Places(w, i) == if PassedOver(w, StartOf(EMPTY, 0, ops), i) then 0 else 1
  {
    RunStart(EMPTY, 0, ops);
  }

  /** The five places hold every message exactly when the group did not begin inside what is still in the stream. */
  lemma NoMessageSkippedIff(ops: seq<Op>)
    ensures var w, start := Run(EMPTY, ops), StartOf(EMPTY, 0, ops);
            (forall i :: 1 <= i <= w.source.Added() ==> Places(w, i) == 1)
            <==> w.group.None? || w.source.entries == [] || start <= w.source.trimmed
  {
    hide Places, Run, StartOf;
    var w, start := Run(EMPTY, ops), StartOf(EMPTY, 0, ops);
    forall i | 1 <= i <= w.source.Added()
      ensures Places(w, i) == if PassedOver(w, start, i) then 0 else 1
    {
      EveryMessageInOnePlace(ops, i);
    }
    if w.group.Some? && w.source.entries != [] && start > w.source.trimmed {
      assert PassedOver(w, start, w.source.trimmed + 1);
    }
  }

  /** Every creation in the run starts the group at "0", the default. */
  predicate StartsAtZero(ops: seq<Op>) {
    forall k :: 0 <= k < |ops| && ops[k].Create? ==> ops[k].start == From(0)
  }

  lemma {:induction false} StartIsZero(w: World, ops: seq<Op>)
    requires StartsAtZero(ops)
    ensures StartOf(w, 0, ops) == 0
    decreases |ops|
  {
    hide Step;
    if ops != [] {
      StartIsZero(Step(w, ops[0]), ops[1..]);
    }
  }

  /** So with groups created at the default start only, every message is in exactly one of the five places. */
  lemma NoMessageSkipped(ops: seq<Op>, i: Id)
    requires StartsAtZero(ops) && 1 <= i <= Run(EMPTY, ops).source.Added()
    ensures Places(Run(EMPTY, ops), i) == 1
  {
    StartIsZero(EMPTY, ops);
    EveryMessageInOnePlace(ops, i);
  }

  /** A group created at "$" does leave out what was added before it. */
  lemma LatestSkips(fields: Fields)
    ensures Places(Run(EMPTY, [Add(fields, STREAM_MAX_LEN, 0), Create(Latest)]), 1) == 0
  {
    var w := Step(EMPTY, Add(fields, STREAM_MAX_LEN, 0));
    assert Run(w, [Create(Latest)]) == Step(w, Create(Latest)) by {
      assert [Create(Latest)][1..] == [];
    }
    assert [Add(fields, STREAM_MAX_LEN, 0), Create(Latest)][1..] == [Create(Latest)];
  }

  // ---------------------------------------------------------------------------
  // Conservation
  // ---------------------------------------------------------------------------

  ghost function Ids(w: World): (s: set<Id>)
    ensures |s| == w.source.Added()
  {
    Interval(w.source.Added())
  }

  ghost function Interval(n: nat): (s: set<Id>)
    ensures |s| == n
    ensures forall i :: i in s <==> 1 <= i <= n
  {
    if n == 0 then {} else Interval(n - 1) + {n}
  }

  ghost function Where(w: World, p: (World, Id) -> bool): set<Id> {
    set i | i in Ids(w) && p(w, i)
  }

  /** How many messages still in the stream the group began after. */
  function PassedOverCount(w: World, start: Id): nat {
    if w.group.None? then 0 else Max(0, Min(start, w.source.Added()) - w.source.trimmed)
  }

  /**
  Nothing is lost or doubled: the five places together hold as many messages as were ever added,
  less those the group began after.
  */
  lemma MessagesConserved(ops: seq<Op>)
    ensures var w := Run(EMPTY, ops);
            |Where(w, Trimmed)| + |Where(w, Undelivered)| + |Where(w, IsPending)| + |Where(w, IsAcked)| + |Where(w, IsDeadLettered)|
            == w.source.Added() - PassedOverCount(w, StartOf(EMPTY, 0, ops))
  {
    hide Places, Run, StartOf;
    var w, start := Run(EMPTY, ops), StartOf(EMPTY, 0, ops);
    forall i | i in Ids(w)
      ensures Places(w, i) == if PassedOver(w, start, i) then 0 else 1
    {
      EveryMessageInOnePlace(ops, i);
    }
    PlacesPartition(w, start);
    PassedOverSize(w, start);
  }

  ghost function PassedOverSet(w: World, start: Id): set<Id> {
    set i | i in Ids(w) && PassedOver(w, start, i)
  }

  lemma PassedOverSize(w: World, start: Id)
    ensures |PassedOverSet(w, start)| == PassedOverCount(w, start)
  {
    var passed, last := PassedOverSet(w, start), Min(start, w.source.Added());
    if w.group.None? || last <= w.source.trimmed {
      assert passed == {};
    } else {
      var trimmed := Interval(w.source.trimmed);
      assert forall i :: i in passed <==> i in Interval(last) && i !in trimmed;
      assert Interval(last) == passed + trimmed && passed !! trimmed;
    }
  }

  lemma PlacesPartition(w: World, start: Id)
    requires forall i :: i in Ids(w) ==> Places(w, i) == if PassedOver(w, start, i) then 0 else 1
    ensures |Where(w, Trimmed)| + |Where(w, Undelivered)| + |Where(w, IsPending)| + |Where(w, IsAcked)| + |Where(w, IsDeadLettered)|
            == w.source.Added() - |PassedOverSet(w, start)|
  {
    var a, b, c, d, e := Where(w, Trimmed), Where(w, Undelivered), Where(w, IsPending), Where(w, IsAcked), Where(w, IsDeadLettered);
    var placed := Ids(w) - PassedOverSet(w, start);
    hide PassedOver, Trimmed, Undelivered, IsPending, IsAcked, IsDeadLettered;
    forall i: Id
      ensures InOne(i, placed, a, b, c, d, e)
    {
      assert i in Ids(w) ==> Places(w, i) == if PassedOver(w, start, i) then 0 else 1;
    }
    DisjointSizes(placed, a, b, c, d, e);
    assert PassedOverSet(w, start) <= Ids(w);
  }

  predicate InOne(i: Id, all: set<Id>, a: set<Id>, b: set<Id>, c: set<Id>, d: set<Id>, e: set<Id>) {
    Count(i in a) + Count(i in b) + Count(i in c) + Count(i in d) + Count(i in e) == Count(i in all)
  }

  lemma DisjointSizes(all: set<Id>, a: set<Id>, b: set<Id>, c: set<Id>, d: set<Id>, e: set<Id>)
    requires forall i: Id :: InOne(i, all, a, b, c, d, e)
    ensures |a| + |b| + |c| + |d| + |e| == |all|
  {
    var de, cde, bcde := d + e, c + d + e, b + c + d + e;
    forall i: Id
      ensures (i in all <==> i in a || i in bcde) && !(i in a && i in bcde) && !(i in b && i in cde) && !(i in c && i in de) && !(i in d && i in e)
    {
      assert InOne(i, all, a, b, c, d, e);
    }
    hide InOne;
    SplitSize(all, a, bcde);
    SplitSize(bcde, b, cde);
    SplitSize(cde, c, de);
    SplitSize(de, d, e);
  }

  lemma SplitSize(all: set<Id>, a: set<Id>, rest: set<Id>)
    requires (forall i :: i in all <==> i in a || i in rest) && forall i :: !(i in a && i in rest)
    ensures |all| == |a| + |rest|
  {
    assert all == a + rest && a !! rest;
  }

  // ---------------------------------------------------------------------------
  // At least once
  // ---------------------------------------------------------------------------

  /** An operation that can take message i off the pending list. */
  predicate Settles(op: Op, i: Id) {
    || (op.Ack? && op.id == i)
    || (op.MoveToDeadLetter? && op.letter.originalId == i && !op.crashBeforeAck)
    || op.LoseGroup?
  }

  /** A pending message stays pending through everything but its own XACK or the loss of the group. */
  lemma {:induction false} PendingUntilSettled(w: World, ops: seq<Op>, i: Id)
    requires Inv(w) && IsPending(w, i) && forall k :: 0 <= k < |ops| ==> !Settles(ops[k], i)
    ensures IsPending(Run(w, ops), i)
    decreases |ops|
  {
    if ops != [] {
      StepKeeps(w, ops[0]);
      assert !Settles(ops[0], i);
      PendingUntilSettled(Step(w, ops[0]), ops[1..], i);
    }
  }

  /** A crash between the dead-letter XADD and the XACK leaves the message pending, with its copy last in the dead-letter stream. */
  lemma CrashLeavesPendingAndCopy(ops: seq<Op>, letter: DeadLetter, wish: nat)
    requires IsPending(Run(EMPTY, ops), letter.originalId)
    ensures var v := Step(Run(EMPTY, ops), MoveToDeadLetter(letter, wish, true));
            && IsPending(v, letter.originalId)
            && v.dlq.Present(v.dlq.Added()) && v.dlq.At(v.dlq.Added()) == letter
  {
    var w := Run(EMPTY, ops);
    XAddEntries(w.dlq, letter, STREAM_MAX_LEN, wish);
    var t := w.dlq.XAdd(letter, STREAM_MAX_LEN, wish);
    assert |t.entries| >= 1;
  }

  /**
  A dead-lettered message is never lost: its copy was added to the dead-letter stream, and is still
  there unless 10000 or more letters followed it.
  */
  lemma DeadLetterHasCopy(ops: seq<Op>, i: Id) returns (k: Id)
    requires IsDeadLettered(Run(EMPTY, ops), i)
    ensures var dlq := Run(EMPTY, ops).dlq;
            && 1 <= k <= dlq.Added() == |Run(EMPTY, ops).dlqLog| && Run(EMPTY, ops).dlqLog[k - 1] == i
            && (dlq.Added() - k < 10000 ==> dlq.Present(k) && dlq.At(k).originalId == i)
  {
    var w := Run(EMPTY, ops);
    RunKeeps(EMPTY, ops);
    var p :| 0 <= p < |w.dlqLog| && w.dlqLog[p] == i;
    k := p + 1;
    if w.dlq.Added() - k < STREAM_MAX_LEN {
      assert w.dlq.Present(k);
      assert w.dlq.entries[k - w.dlq.trimmed - 1].originalId == w.dlqLog[k - 1];
    }
  }

  /** Without a group loss, the reads of a run return every id at most once, in increasing order. */
  lemma ReadsAreInOrder(ops: seq<Op>)
    ensures StrictlyIncreasing(Run(EMPTY, ops).deliveries)
  {
    RunKeeps(EMPTY, ops);
  }

  lemma {:induction false} DeliveriesOnlyGrow(w: World, ops: seq<Op>)
    requires forall k :: 0 <= k < |ops| ==> !ops[k].LoseGroup?
    ensures w.deliveries <= Run(w, ops).deliveries
    decreases |ops|
  {
    if ops != [] {
      DeliveriesOnlyGrow(Step(w, ops[0]), ops[1..]);
    }
  }

  /** Losing the group opens every message still in the stream again: at least once, not exactly once. */
  lemma GroupLossRedelivers(ops: seq<Op>, i: Id)
    requires Run(EMPTY, ops).source.Present(i)
    ensures var v := Step(Step(Run(EMPTY, ops), LoseGroup), Create(From(0)));
            Undelivered(v, i) && Places(v, i) == 1
  {
    var w := Run(EMPTY, ops);
    RunKeeps(EMPTY, ops);
    StepKeeps(w, LoseGroup);
    StepKeeps(Step(w, LoseGroup), Create(From(0)));
  }

  // ---------------------------------------------------------------------------
  // Trimming
  // ---------------------------------------------------------------------------

  predicate MaxLenAtLeast(ops: seq<Op>, m: nat) {
    forall k :: 0 <= k < |ops| && ops[k].Add? ==> ops[k].maxLen >= m
  }

  predicate KeepsTail(w: World, m: nat) {
    w.source.trimmed == 0 || |w.source.entries| >= m
  }

  lemma {:induction false} RunKeepsTail(w: World, ops: seq<Op>, m: nat)
    requires KeepsTail(w, m) && MaxLenAtLeast(ops, m)
    ensures KeepsTail(Run(w, ops), m)
    decreases |ops|
  {
    if ops != [] {
      if ops[0].Add? {
        XAddEntries(w.source, ops[0].fields, ops[0].maxLen, ops[0].wish);
      }
      RunKeepsTail(Step(w, ops[0]), ops[1..], m);
    }
  }

  /** While fewer than max_len messages follow it, a message is not trimmed. */
  lemma RecentNeverTrimmed(ops: seq<Op>, m: nat, i: Id)
    requires MaxLenAtLeast(ops, m) && 1 <= i <= Run(EMPTY, ops).source.Added() < i + m
    ensures Run(EMPTY, ops).source.Present(i) && !Trimmed(Run(EMPTY, ops), i)
  {
    RunKeepsTail(EMPTY, ops, m);
  }

  // ---------------------------------------------------------------------------
  // What a read takes
  // ---------------------------------------------------------------------------

  /** A read takes the oldest undelivered messages, count of them or all there are, and they are the consumer's to settle. */
  lemma ReadTakesOldest(w: World, consumer: string, count: nat)
    requires w.group.Some? && count >= 1
    ensures var v := Step(w, Read(consumer, count));
            var taken := v.deliveries[|w.deliveries|..];
            && w.deliveries <= v.deliveries && |taken| <= count
            && (forall i :: i in taken ==> Undelivered(w, i) && !Undelivered(v, i) && IsPending(v, i) && v.group.value.pending[i] == consumer)
            && (forall i, j :: i in taken && Undelivered(w, j) && j !in taken ==> i < j)
            && (|taken| < count ==> forall i :: !Undelivered(v, i))
  {
    var v := Step(w, Read(consumer, count));
    var ids, from := Fetch(w, count), Max(w.group.value.cursor, w.source.trimmed);
    assert forall k :: 0 <= k < |ids| ==> ids[k] == from + 1 + k;
    forall i: Id
      ensures i in ids <==> from < i <= from + |ids|
    {
      if from < i <= from + |ids| {
        assert ids[i - from - 1] == i;
      }
    }
    assert |ids| == Min(count, Max(0, w.source.Added() - from));
    hide Fetch;
    assert v == Delivered(w, consumer, count);
    assert v.deliveries[|w.deliveries|..] == ids;
  }
}
