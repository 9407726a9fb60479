/**
Chat polling: the thread of one client on the server, list_messages with its strict since filter,
and the page's local list with its since cursor. Requests do not overlap, and creation times in
the thread strictly increase.
*/
module Chat {
  import opened Common

  datatype Msg = Msg(createdAt: int, body: string)

  type Thread = seq<Msg>

  const PAGE := 50

  ghost predicate Increasing(s: seq<Msg>) {
    forall i, j :: 0 <= i < j < |s| ==> s[i].createdAt < s[j].createdAt
  }

  // ---------------------------------------------------------------------------
  // The server
  // ---------------------------------------------------------------------------

  predicate After(m: Msg, since: Option<int>) { since.Some? ==> m.createdAt > since.value }

  /** WHERE created_at > since, in thread order. */
  function Newer(thread: Thread, since: Option<int>): seq<Msg> {
    if thread == [] then []
    else (if After(thread[0], since) then [thread[0]] else []) + Newer(thread[1..], since)
  }

  /** list_messages: the newer messages, oldest first, cut to a page, and how many there are in all. */
  method ListMessages(thread: Thread, limit: nat, offset: nat, since: Option<int>) returns (rows: seq<Msg>, total: nat)
    ensures var newer := Newer(thread, since);
            && total == |newer|
            && rows == (if offset >= |newer| then [] else newer[offset..Min(offset + limit, |newer|)])
  {
    var stmt, countStmt := thread, thread;
    NewerOfAll(thread);
    if since.Some? {
      stmt, countStmt := Newer(thread, since), Newer(thread, since);
    }
    rows := if offset >= |stmt| then [] else stmt[offset..Min(offset + limit, |stmt|)];
    total := |countStmt|;
  }

  lemma {:induction false} NewerOfAll(thread: Thread)
    ensures Newer(thread, None) == thread
  {
    if thread != [] { NewerOfAll(thread[1..]); }
  }

  function FirstPage(s: seq<Msg>): seq<Msg> { s[..Min(PAGE, |s|)] }

  // ---------------------------------------------------------------------------
  // The page
  // ---------------------------------------------------------------------------

  datatype Local = Local(messages: seq<Msg>, since: Option<int>)

  const MOUNTED := Local([], None)

  function LastTime(items: seq<Msg>): int
    requires items != []
  {
    items[|items| - 1].createdAt
  }

  function Received(local: Local, items: seq<Msg>, initial: bool): Local {
    if items == [] then local
    else Local(if initial then items else local.messages + items, Some(LastTime(items)))
  }

  function Echoed(local: Local, sent: Msg): Local {
    Local(local.messages + [sent], Some(sent.createdAt))
  }

  class ChatPage {
    var messages: seq<Msg>
    var since: Option<int>

    ghost function Contents(): Local
      reads this
    {
      Local(messages, since)
    }

    constructor ()
      ensures Contents() == MOUNTED
    {
      messages, since := [], None;
    }

    /** loadMessages: a hidden page does not poll, and a failed request changes nothing. */
    method LoadMessages(initial: bool, visible: bool, fails: bool, thread: Thread)
      modifies this
      ensures Contents() == if (visible || initial) && !fails
                            then Received(old(Contents()), FirstPage(Newer(thread, if initial then None else old(since))), initial)
                            else old(Contents())
    {
      if (!visible && !initial) || fails { return; }
      var items, total := ListMessages(thread, PAGE, 0, if initial then None else since);
      if |items| > 0 {
        if initial {
          messages := items;
        } else {
          messages := messages + items;
        }
        since := Some(items[|items| - 1].createdAt);
      }
    }

    /** handleSend, from the server's answer on. */
    method HandleSent(sent: Msg)
      modifies this
      ensures Contents() == Echoed(old(Contents()), sent)
    {
      messages := messages + [sent];
      since := Some(sent.createdAt);
    }
  }

  // ---------------------------------------------------------------------------
  // Runs: the page and everyone else writing to the thread
  // ---------------------------------------------------------------------------

  datatype World = World(thread: Thread, local: Local)

  datatype Op =
    | Arrive(m: Msg)
    | Load(initial: bool, visible: bool, fails: bool)
    | Send(m: Msg, answered: bool)

  /** A message is committed later than all before it. */
  function Posted(thread: Thread, m: Msg): Thread {
    if thread == [] || LastTime(thread) < m.createdAt then thread + [m] else thread
  }

  function Step(w: World, op: Op): World {
    match op
    case Arrive(m) => w.(thread := Posted(w.thread, m))
    case Load(initial, visible, fails) =>
      if (visible || initial) && !fails
      then w.(local := Received(w.local, FirstPage(Newer(w.thread, if initial then None else w.local.since)), initial))
      else w
    case Send(m, answered) =>
      var thread := Posted(w.thread, m);
      World(thread, if answered && thread != w.thread then Echoed(w.local, m) else w.local)
  }

  function Run(w: World, ops: seq<Op>): World
    decreases |ops|
  {
    if ops == [] then w else Run(Step(w, ops[0]), ops[1..])
  }

  predicate CaughtUp(w: World) { w.local.messages == w.thread }

  /** A send that the server takes and answers. */
  predicate Lands(w: World, op: Op) {
    op.Send? && op.answered && Posted(w.thread, op.m) != w.thread
  }

  /** Every answered send of the run happens while the list is caught up. */
  predicate SendsCaughtUp(w: World, ops: seq<Op>)
    decreases |ops|
  {
    ops == [] || ((Lands(w, ops[0]) ==> CaughtUp(w)) && SendsCaughtUp(Step(w, ops[0]), ops[1..]))
  }

  // ---------------------------------------------------------------------------
  // Invariants
  // ---------------------------------------------------------------------------

  /** The cursor is the creation time of the last local message. */
  predicate CursorOk(l: Local) {
    l.since == if l.messages == [] then None else Some(LastTime(l.messages))
  }

  /** The cursor marks the local list's end, the list increases, and each of its messages is in the thread. */
  ghost predicate Inv(w: World) {
    && Increasing(w.thread) && Increasing(w.local.messages) && CursorOk(w.local)
    && forall m :: m in w.local.messages ==> m in w.thread
  }

  lemma {:induction false} AllNewer(thread: Thread, since: Option<int>)
    requires forall k :: 0 <= k < |thread| ==> After(thread[k], since)
    ensures Newer(thread, since) == thread
  {
    if thread != [] {
      AllNewer(thread[1..], since);
    }
  }

  /** In an increasing thread the newer messages are its tail. */
  lemma {:induction false} NewerIsTail(thread: Thread, since: Option<int>)
    requires Increasing(thread)
    ensures var newer := Newer(thread, since);
            && |newer| <= |thread| && newer == thread[|thread| - |newer|..]
            && forall k :: 0 <= k < |thread| ==> (After(thread[k], since) <==> k >= |thread| - |newer|)
  {
    if thread != [] {
      if After(thread[0], since) {
        AllNewer(thread, since);
      } else {
        NewerIsTail(thread[1..], since);
        assert Newer(thread, since) == Newer(thread[1..], since);
        assert forall k :: 1 <= k < |thread| ==> thread[k] == thread[1..][k - 1];
      }
    }
  }

  /** A poll on a gap-free prefix of the thread brings the next min(50, backlog) messages. */
  lemma PollAdvances(w: World)
    requires Inv(w) && w.local.messages <= w.thread
    ensures var v := Step(w, Load(false, true, false));
            v.local.messages == w.thread[..|w.local.messages| + Min(50, |w.thread| - |w.local.messages|)]
  {
    var n := |w.local.messages|;
    var newer := Newer(w.thread, w.local.since);
    NewerIsTail(w.thread, w.local.since);
    assert |newer| == |w.thread| - n by {
      if n > 0 {
        assert w.thread[n - 1] == w.local.messages[n - 1];
        assert !After(w.thread[n - 1], w.local.since);
      }
      if n < |w.thread| {
        assert After(w.thread[n], w.local.since);
      }
    }
    assert newer == w.thread[n..];
  }

  lemma StepKeeps(w: World, op: Op)
    requires Inv(w)
    ensures Inv(Step(w, op))
  {
    match op
    case Arrive(m) => PostKeeps(w.thread, m);
    case Load(initial, visible, fails) =>
      var since := if initial then None else w.local.since;
      FirstPageOk(w.thread, since);
      ReceivedKeeps(w, FirstPage(Newer(w.thread, since)), initial);
    case Send(m, answered) =>
      PostKeeps(w.thread, m);
      if answered && Posted(w.thread, m) != w.thread { EchoKeeps(w, m); }
  }

  lemma FirstPageOk(thread: Thread, since: Option<int>)
    requires Increasing(thread)
    ensures var items := FirstPage(Newer(thread, since));
            && Increasing(items) && (forall m :: m in items ==> m in thread)
            && forall k :: 0 <= k < |items| ==> After(items[k], since)
  {
    NewerIsTail(thread, since);
    var newer := Newer(thread, since);
    var items, from := FirstPage(newer), |thread| - |newer|;
    forall k | 0 <= k < |items|
      ensures items[k] == thread[from + k] && After(items[k], since)
    {
    }
  }

  lemma PostKeeps(thread: Thread, m: Msg)
    requires Increasing(thread)
    ensures Increasing(Posted(thread, m)) && thread <= Posted(thread, m)
    ensures forall x :: x in thread ==> x in Posted(thread, m)
  {
  }

  lemma ReceivedKeeps(w: World, items: seq<Msg>, initial: bool)
    requires Inv(w) && Increasing(items) && forall m :: m in items ==> m in w.thread
    requires !initial ==> forall k :: 0 <= k < |items| ==> After(items[k], w.local.since)
    ensures Inv(w.(local := Received(w.local, items, initial)))
  {
    if items != [] && !initial {
      JoinIncreasing(w.local.messages, items);
    }
  }

  lemma JoinIncreasing(a: seq<Msg>, b: seq<Msg>)
    requires Increasing(a) && Increasing(b) && (a != [] ==> forall k :: 0 <= k < |b| ==> LastTime(a) < b[k].createdAt)
    ensures Increasing(a + b)
  {
  }

  lemma EchoKeeps(w: World, m: Msg)
    requires Inv(w) && Posted(w.thread, m) != w.thread
    ensures Inv(World(Posted(w.thread, m), Echoed(w.local, m)))
  {
    PostKeeps(w.thread, m);
    var l := w.local.messages;
    if l != [] {
      assert l[|l| - 1] in w.thread;
      var k :| 0 <= k < |w.thread| && w.thread[k] == l[|l| - 1];
      assert w.thread[k].createdAt <= LastTime(w.thread);
    }
    JoinIncreasing(l, [m]);
    assert Posted(w.thread, m)[|w.thread|] == m;
  }

  lemma {:induction false} RunKeeps(w: World, ops: seq<Op>)
    requires Inv(w)
    ensures Inv(Run(w, ops))
    decreases |ops|
  {
    hide Inv, Step;
    if ops != [] {
      StepKeeps(w, ops[0]);
      RunKeeps(Step(w, ops[0]), ops[1..]);
    }
  }

  /** In every run the local list is strictly increasing, hence without duplicates, and made of thread messages. */
  lemma AlwaysIncreasing(thread: Thread, ops: seq<Op>)
    requires Increasing(thread)
    ensures var w := Run(World(thread, MOUNTED), ops);
            Increasing(w.local.messages) && forall m :: m in w.local.messages ==> m in w.thread
  {
    RunKeeps(World(thread, MOUNTED), ops);
  }

  // ---------------------------------------------------------------------------
  // Gap-free prefix
  // ---------------------------------------------------------------------------

  /** An answered send keeps the list a gap-free prefix exactly when the list was caught up. */
  lemma SendKeepsPrefixIffCaughtUp(w: World, m: Msg)
    requires Inv(w) && w.local.messages <= w.thread && Posted(w.thread, m) != w.thread
    ensures var v := Step(w, Send(m, true));
            v.local.messages <= v.thread <==> CaughtUp(w)
  {
    var v := Step(w, Send(m, true));
    var n := |w.local.messages|;
    if n < |w.thread| {
      assert v.local.messages[n] == m && v.thread[n] == w.thread[n];
      assert w.thread[n].createdAt <= LastTime(w.thread);
    }
  }

  lemma StepKeepsPrefix(w: World, op: Op)
    requires Inv(w) && w.local.messages <= w.thread && (Lands(w, op) ==> CaughtUp(w))
    ensures Step(w, op).local.messages <= Step(w, op).thread
  {
    hide Newer, Increasing, CursorOk;
    match op
    case Arrive(m) => PostKeeps(w.thread, m);
    case Load(initial, visible, fails) =>
      if (visible || initial) && !fails {
        if initial {
          NewerOfAll(w.thread);
        } else {
          PollAdvances(w);
          assert Step(w, op) == Step(w, Load(false, true, false));
        }
      }
    case Send(m, answered) => PostKeeps(w.thread, m);
  }

  /** With sends made only while caught up, the list is at every moment a gap-free, duplicate-free prefix of the thread. */
  lemma {:induction false} AlwaysPrefix(w: World, ops: seq<Op>)
    requires Inv(w) && w.local.messages <= w.thread && SendsCaughtUp(w, ops)
    ensures Run(w, ops).local.messages <= Run(w, ops).thread
    decreases |ops|
  {
    hide Inv, Step;
    if ops != [] {
      StepKeepsPrefix(w, ops[0]);
      StepKeeps(w, ops[0]);
      AlwaysPrefix(Step(w, ops[0]), ops[1..]);
    }
  }

  /** A thread message the cursor has passed by. */
  predicate Missed(w: World, m: Msg) {
    m in w.thread && m !in w.local.messages && w.local.since.Some? && m.createdAt <= w.local.since.value
  }

  /** A message passed by is never shown again until the page loads anew. */
  lemma {:induction false} MissedForever(w: World, ops: seq<Op>, m: Msg)
    requires Inv(w) && Missed(w, m) && forall k :: 0 <= k < |ops| && ops[k].Load? ==> !ops[k].initial
    ensures Missed(Run(w, ops), m)
    decreases |ops|
  {
    hide Inv, Step;
    if ops != [] {
      MissedStep(w, ops[0], m);
      StepKeeps(w, ops[0]);
      MissedForever(Step(w, ops[0]), ops[1..], m);
    }
  }

  lemma MissedStep(w: World, op: Op, m: Msg)
    requires Inv(w) && Missed(w, m) && (op.Load? ==> !op.initial)
    ensures Missed(Step(w, op), m)
  {
    match op
    case Arrive(x) => PostKeeps(w.thread, x);
    case Load(_, _, _) => NewerIsTail(w.thread, w.local.since);
    case Send(x, answered) =>
      PostKeeps(w.thread, x);
      if Posted(w.thread, x) != w.thread {
        var k :| 0 <= k < |w.thread| && w.thread[k] == m;
        assert m.createdAt <= LastTime(w.thread);
      }
  }

  /** A send made while behind passes the next unseen message by. */
  lemma SendBehindMisses(w: World, op: Op) returns (next: Msg)
    requires Inv(w) && w.local.messages <= w.thread && !CaughtUp(w) && Lands(w, op)
    ensures Missed(Step(w, op), next)
  {
    var l := w.local.messages;
    next := w.thread[|l|];
    assert next.createdAt <= LastTime(w.thread) < op.m.createdAt;
    assert next in Posted(w.thread, op.m);
    assert forall k :: 0 <= k < |l| ==> l[k] == w.thread[k] && l[k].createdAt < next.createdAt;
    assert next !in l + [op.m];
  }

  lemma MissedIsNoPrefix(w: World, m: Msg)
    requires Inv(w) && Missed(w, m)
    ensures !(w.local.messages <= w.thread)
  {
    var l := w.local.messages;
    var k :| 0 <= k < |w.thread| && w.thread[k] == m;
    assert forall j :: 0 <= j < |l| ==> l[j] in l;
  }

  /**
  Without a reload from the start, then, the list ends as a gap-free prefix of the thread exactly when
  every answered send of the run was made while caught up.
  */
  lemma {:induction false} PrefixIffSendsCaughtUp(w: World, ops: seq<Op>)
    requires Inv(w) && w.local.messages <= w.thread && forall k :: 0 <= k < |ops| && ops[k].Load? ==> !ops[k].initial
    ensures Run(w, ops).local.messages <= Run(w, ops).thread <==> SendsCaughtUp(w, ops)
    decreases |ops|
  {
    hide Inv, Step, CaughtUp, Missed;
    if ops != [] {
      var v := Step(w, ops[0]);
      StepKeeps(w, ops[0]);
      if Lands(w, ops[0]) && !CaughtUp(w) {
        var m := SendBehindMisses(w, ops[0]);
        MissedForever(v, ops[1..], m);
        RunKeeps(v, ops[1..]);
        MissedIsNoPrefix(Run(v, ops[1..]), m);
      } else {
        StepKeepsPrefix(w, ops[0]);
        PrefixIffSendsCaughtUp(v, ops[1..]);
      }
    }
  }

  /** A message arrives, the client answers before the next poll, and the list shows the answer alone. */
  lemma SendLeavesGap()
    ensures var v := Run(World([], MOUNTED), [Arrive(Msg(1, "a")), Send(Msg(2, "b"), true)]);
            && v.thread == [Msg(1, "a"), Msg(2, "b")] && v.local.messages == [Msg(2, "b")]
            && !(v.local.messages <= v.thread) && Missed(v, Msg(1, "a"))
  {
    var arrive, send := Arrive(Msg(1, "a")), Send(Msg(2, "b"), true);
    var w := Step(World([], MOUNTED), arrive);
    assert w == World([Msg(1, "a")], MOUNTED);
    assert Step(w, send) == World([Msg(1, "a"), Msg(2, "b")], Local([Msg(2, "b")], Some(2)));
    assert [arrive, send][1..] == [send] && [send][1..] == [];
    assert Run(w, [send]) == Run(Step(w, send), []);
    assert Msg(1, "a") in [Msg(1, "a"), Msg(2, "b")];
    assert [Msg(2, "b")][0] != [Msg(1, "a"), Msg(2, "b")][0];
  }

  // ---------------------------------------------------------------------------
  // Grouping by day
  // ---------------------------------------------------------------------------

  const DAY := 86400

  function DayOf(m: Msg): int { m.createdAt / DAY }

  function Of(messages: seq<Msg>, day: int): seq<Msg> {
    if messages == [] then []
    else Of(messages[..|messages| - 1], day) + (if DayOf(messages[|messages| - 1]) == day then [messages[|messages| - 1]] else [])
  }

  /** A JavaScript Map from days to message lists: its keys in insertion order. */
  datatype Groups = Groups(days: seq<int>, lists: map<int, seq<Msg>>)

  ghost predicate GroupsOk(g: Groups, messages: seq<Msg>) {
    && (forall d :: d in g.days <==> d in g.lists)
    && (forall i :: 0 <= i < |g.days| ==> g.days[i] in g.lists)
    && (forall i, j :: 0 <= i < j < |g.days| ==> g.days[i] != g.days[j])
    && (forall d :: d in g.lists ==> g.lists[d] != [] && g.lists[d] == Of(messages, d))
    && (forall m :: m in messages ==> DayOf(m) in g.lists)
  }

  function Flatten(days: seq<int>, lists: map<int, seq<Msg>>): seq<Msg>
    requires forall i :: 0 <= i < |days| ==> days[i] in lists
  {
    if days == [] then [] else Flatten(days[..|days| - 1], lists) + lists[days[|days| - 1]]
  }

  /** The loop body: make the day's group if there is none, then push. */
  method Filed(g: Groups, m: Msg) returns (r: Groups)
    ensures Grouped(g, r, m)
  {
    var day := DayOf(m);
    r := g;
    if day !in r.lists {
      r := Groups(r.days + [day], r.lists[day := []]);
    }
    assert [] + [m] == [m];
    r := r.(lists := r.lists[day := r.lists[day] + [m]]);
  }

  /** groupByDay: each day's group is that day's messages in order; for an increasing list the groups in turn are the list. */
  method GroupByDay(messages: seq<Msg>) returns (g: Groups)
    ensures GroupsOk(g, messages)
    ensures Increasing(messages) ==> Flatten(g.days, g.lists) == messages
    ensures forall m :: m in messages ==> m.createdAt / 86400 in g.lists
  {
    hide GroupsOk, InOrder, Grouped, Increasing, Flatten;
    g := Groups([], map[]);
    NoGroups();
    assert messages[..0] == [];
    for i := 0 to |messages|
      invariant GroupsOk(g, messages[..i])
      invariant Increasing(messages) ==> InOrder(g, messages[..i])
    {
      ghost var before := g;
      g := Filed(g, messages[i]);
      assert messages[..i + 1] == messages[..i] + [messages[i]];
      GroupsStep(before, g, messages[..i], messages[i]);
      if Increasing(messages) {
        InOrderStep(before, g, messages, i);
      }
    }
    assert messages[..|messages|] == messages;
    DaysCovered(g, messages);
    if Increasing(messages) { InOrderFlattens(g, messages); }
  }

  lemma DaysCovered(g: Groups, messages: seq<Msg>)
    requires GroupsOk(g, messages)
    ensures forall m :: m in messages ==> m.createdAt / 86400 in g.lists
  {
    assert forall m :: m in messages ==> DayOf(m) in g.lists;
  }

  lemma NoGroups()
    ensures GroupsOk(Groups([], map[]), []) && InOrder(Groups([], map[]), [])
  {
  }

  lemma InOrderFlattens(g: Groups, messages: seq<Msg>)
    requires GroupsOk(g, messages) && InOrder(g, messages)
    ensures Flatten(g.days, g.lists) == messages
  {
  }

  /** So far the groups in turn are the messages, and the last group is the last message's. */
  ghost predicate InOrder(g: Groups, messages: seq<Msg>)
    requires GroupsOk(g, messages)
  {
    && Flatten(g.days, g.lists) == messages
    && (messages != [] ==> g.days != [] && g.days[|g.days| - 1] == DayOf(messages[|messages| - 1]))
  }

  lemma InOrderStep(before: Groups, after: Groups, messages: seq<Msg>, i: nat)
    requires i < |messages| && Increasing(messages)
    requires GroupsOk(before, messages[..i]) && InOrder(before, messages[..i]) && Grouped(before, after, messages[i])
    requires GroupsOk(after, messages[..i + 1])
    ensures InOrder(after, messages[..i + 1])
  {
    hide Increasing, Of, Flatten, Grouped;
    var m := messages[i];
    assert messages[..i + 1] == messages[..i] + [m];
    GroupedCases(before, after, m);
    if DayOf(m) in before.lists {
      KnownDayIsLast(before, messages, i);
      FlattenKnown(before, after, m);
    } else {
      FlattenNew(before, after, m);
    }
  }

  lemma GroupedCases(before: Groups, after: Groups, m: Msg)
    requires Grouped(before, after, m)
    ensures DayOf(m) in before.lists ==> after.days == before.days && after.lists == before.lists[DayOf(m) := before.lists[DayOf(m)] + [m]]
    ensures DayOf(m) !in before.lists ==> after.days == before.days + [DayOf(m)] && after.lists == before.lists[DayOf(m) := [m]]
  {
  }

  lemma FlattenNew(before: Groups, after: Groups, m: Msg)
    requires forall i :: 0 <= i < |before.days| ==> before.days[i] in before.lists
    requires DayOf(m) !in before.lists && after.days == before.days + [DayOf(m)] && after.lists == before.lists[DayOf(m) := [m]]
    ensures forall i :: 0 <= i < |after.days| ==> after.days[i] in after.lists
    ensures Flatten(after.days, after.lists) == Flatten(before.days, before.lists) + [m]
  {
    assert after.days[..|after.days| - 1] == before.days;
    FlattenOthers(before.days, before.lists, after.lists);
  }

  lemma FlattenKnown(before: Groups, after: Groups, m: Msg)
    requires forall i :: 0 <= i < |before.days| ==> before.days[i] in before.lists
    requires before.days != [] && DayOf(m) == before.days[|before.days| - 1]
    requires forall i :: 0 <= i < |before.days| - 1 ==> before.days[i] != before.days[|before.days| - 1]
    requires after.days == before.days && after.lists == before.lists[DayOf(m) := before.lists[DayOf(m)] + [m]]
    ensures forall i :: 0 <= i < |after.days| ==> after.days[i] in after.lists
    ensures Flatten(after.days, after.lists) == Flatten(before.days, before.lists) + [m]
  {
    FlattenOthers(before.days[..|before.days| - 1], before.lists, after.lists);
  }

  lemma OfAppend(messages: seq<Msg>, m: Msg, day: int)
    ensures Of(messages + [m], day) == Of(messages, day) + (if DayOf(m) == day then [m] else [])
  {
    assert (messages + [m])[..|messages|] == messages;
  }

  lemma {:induction false} OfAbsent(messages: seq<Msg>, day: int)
    requires forall m :: m in messages ==> DayOf(m) != day
    ensures Of(messages, day) == []
  {
    if messages != [] {
      OfAbsent(messages[..|messages| - 1], day);
    }
  }

  /** What one turn of the loop does to the groups. */
  ghost predicate Grouped(before: Groups, after: Groups, m: Msg) {
    var day := DayOf(m);
    if day in before.lists then after == Groups(before.days, before.lists[day := before.lists[day] + [m]])
    else after == Groups(before.days + [day], before.lists[day := [m]])
  }

  lemma GroupsStep(before: Groups, after: Groups, messages: seq<Msg>, m: Msg)
    requires GroupsOk(before, messages) && Grouped(before, after, m)
    ensures GroupsOk(after, messages + [m])
  {
    hide Of, DayOf;
    var day := DayOf(m);
    if day !in before.lists {
      OfAbsent(messages, day);
    }
    forall d | d in after.lists
      ensures after.lists[d] != [] && after.lists[d] == Of(messages + [m], d)
    {
      OfAppend(messages, m, d);
    }
  }

  /** In an increasing list a day already seen is the last one seen. */
  lemma KnownDayIsLast(g: Groups, messages: seq<Msg>, i: nat)
    requires i < |messages| && Increasing(messages) && GroupsOk(g, messages[..i]) && InOrder(g, messages[..i])
    requires DayOf(messages[i]) in g.lists
    ensures g.days != [] && DayOf(messages[i]) == g.days[|g.days| - 1]
  {
    hide Flatten;
    var day := DayOf(messages[i]);
    OfMember(messages[..i], day);
    var m :| m in messages[..i] && DayOf(m) == day;
    var k :| 0 <= k < i && messages[k] == m;
    assert messages[..i][i - 1] == messages[i - 1];
    assert messages[k].createdAt <= messages[i - 1].createdAt < messages[i].createdAt;
    assert DayOf(messages[k]) <= DayOf(messages[i - 1]) <= DayOf(messages[i]);
  }

  lemma OfMember(messages: seq<Msg>, day: int)
    requires Of(messages, day) != []
    ensures exists m :: m in messages && DayOf(m) == day
  {
    if forall m :: m in messages ==> DayOf(m) != day {
      OfAbsent(messages, day);
    }
  }

  lemma {:induction false} FlattenOthers(days: seq<int>, lists: map<int, seq<Msg>>, other: map<int, seq<Msg>>)
    requires forall i :: 0 <= i < |days| ==> days[i] in lists && days[i] in other && lists[days[i]] == other[days[i]]
    ensures Flatten(days, lists) == Flatten(days, other)
  {
    if days != [] {
      FlattenOthers(days[..|days| - 1], lists, other);
    }
  }
}
