/**
What the activity log says about a client's stage. A conversion logs no stage, so two histories can
leave the same log and different stages; they do so exactly for a converted client that never moved.
*/
module CrmStageLog {
  import opened Common
  import opened Orm
  import opened StateMachines
  import opened Crm
  import opened CrmRuns
  import opened CrmTheorems
  import CrmCounts
  import Billing

  predicate StageEntry(e: Entry, c: Id) { e.clientId == c && e.kind.StageChange? }

  ghost predicate MentionsStage(log: seq<Entry>, c: Id) {
    exists i :: 0 <= i < |log| && StageEntry(log[i], c)
  }

  // ---------------------------------------------------------------------------
  // A stage_change entry settles the stage
  // ---------------------------------------------------------------------------

  lemma {:induction false} UnmentionedReplay(log: seq<Entry>, c: Id, start: Replay<Stage>)
    requires !MentionsStage(log, c)
    ensures StageReplay(log, c, start) == start
  {
    if log != [] {
      var rest := log[..|log| - 1];
      assert !StageEntry(log[|log| - 1], c);
      assert forall i :: 0 <= i < |rest| ==> rest[i] == log[i];
      UnmentionedReplay(rest, c, start);
    }
  }

  /** After a stage_change entry a replay no longer depends on where it started, as long as it does not break. */
  lemma {:induction false} MentionedReplay(log: seq<Entry>, c: Id, a: Replay<Stage>, b: Replay<Stage>)
    requires MentionsStage(log, c) && !StageReplay(log, c, a).Broken? && !StageReplay(log, c, b).Broken?
    ensures StageReplay(log, c, a) == StageReplay(log, c, b)
  {
    var rest := log[..|log| - 1];
    if MentionsStage(rest, c) {
      MentionedReplay(rest, c, a, b);
    } else {
      UnmentionedReplay(rest, c, a);
      UnmentionedReplay(rest, c, b);
      forall i | 0 <= i < |rest|
        ensures !StageEntry(log[i], c)
      {
        assert log[i] == rest[i];
      }
    }
  }

  lemma MentionedStageTold(users: set<Id>, ops: seq<Op>, others: set<Id>, history: seq<Op>, c: Id)
    requires ThroughRoutes(ops) && ThroughRoutes(history)
    requires Run(Empty(others), history).log == Run(Empty(users), ops).log && MentionsStage(Run(Empty(users), ops).log, c)
    requires c in Run(Empty(users), ops).clients && c in Run(Empty(others), history).clients
    ensures Run(Empty(others), history).clients[c].stage == Run(Empty(users), ops).clients[c].stage
  {
    hide Run, StageReplay, MentionsStage;
    StageLogReplays(users, ops, c);
    StageLogReplays(others, history, c);
    var db, other := Run(Empty(users), ops), Run(Empty(others), history);
    MentionedReplay(db.log, c, StartOf(db.clients[c].origin), StartOf(other.clients[c].origin));
  }

  // ---------------------------------------------------------------------------
  // Without one, another stage fits the same log
  // ---------------------------------------------------------------------------

  /** The same database, had client c been converted at stage s. */
  function Restaged(db: Db, c: Id, s: Stage): Db
    requires c in db.clients
  {
    db.(clients := db.clients[c := db.clients[c].(stage := s, origin := FromLead(s))])
  }

  lemma NameWithoutStage(body: ConvertBody, lead: Lead, s: Stage)
    ensures ConvertedName(body.(stage := Some(s)), lead) == ConvertedName(body, lead)
  {
  }

  lemma RestagedNew(db: Db, id: Id, row: Client, s: Stage)
    ensures Restaged(db.(clients := db.clients[id := row]), id, s).clients == db.clients[id := row.(stage := s, origin := FromLead(s))]
  {
  }

  lemma ConvertRestaged(db: Db, lead: Id, ids: ConvertIds, now: int, body: ConvertBody, actor: Id, s: Stage)
    requires ConvertLead(db, lead, ids, now, body, actor).Ok? && KnownStage(s)
    ensures ids.client in ConvertLead(db, lead, ids, now, body, actor).value.clients
    ensures ConvertLead(db, lead, ids, now, body.(stage := Some(s)), actor)
            == Ok(Restaged(ConvertLead(db, lead, ids, now, body, actor).value, ids.client, s))
  {
    hide Parses, Fits, Billing.CreateSchema, Billing.InsertAtConversion, ConvertedName, ContactFromLead;
    var v := ConvertLead(db, lead, ids, now, body, actor).value;
    NameWithoutStage(body, db.leads[lead], s);
    RestagedNew(db, ids.client, v.clients[ids.client], s);
  }

  lemma CreateRestaged(db: Db, id: Id, now: int, body: Cols, stage: Stage, actor: Id, c: Id, s: Stage)
    requires c in db.clients && CreateClient(db, id, now, body, stage, actor).Ok?
    ensures c in CreateClient(db, id, now, body, stage, actor).value.clients
    ensures CreateClient(Restaged(db, c, s), id, now, body, stage, actor)
            == Ok(Restaged(CreateClient(db, id, now, body, stage, actor).value, c, s))
  {
    hide Parses, Fits;
    var row := Client(stage, now, body, Direct);
    RestagedAdd(db, id, row, c, s);
  }

  lemma RestagedAdd(db: Db, id: Id, row: Client, c: Id, s: Stage)
    requires c in db.clients && id != c
    ensures Restaged(db, c, s).clients[id := row] == Restaged(db.(clients := db.clients[id := row]), c, s).clients
  {
  }

  lemma UpdateRestaged(db: Db, user: User, id: Id, updates: Cols, c: Id, s: Stage)
    requires c in db.clients && UpdateClient(db, user, id, updates).Ok?
    ensures c in UpdateClient(db, user, id, updates).value.clients
    ensures UpdateClient(Restaged(db, c, s), user, id, updates) == Ok(Restaged(UpdateClient(db, user, id, updates).value, c, s))
  {
    hide Parses, Fits, OwnScope;
    var v, w := UpdateClient(db, user, id, updates).value, Restaged(db, c, s);
    var cols := db.clients[id].cols + updates;
    assert w.clients[id].cols + updates == cols;
    assert w.clients[id := w.clients[id].(cols := cols)] == Restaged(v, c, s).clients;
  }

  lemma ChangeRestaged(db: Db, user: User, id: Id, stage: Stage, force: bool, c: Id, s: Stage)
    requires c in db.clients && id != c && ChangeStage(db, user, id, stage, force).Ok?
    ensures c in ChangeStage(db, user, id, stage, force).value.clients
    ensures ChangeStage(Restaged(db, c, s), user, id, stage, force) == Ok(Restaged(ChangeStage(db, user, id, stage, force).value, c, s))
  {
    hide OwnScope, CanMoveStage;
    RestagedAdd(db, id, db.clients[id].(stage := stage), c, s);
  }

  lemma ConversionRestaged(db: Db, lead: Id, ids: ConvertIds, now: int, body: ConvertBody, actor: Id, c: Id, s: Stage)
    requires c in db.clients && ConvertLead(db, lead, ids, now, body, actor).Ok?
    ensures c in ConvertLead(db, lead, ids, now, body, actor).value.clients
    ensures ConvertLead(Restaged(db, c, s), lead, ids, now, body, actor)
            == Ok(Restaged(ConvertLead(db, lead, ids, now, body, actor).value, c, s))
  {
    hide Parses, Fits, Billing.CreateSchema, Billing.InsertAtConversion, ConvertedName, ContactFromLead;
    var v := ConvertLead(db, lead, ids, now, body, actor).value;
    assert Restaged(db, c, s).clients.Keys == db.clients.Keys;
    RestagedAdd(db, ids.client, v.clients[ids.client], c, s);
  }

  /** Every client operation but the client's own stage change goes through the same at any stage. */
  lemma ClientOpRestaged(db: Db, op: ClientOp, c: Id, s: Stage)
    requires c in db.clients && PerformClient(db, op).Ok? && !(op.MoveStage? && op.id == c)
    ensures c in PerformClient(db, op).value.clients
    ensures PerformClient(Restaged(db, c, s), op) == Ok(Restaged(PerformClient(db, op).value, c, s))
  {
    hide CreateClient, UpdateClient, ChangeStage, ConvertLead, Restaged;
    match op
    case NewClient(id, now, body, stage, actor) => CreateRestaged(db, id, now, body, stage, actor, c, s);
    case PatchClient(user, id, updates) => UpdateRestaged(db, user, id, updates, c, s);
    case MoveStage(user, id, stage, force) => ChangeRestaged(db, user, id, stage, force, c, s);
    case Convert(lead, ids, now, body, actor) => ConversionRestaged(db, lead, ids, now, body, actor, c, s);
  }

  lemma ServiceOpRestaged(db: Db, op: ServiceOp, c: Id, s: Stage)
    requires c in db.clients && PerformService(db, op).Ok? && !s.Lost?
    ensures PerformService(db, op).value.clients == db.clients
    ensures PerformService(Restaged(db, c, s), op) == Ok(Restaged(PerformService(db, op).value, c, s))
  {
    hide Parses, Fits, ServiceScope;
  }

  lemma MilestoneOpRestaged(db: Db, op: MilestoneOp, c: Id, s: Stage)
    requires c in db.clients && PerformMilestone(db, op).Ok?
    ensures PerformMilestone(db, op).value.clients == db.clients
    ensures PerformMilestone(Restaged(db, c, s), op) == Ok(Restaged(PerformMilestone(db, op).value, c, s))
  {
    hide Parses, Fits, IsComplete;
  }

  lemma TicketOpRestaged(db: Db, op: TicketOp, c: Id, s: Stage)
    requires c in db.clients && PerformTicket(db, op).Ok?
    ensures PerformTicket(db, op).value.clients == db.clients
    ensures PerformTicket(Restaged(db, c, s), op) == Ok(Restaged(PerformTicket(db, op).value, c, s))
  {
    hide Parses, Fits, IsClosed;
  }

  lemma LeadOpRestaged(db: Db, op: LeadOp, c: Id, s: Stage)
    requires c in db.clients && PerformLead(db, op).Ok?
    ensures PerformLead(db, op).value.clients == db.clients
    ensures PerformLead(Restaged(db, c, s), op) == Ok(Restaged(PerformLead(db, op).value, c, s))
  {
    hide Parses, Fits, OwnScope;
  }

  lemma ProfileOpRestaged(db: Db, op: ProfileOp, c: Id, s: Stage)
    requires c in db.clients && PerformProfile(db, op).Ok?
    ensures PerformProfile(db, op).value.clients == db.clients
    ensures PerformProfile(Restaged(db, c, s), op) == Ok(Restaged(PerformProfile(db, op).value, c, s))
  {
    assert Restaged(db, c, s).clients.Keys == db.clients.Keys;
    assert BillingView(Restaged(db, c, s)) == BillingView(db);
  }

  lemma SendRestaged(db: Db, to: Id, sender: Id, text: string, c: Id, s: Stage)
    requires c in db.clients && SendMessage(db, to, sender, text).Ok?
    ensures SendMessage(db, to, sender, text).value.clients == db.clients
    ensures SendMessage(Restaged(db, c, s), to, sender, text) == Ok(Restaged(SendMessage(db, to, sender, text).value, c, s))
  {
  }

  /** Every operation but the client's own stage change goes through the same at any stage that is not lost. */
  lemma StepRestaged(db: Db, op: Op, c: Id, s: Stage)
    requires c in db.clients && Succeeds(db, op) && !MovesStageOf(db, op, c) && !s.Lost?
    ensures c in Step(db, op).clients
    ensures Step(Restaged(db, c, s), op) == Restaged(Step(db, op), c, s)
  {
    hide PerformClient, PerformLead, PerformService, PerformMilestone, PerformTicket, PerformProfile, SendMessage, Restaged;
    match op
    case OnClients(o) => ClientOpRestaged(db, o, c, s);
    case OnLeads(o) => LeadOpRestaged(db, o, c, s);
    case OnServices(o) => ServiceOpRestaged(db, o, c, s);
    case OnMilestones(o) => MilestoneOpRestaged(db, o, c, s);
    case OnTickets(o) => TicketOpRestaged(db, o, c, s);
    case OnProfiles(o) => ProfileOpRestaged(db, o, c, s);
    case Send(to, sender, text) => SendRestaged(db, to, sender, text, c, s);
  }

  lemma {:induction false} LogGrows(db: Db, ops: seq<Op>)
    ensures db.log <= Run(db, ops).log
    decreases |ops|
  {
    hide Step;
    if ops != [] {
      StepFrame(db, ops[0]);
      LogGrows(Step(db, ops[0]), ops[1..]);
    }
  }

  lemma StillUnmentioned(db: Db, ops: seq<Op>, c: Id)
    requires !MentionsStage(Run(db, ops).log, c)
    ensures !MentionsStage(db.log, c)
  {
    LogGrows(db, ops);
    var log := Run(db, ops).log;
    assert forall i :: 0 <= i < |db.log| ==> log[i] == db.log[i];
  }

  /** The client's own creation and stage changes are mentioned. */
  lemma OwnMovesMentioned(db: Db, op: Op, c: Id)
    requires MovesStageOf(db, op, c) || (op.OnClients? && op.client.NewClient? && op.client.id == c && Succeeds(db, op))
    ensures MentionsStage(Step(db, op).log, c)
  {
    hide Parses, Fits, OwnScope;
    var v := Step(db, op);
    assert StageEntry(v.log[|db.log|], c);
  }

  /** A run after the conversion, replayed from another stage: drop what failed, keep the rest. */
  lemma {:induction false} ReplayFrom(db: Db, ops: seq<Op>, c: Id, s: Stage) returns (history: seq<Op>)
    requires c in db.clients && ThroughRoutes(ops) && !MentionsStage(Run(db, ops).log, c) && !s.Lost?
    ensures ThroughRoutes(history) && c in Run(db, ops).clients && Run(Restaged(db, c, s), history) == Restaged(Run(db, ops), c, s)
    decreases |ops|
  {
    hide Step, MentionsStage, MovesStageOf, Succeeds, Restaged, RouteOp;
    if ops == [] {
      history := [];
    } else {
      var op, next := ops[0], Step(db, ops[0]);
      StillUnmentioned(next, ops[1..], c);
      if Succeeds(db, op) {
        if MovesStageOf(db, op, c) { OwnMovesMentioned(db, op, c); }
        StepRestaged(db, op, c, s);
        var rest := ReplayFrom(next, ops[1..], c, s);
        history := [op] + rest;
        assert history[1..] == rest;
      } else {
        FailureStays(db, op);
        history := ReplayFrom(next, ops[1..], c, s);
      }
    }
  }

  lemma FailureStays(db: Db, op: Op)
    requires !Succeeds(db, op)
    ensures Step(db, op) == db
  {
  }

  /** The operation that makes an unmentioned client is a conversion, and it could have chosen another stage. */
  lemma BirthRestaged(db: Db, op: Op, c: Id, s: Stage) returns (other: Op)
    requires c !in db.clients && c in Step(db, op).clients && !MentionsStage(Step(db, op).log, c) && KnownStage(s)
    ensures RouteOp(other) && Step(db, other) == Restaged(Step(db, op), c, s)
  {
    BirthIsConversion(db, op, c);
    hide ConvertLead, MentionsStage, Restaged;
    var convert := op.client;
    other := OnClients(convert.(convert := convert.convert.(stage := Some(s))));
    ConvertRestaged(db, convert.lead, convert.ids, convert.now, convert.convert, convert.actor, s);
  }

  lemma BirthIsConversion(db: Db, op: Op, c: Id)
    requires c !in db.clients && c in Step(db, op).clients && !MentionsStage(Step(db, op).log, c)
    ensures Succeeds(db, op) && op.OnClients? && op.client.Convert? && op.client.ids.client == c
  {
    hide PerformClient, Step, MentionsStage;
    ChangedBySuccess(db, op);
    StepFrame(db, op);
    if op.client.NewClient? && op.client.id == c {
      OwnMovesMentioned(db, op, c);
    }
    ClientBirth(db, op.client, c);
  }

  lemma ChangedBySuccess(db: Db, op: Op)
    requires Step(db, op) != db
    ensures Succeeds(db, op) && (op.OnClients? ==> PerformClient(db, op.client).Ok? && Step(db, op) == PerformClient(db, op.client).value)
  {
    hide PerformClient, PerformLead, PerformService, PerformMilestone, PerformTicket, PerformProfile, SendMessage;
  }

  lemma ClientBirth(db: Db, op: ClientOp, c: Id)
    requires PerformClient(db, op).Ok? && c !in db.clients && c in PerformClient(db, op).value.clients
    ensures (op.NewClient? && op.id == c) || (op.Convert? && op.ids.client == c)
  {
    hide Parses, Fits, OwnScope, ConvertLead;
    if op.Convert? {
      ConvertAddsOne(db, op.lead, op.ids, op.now, op.convert, op.actor, c);
    }
  }

  lemma ConvertAddsOne(db: Db, lead: Id, ids: ConvertIds, now: int, body: ConvertBody, actor: Id, c: Id)
    requires ConvertLead(db, lead, ids, now, body, actor).Ok?
    requires c !in db.clients && c in ConvertLead(db, lead, ids, now, body, actor).value.clients
    ensures c == ids.client
  {
    hide Parses, Fits, Billing.CreateSchema, Billing.InsertAtConversion, ConvertedName, ContactFromLead;
  }

  lemma {:induction false} OtherHistory(db: Db, ops: seq<Op>, c: Id, s: Stage) returns (history: seq<Op>)
    requires c !in db.clients && c in Run(db, ops).clients && ThroughRoutes(ops) && !MentionsStage(Run(db, ops).log, c)
    requires KnownStage(s) && !s.Lost?
    ensures ThroughRoutes(history) && Run(db, history) == Restaged(Run(db, ops), c, s)
    decreases |ops|
  {
    hide Step, MentionsStage, Restaged, RouteOp;
    var op, next := ops[0], Step(db, ops[0]);
    var first, rest;
    if c in next.clients {
      StillUnmentioned(next, ops[1..], c);
      first := BirthRestaged(db, op, c, s);
      rest := ReplayFrom(next, ops[1..], c, s);
    } else {
      first := op;
      rest := OtherHistory(next, ops[1..], c, s);
    }
    history := [first] + rest;
    assert history[1..] == rest;
  }

  // ---------------------------------------------------------------------------
  // The exact condition
  // ---------------------------------------------------------------------------

  /** A history through the routes that ends with client c and the same log as ops. */
  ghost predicate SameLog(users: set<Id>, ops: seq<Op>, others: set<Id>, history: seq<Op>, c: Id) {
    ThroughRoutes(history) && Run(Empty(others), history).log == Run(Empty(users), ops).log && c in Run(Empty(others), history).clients
  }

  /** Whoever reads the log alone knows the client's stage. */
  ghost predicate LogTellsStage(users: set<Id>, ops: seq<Op>, c: Id)
    requires c in Run(Empty(users), ops).clients
  {
    forall others: set<Id>, history: seq<Op> :: SameLog(users, ops, others, history, c) ==>
      Run(Empty(others), history).clients[c].stage == Run(Empty(users), ops).clients[c].stage
  }

  /**
  The log determines a client's stage exactly when it holds a stage_change entry for it. A client
  without one came from a lead and has not moved since.
  */
  lemma LogTellsStageIff(users: set<Id>, ops: seq<Op>, c: Id)
    requires ThroughRoutes(ops) && c in Run(Empty(users), ops).clients
    ensures LogTellsStage(users, ops, c) <==> MentionsStage(Run(Empty(users), ops).log, c)
    ensures !MentionsStage(Run(Empty(users), ops).log, c)
            ==> Run(Empty(users), ops).clients[c].origin == FromLead(Run(Empty(users), ops).clients[c].stage)
  {
    hide Run, MentionsStage, StageReplay, ThroughRoutes;
    var db := Run(Empty(users), ops);
    if MentionsStage(db.log, c) {
      forall others: set<Id>, history: seq<Op> | SameLog(users, ops, others, history, c)
        ensures Run(Empty(others), history).clients[c].stage == db.clients[c].stage
      {
        MentionedStageTold(users, ops, others, history, c);
      }
    } else {
      StageLogReplays(users, ops, c);
      UnmentionedReplay(db.log, c, StartOf(db.clients[c].origin));
      var s := if db.clients[c].stage.Active? then LeadStage else Active;
      var history := OtherHistory(Empty(users), ops, c, s);
      assert SameLog(users, ops, users, history, c);
    }
  }

  /** The conversion of lead 7, once qualified, into client 1. */
  const CONVERSION := OnClients(Convert(7, ConvertIds(1, 1, 1), 0, ConvertBody(Null, None, map[], None), 1))

  /** A lead worked up to qualified and converted. */
  const CONVERTING := [OnLeads(NewLead(7, 0, CrmCounts.LEAD_BODY)), OnLeads(MoveStatus(CrmCounts.ADMIN, 7, Contacted)),
                       OnLeads(MoveStatus(CrmCounts.ADMIN, 7, Qualified)), CONVERSION]

  /** Its client's stage cannot be told from the log. */
  lemma StageUntold(users: set<Id>)
    ensures 1 in Run(Empty(users), CONVERTING).clients
    ensures !MentionsStage(Run(Empty(users), CONVERTING).log, 1)
    ensures !LogTellsStage(users, CONVERTING, 1)
  {
    ConvertingEnds(users);
    assert ThroughRoutes(CONVERTING);
    hide CONVERTING, Run;
    LogTellsStageIff(users, CONVERTING, 1);
  }

  lemma ConvertingEnds(users: set<Id>)
    ensures var v := Run(Empty(users), CONVERTING); 1 in v.clients && v.log == [Entry(1, LeadConverted, Other, 1)]
  {
    CrmCounts.FirstLead(users);
    hide Run, Step, CrmCounts.LEAD_BODY, CONVERSION;
    CrmCounts.RunFour(Empty(users), CONVERTING);
    var row := Lead(New, None, 0, CrmCounts.LEAD_BODY);
    UpToQualified(Empty(users), Step(Empty(users), CONVERTING[0]), row);
    AnasBody(row);
    FirstConversion(Step(Step(Step(Empty(users), CONVERTING[0]), CONVERTING[1]), CONVERTING[2]), row.(status := Qualified));
  }

  lemma AnasBody(row: Lead)
    requires row.cols == CrmCounts.LEAD_BODY
    ensures Company !in row.cols && Name in row.cols && row.cols[Name] == Text("Ana")
  {
  }

  lemma UpToQualified(empty: Db, db: Db, row: Lead)
    requires empty.clients == map[] && empty.contacts == map[] && empty.log == []
    requires db == Step(empty, OnLeads(NewLead(7, 0, CrmCounts.LEAD_BODY)))
    requires db.leads == map[7 := row] && row.status.New?
    ensures var v := Step(Step(db, OnLeads(MoveStatus(CrmCounts.ADMIN, 7, Contacted))), OnLeads(MoveStatus(CrmCounts.ADMIN, 7, Qualified)));
            v.leads == map[7 := row.(status := Qualified)] && v.clients == map[] && v.contacts == map[] && v.log == []
  {
    hide Step, CrmCounts.LEAD_BODY;
    CrmCounts.OneLeadMoves(db, row, Contacted);
    var b := Step(db, OnLeads(MoveStatus(CrmCounts.ADMIN, 7, Contacted)));
    CrmCounts.OneLeadMoves(b, row.(status := Contacted), Qualified);
    StepFrame(empty, OnLeads(NewLead(7, 0, CrmCounts.LEAD_BODY)));
    StepFrame(db, OnLeads(MoveStatus(CrmCounts.ADMIN, 7, Contacted)));
    StepFrame(b, OnLeads(MoveStatus(CrmCounts.ADMIN, 7, Qualified)));
  }

  lemma FirstConversion(db: Db, row: Lead)
    requires db.leads == map[7 := row] && row.status.Qualified? && row.convertedClientId.None?
    requires db.clients == map[] && db.contacts == map[] && db.log == []
    requires Company !in row.cols && Name in row.cols && row.cols[Name] == Text("Ana")
    ensures var v := Step(db, CONVERSION); 1 in v.clients && v.log == [Entry(1, LeadConverted, Other, 1)]
  {
    var ids, body := ConvertIds(1, 1, 1), ConvertBody(Null, None, map[], None);
    var cols := map[Name := Text("Ana")];
    assert ConvertedName(body, row) == Text("Ana") && body.cols[Name := Text("Ana")] == cols;
    assert Parses(body.cols, CONVERT_COLUMNS) && Parses(map[Name := body.name], {Name}) && Fits(cols, CLIENT_REQUIRED, db.users);
    hide Parses, Fits, ConvertedName, ContactFromLead;
    assert ConvertLead(db, 7, ids, 0, body, 1).Ok?;
  }
}
