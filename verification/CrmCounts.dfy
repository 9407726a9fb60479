/**
Counting over whole runs of the CRM: conversion happens at most once per lead, and the entries of
the activity log are accounted for by the rows and what was done to them.
*/
module CrmCounts {
  import opened Common
  import opened Orm
  import opened StateMachines
  import opened Crm
  import opened CrmRuns
  import opened CrmTheorems
  import Billing
  import BillingRuns

  /** How many entries of the log satisfy p. */
  function Count(log: seq<Entry>, p: Entry -> bool): nat {
    if log == [] then 0 else Count(log[..|log| - 1], p) + (if p(log[|log| - 1]) then 1 else 0)
  }

  lemma CountAppend(log: seq<Entry>, e: Entry, p: Entry -> bool)
    ensures Count(log + [e], p) == Count(log, p) + (if p(e) then 1 else 0)
  {
    assert (log + [e])[..|log|] == log;
  }

  predicate IsConversion(e: Entry) { e.kind.LeadConverted? }

  predicate IsCreation(e: Entry) { e.kind.StageChange? && e.detail.ClientCreated? }

  predicate IsTicketEntry(e: Entry) { e.kind.TicketOpened? || e.kind.TicketUpdated? || e.kind.TicketClosed? }

  predicate IsTicketClosed(e: Entry) { e.kind.TicketClosed? }

  predicate IsMilestoneCompleted(e: Entry) { e.kind.MilestoneCompleted? }

  /** A step that logs none of the kinds p looks for leaves p's count alone. */
  lemma CountUntouched(before: seq<Entry>, after: seq<Entry>, kinds: set<Kind>, p: Entry -> bool)
    requires Appends(before, after, kinds) && forall e: Entry :: e.kind in kinds ==> !p(e)
    ensures Count(after, p) == Count(before, p)
  {
    if after != before {
      CountAppend(before, after[|before|], p);
    }
  }

  // ---------------------------------------------------------------------------
  // Conversion at most once
  // ---------------------------------------------------------------------------

  predicate Linked(db: Db, l: Id) { l in db.leads && db.leads[l].convertedClientId.Some? }

  ghost function LinkedLeads(db: Db): (s: set<Id>)
    ensures forall l :: l in s <==> Linked(db, l)
  {
    set l | l in db.leads && db.leads[l].convertedClientId.Some?
  }

  ghost predicate LinksOk(db: Db) {
    && (forall l :: Linked(db, l) ==> db.leads[l].status.Converted? && db.leads[l].convertedClientId.value in db.clients)
    && (forall l, m :: Linked(db, l) && Linked(db, m) && l != m ==> db.leads[l].convertedClientId != db.leads[m].convertedClientId)
  }

  ghost predicate ConversionInv(db: Db) {
    && LinksOk(db)
    && Count(db.log, IsConversion) == |LinkedLeads(db)|
    && Count(db.log, IsCreation) + Count(db.log, IsConversion) == |db.clients|
  }

  lemma SameLeadsKeepConversion(db: Db, next: Db, kinds: set<Kind>)
    requires ConversionInv(db) && next.leads == db.leads && next.clients == db.clients
    requires Appends(db.log, next.log, kinds) && StageChange !in kinds && LeadConverted !in kinds
    ensures ConversionInv(next)
  {
    CountUntouched(db.log, next.log, kinds, IsConversion);
    CountUntouched(db.log, next.log, kinds, IsCreation);
    assert LinkedLeads(next) == LinkedLeads(db);
  }

  /** Changing leads without touching who is linked to whom keeps the account. */
  lemma SameLinksKeepConversion(db: Db, next: Db)
    requires ConversionInv(db) && next.clients == db.clients && next.log == db.log
    requires forall l :: Linked(next, l) <==> Linked(db, l)
    requires forall l :: Linked(db, l) ==> l in next.leads && next.leads[l].convertedClientId == db.leads[l].convertedClientId && next.leads[l].status.Converted?
    ensures ConversionInv(next)
  {
    hide Count;
    assert LinkedLeads(next) == LinkedLeads(db) by { hide Linked; }
  }

  lemma LeadStepConversion(db: Db, op: LeadOp)
    requires ConversionInv(db) && PerformLead(db, op).Ok?
    ensures ConversionInv(PerformLead(db, op).value)
  {
    hide PerformLead, Count;
    var v := PerformLead(db, op).value;
    LeadFrame(db, op);
    forall l
      ensures Linked(v, l) <==> Linked(db, l)
      ensures Linked(db, l) ==> l in v.leads && v.leads[l].convertedClientId == db.leads[l].convertedClientId && v.leads[l].status.Converted?
    {
      LinkLeadStep(db, op, l);
    }
    SameLinksKeepConversion(db, v);
  }

  lemma CreateConversion(db: Db, id: Id, now: int, body: Cols, stage: Stage, actor: Id)
    requires ConversionInv(db) && CreateClient(db, id, now, body, stage, actor).Ok?
    ensures ConversionInv(CreateClient(db, id, now, body, stage, actor).value)
  {
    hide Parses, Fits, Count;
    var v := CreateClient(db, id, now, body, stage, actor).value;
    CountAppend(db.log, v.log[|db.log|], IsConversion);
    CountAppend(db.log, v.log[|db.log|], IsCreation);
    assert LinkedLeads(v) == LinkedLeads(db);
  }

  lemma RowConversion(db: Db, op: ClientOp)
    requires ConversionInv(db) && PerformClient(db, op).Ok? && (op.PatchClient? || op.MoveStage?)
    ensures ConversionInv(PerformClient(db, op).value)
  {
    hide Parses, Fits, OwnScope, Count;
    var v := PerformClient(db, op).value;
    if op.MoveStage? {
      CountAppend(db.log, v.log[|db.log|], IsConversion);
      CountAppend(db.log, v.log[|db.log|], IsCreation);
    }
    assert v.clients.Keys == db.clients.Keys;
    assert |v.clients| == |v.clients.Keys| && |db.clients| == |db.clients.Keys|;
    assert LinkedLeads(v) == LinkedLeads(db);
  }

  /** Linking one unlinked lead to one new client, with one lead_converted entry, keeps the account. */
  lemma NewLinkKeepsConversion(db: Db, next: Db, lead: Id, row: Lead, client: Id, e: Entry)
    requires ConversionInv(db) && !Linked(db, lead) && client !in db.clients
    requires row.status.Converted? && row.convertedClientId == Some(client)
    requires next.leads == db.leads[lead := row] && next.clients.Keys == db.clients.Keys + {client}
    requires next.log == db.log + [e] && IsConversion(e)
    ensures ConversionInv(next)
  {
    hide Count, LinksOk, Linked;
    NewLinkOk(db, next, lead, row, client);
    CountAppend(db.log, e, IsConversion);
    CountAppend(db.log, e, IsCreation);
    NewLinkCounted(db, next, lead, row);
    assert |next.clients| == |next.clients.Keys| && |db.clients| == |db.clients.Keys|;
  }

  lemma NewLinkCounted(db: Db, next: Db, lead: Id, row: Lead)
    requires !Linked(db, lead) && row.convertedClientId.Some? && next.leads == db.leads[lead := row]
    ensures |LinkedLeads(next)| == |LinkedLeads(db)| + 1
  {
    assert forall l :: Linked(next, l) <==> Linked(db, l) || l == lead;
    assert LinkedLeads(next) == LinkedLeads(db) + {lead};
  }

  lemma NewLinkOk(db: Db, next: Db, lead: Id, row: Lead, client: Id)
    requires LinksOk(db) && client !in db.clients
    requires row.status.Converted? && row.convertedClientId == Some(client)
    requires next.leads == db.leads[lead := row] && next.clients.Keys == db.clients.Keys + {client}
    ensures LinksOk(next)
  {
    assert forall l :: Linked(next, l) && l != lead ==> Linked(db, l);
  }

  lemma ConvertConversion(db: Db, lead: Id, ids: ConvertIds, now: int, body: ConvertBody, actor: Id)
    requires ConversionInv(db) && ConvertLead(db, lead, ids, now, body, actor).Ok?
    ensures ConversionInv(ConvertLead(db, lead, ids, now, body, actor).value)
  {
    hide Parses, Fits, ConversionInv, Billing.CreateSchema, Billing.InsertAtConversion, ConvertedName, ContactFromLead;
    var v := ConvertLead(db, lead, ids, now, body, actor).value;
    NewLinkKeepsConversion(db, v, lead, v.leads[lead], ids.client, v.log[|db.log|]);
  }

  lemma ClientStepConversion(db: Db, op: ClientOp)
    requires ConversionInv(db) && PerformClient(db, op).Ok?
    ensures ConversionInv(PerformClient(db, op).value)
  {
    hide ConversionInv, CreateClient, UpdateClient, ChangeStage, ConvertLead;
    match op
    case NewClient(id, now, body, stage, actor) => CreateConversion(db, id, now, body, stage, actor);
    case PatchClient(_, _, _) => RowConversion(db, op);
    case MoveStage(_, _, _, _) => RowConversion(db, op);
    case Convert(lead, ids, now, convert, actor) => ConvertConversion(db, lead, ids, now, convert, actor);
  }

  lemma StepConversion(db: Db, op: Op)
    requires ConversionInv(db)
    ensures ConversionInv(Step(db, op))
  {
    hide ConversionInv, PerformClient, PerformLead, Appends;
    StepFrame(db, op);
    if op.OnClients? {
      if Succeeds(db, op) { ClientStepConversion(db, op.client); }
    } else if op.OnLeads? {
      if Succeeds(db, op) { LeadStepConversion(db, op.lead); }
    } else {
      SameLeadsKeepConversion(db, Step(db, op), Kinds(op));
    }
  }

  lemma {:induction false} RunConversion(db: Db, ops: seq<Op>)
    requires ConversionInv(db)
    ensures ConversionInv(Run(db, ops))
    decreases |ops|
  {
    hide ConversionInv, Step;
    if ops != [] {
      StepConversion(db, ops[0]);
      RunConversion(Step(db, ops[0]), ops[1..]);
    }
  }

  /**
  In every reachable state: linked leads are converted and linked to distinct clients, the log holds
  one lead_converted entry per linked lead, and every client came from one creation or one conversion.
  */
  lemma ConversionsAccounted(users: set<Id>, ops: seq<Op>)
    ensures ConversionInv(Run(Empty(users), ops))
  {
    EmptyConversion(users);
    RunConversion(Empty(users), ops);
  }

  predicate ConvertsLead(db: Db, op: Op, l: Id) {
    op.OnClients? && op.client.Convert? && op.client.lead == l && Succeeds(db, op)
  }

  lemma LinkStep(db: Db, op: Op, l: Id)
    ensures Linked(Step(db, op), l) <==> Linked(db, l) || ConvertsLead(db, op, l)
    ensures Linked(db, l) ==> !ConvertsLead(db, op, l) && Step(db, op).leads[l].convertedClientId == db.leads[l].convertedClientId
    ensures Linked(db, l) && db.leads[l].status.Converted? ==> Step(db, op).leads[l].status.Converted?
  {
    StepFrame(db, op);
    if Succeeds(db, op) {
      if op.OnClients? { LinkClientStep(db, op.client, l); }
      if op.OnLeads? { LinkLeadStep(db, op.lead, l); }
    }
  }

  lemma LinkClientStep(db: Db, op: ClientOp, l: Id)
    requires PerformClient(db, op).Ok?
    ensures var v := PerformClient(db, op).value;
            && (Linked(v, l) <==> Linked(db, l) || (op.Convert? && op.lead == l))
            && (Linked(db, l) ==> !(op.Convert? && op.lead == l) && v.leads[l] == db.leads[l])
  {
    hide Parses, Fits, OwnScope, Billing.CreateSchema, Billing.InsertAtConversion, ConvertedName, ContactFromLead;
  }

  lemma LinkLeadStep(db: Db, op: LeadOp, l: Id)
    requires PerformLead(db, op).Ok?
    ensures var v := PerformLead(db, op).value;
            && (Linked(v, l) <==> Linked(db, l))
            && (Linked(db, l) ==> v.leads[l].convertedClientId == db.leads[l].convertedClientId)
            && (Linked(db, l) && db.leads[l].status.Converted? ==> v.leads[l].status.Converted?)
  {
    hide Parses, Fits, OwnScope;
  }

  /** Over any run, a lead's successful conversions are one if it ends linked without having begun so, and none otherwise. */
  lemma {:induction false} ConvertedAtMostOnce(db: Db, ops: seq<Op>, l: Id)
    ensures Tally(db, ops, (d, op) => ConvertsLead(d, op, l)) == if Linked(Run(db, ops), l) && !Linked(db, l) then 1 else 0
    ensures Linked(db, l) ==> Linked(Run(db, ops), l)
    decreases |ops|
  {
    hide Step, ConvertsLead, Linked;
    if ops != [] {
      LinkStep(db, ops[0], l);
      ConvertedAtMostOnce(Step(db, ops[0]), ops[1..], l);
    }
  }

  /** A lead once linked keeps its client and its converted status in every later state. */
  lemma {:induction false} ConversionIsForever(db: Db, ops: seq<Op>, l: Id)
    requires Linked(db, l) && db.leads[l].status.Converted?
    ensures var v := Run(db, ops);
            Linked(v, l) && v.leads[l].convertedClientId == db.leads[l].convertedClientId && v.leads[l].status.Converted?
    decreases |ops|
  {
    hide Step, ConvertsLead;
    if ops != [] {
      LinkStep(db, ops[0], l);
      ConversionIsForever(Step(db, ops[0]), ops[1..], l);
    }
  }

  /** A lead marked converted without a client to show for it. */
  predicate Stranded(db: Db, l: Id) {
    l in db.leads && db.leads[l].status.Converted? && db.leads[l].convertedClientId.None?
  }

  lemma StrandedStep(db: Db, op: Op, l: Id)
    requires Stranded(db, l)
    ensures Stranded(Step(db, op), l) && !ConvertsLead(db, op, l)
  {
    StepFrame(db, op);
    if Succeeds(db, op) {
      if op.OnClients? { StrandedClientStep(db, op.client, l); }
      if op.OnLeads? { StrandedLeadStep(db, op.lead, l); }
    }
  }

  lemma StrandedClientStep(db: Db, op: ClientOp, l: Id)
    requires Stranded(db, l) && PerformClient(db, op).Ok?
    ensures Stranded(PerformClient(db, op).value, l) && !(op.Convert? && op.lead == l)
  {
    hide Parses, Fits, OwnScope, Billing.CreateSchema, Billing.InsertAtConversion, ConvertedName, ContactFromLead;
  }

  lemma StrandedLeadStep(db: Db, op: LeadOp, l: Id)
    requires Stranded(db, l) && PerformLead(db, op).Ok?
    ensures Stranded(PerformLead(db, op).value, l)
  {
    hide Parses, Fits, OwnScope;
  }

  /** The status route takes lead l to converted. */
  predicate MarksConverted(db: Db, op: Op, l: Id) {
    op.OnLeads? && op.lead.MoveStatus? && op.lead.id == l && op.lead.status.Converted? && Succeeds(db, op)
  }

  lemma StrandedStepIff(db: Db, op: Op, l: Id)
    requires ConversionInv(db)
    ensures Stranded(Step(db, op), l) <==> Stranded(db, l) || MarksConverted(db, op, l)
  {
    hide ConversionInv;
    if Stranded(db, l) {
      StrandedStep(db, op, l);
    } else {
      StepFrame(db, op);
      if Succeeds(db, op) {
        if op.OnClients? { ClientOpStrandsNone(db, op.client, l); }
        if op.OnLeads? {
          assert LinksOk(db) by { LinksOfInv(db); }
          LeadOpStrands(db, op.lead, l);
        }
      }
    }
  }

  lemma LinksOfInv(db: Db)
    requires ConversionInv(db)
    ensures LinksOk(db)
  {
  }

  lemma ClientOpStrandsNone(db: Db, op: ClientOp, l: Id)
    requires !Stranded(db, l) && PerformClient(db, op).Ok?
    ensures !Stranded(PerformClient(db, op).value, l)
  {
    hide Parses, Fits, OwnScope, Billing.CreateSchema, Billing.InsertAtConversion, ConvertedName, ContactFromLead;
  }

  lemma LeadOpStrands(db: Db, op: LeadOp, l: Id)
    requires LinksOk(db) && !Stranded(db, l) && PerformLead(db, op).Ok?
    ensures Stranded(PerformLead(db, op).value, l) <==> op.MoveStatus? && op.id == l && op.status.Converted?
  {
    hide Parses, Fits, OwnScope;
    assert Linked(db, l) ==> db.leads[l].status.Converted?;
  }

  /** A lead ends a run converted without a client exactly when it began so or the status route marked it converted. */
  lemma {:induction false} StrandedIff(db: Db, ops: seq<Op>, l: Id)
    requires ConversionInv(db)
    ensures Stranded(Run(db, ops), l) <==> Stranded(db, l) || Tally(db, ops, (d, op) => MarksConverted(d, op, l)) > 0
    decreases |ops|
  {
    hide Step, ConversionInv, Stranded, MarksConverted;
    if ops != [] {
      StrandedStepIff(db, ops[0], l);
      StepConversion(db, ops[0]);
      StrandedIff(Step(db, ops[0]), ops[1..], l);
    }
  }

  /**
  From an empty database, then: a lead is converted without a client exactly when the status route
  marked it converted, and a lead of status converted has a client exactly when it did not.
  */
  lemma StrandedByStatusRoute(users: set<Id>, ops: seq<Op>, l: Id)
    ensures var db := Empty(users);
            var marked := Tally(db, ops, (d, op) => MarksConverted(d, op, l)) > 0;
            && (Stranded(Run(db, ops), l) <==> marked)
            && (l in Run(db, ops).leads && Run(db, ops).leads[l].status.Converted? ==> (Linked(Run(db, ops), l) <==> !marked))
  {
    hide Run, Tally, MarksConverted;
    assert ConversionInv(Empty(users)) by { EmptyConversion(users); }
    StrandedIff(Empty(users), ops, l);
  }

  lemma EmptyConversion(users: set<Id>)
    ensures ConversionInv(Empty(users))
  {
    assert LinkedLeads(Empty(users)) == {};
  }

  /** Marking is open to any lead in scope that is qualified; a stranded lead is never converted afterwards. */
  lemma MarksConvertedIff(db: Db, user: User, l: Id, ops: seq<Op>)
    ensures var op := OnLeads(MoveStatus(user, l, LeadStatus.Converted));
            && (MarksConverted(db, op, l) <==> l in db.leads && OwnScope(user, db.leads[l].cols) && db.leads[l].status.Qualified?)
            && (Stranded(db, l) ==> Stranded(Run(db, ops), l) && Tally(db, ops, (d, o) => ConvertsLead(d, o, l)) == 0)
  {
    hide OwnScope;
    if Stranded(db, l) {
      StrandedForever(db, ops, l);
      ConvertedAtMostOnce(db, ops, l);
    }
  }

  const ADMIN := User(1, Admin)

  const LEAD_BODY := map[Name := Text("Ana"), Email := Text("ana@example.com"), Vertical := Text("general"), Channel := Text("referral")]

  /** A new lead, worked up to qualified and then marked converted by hand. */
  const STRANDING := [OnLeads(NewLead(7, 0, LEAD_BODY)), OnLeads(MoveStatus(ADMIN, 7, Contacted)),
                      OnLeads(MoveStatus(ADMIN, 7, Qualified)), OnLeads(MoveStatus(ADMIN, 7, LeadStatus.Converted))]

  lemma StrandedReachable(users: set<Id>)
    ensures Stranded(Run(Empty(users), STRANDING), 7)
  {
    FirstLead(users);
    hide Step, Stranded, LEAD_BODY;
    RunFour(Empty(users), STRANDING);
    WorkedUp(Step(Empty(users), STRANDING[0]), Lead(New, None, 0, LEAD_BODY));
  }

  lemma WorkedUp(db: Db, row: Lead)
    requires db.leads == map[7 := row] && row.status.New? && row.convertedClientId.None?
    ensures Stranded(Step(Step(Step(db, OnLeads(MoveStatus(ADMIN, 7, Contacted))), OnLeads(MoveStatus(ADMIN, 7, Qualified))),
                          OnLeads(MoveStatus(ADMIN, 7, LeadStatus.Converted))), 7)
  {
    hide Step;
    OneLeadMoves(db, row, Contacted);
    var b, contacted := Step(db, OnLeads(MoveStatus(ADMIN, 7, Contacted))), row.(status := Contacted);
    OneLeadMoves(b, contacted, Qualified);
    var c, qualified := Step(b, OnLeads(MoveStatus(ADMIN, 7, Qualified))), row.(status := Qualified);
    OneLeadMoves(c, qualified, LeadStatus.Converted);
  }

  lemma FirstLead(users: set<Id>)
    ensures Step(Empty(users), OnLeads(NewLead(7, 0, LEAD_BODY))).leads == map[7 := Lead(New, None, 0, LEAD_BODY)]
  {
    BodyParses();
    BodyFits(users);
    hide Parses, Fits, LEAD_BODY;
  }

  lemma BodyParses()
    ensures Parses(LEAD_BODY, LEAD_COLUMNS - {OwnerId})
  {
  }

  lemma BodyFits(users: set<Id>)
    ensures Fits(LEAD_BODY, LEAD_REQUIRED, users)
  {
  }

  lemma OneLeadMoves(db: Db, row: Lead, to: LeadStatus)
    requires db.leads == map[7 := row] && to in StatusTargets(row.status)
    ensures Step(db, OnLeads(MoveStatus(ADMIN, 7, to))).leads == map[7 := row.(status := to)]
  {
    hide StatusTargets, PerformClient, PerformService, PerformMilestone, PerformTicket, PerformProfile, SendMessage;
    hide CreateLead, UpdateLead, AssignLead;
    assert Perform(db, OnLeads(MoveStatus(ADMIN, 7, to))) == UpdateLeadStatus(db, ADMIN, 7, to);
  }

  lemma RunFour(db: Db, ops: seq<Op>)
    requires |ops| == 4
    ensures Run(db, ops) == Step(Step(Step(Step(db, ops[0]), ops[1]), ops[2]), ops[3])
  {
    hide Step;
    var a := Step(db, ops[0]);
    var b := Step(a, ops[1]);
    assert ops[1..][1..] == ops[2..] && ops[2..][1..] == ops[3..] && ops[3..][1..] == [];
    assert Run(db, ops) == Run(a, ops[1..]) == Run(b, ops[2..]);
    assert Run(b, ops[2..]) == Run(Step(b, ops[2]), ops[3..]);
    assert Run(Step(b, ops[2]), ops[3..]) == Run(Step(Step(b, ops[2]), ops[3]), []);
  }

  lemma {:induction false} StrandedForever(db: Db, ops: seq<Op>, l: Id)
    requires Stranded(db, l)
    ensures Stranded(Run(db, ops), l)
    decreases |ops|
  {
    hide Step, Stranded;
    if ops != [] {
      StrandedStep(db, ops[0], l);
      StrandedForever(Step(db, ops[0]), ops[1..], l);
    }
  }

  // ---------------------------------------------------------------------------
  // Ticket entries
  // ---------------------------------------------------------------------------

  ghost function ClosedTickets(db: Db): (s: set<Id>)
    ensures forall t :: t in s <==> t in db.tickets && IsClosed(db.tickets[t])
  {
    set t | t in db.tickets && IsClosed(db.tickets[t])
  }

  predicate WritesTicket(db: Db, op: Op) { op.OnTickets? && Succeeds(db, op) }

  /** A successful ticket operation on a closed ticket that leaves it open. */
  predicate Reopens(db: Db, op: Op) {
    op.OnTickets? && Succeeds(db, op) && op.ticket.id in db.tickets && IsClosed(db.tickets[op.ticket.id])
    && op.ticket.id in Step(db, op).tickets && !IsClosed(Step(db, op).tickets[op.ticket.id])
  }

  /** v is db with one ticket row written and one entry logged, which says closed exactly when that row became closed. */
  ghost predicate WritesOneTicket(db: Db, v: Db, id: Id) {
    && id in v.tickets && v.tickets == db.tickets[id := v.tickets[id]]
    && |v.log| == |db.log| + 1 && v.log == db.log + [v.log[|db.log|]] && IsTicketEntry(v.log[|db.log|])
    && (IsTicketClosed(v.log[|db.log|]) <==> IsClosed(v.tickets[id]) && !(id in db.tickets && IsClosed(db.tickets[id])))
  }

  lemma PatchTicketStep(db: Db, id: Id, updates: Cols, clientFilter: Id, actor: Id)
    requires UpdateTicket(db, id, updates, clientFilter, actor).Ok?
    ensures WritesOneTicket(db, UpdateTicket(db, id, updates, clientFilter, actor).value, id)
  {
    hide Fits;
    assert Status !in updates;
  }

  lemma StaffPatchStep(db: Db, user: User, id: Id, updates: Cols)
    requires UpdateTicketInternal(db, user, id, updates).Ok?
    ensures WritesOneTicket(db, UpdateTicketInternal(db, user, id, updates).value, id)
  {
    hide Parses;
    var after := db.tickets[id].cols + updates;
    assert !after[Status].Null?;
  }

  lemma TicketStep(db: Db, op: TicketOp)
    requires PerformTicket(db, op).Ok?
    ensures WritesOneTicket(db, PerformTicket(db, op).value, op.id)
  {
    hide Parses, Fits;
    match op
    case NewTicket(id, client, service, body, actor) =>
    case PatchTicket(id, updates, client, actor) => PatchTicketStep(db, id, updates, client, actor);
    case StaffPatchTicket(user, id, updates) => StaffPatchStep(db, user, id, updates);
  }

  lemma TicketRowCounts(db: Db, v: Db, id: Id)
    requires WritesOneTicket(db, v, id)
    ensures var before, after := id in db.tickets && IsClosed(db.tickets[id]), IsClosed(v.tickets[id]);
            && Count(v.log, IsTicketEntry) == Count(db.log, IsTicketEntry) + 1
            && Count(v.log, IsTicketClosed) == Count(db.log, IsTicketClosed) + (if after && !before then 1 else 0)
            && |ClosedTickets(v)| + (if before && !after then 1 else 0) == |ClosedTickets(db)| + (if after && !before then 1 else 0)
  {
    hide Count, IsClosed;
    CountAppend(db.log, v.log[|db.log|], IsTicketEntry);
    CountAppend(db.log, v.log[|db.log|], IsTicketClosed);
    assert ClosedTickets(v) == if IsClosed(v.tickets[id]) then ClosedTickets(db) + {id} else ClosedTickets(db) - {id};
  }

  lemma TicketCounts(db: Db, op: Op)
    ensures Count(Step(db, op).log, IsTicketEntry) == Count(db.log, IsTicketEntry) + (if WritesTicket(db, op) then 1 else 0)
    ensures Count(Step(db, op).log, IsTicketClosed) + |ClosedTickets(db)|
            == Count(db.log, IsTicketClosed) + |ClosedTickets(Step(db, op))| + (if Reopens(db, op) then 1 else 0)
  {
    hide PerformTicket, Count, IsClosed;
    StepFrame(db, op);
    var v := Step(db, op);
    if WritesTicket(db, op) {
      TicketStep(db, op.ticket);
      TicketRowCounts(db, v, op.ticket.id);
    } else {
      if !op.OnTickets? {
        CountUntouched(db.log, v.log, Kinds(op), IsTicketEntry);
        CountUntouched(db.log, v.log, Kinds(op), IsTicketClosed);
      }
      assert v.tickets == db.tickets;
      assert ClosedTickets(v) == ClosedTickets(db);
    }
  }

  /** Ticket entries equal creates plus updates; ticket_closed entries equal currently closed tickets plus reopenings. */
  lemma {:induction false} TicketLogConserved(db: Db, ops: seq<Op>)
    ensures Count(Run(db, ops).log, IsTicketEntry) == Count(db.log, IsTicketEntry) + Tally(db, ops, WritesTicket)
    ensures Count(Run(db, ops).log, IsTicketClosed) + |ClosedTickets(db)|
            == Count(db.log, IsTicketClosed) + |ClosedTickets(Run(db, ops))| + Tally(db, ops, Reopens)
    decreases |ops|
  {
    hide Step, WritesTicket, Reopens, Count, ClosedTickets;
    if ops != [] {
      TicketCounts(db, ops[0]);
      TicketLogConserved(Step(db, ops[0]), ops[1..]);
    }
  }

  // ---------------------------------------------------------------------------
  // Milestone entries
  // ---------------------------------------------------------------------------

  predicate CompletedAtKey(db: Db, k: MilestoneKey) { k in db.milestones && IsComplete(db.milestones[k]) }

  ghost function CompletedMilestones(db: Db): (s: set<MilestoneKey>)
    ensures forall k :: k in s <==> CompletedAtKey(db, k)
  {
    set k | k in db.milestones && IsComplete(db.milestones[k])
  }

  /** A successful milestone operation after which a completed milestone is open again (cleared) or gone (deleted). */
  predicate Uncompletes(db: Db, op: Op) {
    op.OnMilestones? && Succeeds(db, op) && CompletedAtKey(db, op.milestone.key) && !CompletedAtKey(Step(db, op), op.milestone.key)
  }

  predicate Clears(db: Db, op: Op) { Uncompletes(db, op) && op.milestone.PatchMilestone? }

  predicate DropsCompleted(db: Db, op: Op) { Uncompletes(db, op) && op.milestone.DropMilestone? }

  /** v is db with at most one milestone row changed, and a completion logged exactly when that row became completed. */
  ghost predicate TouchesOneMilestone(db: Db, v: Db, key: MilestoneKey) {
    && (forall k :: k != key ==> (CompletedAtKey(v, k) <==> CompletedAtKey(db, k)))
    && (CompletedAtKey(v, key) && !CompletedAtKey(db, key) <==> v.log != db.log)
  }

  lemma NewMilestoneStep(db: Db, key: MilestoneKey, body: Cols)
    requires CreateMilestone(db, key, body).Ok?
    ensures TouchesOneMilestone(db, CreateMilestone(db, key, body).value, key)
    ensures !CompletedAtKey(db, key) && !CompletedAtKey(CreateMilestone(db, key, body).value, key)
  {
    hide Parses, Fits;
  }

  lemma PatchMilestoneStep(db: Db, key: MilestoneKey, updates: Cols, actor: Id)
    requires (key in db.milestones ==> key.service in db.services) && UpdateMilestone(db, key, updates, actor).Ok?
    ensures TouchesOneMilestone(db, UpdateMilestone(db, key, updates, actor).value, key)
  {
    hide Parses, Fits, IsComplete;
    var v := UpdateMilestone(db, key, updates, actor).value;
    var after := db.milestones[key] + updates;
    assert v.milestones == db.milestones[key := after];
    assert v.log != db.log <==> !IsComplete(db.milestones[key]) && IsComplete(after);
    hide UpdateMilestone;
    assert forall k :: k != key ==> (CompletedAtKey(v, k) <==> CompletedAtKey(db, k));
  }

  lemma DropMilestoneStep(db: Db, key: MilestoneKey)
    requires DeleteMilestone(db, key).Ok?
    ensures TouchesOneMilestone(db, DeleteMilestone(db, key).value, key)
  {
    hide IsComplete;
  }

  lemma MilestoneStep(db: Db, op: MilestoneOp)
    requires Refs(db) && PerformMilestone(db, op).Ok?
    ensures var v := PerformMilestone(db, op).value;
            && TouchesOneMilestone(db, v, op.key)
            && (op.NewMilestone? ==> !CompletedAtKey(db, op.key) && !CompletedAtKey(v, op.key))
  {
    hide CreateMilestone, UpdateMilestone, DeleteMilestone, TouchesOneMilestone, CompletedAtKey, LogRefs;
    match op
    case NewMilestone(key, body) => NewMilestoneStep(db, key, body);
    case PatchMilestone(key, updates, actor) => PatchMilestoneStep(db, key, updates, actor);
    case DropMilestone(key) => DropMilestoneStep(db, key);
  }

  lemma MilestoneRowCounts(db: Db, op: MilestoneOp)
    requires Refs(db) && PerformMilestone(db, op).Ok?
    ensures var v := PerformMilestone(db, op).value;
            var before, after := CompletedAtKey(db, op.key), CompletedAtKey(v, op.key);
            && Count(v.log, IsMilestoneCompleted) == Count(db.log, IsMilestoneCompleted) + (if after && !before then 1 else 0)
            && |CompletedMilestones(v)| + (if before && !after then 1 else 0) == |CompletedMilestones(db)| + (if after && !before then 1 else 0)
  {
    hide PerformMilestone, Count, IsComplete, Refs, CompletedAtKey;
    var v := PerformMilestone(db, op).value;
    MilestoneStep(db, op);
    MilestoneFrame(db, op);
    if v.log != db.log {
      CountAppend(db.log, v.log[|db.log|], IsMilestoneCompleted);
    }
    assert CompletedMilestones(v)
           == if CompletedAtKey(v, op.key) then CompletedMilestones(db) + {op.key} else CompletedMilestones(db) - {op.key};
  }

  lemma MilestoneCounts(db: Db, op: Op)
    requires Refs(db)
    ensures Count(Step(db, op).log, IsMilestoneCompleted) + |CompletedMilestones(db)|
            == Count(db.log, IsMilestoneCompleted) + |CompletedMilestones(Step(db, op))|
               + (if Clears(db, op) then 1 else 0) + (if DropsCompleted(db, op) then 1 else 0)
  {
    hide PerformMilestone, Count, IsComplete, Refs;
    StepFrame(db, op);
    var v := Step(db, op);
    if op.OnMilestones? && Succeeds(db, op) {
      MilestoneStep(db, op.milestone);
      MilestoneRowCounts(db, op.milestone);
    } else {
      if !op.OnMilestones? {
        CountUntouched(db.log, v.log, Kinds(op), IsMilestoneCompleted);
      }
      assert v.milestones == db.milestones;
      assert CompletedMilestones(v) == CompletedMilestones(db);
    }
  }

  lemma {:induction false} MilestonesFrom(db: Db, ops: seq<Op>)
    requires Refs(db)
    ensures Count(Run(db, ops).log, IsMilestoneCompleted) + |CompletedMilestones(db)|
            == Count(db.log, IsMilestoneCompleted) + |CompletedMilestones(Run(db, ops))| + Tally(db, ops, Clears) + Tally(db, ops, DropsCompleted)
    decreases |ops|
  {
    hide Step, Clears, DropsCompleted, Count, CompletedMilestones, Refs;
    if ops != [] {
      MilestoneCounts(db, ops[0]);
      StepRefs(db, ops[0]);
      MilestonesFrom(Step(db, ops[0]), ops[1..]);
    }
  }

  /** milestone_completed entries equal currently completed milestones plus clearings plus deletions of completed ones. */
  lemma MilestoneLogConserved(users: set<Id>, ops: seq<Op>)
    ensures var db := Empty(users);
            Count(Run(db, ops).log, IsMilestoneCompleted)
            == |CompletedMilestones(Run(db, ops))| + Tally(db, ops, Clears) + Tally(db, ops, DropsCompleted)
  {
    hide Run, Tally;
    assert CompletedMilestones(Empty(users)) == {};
    MilestonesFrom(Empty(users), ops);
  }

  // ---------------------------------------------------------------------------
  // Billing inside the CRM
  // ---------------------------------------------------------------------------

  /** What the operation is to the billing table: one of its own operations, or the birth of a client, or nothing. */
  function BillingOps(db: Db, op: Op): seq<BillingRuns.Op> {
    if !Succeeds(db, op) then []
    else if op.OnProfiles? then [op.profile]
    else if op.OnClients? && op.client.NewClient? then [BillingRuns.NewClient(op.client.id)]
    else if op.OnClients? && op.client.Convert? then
      if op.client.convert.billing.None? then [BillingRuns.NewClient(op.client.ids.client)]
      else [BillingRuns.ConvertOp(op.client.ids.profile, op.client.now, op.client.ids.client, op.client.convert.billing.value)]
    else []
  }

  /** Every CRM operation, seen from the billing table, is a billing operation or none: the two models agree. */
  lemma BillingSimulation(db: Db, op: Op)
    ensures BillingView(Step(db, op)) == BillingRuns.Run(BillingView(db), BillingOps(db, op))
  {
    StepFrame(db, op);
    if Succeeds(db, op) {
      if op.OnClients? {
        BillingClientStep(db, op.client);
      } else if op.OnProfiles? {
        BillingProfileStep(db, op.profile);
      }
    }
  }

  lemma RunOne(db: Billing.Db, op: BillingRuns.Op)
    ensures BillingRuns.Run(db, [op]) == BillingRuns.Step(db, op)
  {
    assert [op][1..] == [];
  }

  lemma BillingProfileStep(db: Db, op: ProfileOp)
    requires PerformProfile(db, op).Ok?
    ensures BillingView(PerformProfile(db, op).value) == BillingRuns.Run(BillingView(db), [op])
  {
    hide BillingRuns.Perform;
    RunOne(BillingView(db), op);
  }

  lemma BillingClientStep(db: Db, op: ClientOp)
    requires PerformClient(db, op).Ok?
    ensures BillingView(PerformClient(db, op).value) == BillingRuns.Run(BillingView(db), BillingOps(db, OnClients(op)))
  {
    hide Parses, Fits, OwnScope, Billing.CreateSchema, Billing.InsertAtConversion, ConvertedName, ContactFromLead;
    var bops := BillingOps(db, OnClients(op));
    var v := PerformClient(db, op).value;
    if |bops| == 1 {
      RunOne(BillingView(db), bops[0]);
      assert bops == [bops[0]];
      assert v.clients.Keys == db.clients.Keys + {bops[0].client};
    } else {
      assert v.clients.Keys == db.clients.Keys;
    }
  }

  lemma {:induction false} RunBilling(db: Db, ops: seq<Op>)
    requires BillingRuns.Inv(BillingView(db))
    ensures BillingRuns.Inv(BillingView(Run(db, ops)))
    decreases |ops|
  {
    hide Step, BillingRuns.Inv, BillingOps, BillingView;
    if ops != [] {
      BillingSimulation(db, ops[0]);
      BillingRuns.RunKeeps(BillingView(db), BillingOps(db, ops[0]));
      RunBilling(Step(db, ops[0]), ops[1..]);
    }
  }

  /** So the billing invariant (one default, distinct and valid tax ids) holds in every reachable state of the whole CRM. */
  lemma BillingHoldsInCrm(users: set<Id>, ops: seq<Op>)
    ensures BillingRuns.Inv(BillingView(Run(Empty(users), ops)))
  {
    RunBilling(Empty(users), ops);
  }
}
