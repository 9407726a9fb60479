/**
What holds over whole runs of the CRM: references stay real, the audit log replays to the current
stages and states, lost is final, and rows move a bounded number of times.
*/
module CrmTheorems {
  import opened Orm
  import opened StateMachines
  import opened Crm
  import opened CrmRuns
  import Billing

  // ---------------------------------------------------------------------------
  // References stay real
  // ---------------------------------------------------------------------------

  ghost predicate Refs(db: Db) {
    && (forall s :: s in db.services ==> db.services[s].clientId in db.clients)
    && (forall t :: t in db.tickets ==> db.tickets[t].clientId in db.clients)
    && (forall k :: k in db.milestones ==> k.service in db.services)
    && (forall l :: l in db.leads && db.leads[l].convertedClientId.Some? ==> db.leads[l].convertedClientId.value in db.clients)
    && LogRefs(db)
  }

  ghost predicate LogRefs(db: Db) {
    forall i :: 0 <= i < |db.log| ==> EntryRefs(db, db.log[i])
  }

  predicate EntryRefs(db: Db, e: Entry) {
    e.clientId in db.clients && (e.detail.ServiceMove? ==> e.detail.service in db.services)
  }

  lemma LogRefsGrow(db: Db, next: Db)
    requires LogRefs(db) && db.clients.Keys <= next.clients.Keys && db.services.Keys <= next.services.Keys
    requires next.log == db.log || (|next.log| == |db.log| + 1 && next.log == db.log + [next.log[|db.log|]] && EntryRefs(next, next.log[|db.log|]))
    ensures LogRefs(next)
  {
  }

  lemma ClientRefs(db: Db, op: ClientOp)
    requires Refs(db) && PerformClient(db, op).Ok?
    ensures Refs(PerformClient(db, op).value)
  {
    hide Parses, Fits, Billing.CreateSchema, Billing.InsertAtConversion, OwnScope, ConvertedName, ContactFromLead;
    LogRefsGrow(db, PerformClient(db, op).value);
  }

  lemma LeadRefs(db: Db, op: LeadOp)
    requires Refs(db) && PerformLead(db, op).Ok?
    ensures Refs(PerformLead(db, op).value)
  {
    hide Parses, Fits, OwnScope;
    LogRefsGrow(db, PerformLead(db, op).value);
  }

  lemma ServiceRefs(db: Db, op: ServiceOp)
    requires Refs(db) && PerformService(db, op).Ok?
    ensures Refs(PerformService(db, op).value)
  {
    hide Parses, Fits, ServiceScope;
    LogRefsGrow(db, PerformService(db, op).value);
  }

  lemma MilestoneRefs(db: Db, op: MilestoneOp)
    requires Refs(db) && PerformMilestone(db, op).Ok?
    ensures Refs(PerformMilestone(db, op).value)
  {
    hide Parses, Fits, IsComplete;
    var v := PerformMilestone(db, op).value;
    MilestoneFrame(db, op);
    MilestonesHaveServices(db, op);
    if v.log != db.log {
      assert op.PatchMilestone? && v.log[|db.log|].clientId == db.services[op.key.service].clientId;
    }
    LogRefsGrow(db, v);
  }

  lemma MilestonesHaveServices(db: Db, op: MilestoneOp)
    requires PerformMilestone(db, op).Ok? && forall k :: k in db.milestones ==> k.service in db.services
    ensures forall k :: k in PerformMilestone(db, op).value.milestones ==> k.service in db.services
  {
    hide Parses, Fits, IsComplete;
  }

  lemma TicketRefs(db: Db, op: TicketOp)
    requires Refs(db) && PerformTicket(db, op).Ok?
    ensures Refs(PerformTicket(db, op).value)
  {
    hide Parses, Fits, IsClosed;
    LogRefsGrow(db, PerformTicket(db, op).value);
  }

  lemma SendRefs(db: Db, to: Id, sender: Id, text: string)
    requires Refs(db) && SendMessage(db, to, sender, text).Ok?
    ensures Refs(SendMessage(db, to, sender, text).value)
  {
    LogRefsGrow(db, SendMessage(db, to, sender, text).value);
  }

  lemma ProfileRefs(db: Db, op: ProfileOp)
    requires Refs(db) && PerformProfile(db, op).Ok?
    ensures Refs(PerformProfile(db, op).value)
  {
    LogRefsGrow(db, PerformProfile(db, op).value);
  }

  lemma StepRefs(db: Db, op: Op)
    requires Refs(db)
    ensures Refs(Step(db, op))
  {
    hide Refs, PerformClient, PerformLead, PerformService, PerformMilestone, PerformTicket, PerformProfile, SendMessage;
    if Succeeds(db, op) {
      match op
      case OnClients(c) => ClientRefs(db, c);
      case OnLeads(l) => LeadRefs(db, l);
      case OnServices(s) => ServiceRefs(db, s);
      case OnMilestones(m) => MilestoneRefs(db, m);
      case OnTickets(t) => TicketRefs(db, t);
      case OnProfiles(p) => ProfileRefs(db, p);
      case Send(to, sender, text) => SendRefs(db, to, sender, text);
    }
  }

  // ---------------------------------------------------------------------------
  // Audit log replay: client stages
  // ---------------------------------------------------------------------------

  /** Where a replay stands: nothing seen yet, at a value, or contradicted by an entry. */
  datatype Replay<+S> = Unborn | At(s: S) | Broken

  /** One entry read back: a creation, or a move that starts where the replay stands and follows the table. */
  function StageStep(e: Entry, c: Id, r: Replay<Stage>): Replay<Stage> {
    if e.clientId != c || !e.kind.StageChange? then r
    else if r.Unborn? && e.detail.ClientCreated? then At(e.detail.stage)
    else if r.At? && e.detail.StageMove? && e.detail.from == r.s && e.detail.to in StageTargets(r.s) then At(e.detail.to)
    else Broken
  }

  function StageReplay(log: seq<Entry>, c: Id, start: Replay<Stage>): Replay<Stage> {
    if log == [] then start else StageStep(log[|log| - 1], c, StageReplay(log[..|log| - 1], c, start))
  }

  lemma StageReplayAppend(log: seq<Entry>, e: Entry, c: Id, start: Replay<Stage>)
    ensures StageReplay(log + [e], c, start) == StageStep(e, c, StageReplay(log, c, start))
  {
    assert (log + [e])[..|log|] == log;
  }

  lemma {:induction false} StageReplayUntouched(log: seq<Entry>, c: Id, start: Replay<Stage>)
    requires forall i :: 0 <= i < |log| ==> log[i].clientId != c
    ensures StageReplay(log, c, start) == start
  {
    if log != [] {
      StageReplayUntouched(log[..|log| - 1], c, start);
    }
  }

  /** A directly created client replays from its log alone; a converted one from the stage chosen at conversion. */
  function StartOf(origin: Origin): Replay<Stage> {
    match origin
    case Direct => Unborn
    case FromLead(stage) => At(stage)
  }

  ghost predicate StagesReplay(db: Db) {
    forall c :: c in db.clients ==> StageReplay(db.log, c, StartOf(db.clients[c].origin)) == At(db.clients[c].stage)
  }

  lemma OtherEntriesKeepStages(db: Db, next: Db, kinds: set<Kind>)
    requires StagesReplay(db) && next.clients == db.clients && Appends(db.log, next.log, kinds) && StageChange !in kinds
    ensures StagesReplay(next)
  {
    if next.log != db.log {
      var e := next.log[|db.log|];
      forall c | c in db.clients
        ensures StageReplay(next.log, c, StartOf(db.clients[c].origin)) == StageReplay(db.log, c, StartOf(db.clients[c].origin))
      {
        StageReplayAppend(db.log, e, c, StartOf(db.clients[c].origin));
      }
    }
  }

  lemma NewRowStages(db: Db, next: Db, id: Id, row: Client, e: Entry)
    requires LogRefs(db) && StagesReplay(db) && id !in db.clients
    requires next.clients == db.clients[id := row] && next.log == db.log + [e] && e.clientId == id
    requires StageStep(e, id, StartOf(row.origin)) == At(row.stage)
    ensures StagesReplay(next)
  {
    forall c | c in next.clients
      ensures StageReplay(next.log, c, StartOf(next.clients[c].origin)) == At(next.clients[c].stage)
    {
      StageReplayAppend(db.log, e, c, StartOf(next.clients[c].origin));
      if c == id {
        StageReplayUntouched(db.log, c, StartOf(row.origin));
      }
    }
  }

  lemma MovedRowStages(db: Db, next: Db, id: Id, to: Stage, e: Entry)
    requires StagesReplay(db) && id in db.clients
    requires next.clients == db.clients[id := db.clients[id].(stage := to)] && next.log == db.log + [e] && e.clientId == id
    requires StageStep(e, id, At(db.clients[id].stage)) == At(to)
    ensures StagesReplay(next)
  {
    forall c | c in next.clients
      ensures StageReplay(next.log, c, StartOf(next.clients[c].origin)) == At(next.clients[c].stage)
    {
      StageReplayAppend(db.log, e, c, StartOf(next.clients[c].origin));
    }
  }

  lemma ClientStepStages(db: Db, op: ClientOp)
    requires LogRefs(db) && StagesReplay(db) && PerformClient(db, op).Ok? && (op.MoveStage? ==> !op.force)
    ensures StagesReplay(PerformClient(db, op).value)
  {
    hide LogRefs, Parses, Fits, Billing.CreateSchema, Billing.InsertAtConversion, OwnScope, ConvertedName, ContactFromLead;
    var v := PerformClient(db, op).value;
    match op
    case NewClient(id, now, body, stage, actor) =>
      NewRowStages(db, v, id, v.clients[id], v.log[|db.log|]);
    case PatchClient(user, id, updates) =>
    case MoveStage(user, id, stage, force) =>
      MovedRowStages(db, v, id, stage, v.log[|db.log|]);
    case Convert(lead, ids, now, convert, actor) =>
      NewRowStages(db, v, ids.client, v.clients[ids.client], v.log[|db.log|]);
  }

  lemma StepStages(db: Db, op: Op)
    requires Refs(db) && StagesReplay(db) && RouteOp(op)
    ensures StagesReplay(Step(db, op))
  {
    hide PerformClient, StagesReplay, Appends, LogRefs;
    StepFrame(db, op);
    if op.OnClients? {
      if Succeeds(db, op) { ClientStepStages(db, op.client); }
    } else {
      OtherEntriesKeepStages(db, Step(db, op), Kinds(op));
    }
  }

  lemma {:induction false} RunStages(db: Db, ops: seq<Op>)
    requires Refs(db) && StagesReplay(db) && ThroughRoutes(ops)
    ensures Refs(Run(db, ops)) && StagesReplay(Run(db, ops))
    decreases |ops|
  {
    hide Refs, StagesReplay, Step;
    if ops != [] {
      StepRefs(db, ops[0]);
      StepStages(db, ops[0]);
      RunStages(Step(db, ops[0]), ops[1..]);
    }
  }

  /**
  In every state reached through the routes, a client's stage_change entries in append order form a
  connected path of valid transitions from its creation stage (for a converted client, the stage
  chosen at conversion) to its current stage.
  */
  lemma StageLogReplays(users: set<Id>, ops: seq<Op>, c: Id)
    requires ThroughRoutes(ops) && c in Run(Empty(users), ops).clients
    ensures var db := Run(Empty(users), ops);
            StageReplay(db.log, c, StartOf(db.clients[c].origin)) == At(db.clients[c].stage)
  {
    RunStages(Empty(users), ops);
  }

  // ---------------------------------------------------------------------------
  // Audit log replay: service states
  // ---------------------------------------------------------------------------

  function StateStep(e: Entry, s: Id, r: Replay<ServiceState>): Replay<ServiceState> {
    if !(e.kind.ServiceStateChange? && e.detail.ServiceMove? && e.detail.service == s) then r
    else if r.At? && e.detail.before == r.s && e.detail.after in StateTargets(r.s) then At(e.detail.after)
    else Broken
  }

  function StateReplay(log: seq<Entry>, s: Id): Replay<ServiceState> {
    if log == [] then At(Scoping) else StateStep(log[|log| - 1], s, StateReplay(log[..|log| - 1], s))
  }

  lemma StateReplayAppend(log: seq<Entry>, e: Entry, s: Id)
    ensures StateReplay(log + [e], s) == StateStep(e, s, StateReplay(log, s))
  {
    assert (log + [e])[..|log|] == log;
  }

  lemma {:induction false} StateReplayUntouched(log: seq<Entry>, s: Id)
    requires forall i :: 0 <= i < |log| && log[i].detail.ServiceMove? ==> log[i].detail.service != s
    ensures StateReplay(log, s) == At(Scoping)
  {
    if log != [] {
      StateReplayUntouched(log[..|log| - 1], s);
    }
  }

  ghost predicate StatesReplay(db: Db) {
    forall s :: s in db.services ==> StateReplay(db.log, s) == At(db.services[s].state)
  }

  lemma OtherEntriesKeepStates(db: Db, next: Db, kinds: set<Kind>)
    requires StatesReplay(db) && next.services == db.services && Appends(db.log, next.log, kinds) && ServiceStateChange !in kinds
    ensures StatesReplay(next)
  {
    if next.log != db.log {
      forall s | s in db.services
        ensures StateReplay(next.log, s) == StateReplay(db.log, s)
      {
        StateReplayAppend(db.log, next.log[|db.log|], s);
      }
    }
  }

  lemma LoggedRowStates(db: Db, next: Db, id: Id, row: Service, e: Entry)
    requires LogRefs(db) && StatesReplay(db)
    requires next.services == db.services[id := row] && next.log == db.log + [e]
    requires if id in db.services then StateStep(e, id, At(db.services[id].state)) == At(row.state) else row.state == Scoping && !e.detail.ServiceMove?
    requires e.detail.ServiceMove? ==> e.detail.service == id
    ensures StatesReplay(next)
  {
    forall s | s in next.services
      ensures StateReplay(next.log, s) == At(next.services[s].state)
    {
      StateReplayAppend(db.log, e, s);
      if s !in db.services {
        StateReplayUntouched(db.log, s);
      }
    }
  }

  lemma ServiceStepStates(db: Db, op: ServiceOp)
    requires LogRefs(db) && StatesReplay(db) && PerformService(db, op).Ok?
    ensures StatesReplay(PerformService(db, op).value)
  {
    hide LogRefs, Parses, Fits, ServiceScope;
    var v := PerformService(db, op).value;
    match op
    case NewService(id, now, client, body, actor) =>
      LoggedRowStates(db, v, id, v.services[id], v.log[|db.log|]);
    case PatchService(user, id, updates) =>
    case MoveState(user, id, state) =>
      LoggedRowStates(db, v, id, v.services[id], v.log[|db.log|]);
  }

  lemma StepStates(db: Db, op: Op)
    requires Refs(db) && StatesReplay(db)
    ensures StatesReplay(Step(db, op))
  {
    hide LogRefs, PerformService, StatesReplay, Appends;
    StepFrame(db, op);
    if op.OnServices? {
      if Succeeds(db, op) { ServiceStepStates(db, op.service); }
    } else {
      OtherEntriesKeepStates(db, Step(db, op), Kinds(op));
    }
  }

  lemma {:induction false} RunStates(db: Db, ops: seq<Op>)
    requires Refs(db) && StatesReplay(db)
    ensures Refs(Run(db, ops)) && StatesReplay(Run(db, ops))
    decreases |ops|
  {
    hide Refs, StatesReplay, Step;
    if ops != [] {
      StepRefs(db, ops[0]);
      StepStates(db, ops[0]);
      RunStates(Step(db, ops[0]), ops[1..]);
    }
  }

  /** In every reachable state a service's service_state_change entries lead by valid transitions from scoping to its state. */
  lemma StateLogReplays(users: set<Id>, ops: seq<Op>, s: Id)
    requires s in Run(Empty(users), ops).services
    ensures var db := Run(Empty(users), ops); StateReplay(db.log, s) == At(db.services[s].state)
  {
    RunStates(Empty(users), ops);
  }

  // ---------------------------------------------------------------------------
  // Lost is final
  // ---------------------------------------------------------------------------

  /** Leaving lost takes force: for a lost client in scope, a stage change passes exactly when force is given and the stage is a known one. */
  lemma OnlyForceLeavesLost(db: Db, user: User, c: Id, to: Stage, force: bool)
    requires c in db.clients && OwnScope(user, db.clients[c].cols) && db.clients[c].stage.Lost?
    ensures ChangeStage(db, user, c, to, force).Ok? <==> force && KnownStage(to)
  {
  }

  ghost function ServicesOf(db: Db, c: Id): set<Id> {
    set s | s in db.services && db.services[s].clientId == c
  }

  lemma LostStep(db: Db, op: Op, c: Id)
    requires RouteOp(op) && c in db.clients && db.clients[c].stage.Lost?
    ensures var v := Step(db, op);
            c in v.clients && v.clients[c].stage.Lost? && ServicesOf(v, c) == ServicesOf(db, c)
  {
    StepFrame(db, op);
    if op.OnClients? && Succeeds(db, op) {
      LostClientStep(db, op.client, c);
    }
    if op.OnServices? && Succeeds(db, op) {
      LostServiceStep(db, op.service, c);
    }
  }

  lemma LostClientStep(db: Db, op: ClientOp, c: Id)
    requires (op.MoveStage? ==> !op.force) && PerformClient(db, op).Ok? && c in db.clients && db.clients[c].stage.Lost?
    ensures c in PerformClient(db, op).value.clients && PerformClient(db, op).value.clients[c].stage.Lost?
  {
  }

  lemma LostServiceStep(db: Db, op: ServiceOp, c: Id)
    requires PerformService(db, op).Ok? && c in db.clients && db.clients[c].stage.Lost?
    ensures ServicesOf(PerformService(db, op).value, c) == ServicesOf(db, c)
  {
  }

  /** In every run through the routes a lost client stays lost and its set of services never grows (or shrinks). */
  lemma {:induction false} LostIsFinal(db: Db, ops: seq<Op>, c: Id)
    requires ThroughRoutes(ops) && c in db.clients && db.clients[c].stage.Lost?
    ensures var v := Run(db, ops);
            c in v.clients && v.clients[c].stage.Lost? && ServicesOf(v, c) == ServicesOf(db, c)
    decreases |ops|
  {
    hide Step, ServicesOf;
    if ops != [] {
      LostStep(db, ops[0], c);
      LostIsFinal(Step(db, ops[0]), ops[1..], c);
    }
  }

  // ---------------------------------------------------------------------------
  // How often rows move
  // ---------------------------------------------------------------------------

  predicate MovesStageOf(db: Db, op: Op, c: Id) {
    op.OnClients? && op.client.MoveStage? && op.client.id == c && Succeeds(db, op)
  }

  predicate MovesStatusOf(db: Db, op: Op, l: Id) {
    Succeeds(db, op)
    && ((op.OnLeads? && op.lead.MoveStatus? && op.lead.id == l) || (op.OnClients? && op.client.Convert? && op.client.lead == l))
  }

  predicate MovesStateOf(db: Db, op: Op, s: Id) {
    op.OnServices? && op.service.MoveState? && op.service.id == s && Succeeds(db, op)
  }

  /** How many operations of a run satisfy p in the state they meet. */
  ghost function Tally(db: Db, ops: seq<Op>, p: (Db, Op) -> bool): nat
    decreases |ops|
  {
    if ops == [] then 0 else (if p(db, ops[0]) then 1 else 0) + Tally(Step(db, ops[0]), ops[1..], p)
  }

  /** The stage changes a client has left: five before it exists. */
  function StageBudget(db: Db, c: Id): nat {
    if c in db.clients then StageRank(db.clients[c].stage) else 5
  }

  lemma StageBudgetStep(db: Db, op: Op, c: Id)
    requires RouteOp(op)
    ensures StageBudget(Step(db, op), c) + (if MovesStageOf(db, op, c) then 1 else 0) <= StageBudget(db, c)
  {
    StepFrame(db, op);
    if op.OnClients? && Succeeds(db, op) {
      StageBudgetClientStep(db, op.client, c);
    }
  }

  lemma StageBudgetClientStep(db: Db, op: ClientOp, c: Id)
    requires PerformClient(db, op).Ok? && (op.MoveStage? ==> !op.force)
    ensures StageBudget(PerformClient(db, op).value, c) + (if op.MoveStage? && op.id == c then 1 else 0) <= StageBudget(db, c)
  {
    hide Parses, Fits, OwnScope, StageTargets, StageRank, Billing.CreateSchema, Billing.InsertAtConversion, ConvertedName, ContactFromLead;
    if op.MoveStage? && op.id == c {
      StageMoveDescends(db.clients[c].stage, op.stage);
    }
    RankAtMostFive(PerformClient(db, op).value, c);
  }

  /** Whatever a run through the routes does, a client changes stage at most five times. */
  lemma {:induction false} AtMostFiveStageChanges(db: Db, ops: seq<Op>, c: Id)
    requires ThroughRoutes(ops)
    ensures Tally(db, ops, (d, op) => MovesStageOf(d, op, c)) + StageBudget(Run(db, ops), c) <= StageBudget(db, c) <= 5
    decreases |ops|
  {
    hide Step, MovesStageOf, StageBudget;
    BudgetAtMostFive(db, c);
    if ops != [] {
      StageBudgetStep(db, ops[0], c);
      AtMostFiveStageChanges(Step(db, ops[0]), ops[1..], c);
    }
  }

  lemma RankAtMostFive(db: Db, c: Id)
    ensures c in db.clients ==> StageRank(db.clients[c].stage) <= 5
  {
  }

  lemma BudgetAtMostFive(db: Db, c: Id)
    ensures StageBudget(db, c) <= 5
  {
  }

  function StatusBudget(db: Db, l: Id): nat {
    if l in db.leads then StatusRank(db.leads[l].status) else 3
  }

  lemma StatusBudgetStep(db: Db, op: Op, l: Id)
    ensures StatusBudget(Step(db, op), l) + (if MovesStatusOf(db, op, l) then 1 else 0) <= StatusBudget(db, l)
  {
    StepFrame(db, op);
    if Succeeds(db, op) {
      if op.OnClients? { StatusBudgetClientStep(db, op.client, l); }
      if op.OnLeads? { StatusBudgetLeadStep(db, op.lead, l); }
    }
  }

  lemma StatusBudgetClientStep(db: Db, op: ClientOp, l: Id)
    requires PerformClient(db, op).Ok?
    ensures StatusBudget(PerformClient(db, op).value, l) + (if op.Convert? && op.lead == l then 1 else 0) <= StatusBudget(db, l)
  {
    hide Parses, Fits, OwnScope, StatusRank, Billing.CreateSchema, Billing.InsertAtConversion, ConvertedName, ContactFromLead;
    StatusMoveDescends(Qualified, LeadStatus.Converted);
  }

  lemma StatusBudgetLeadStep(db: Db, op: LeadOp, l: Id)
    requires PerformLead(db, op).Ok?
    ensures StatusBudget(PerformLead(db, op).value, l) + (if op.MoveStatus? && op.id == l then 1 else 0) <= StatusBudget(db, l)
  {
    hide Parses, Fits, OwnScope, StatusTargets, StatusRank;
    if op.MoveStatus? && op.id == l {
      StatusMoveDescends(db.leads[l].status, op.status);
    }
    NewStatusRank();
  }

  /** A lead changes status at most three times, conversion included. */
  lemma {:induction false} AtMostThreeStatusChanges(db: Db, ops: seq<Op>, l: Id)
    ensures Tally(db, ops, (d, op) => MovesStatusOf(d, op, l)) + StatusBudget(Run(db, ops), l) <= StatusBudget(db, l) <= 3
    decreases |ops|
  {
    hide Step, MovesStatusOf, StatusBudget;
    BudgetAtMostThree(db, l);
    if ops != [] {
      StatusBudgetStep(db, ops[0], l);
      AtMostThreeStatusChanges(Step(db, ops[0]), ops[1..], l);
    }
  }

  lemma NewStatusRank()
    ensures StatusRank(New) == 3
  {
  }

  lemma BudgetAtMostThree(db: Db, l: Id)
    ensures StatusBudget(db, l) <= 3
  {
  }

  /** Completed or in maintenance: what is left is at most the move into maintenance. */
  predicate PastCompletion(db: Db, s: Id) {
    s in db.services && (db.services[s].state.Completed? || db.services[s].state.Maintenance?)
  }

  function StateBudget(db: Db, s: Id): nat {
    if s in db.services && db.services[s].state.Completed? then 1 else 0
  }

  lemma StateBudgetStep(db: Db, op: Op, s: Id)
    requires PastCompletion(db, s)
    ensures PastCompletion(Step(db, op), s)
    ensures StateBudget(Step(db, op), s) + (if MovesStateOf(db, op, s) then 1 else 0) <= StateBudget(db, s)
  {
    StepFrame(db, op);
    if op.OnServices? && Succeeds(db, op) {
      StateBudgetServiceStep(db, op.service, s);
    }
  }

  lemma StateBudgetServiceStep(db: Db, op: ServiceOp, s: Id)
    requires PastCompletion(db, s) && PerformService(db, op).Ok?
    ensures PastCompletion(PerformService(db, op).value, s)
    ensures StateBudget(PerformService(db, op).value, s) + (if op.MoveState? && op.id == s then 1 else 0) <= StateBudget(db, s)
  {
  }

  /** Once completed, a service changes state at most once more, into maintenance. */
  lemma {:induction false} AtMostOneChangeAfterCompletion(db: Db, ops: seq<Op>, s: Id)
    requires PastCompletion(db, s)
    ensures Tally(db, ops, (d, op) => MovesStateOf(d, op, s)) + StateBudget(Run(db, ops), s) <= StateBudget(db, s)
    ensures PastCompletion(Run(db, ops), s)
    decreases |ops|
  {
    hide Step, MovesStateOf, StateBudget, PastCompletion;
    if ops != [] {
      StateBudgetStep(db, ops[0], s);
      AtMostOneChangeAfterCompletion(Step(db, ops[0]), ops[1..], s);
    }
  }
}
