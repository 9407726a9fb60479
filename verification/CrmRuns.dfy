/** Runs of the CRM: any sequence of operations, each committed or rolled back, from an empty database. */
module CrmRuns {
  import opened Common
  import opened Orm
  import opened StateMachines
  import opened Crm
  import Billing
  import BillingRuns

  datatype ClientOp =
    | NewClient(id: Id, now: int, body: Cols, stage: Stage, actor: Id)
    | PatchClient(user: User, id: Id, updates: Cols)
    | MoveStage(user: User, id: Id, stage: Stage, force: bool)
    | Convert(lead: Id, ids: ConvertIds, now: int, convert: ConvertBody, actor: Id)

  datatype LeadOp =
    | NewLead(id: Id, now: int, body: Cols)
    | MoveStatus(user: User, id: Id, status: LeadStatus)
    | PatchLead(user: User, id: Id, updates: Cols)
    | Assign(id: Id, owner: Id)

  datatype ServiceOp =
    | NewService(id: Id, now: int, client: Id, body: Cols, actor: Id)
    | PatchService(user: User, id: Id, updates: Cols)
    | MoveState(user: User, id: Id, state: ServiceState)

  datatype MilestoneOp =
    | NewMilestone(key: MilestoneKey, body: Cols)
    | PatchMilestone(key: MilestoneKey, updates: Cols, actor: Id)
    | DropMilestone(key: MilestoneKey)

  datatype TicketOp =
    | NewTicket(id: Id, client: Id, service: Option<Id>, body: Cols, actor: Id)
    | PatchTicket(id: Id, updates: Cols, client: Id, actor: Id)
    | StaffPatchTicket(user: User, id: Id, updates: Cols)

  /** The billing routes; profiles of a conversion are part of Convert. */
  type ProfileOp = op: BillingRuns.Op | !op.NewClient? && !op.ConvertOp? witness BillingRuns.DeleteOp(0)

  datatype Op =
    | OnClients(client: ClientOp)
    | OnLeads(lead: LeadOp)
    | OnServices(service: ServiceOp)
    | OnMilestones(milestone: MilestoneOp)
    | OnTickets(ticket: TicketOp)
    | OnProfiles(profile: ProfileOp)
    | Send(to: Id, sender: Id, text: string)

  function PerformClient(db: Db, op: ClientOp): Outcome {
    match op
    case NewClient(id, now, body, stage, actor) => CreateClient(db, id, now, body, stage, actor)
    case PatchClient(user, id, updates) => UpdateClient(db, user, id, updates)
    case MoveStage(user, id, stage, force) => ChangeStage(db, user, id, stage, force)
    case Convert(lead, ids, now, convert, actor) => ConvertLead(db, lead, ids, now, convert, actor)
  }

  function PerformLead(db: Db, op: LeadOp): Outcome {
    match op
    case NewLead(id, now, body) => CreateLead(db, id, now, body)
    case MoveStatus(user, id, status) => UpdateLeadStatus(db, user, id, status)
    case PatchLead(user, id, updates) => UpdateLead(db, user, id, updates)
    case Assign(id, owner) => AssignLead(db, id, owner)
  }

  function PerformService(db: Db, op: ServiceOp): Outcome {
    match op
    case NewService(id, now, client, body, actor) => CreateService(db, id, now, client, body, actor)
    case PatchService(user, id, updates) => UpdateService(db, user, id, updates)
    case MoveState(user, id, state) => ChangeState(db, user, id, state)
  }

  function PerformMilestone(db: Db, op: MilestoneOp): Outcome {
    match op
    case NewMilestone(key, body) => CreateMilestone(db, key, body)
    case PatchMilestone(key, updates, actor) => UpdateMilestone(db, key, updates, actor)
    case DropMilestone(key) => DeleteMilestone(db, key)
  }

  function PerformTicket(db: Db, op: TicketOp): Outcome {
    match op
    case NewTicket(id, client, service, body, actor) => CreateTicket(db, id, client, service, body, actor)
    case PatchTicket(id, updates, client, actor) => UpdateTicket(db, id, updates, client, actor)
    case StaffPatchTicket(user, id, updates) => UpdateTicketInternal(db, user, id, updates)
  }

  function BillingView(db: Db): Billing.Db { Billing.Db(db.clients.Keys, db.profiles) }

  function PerformProfile(db: Db, op: ProfileOp): Outcome {
    match BillingRuns.Perform(BillingView(db), op)
    case Ok(profiles) => Ok(db.(profiles := profiles))
    case Err(e) => Err(BillingError(e))
  }

  function Perform(db: Db, op: Op): Outcome {
    match op
    case OnClients(c) => PerformClient(db, c)
    case OnLeads(l) => PerformLead(db, l)
    case OnServices(s) => PerformService(db, s)
    case OnMilestones(m) => PerformMilestone(db, m)
    case OnTickets(t) => PerformTicket(db, t)
    case OnProfiles(p) => PerformProfile(db, p)
    case Send(to, sender, text) => SendMessage(db, to, sender, text)
  }

  predicate Succeeds(db: Db, op: Op) { Perform(db, op).Ok? }

  /** One transaction: commit, or roll back when the service raised. */
  function Step(db: Db, op: Op): Db {
    match Perform(db, op)
    case Ok(next) => next
    case Err(_) => db
  }

  function Run(db: Db, ops: seq<Op>): Db
    decreases |ops|
  {
    if ops == [] then db else Run(Step(db, ops[0]), ops[1..])
  }

  function Empty(users: set<Id>): Db {
    Db(users, map[], map[], map[], map[], map[], map[], [], map[], [])
  }

  /** The stage route never passes force. */
  predicate RouteOp(op: Op) { op.OnClients? && op.client.MoveStage? ==> !op.client.force }

  predicate ThroughRoutes(ops: seq<Op>) {
    forall k :: 0 <= k < |ops| ==> RouteOp(ops[k])
  }

  // ---------------------------------------------------------------------------
  // Frames: which tables a group of operations can change, and what it can log
  // ---------------------------------------------------------------------------

  /** The log grew by nothing, or by one entry of one of these kinds. */
  ghost predicate Appends(before: seq<Entry>, after: seq<Entry>, kinds: set<Kind>) {
    after == before || (|after| == |before| + 1 && after == before + [after[|before|]] && after[|before|].kind in kinds)
  }

  lemma ClientFrame(db: Db, op: ClientOp)
    requires PerformClient(db, op).Ok?
    ensures var v := PerformClient(db, op).value;
            && v == db.(clients := v.clients, leads := v.leads, contacts := v.contacts, profiles := v.profiles, log := v.log)
            && Appends(db.log, v.log, {StageChange, LeadConverted})
            && db.clients.Keys <= v.clients.Keys
  {
  }

  lemma LeadFrame(db: Db, op: LeadOp)
    requires PerformLead(db, op).Ok?
    ensures var v := PerformLead(db, op).value;
            v == db.(leads := v.leads) && db.leads.Keys <= v.leads.Keys
  {
  }

  lemma ServiceFrame(db: Db, op: ServiceOp)
    requires PerformService(db, op).Ok?
    ensures var v := PerformService(db, op).value;
            && v == db.(services := v.services, log := v.log)
            && Appends(db.log, v.log, {ServiceStarted, ServiceStateChange})
            && db.services.Keys <= v.services.Keys
  {
  }

  lemma MilestoneFrame(db: Db, op: MilestoneOp)
    requires PerformMilestone(db, op).Ok?
    ensures var v := PerformMilestone(db, op).value;
            && v == db.(milestones := v.milestones, log := v.log)
            && Appends(db.log, v.log, {MilestoneCompleted})
  {
  }

  lemma TicketFrame(db: Db, op: TicketOp)
    requires PerformTicket(db, op).Ok?
    ensures var v := PerformTicket(db, op).value;
            && v == db.(tickets := v.tickets, log := v.log)
            && Appends(db.log, v.log, {TicketOpened, TicketUpdated, TicketClosed})
  {
  }

  lemma ProfileFrame(db: Db, op: ProfileOp)
    requires PerformProfile(db, op).Ok?
    ensures var v := PerformProfile(db, op).value; v == db.(profiles := v.profiles)
  {
  }

  lemma SendFrame(db: Db, to: Id, sender: Id, text: string)
    requires SendMessage(db, to, sender, text).Ok?
    ensures var v := SendMessage(db, to, sender, text).value;
            && v == db.(messages := v.messages, log := v.log)
            && Appends(db.log, v.log, {MessageSent})
  {
  }

  /** The kinds a group may log. */
  function Kinds(op: Op): set<Kind> {
    match op
    case OnClients(_) => {StageChange, LeadConverted}
    case OnLeads(_) => {}
    case OnServices(_) => {ServiceStarted, ServiceStateChange}
    case OnMilestones(_) => {MilestoneCompleted}
    case OnTickets(_) => {TicketOpened, TicketUpdated, TicketClosed}
    case OnProfiles(_) => {}
    case Send(_, _, _) => {MessageSent}
  }

  /** From db to v, op logged only what it may, and the tables of other groups stayed as they were. */
  ghost predicate Framed(db: Db, op: Op, v: Db) {
    && Appends(db.log, v.log, Kinds(op))
    && v.users == db.users
    && db.clients.Keys <= v.clients.Keys && db.services.Keys <= v.services.Keys
    && (!op.OnClients? ==> v.clients == db.clients && v.contacts == db.contacts)
    && (!op.OnClients? && !op.OnLeads? ==> v.leads == db.leads)
    && (!op.OnServices? ==> v.services == db.services)
    && (!op.OnMilestones? ==> v.milestones == db.milestones)
    && (!op.OnTickets? ==> v.tickets == db.tickets)
    && (!op.OnClients? && !op.OnProfiles? ==> v.profiles == db.profiles)
  }

  lemma SuccessFramed(db: Db, op: Op)
    requires Succeeds(db, op)
    ensures Framed(db, op, Perform(db, op).value)
  {
    hide PerformClient, PerformLead, PerformService, PerformMilestone, PerformTicket, PerformProfile, SendMessage, Appends;
    assert Appends(db.log, db.log, Kinds(op)) by { NoEntry(db.log, Kinds(op)); }
    match op
    case OnClients(c) => ClientFrame(db, c);
    case OnLeads(l) => LeadFrame(db, l);
    case OnServices(s) => ServiceFrame(db, s);
    case OnMilestones(m) => MilestoneFrame(db, m);
    case OnTickets(t) => TicketFrame(db, t);
    case OnProfiles(p) => ProfileFrame(db, p);
    case Send(to, sender, text) => SendFrame(db, to, sender, text);
  }

  /** Every operation keeps to its frame, committed or rolled back. */
  lemma StepFrame(db: Db, op: Op)
    ensures Framed(db, op, Step(db, op))
  {
    hide Perform, Appends;
    NoEntry(db.log, Kinds(op));
    if Succeeds(db, op) {
      SuccessFramed(db, op);
    }
  }

  lemma NoEntry(log: seq<Entry>, kinds: set<Kind>)
    ensures Appends(log, log, kinds)
  {
  }
}
