/**
The CRM's tables and its service operations, each as one serial transaction: it either yields
a new database or raises and leaves the old one.

Rows keep the columns a service reasons about as fields of their own, and every column a PATCH
body can set in a map from columns to values, as setattr sees them.
*/
module Crm {
  import opened Common
  import opened Orm
  import opened StateMachines
  import Billing

  datatype Role = Admin | Consultor | Comercial | ClientUser

  datatype User = User(id: Id, role: Role)

  datatype Column =
    | Name | Sector | Size | Region | OwnerId | MrrCents | LifetimeValueCents
    | Email | Phone | Company | Vertical | Channel | SourceUrl | Notes | LeadRole
    | ServiceType | Title | ProgressPct | StartedAt | EndedAt | SetupPriceCents | MonthlyCents | ScoreInt
    | DueDate | CompletedAt
    | Priority | Status | Body | AssignedTo

  datatype TicketStatus = Pending | InProgress | Closed

  datatype Value = Null | Text(text: string) | Num(num: int) | Ref(id: Id) | StatusOf(status: TicketStatus)

  type Cols = map<Column, Value>

  /**
  How a client came to be. The stage chosen at a conversion is stored in client.stage only; it is
  remembered here, and read by no operation, to state what the log replays from.
  */
  datatype Origin = Direct | FromLead(stage: Stage)

  datatype Client = Client(stage: Stage, createdAt: int, cols: Cols, origin: Origin)

  datatype Lead = Lead(status: LeadStatus, convertedClientId: Option<Id>, createdAt: int, cols: Cols)

  datatype Contact = Contact(clientId: Id, isPrimary: bool, cols: Cols)

  datatype Service = Service(clientId: Id, state: ServiceState, createdAt: int, cols: Cols)

  datatype Ticket = Ticket(clientId: Id, serviceId: Option<Id>, cols: Cols)

  datatype Message = Message(clientId: Id, senderId: Id, body: string)

  datatype Kind =
    | StageChange | ContactAdded | ContactUpdated | ServiceStarted | ServiceStateChange | MilestoneCompleted
    | LeadConverted | Note | TicketOpened | TicketUpdated | TicketClosed | MessageSent

  /**
  What an entry's text says. The text of a service move names the service by title only; the id
  here stands for the service the entry was written for.
  */
  datatype Detail =
    | ClientCreated(stage: Stage)
    | StageMove(from: Stage, to: Stage)
    | ServiceMove(service: Id, before: ServiceState, after: ServiceState)
    | Other

  datatype Entry = Entry(clientId: Id, kind: Kind, detail: Detail, actor: Id)

  /** Milestones are keyed by (service_id, n), their UNIQUE constraint. */
  datatype MilestoneKey = MilestoneKey(service: Id, n: nat)

  datatype Db = Db(
    users: set<Id>, clients: map<Id, Client>, leads: map<Id, Lead>, contacts: map<Id, Contact>,
    services: map<Id, Service>, milestones: map<MilestoneKey, Cols>, tickets: map<Id, Ticket>,
    messages: seq<Message>, profiles: Billing.Table, log: seq<Entry>)

  datatype Error =
    | ValidationError | IntegrityError | ClientNotFound | LeadNotFound | ServiceNotFound | MilestoneNotFound
    | TicketNotFound | OwnerUserNotFound | InvalidTransition | LeadAlreadyConverted | LeadNotQualified
    | CannotCreateOnLostClient | Forbidden | BillingError(error: Billing.Error)

  type Outcome = Result<Db, Error>

  // ---------------------------------------------------------------------------
  // Schemas and constraints
  // ---------------------------------------------------------------------------

  const CLIENT_COLUMNS := {Name, Sector, Size, Region, OwnerId, MrrCents, LifetimeValueCents}
  const CLIENT_REQUIRED := {Name}
  const CONVERT_COLUMNS := {Sector, Size, Region, OwnerId, MrrCents}
  const LEAD_COLUMNS := {Name, Email, Phone, Company, Vertical, Channel, SourceUrl, Notes, LeadRole, OwnerId}
  const LEAD_REQUIRED := {Name, Email, Vertical, Channel}
  const LEAD_UPDATABLE := {Name, Phone, Company, Notes, LeadRole}
  const SERVICE_COLUMNS := {ServiceType, Title, OwnerId, ProgressPct, StartedAt, EndedAt, SetupPriceCents, MonthlyCents, ScoreInt}
  const SERVICE_REQUIRED := {ServiceType, Title}
  const SERVICE_UPDATABLE := SERVICE_COLUMNS - {ServiceType}
  const MILESTONE_COLUMNS := {Title, DueDate, CompletedAt}
  const MILESTONE_REQUIRED := {Title}
  const TICKET_COLUMNS := {Title, Priority, Status, Body, AssignedTo}
  const TICKET_REQUIRED := {Title, Priority, Status}
  const TICKET_PATCHABLE := {Title, Priority, Body}

  /** The values a column may hold where the source lists them; None where any text will do. */
  function Choices(c: Column): Option<set<string>> {
    match c
    case Vertical => Some({"clinicas_dentales", "general"})
    case Channel => Some({"email_marketing", "cold_calling", "networking", "referral", "web_form", "other"})
    case ServiceType => Some({"assessment", "development", "formation"})
    case Priority => Some({"high", "medium", "low"})
    case _ => None
  }

  predicate Chosen(c: Column, v: Value) {
    Choices(c).Some? && !v.Null? ==> v.Text? && v.text in Choices(c).value
  }

  /**
  A body that parses: no column outside the schema, and each value of its column's kind or null. A
  service's type is free text here; only its table knows the choices.
  */
  predicate Parses(body: Cols, columns: set<Column>) {
    && body.Keys <= columns
    && (forall c :: c in body && c != ServiceType ==> Chosen(c, body[c]))
    && forall c :: c in body && !body[c].Null? ==>
         (c == OwnerId || c == AssignedTo <==> body[c].Ref?) && (c == Status <==> body[c].StatusOf?)
  }

  /** A row the database takes: NOT NULL columns filled, user references real, and CHECK constraints met. */
  predicate Fits(cols: Cols, required: set<Column>, users: set<Id>) {
    && (forall c :: c in required ==> c in cols && !cols[c].Null?)
    && (forall c :: c in cols ==> Chosen(c, cols[c]))
    && forall c :: c in cols && cols[c].Ref? ==> cols[c].id in users
  }

  function Owner(cols: Cols): Option<Id> {
    if OwnerId in cols && cols[OwnerId].Ref? then Some(cols[OwnerId].id) else None
  }

  /** The WHERE owner_id = user.id that consultor and comercial queries carry. */
  predicate OwnScope(user: User, cols: Cols) {
    user.role.Consultor? || user.role.Comercial? ==> Owner(cols) == Some(user.id)
  }

  /** Service writes scope consultors only. */
  predicate ServiceScope(user: User, cols: Cols) {
    user.role.Consultor? ==> Owner(cols) == Some(user.id)
  }

  /** A truthy string column: Python's `or` skips null and "". */
  predicate Truthy(v: Value) { v.Text? && v.text != "" }

  function ValueOf(cols: Cols, c: Column): Value { if c in cols then cols[c] else Null }

  /** append_activity: the one way into the log. */
  function Logged(db: Db, client: Id, kind: Kind, detail: Detail, actor: Id): Db {
    db.(log := db.log + [Entry(client, kind, detail, actor)])
  }

  // ---------------------------------------------------------------------------
  // Clients
  // ---------------------------------------------------------------------------

  function CreateClient(db: Db, id: Id, now: int, body: Cols, stage: Stage, actor: Id): Outcome {
    if !Parses(body, CLIENT_COLUMNS - {LifetimeValueCents}) then Err(ValidationError)
    else if id in db.clients || !KnownStage(stage) || !Fits(body, CLIENT_REQUIRED, db.users) then Err(IntegrityError)
    else Ok(Logged(db.(clients := db.clients[id := Client(stage, now, body, Direct)]), id, StageChange, ClientCreated(stage), actor))
  }

  function UpdateClient(db: Db, user: User, id: Id, updates: Cols): Outcome {
    if !Parses(updates, CLIENT_COLUMNS) then Err(ValidationError)
    else if id !in db.clients || !OwnScope(user, db.clients[id].cols) then Err(ClientNotFound)
    else
      var cols := db.clients[id].cols + updates;
      if !Fits(cols, CLIENT_REQUIRED, db.users) then Err(IntegrityError)
      else Ok(db.(clients := db.clients[id := db.clients[id].(cols := cols)]))
  }

  function ChangeStage(db: Db, user: User, id: Id, to: Stage, force: bool): Outcome {
    if id !in db.clients || !OwnScope(user, db.clients[id].cols) then Err(ClientNotFound)
    else
      var from := db.clients[id].stage;
      if !CanMoveStage(from, to, force) then Err(InvalidTransition)
      else if !KnownStage(to) then Err(IntegrityError)
      else Ok(Logged(db.(clients := db.clients[id := db.clients[id].(stage := to)]), id, StageChange, StageMove(from, to), user.id))
  }

  datatype ConvertBody = ConvertBody(name: Value, stage: Option<Stage>, cols: Cols, billing: Option<Billing.Fields>)

  /** The ids the conversion's new rows get. */
  datatype ConvertIds = ConvertIds(client: Id, contact: Id, profile: Id)

  function ConvertedName(body: ConvertBody, lead: Lead): Value {
    if Truthy(body.name) then body.name
    else if Truthy(ValueOf(lead.cols, Company)) then ValueOf(lead.cols, Company)
    else ValueOf(lead.cols, Name)
  }

  function ContactFromLead(client: Id, lead: Lead): Contact {
    Contact(client, true, map c | c in {Name, Email, Phone, LeadRole} :: ValueOf(lead.cols, c))
  }

  function ConvertLead(db: Db, leadId: Id, ids: ConvertIds, now: int, body: ConvertBody, actor: Id): Outcome {
    if !Parses(body.cols, CONVERT_COLUMNS) || !Parses(map[Name := body.name], {Name})
       || (body.billing.Some? && !Billing.CreateSchema(body.billing.value)) then Err(ValidationError)
    else if leadId !in db.leads then Err(LeadNotFound)
    else
      var lead := db.leads[leadId];
      if lead.convertedClientId.Some? then Err(LeadAlreadyConverted)
      else if lead.status != Qualified then Err(LeadNotQualified)
      else
        var stage := if body.stage.Some? then body.stage.value else LeadStage;
        var cols := body.cols[Name := ConvertedName(body, lead)];
        if ids.client in db.clients || !KnownStage(stage) || !Fits(cols, CLIENT_REQUIRED, db.users) || ids.contact in db.contacts
        then Err(IntegrityError)
        else
          var inserted := if body.billing.None? then Ok(db.profiles)
                          else Billing.InsertAtConversion(Billing.Db(db.clients.Keys, db.profiles), ids.profile, now, ids.client, body.billing.value);
          if inserted.Err? then Err(BillingError(inserted.error))
          else
            Ok(Logged(db.(clients := db.clients[ids.client := Client(stage, now, cols, FromLead(stage))],
                          contacts := db.contacts[ids.contact := ContactFromLead(ids.client, lead)],
                          profiles := inserted.value,
                          leads := db.leads[leadId := lead.(status := LeadStatus.Converted, convertedClientId := Some(ids.client))]),
                      ids.client, LeadConverted, Other, actor))
  }

  // ---------------------------------------------------------------------------
  // Leads
  // ---------------------------------------------------------------------------

  function CreateLead(db: Db, id: Id, now: int, body: Cols): Outcome {
    if !Parses(body, LEAD_COLUMNS - {OwnerId}) then Err(ValidationError)
    else if id in db.leads || !Fits(body, LEAD_REQUIRED, db.users) then Err(IntegrityError)
    else Ok(db.(leads := db.leads[id := Lead(New, None, now, body)]))
  }

  function UpdateLeadStatus(db: Db, user: User, id: Id, to: LeadStatus): Outcome {
    if id !in db.leads || !OwnScope(user, db.leads[id].cols) then Err(LeadNotFound)
    else if to !in StatusTargets(db.leads[id].status) then Err(InvalidTransition)
    else Ok(db.(leads := db.leads[id := db.leads[id].(status := to)]))
  }

  function UpdateLead(db: Db, user: User, id: Id, updates: Cols): Outcome {
    if !Parses(updates, LEAD_UPDATABLE) then Err(ValidationError)
    else if id !in db.leads || !OwnScope(user, db.leads[id].cols) then Err(LeadNotFound)
    else
      var cols := db.leads[id].cols + updates;
      if !Fits(cols, LEAD_REQUIRED, db.users) then Err(IntegrityError)
      else Ok(db.(leads := db.leads[id := db.leads[id].(cols := cols)]))
  }

  function AssignLead(db: Db, id: Id, owner: Id): Outcome {
    if owner !in db.users then Err(OwnerUserNotFound)
    else if id !in db.leads then Err(LeadNotFound)
    else Ok(db.(leads := db.leads[id := db.leads[id].(cols := db.leads[id].cols[OwnerId := Ref(owner)])]))
  }

  // ---------------------------------------------------------------------------
  // Services and milestones
  // ---------------------------------------------------------------------------

  function CreateService(db: Db, id: Id, now: int, client: Id, body: Cols, actor: Id): Outcome {
    if !Parses(body, {ServiceType, Title, OwnerId, SetupPriceCents, MonthlyCents}) then Err(ValidationError)
    else if client !in db.clients then Err(ClientNotFound)
    else if db.clients[client].stage.Lost? then Err(CannotCreateOnLostClient)
    else if id in db.services || !Fits(body, SERVICE_REQUIRED, db.users) then Err(IntegrityError)
    else Ok(Logged(db.(services := db.services[id := Service(client, Scoping, now, body)]), client, ServiceStarted, Other, actor))
  }

  function UpdateService(db: Db, user: User, id: Id, updates: Cols): Outcome {
    if !Parses(updates, SERVICE_UPDATABLE) then Err(ValidationError)
    else if id !in db.services || !ServiceScope(user, db.services[id].cols) then Err(ServiceNotFound)
    else
      var cols := db.services[id].cols + updates;
      if !Fits(cols, SERVICE_REQUIRED, db.users) then Err(IntegrityError)
      else Ok(db.(services := db.services[id := db.services[id].(cols := cols)]))
  }

  function ChangeState(db: Db, user: User, id: Id, to: ServiceState): Outcome {
    if id !in db.services || !ServiceScope(user, db.services[id].cols) then Err(ServiceNotFound)
    else
      var service := db.services[id];
      if to !in StateTargets(service.state) then Err(InvalidTransition)
      else Ok(Logged(db.(services := db.services[id := service.(state := to)]),
                     service.clientId, ServiceStateChange, ServiceMove(id, service.state, to), user.id))
  }

  function CreateMilestone(db: Db, key: MilestoneKey, body: Cols): Outcome {
    if key.n < 1 || !Parses(body, {Title, DueDate}) then Err(ValidationError)
    else if key.service !in db.services then Err(ServiceNotFound)
    else if key in db.milestones || !Fits(body, MILESTONE_REQUIRED, db.users) then Err(IntegrityError)
    else Ok(db.(milestones := db.milestones[key := body[CompletedAt := Null]]))
  }

  predicate IsComplete(milestone: Cols) { !ValueOf(milestone, CompletedAt).Null? }

  function UpdateMilestone(db: Db, key: MilestoneKey, updates: Cols, actor: Id): Outcome {
    if !Parses(updates, MILESTONE_COLUMNS) then Err(ValidationError)
    else if key !in db.milestones then Err(MilestoneNotFound)
    else
      var before := db.milestones[key];
      var after := before + updates;
      if !Fits(after, MILESTONE_REQUIRED, db.users) then Err(IntegrityError)
      else
        var saved := db.(milestones := db.milestones[key := after]);
        if !IsComplete(before) && IsComplete(after) && key.service in db.services then
          Ok(Logged(saved, db.services[key.service].clientId, MilestoneCompleted, Other, actor))
        else Ok(saved)
  }

  function DeleteMilestone(db: Db, key: MilestoneKey): Outcome {
    if key !in db.milestones then Err(MilestoneNotFound)
    else Ok(db.(milestones := db.milestones - {key}))
  }

  // ---------------------------------------------------------------------------
  // Tickets and messages
  // ---------------------------------------------------------------------------

  predicate IsClosed(ticket: Ticket) { ValueOf(ticket.cols, Status) == StatusOf(Closed) }

  function CreateTicket(db: Db, id: Id, client: Id, service: Option<Id>, body: Cols, actor: Id): Outcome {
    if !Parses(body, TICKET_PATCHABLE) then Err(ValidationError)
    else
      var cols := body[Status := StatusOf(Pending)];
      if id in db.tickets || client !in db.clients || (service.Some? && service.value !in db.services) || !Fits(cols, TICKET_REQUIRED, db.users)
      then Err(IntegrityError)
      else Ok(Logged(db.(tickets := db.tickets[id := Ticket(client, service, cols)]), client, TicketOpened, Other, actor))
  }

  /** The client portal's PATCH: scoped to the caller's client, no status. */
  function UpdateTicket(db: Db, id: Id, updates: Cols, clientFilter: Id, actor: Id): Outcome {
    if !Parses(updates, TICKET_PATCHABLE) then Err(ValidationError)
    else if id !in db.tickets || db.tickets[id].clientId != clientFilter then Err(TicketNotFound)
    else
      var ticket := db.tickets[id];
      var cols := ticket.cols + updates;
      if !Fits(cols, TICKET_REQUIRED, db.users) then Err(IntegrityError)
      else Ok(Logged(db.(tickets := db.tickets[id := ticket.(cols := cols)]), ticket.clientId, TicketUpdated, Other, actor))
  }

  /** The staff PATCH: any ticket, and status too, except for a comercial. */
  function UpdateTicketInternal(db: Db, user: User, id: Id, updates: Cols): Outcome {
    if !Parses(updates, TICKET_COLUMNS) then Err(ValidationError)
    else if user.role.Comercial? && !ValueOf(updates, Status).Null? then Err(Forbidden)
    else if id !in db.tickets then Err(TicketNotFound)
    else
      var ticket := db.tickets[id];
      var cols := ticket.cols + updates;
      if !Fits(cols, TICKET_REQUIRED, db.users) then Err(IntegrityError)
      else
        var kind := if ValueOf(updates, Status) == StatusOf(Closed) && !IsClosed(ticket) then TicketClosed else TicketUpdated;
        Ok(Logged(db.(tickets := db.tickets[id := ticket.(cols := cols)]), ticket.clientId, kind, Other, user.id))
  }

  function SendMessage(db: Db, client: Id, sender: Id, body: string): Outcome {
    if client !in db.clients || sender !in db.users then Err(IntegrityError)
    else Ok(Logged(db.(messages := db.messages + [Message(client, sender, body)]), client, MessageSent, Other, sender))
  }
}
