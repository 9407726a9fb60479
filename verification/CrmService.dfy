/**
The service layer on a database session: methods that change rows in place, append to the log, and
raise. Each agrees with the operation of the same name; Execute is a route, which commits what
the service did or rolls it back.
*/
module CrmService {
  import opened Common
  import opened Orm
  import opened StateMachines
  import opened Crm
  import opened CrmRuns
  import Billing

  type Reply = Result<(), Error>

  /** The reply and the session's rows are the specified outcome's; after an error the rows may be dirty. */
  ghost predicate Agrees(r: Reply, db: Db, outcome: Outcome) {
    match outcome
    case Ok(next) => r.Ok? && db == next
    case Err(e) => r == Err(e)
  }

  class Session {
    const users: set<Id>
    var clients: map<Id, Client>
    var leads: map<Id, Lead>
    var contacts: map<Id, Contact>
    var services: map<Id, Service>
    var milestones: map<MilestoneKey, Cols>
    var tickets: map<Id, Ticket>
    var messages: seq<Message>
    var profiles: Billing.Table
    var log: seq<Entry>

    ghost function Contents(): Db
      reads this
    {
      Db(users, clients, leads, contacts, services, milestones, tickets, messages, profiles, log)
    }

    constructor (db: Db)
      ensures Contents() == db
    {
      users, clients, leads, contacts, services := db.users, db.clients, db.leads, db.contacts, db.services;
      milestones, tickets, messages, profiles, log := db.milestones, db.tickets, db.messages, db.profiles, db.log;
    }

    method AppendActivity(client: Id, kind: Kind, detail: Detail, actor: Id)
      modifies this`log
      ensures Contents() == Logged(old(Contents()), client, kind, detail, actor)
    {
      log := log + [Entry(client, kind, detail, actor)];
    }

    // Clients

    method CreateClient(id: Id, now: int, body: Cols, stage: Stage, actor: Id) returns (r: Reply)
      modifies this
      ensures Agrees(r, Contents(), Crm.CreateClient(old(Contents()), id, now, body, stage, actor))
    {
      if !Parses(body, CLIENT_COLUMNS - {LifetimeValueCents}) { return Err(ValidationError); }
      if id in clients || !KnownStage(stage) || !Fits(body, CLIENT_REQUIRED, users) { return Err(IntegrityError); }
      clients := clients[id := Client(stage, now, body, Direct)];
      AppendActivity(id, StageChange, ClientCreated(stage), actor);
      return Ok(());
    }

    method UpdateClient(user: User, id: Id, updates: Cols) returns (r: Reply)
      modifies this
      ensures Agrees(r, Contents(), Crm.UpdateClient(old(Contents()), user, id, updates))
    {
      if !Parses(updates, CLIENT_COLUMNS) { return Err(ValidationError); }
      if id !in clients || !OwnScope(user, clients[id].cols) { return Err(ClientNotFound); }
      var cols := SetAttrs(clients[id].cols, updates);
      clients := clients[id := clients[id].(cols := cols)];
      if !Fits(cols, CLIENT_REQUIRED, users) { return Err(IntegrityError); }
      return Ok(());
    }

    method ChangeStage(user: User, id: Id, newStage: Stage, force: bool) returns (r: Reply)
      modifies this
      ensures Agrees(r, Contents(), Crm.ChangeStage(old(Contents()), user, id, newStage, force))
    {
      if id !in clients || !OwnScope(user, clients[id].cols) { return Err(ClientNotFound); }
      var oldStage := clients[id].stage;
      if !CanMoveStage(oldStage, newStage, force) { return Err(InvalidTransition); }
      clients := clients[id := clients[id].(stage := newStage)];
      if !KnownStage(newStage) { return Err(IntegrityError); }
      AppendActivity(id, StageChange, StageMove(oldStage, newStage), user.id);
      return Ok(());
    }

    method ConvertFromLead(leadId: Id, ids: ConvertIds, now: int, body: ConvertBody, actor: Id) returns (r: Reply)
      modifies this
      ensures Agrees(r, Contents(), ConvertLead(old(Contents()), leadId, ids, now, body, actor))
    {
      hide Parses, Fits, Billing.CreateSchema, Billing.InsertAtConversion, ConvertedName, ContactFromLead;
      if !Parses(body.cols, CONVERT_COLUMNS) || !Parses(map[Name := body.name], {Name})
         || (body.billing.Some? && !Billing.CreateSchema(body.billing.value)) {
        return Err(ValidationError);
      }
      if leadId !in leads { return Err(LeadNotFound); }
      var lead := leads[leadId];
      if lead.convertedClientId.Some? { return Err(LeadAlreadyConverted); }
      if lead.status != Qualified { return Err(LeadNotQualified); }
      var existing := clients.Keys;
      var stage := if body.stage.Some? then body.stage.value else LeadStage;
      var cols := body.cols[Name := ConvertedName(body, lead)];
      if ids.client in clients || !KnownStage(stage) || !Fits(cols, CLIENT_REQUIRED, users) { return Err(IntegrityError); }
      clients := clients[ids.client := Client(stage, now, cols, FromLead(stage))];
      if ids.contact in contacts { return Err(IntegrityError); }
      contacts := contacts[ids.contact := ContactFromLead(ids.client, lead)];
      if body.billing.Some? {
        var inserted := Billing.InsertAtConversion(Billing.Db(existing, profiles), ids.profile, now, ids.client, body.billing.value);
        if inserted.Err? { return Err(BillingError(inserted.error)); }
        profiles := inserted.value;
      }
      AppendActivity(ids.client, LeadConverted, Other, actor);
      leads := leads[leadId := lead.(status := LeadStatus.Converted, convertedClientId := Some(ids.client))];
      return Ok(());
    }

    // Leads

    method CreateLead(id: Id, now: int, body: Cols) returns (r: Reply)
      modifies this
      ensures Agrees(r, Contents(), Crm.CreateLead(old(Contents()), id, now, body))
    {
      if !Parses(body, LEAD_COLUMNS - {OwnerId}) { return Err(ValidationError); }
      if id in leads || !Fits(body, LEAD_REQUIRED, users) { return Err(IntegrityError); }
      leads := leads[id := Lead(New, None, now, body)];
      return Ok(());
    }

    method UpdateLeadStatus(user: User, id: Id, newStatus: LeadStatus) returns (r: Reply)
      modifies this
      ensures Agrees(r, Contents(), Crm.UpdateLeadStatus(old(Contents()), user, id, newStatus))
    {
      if id !in leads || !OwnScope(user, leads[id].cols) { return Err(LeadNotFound); }
      if newStatus !in StatusTargets(leads[id].status) { return Err(InvalidTransition); }
      leads := leads[id := leads[id].(status := newStatus)];
      return Ok(());
    }

    method UpdateLead(user: User, id: Id, updates: Cols) returns (r: Reply)
      modifies this
      ensures Agrees(r, Contents(), Crm.UpdateLead(old(Contents()), user, id, updates))
    {
      if !Parses(updates, LEAD_UPDATABLE) { return Err(ValidationError); }
      if id !in leads || !OwnScope(user, leads[id].cols) { return Err(LeadNotFound); }
      var cols := SetAttrs(leads[id].cols, updates);
      leads := leads[id := leads[id].(cols := cols)];
      if !Fits(cols, LEAD_REQUIRED, users) { return Err(IntegrityError); }
      return Ok(());
    }

    method AssignOwner(id: Id, owner: Id) returns (r: Reply)
      modifies this
      ensures Agrees(r, Contents(), AssignLead(old(Contents()), id, owner))
    {
      if owner !in users { return Err(OwnerUserNotFound); }
      if id !in leads { return Err(LeadNotFound); }
      leads := leads[id := leads[id].(cols := leads[id].cols[OwnerId := Ref(owner)])];
      return Ok(());
    }

    // Services and milestones

    method CreateService(id: Id, now: int, client: Id, body: Cols, actor: Id) returns (r: Reply)
      modifies this
      ensures Agrees(r, Contents(), Crm.CreateService(old(Contents()), id, now, client, body, actor))
    {
      if !Parses(body, {ServiceType, Title, OwnerId, SetupPriceCents, MonthlyCents}) { return Err(ValidationError); }
      if client !in clients { return Err(ClientNotFound); }
      if clients[client].stage.Lost? { return Err(CannotCreateOnLostClient); }
      if id in services || !Fits(body, SERVICE_REQUIRED, users) { return Err(IntegrityError); }
      services := services[id := Service(client, Scoping, now, body)];
      AppendActivity(client, ServiceStarted, Other, actor);
      return Ok(());
    }

    method UpdateService(user: User, id: Id, updates: Cols) returns (r: Reply)
      modifies this
      ensures Agrees(r, Contents(), Crm.UpdateService(old(Contents()), user, id, updates))
    {
      if !Parses(updates, SERVICE_UPDATABLE) { return Err(ValidationError); }
      if id !in services || !ServiceScope(user, services[id].cols) { return Err(ServiceNotFound); }
      var cols := SetAttrs(services[id].cols, updates);
      services := services[id := services[id].(cols := cols)];
      if !Fits(cols, SERVICE_REQUIRED, users) { return Err(IntegrityError); }
      return Ok(());
    }

    method ChangeState(user: User, id: Id, newState: ServiceState) returns (r: Reply)
      modifies this
      ensures Agrees(r, Contents(), Crm.ChangeState(old(Contents()), user, id, newState))
    {
      if id !in services || !ServiceScope(user, services[id].cols) { return Err(ServiceNotFound); }
      var service := services[id];
      if newState !in StateTargets(service.state) { return Err(InvalidTransition); }
      services := services[id := service.(state := newState)];
      AppendActivity(service.clientId, ServiceStateChange, ServiceMove(id, service.state, newState), user.id);
      return Ok(());
    }

    method CreateMilestone(key: MilestoneKey, body: Cols) returns (r: Reply)
      modifies this
      ensures Agrees(r, Contents(), Crm.CreateMilestone(old(Contents()), key, body))
    {
      if key.n < 1 || !Parses(body, {Title, DueDate}) { return Err(ValidationError); }
      if key.service !in services { return Err(ServiceNotFound); }
      if key in milestones || !Fits(body, MILESTONE_REQUIRED, users) { return Err(IntegrityError); }
      milestones := milestones[key := body[CompletedAt := Null]];
      return Ok(());
    }

    /** Logs the completion only when completed_at flips from null to a value. */
    method UpdateMilestone(key: MilestoneKey, updates: Cols, actor: Id) returns (r: Reply)
      modifies this
      ensures Agrees(r, Contents(), Crm.UpdateMilestone(old(Contents()), key, updates, actor))
    {
      if !Parses(updates, MILESTONE_COLUMNS) { return Err(ValidationError); }
      if key !in milestones { return Err(MilestoneNotFound); }
      var wasCompleted := IsComplete(milestones[key]);
      var row := SetAttrs(milestones[key], updates);
      milestones := milestones[key := row];
      if !Fits(row, MILESTONE_REQUIRED, users) { return Err(IntegrityError); }
      var isNowCompleted := IsComplete(row);
      if !wasCompleted && isNowCompleted {
        if key.service in services {
          AppendActivity(services[key.service].clientId, MilestoneCompleted, Other, actor);
        }
      }
      return Ok(());
    }

    method DeleteMilestone(key: MilestoneKey) returns (r: Reply)
      modifies this
      ensures Agrees(r, Contents(), Crm.DeleteMilestone(old(Contents()), key))
    {
      if key !in milestones { return Err(MilestoneNotFound); }
      milestones := milestones - {key};
      return Ok(());
    }

    // Tickets and messages

    method CreateTicket(id: Id, client: Id, service: Option<Id>, body: Cols, actor: Id) returns (r: Reply)
      modifies this
      ensures Agrees(r, Contents(), Crm.CreateTicket(old(Contents()), id, client, service, body, actor))
    {
      if !Parses(body, TICKET_PATCHABLE) { return Err(ValidationError); }
      var cols := body[Status := StatusOf(Pending)];
      if id in tickets || client !in clients || (service.Some? && service.value !in services) || !Fits(cols, TICKET_REQUIRED, users) {
        return Err(IntegrityError);
      }
      tickets := tickets[id := Ticket(client, service, cols)];
      AppendActivity(client, TicketOpened, Other, actor);
      return Ok(());
    }

    method UpdateTicket(id: Id, updates: Cols, clientFilter: Id, actor: Id) returns (r: Reply)
      modifies this
      ensures Agrees(r, Contents(), Crm.UpdateTicket(old(Contents()), id, updates, clientFilter, actor))
    {
      if !Parses(updates, TICKET_PATCHABLE) { return Err(ValidationError); }
      if id !in tickets || tickets[id].clientId != clientFilter { return Err(TicketNotFound); }
      var cols := SetAttrs(tickets[id].cols, updates);
      tickets := tickets[id := tickets[id].(cols := cols)];
      if !Fits(cols, TICKET_REQUIRED, users) { return Err(IntegrityError); }
      AppendActivity(tickets[id].clientId, TicketUpdated, Other, actor);
      return Ok(());
    }

    /** The entry's kind is chosen from the status before the fields were set. */
    method UpdateTicketInternal(user: User, id: Id, updates: Cols) returns (r: Reply)
      modifies this
      ensures Agrees(r, Contents(), Crm.UpdateTicketInternal(old(Contents()), user, id, updates))
    {
      if !Parses(updates, TICKET_COLUMNS) { return Err(ValidationError); }
      if user.role.Comercial? && !ValueOf(updates, Status).Null? { return Err(Forbidden); }
      if id !in tickets { return Err(TicketNotFound); }
      var previousStatus := ValueOf(tickets[id].cols, Status);
      var cols := SetAttrs(tickets[id].cols, updates);
      tickets := tickets[id := tickets[id].(cols := cols)];
      if !Fits(cols, TICKET_REQUIRED, users) { return Err(IntegrityError); }
      var newStatus := ValueOf(updates, Status);
      var kind := if newStatus == StatusOf(Closed) && previousStatus != StatusOf(Closed) then TicketClosed else TicketUpdated;
      AppendActivity(tickets[id].clientId, kind, Other, user.id);
      return Ok(());
    }

    method CreateMessage(client: Id, sender: Id, body: string) returns (r: Reply)
      modifies this
      ensures Agrees(r, Contents(), SendMessage(old(Contents()), client, sender, body))
    {
      if client !in clients || sender !in users { return Err(IntegrityError); }
      messages := messages + [Message(client, sender, body)];
      AppendActivity(client, MessageSent, Other, sender);
      return Ok(());
    }

    /** The billing routes run the billing service on the same session. */
    method OnBilling(op: ProfileOp) returns (r: Reply)
      modifies this
      ensures Agrees(r, Contents(), PerformProfile(old(Contents()), op))
    {
      var service := new Billing.BillingProfileService(Billing.Db(clients.Keys, profiles));
      var done: Result<(), Billing.Error>;
      match op {
        case CreateOp(id, createdAt, client, fields, wantsDefault) =>
          done := service.CreateForClient(id, createdAt, client, fields, wantsDefault);
        case UpdateOp(id, updates) => done := service.UpdateProfile(id, updates);
        case DeleteOp(id) => done := service.DeleteProfile(id);
        case SetDefaultOp(id) => done := service.MakeDefault(id);
      }
      profiles := service.profiles;
      return if done.Ok? then Ok(()) else Err(BillingError(done.error));
    }

    method Dispatch(op: Op) returns (r: Reply)
      modifies this
      ensures Agrees(r, Contents(), Perform(old(Contents()), op))
    {
      hide Crm.CreateClient, Crm.UpdateClient, Crm.ChangeStage, ConvertLead, Crm.CreateLead, Crm.UpdateLeadStatus, Crm.UpdateLead, AssignLead;
      hide Crm.CreateService, Crm.UpdateService, Crm.ChangeState, Crm.CreateMilestone, Crm.UpdateMilestone, Crm.DeleteMilestone;
      hide Crm.CreateTicket, Crm.UpdateTicket, Crm.UpdateTicketInternal, SendMessage, PerformProfile;
      match op {
        case OnClients(NewClient(id, now, body, stage, actor)) => r := CreateClient(id, now, body, stage, actor);
        case OnClients(PatchClient(user, id, updates)) => r := UpdateClient(user, id, updates);
        case OnClients(MoveStage(user, id, stage, force)) => r := ChangeStage(user, id, stage, force);
        case OnClients(Convert(lead, ids, now, convert, actor)) => r := ConvertFromLead(lead, ids, now, convert, actor);
        case OnLeads(NewLead(id, now, body)) => r := CreateLead(id, now, body);
        case OnLeads(MoveStatus(user, id, status)) => r := UpdateLeadStatus(user, id, status);
        case OnLeads(PatchLead(user, id, updates)) => r := UpdateLead(user, id, updates);
        case OnLeads(Assign(id, owner)) => r := AssignOwner(id, owner);
        case OnServices(NewService(id, now, client, body, actor)) => r := CreateService(id, now, client, body, actor);
        case OnServices(PatchService(user, id, updates)) => r := UpdateService(user, id, updates);
        case OnServices(MoveState(user, id, state)) => r := ChangeState(user, id, state);
        case OnMilestones(NewMilestone(key, body)) => r := CreateMilestone(key, body);
        case OnMilestones(PatchMilestone(key, updates, actor)) => r := UpdateMilestone(key, updates, actor);
        case OnMilestones(DropMilestone(key)) => r := DeleteMilestone(key);
        case OnTickets(NewTicket(id, client, service, body, actor)) => r := CreateTicket(id, client, service, body, actor);
        case OnTickets(PatchTicket(id, updates, client, actor)) => r := UpdateTicket(id, updates, client, actor);
        case OnTickets(StaffPatchTicket(user, id, updates)) => r := UpdateTicketInternal(user, id, updates);
        case OnProfiles(profile) => r := OnBilling(profile);
        case Send(to, sender, text) => r := CreateMessage(to, sender, text);
      }
    }

    method Rollback(saved: Db)
      requires saved.users == users
      modifies this
      ensures Contents() == saved
    {
      clients, leads, contacts, services := saved.clients, saved.leads, saved.contacts, saved.services;
      milestones, tickets, messages, profiles, log := saved.milestones, saved.tickets, saved.messages, saved.profiles, saved.log;
    }

    /** A route: one transaction, whose state on an error is the state it began in. */
    method Execute(op: Op) returns (r: Reply)
      modifies this
      ensures Contents() == Step(old(Contents()), op)
      ensures r.Ok? <==> Succeeds(old(Contents()), op)
    {
      var saved := Db(users, clients, leads, contacts, services, milestones, tickets, messages, profiles, log);
      r := Dispatch(op);
      if r.Err? {
        Rollback(saved);
      }
    }
  }
}
