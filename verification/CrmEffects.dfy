/**
What each operation of the CRM does, told from the tables: which cells and columns a step writes in
which row, what the new client of a conversion holds, who may write what, and what the log then says.
*/
module CrmEffects {
  import opened Common
  import opened Orm
  import opened StateMachines
  import opened Crm
  import opened CrmRuns
  import Billing

  // ---------------------------------------------------------------------------
  // Cells read back
  // ---------------------------------------------------------------------------

  /** Any row of the tables with columns of their own. */
  datatype Row =
    | ClientRow(id: Id) | LeadRow(id: Id) | ContactRow(id: Id) | ServiceRow(id: Id)
    | MilestoneRow(key: MilestoneKey) | TicketRow(id: Id)

  function CellsOf(db: Db, row: Row): Option<Cols> {
    match row
    case ClientRow(id) => if id in db.clients then Some(db.clients[id].cols) else None
    case LeadRow(id) => if id in db.leads then Some(db.leads[id].cols) else None
    case ContactRow(id) => if id in db.contacts then Some(db.contacts[id].cols) else None
    case ServiceRow(id) => if id in db.services then Some(db.services[id].cols) else None
    case MilestoneRow(key) => if key in db.milestones then Some(db.milestones[key]) else None
    case TicketRow(id) => if id in db.tickets then Some(db.tickets[id].cols) else None
  }

  /** The first text of a list that is not empty, or else the last value: Python's `a or b or c`. */
  function FirstTruthy(values: seq<Value>): Value
    requires values != []
  {
    if |values| == 1 || (values[0].Text? && values[0].text != "") then values[0] else FirstTruthy(values[1..])
  }

  function CellOr(cols: Cols, c: Column): Value { if c in cols then cols[c] else Null }

  /** The row an operation makes, and its cells. */
  function Made(db: Db, op: Op, row: Row): Option<Cols> {
    match op
    case OnClients(NewClient(id, _, body, _, _)) => if row == ClientRow(id) then Some(body) else None
    case OnClients(Convert(l, ids, _, body, _)) =>
      if l !in db.leads then None
      else
        var lead := db.leads[l].cols;
        if row == ClientRow(ids.client) then
          Some(body.cols[Name := FirstTruthy([body.name, CellOr(lead, Company), CellOr(lead, Name)])])
        else if row == ContactRow(ids.contact) then
          Some(map[Name := CellOr(lead, Name), Email := CellOr(lead, Email), Phone := CellOr(lead, Phone), LeadRole := CellOr(lead, LeadRole)])
        else None
    case OnLeads(NewLead(id, _, body)) => if row == LeadRow(id) then Some(body) else None
    case OnServices(NewService(id, _, _, body, _)) => if row == ServiceRow(id) then Some(body) else None
    case OnMilestones(NewMilestone(key, body)) => if row == MilestoneRow(key) then Some(body[CompletedAt := Null]) else None
    case OnTickets(NewTicket(id, _, _, body, _)) => if row == TicketRow(id) then Some(body[Status := StatusOf(Pending)]) else None
    case _ => None
  }

  /** The cells an operation gives to a row that is there already. */
  function Given(op: Op, row: Row): Cols {
    match op
    case OnClients(PatchClient(_, id, updates)) => if row == ClientRow(id) then updates else map[]
    case OnLeads(PatchLead(_, id, updates)) => if row == LeadRow(id) then updates else map[]
    case OnLeads(Assign(id, owner)) => if row == LeadRow(id) then map[OwnerId := Ref(owner)] else map[]
    case OnServices(PatchService(_, id, updates)) => if row == ServiceRow(id) then updates else map[]
    case OnMilestones(PatchMilestone(key, updates, _)) => if row == MilestoneRow(key) then updates else map[]
    case OnTickets(PatchTicket(id, updates, _, _)) => if row == TicketRow(id) then updates else map[]
    case OnTickets(StaffPatchTicket(_, id, updates)) => if row == TicketRow(id) then updates else map[]
    case _ => map[]
  }

  predicate Drops(op: Op, row: Row) {
    op.OnMilestones? && op.milestone.DropMilestone? && row == MilestoneRow(op.milestone.key)
  }

  /** What a row should hold after a step. */
  function Expected(db: Db, op: Op, row: Row): Option<Cols> {
    if Drops(op, row) then None
    else if Made(db, op, row).Some? then Made(db, op, row)
    else
      match CellsOf(db, row)
      case None => None
      case Some(cols) => Some(cols + Given(op, row))
  }

  lemma NothingGiven(cols: Cols)
    ensures cols + map[] == cols
  {
  }

  lemma ClientCells(db: Db, op: ClientOp, row: Row)
    requires PerformClient(db, op).Ok?
    ensures CellsOf(PerformClient(db, op).value, row) == Expected(db, OnClients(op), row)
    ensures Made(db, OnClients(op), row).Some? ==> CellsOf(db, row).None?
  {
    hide Parses, Fits, OwnScope, ConvertLead, CanMoveStage;
    if op.Convert? {
      ConversionCells(db, op, row);
    } else {
      if CellsOf(db, row).Some? { NothingGiven(CellsOf(db, row).value); }
    }
  }

  /** The fallbacks of a conversion's name, tried in turn. */
  lemma NameOfConversion(body: ConvertBody, lead: Lead)
    ensures ConvertedName(body, lead) == FirstTruthy([body.name, CellOr(lead.cols, Company), CellOr(lead.cols, Name)])
  {
    var values := [body.name, CellOr(lead.cols, Company), CellOr(lead.cols, Name)];
    assert values[1..] == [CellOr(lead.cols, Company), CellOr(lead.cols, Name)];
    assert values[1..][1..] == [CellOr(lead.cols, Name)];
    assert FirstTruthy(values[1..]) == if Truthy(CellOr(lead.cols, Company)) then CellOr(lead.cols, Company) else FirstTruthy(values[1..][1..]);
  }

  lemma ContactOfConversion(client: Id, lead: Lead)
    ensures ContactFromLead(client, lead)
            == Contact(client, true, map[Name := CellOr(lead.cols, Name), Email := CellOr(lead.cols, Email),
                                         Phone := CellOr(lead.cols, Phone), LeadRole := CellOr(lead.cols, LeadRole)])
  {
  }

  lemma ConversionCells(db: Db, op: ClientOp, row: Row)
    requires op.Convert? && PerformClient(db, op).Ok?
    ensures CellsOf(PerformClient(db, op).value, row) == Expected(db, OnClients(op), row)
    ensures Made(db, OnClients(op), row).Some? ==> CellsOf(db, row).None?
  {
    hide PerformClient, ConvertedName, ContactFromLead, FirstTruthy, ConvertLead;
    ConversionRows(db, op);
    if row == ClientRow(op.ids.client) {
      NameOfConversion(op.convert, db.leads[op.lead]);
    } else if row == ContactRow(op.ids.contact) {
      ContactOfConversion(op.ids.client, db.leads[op.lead]);
    } else {
      assert CellsOf(PerformClient(db, op).value, row) == CellsOf(db, row);
      assert Made(db, OnClients(op), row).None?;
      hide CellsOf, Made;
      if CellsOf(db, row).Some? { NothingGiven(CellsOf(db, row).value); }
    }
  }

  /** The rows a conversion writes, table by table. */
  lemma ConversionRows(db: Db, op: ClientOp)
    requires op.Convert? && PerformClient(db, op).Ok?
    ensures var v := PerformClient(db, op).value;
            && op.lead in db.leads && op.ids.client !in db.clients && op.ids.contact !in db.contacts
            && v.services == db.services && v.milestones == db.milestones && v.tickets == db.tickets
            && v.leads == db.leads[op.lead := db.leads[op.lead].(status := LeadStatus.Converted, convertedClientId := Some(op.ids.client))]
            && v.contacts == db.contacts[op.ids.contact := ContactFromLead(op.ids.client, db.leads[op.lead])]
            && var stage := if op.convert.stage.Some? then op.convert.stage.value else LeadStage;
               v.clients == db.clients[op.ids.client := Client(stage, op.now, op.convert.cols[Name := ConvertedName(op.convert, db.leads[op.lead])], FromLead(stage))]
  {
    hide Parses, Fits, Billing.CreateSchema, Billing.InsertAtConversion, ConvertedName, ContactFromLead;
  }

  lemma OneGiven(cols: Cols, c: Column, v: Value)
    ensures cols + map[c := v] == cols[c := v]
  {
  }

  lemma LeadCells(db: Db, op: LeadOp, row: Row)
    requires PerformLead(db, op).Ok?
    ensures CellsOf(PerformLead(db, op).value, row) == Expected(db, OnLeads(op), row)
    ensures Made(db, OnLeads(op), row).Some? ==> CellsOf(db, row).None?
  {
    hide Parses, Fits, OwnScope;
    if CellsOf(db, row).Some? {
      NothingGiven(CellsOf(db, row).value);
      if op.Assign? { OneGiven(CellsOf(db, row).value, OwnerId, Ref(op.owner)); }
    }
  }

  lemma ServiceCells(db: Db, op: ServiceOp, row: Row)
    requires PerformService(db, op).Ok?
    ensures CellsOf(PerformService(db, op).value, row) == Expected(db, OnServices(op), row)
    ensures Made(db, OnServices(op), row).Some? ==> CellsOf(db, row).None?
  {
    hide Parses, Fits, ServiceScope;
    if CellsOf(db, row).Some? { NothingGiven(CellsOf(db, row).value); }
  }

  lemma MilestoneTable(db: Db, op: MilestoneOp)
    requires PerformMilestone(db, op).Ok?
    ensures var v := PerformMilestone(db, op).value;
            match op
            case NewMilestone(key, body) => key !in db.milestones && v.milestones == db.milestones[key := body[CompletedAt := Null]]
            case PatchMilestone(key, updates, _) => key in db.milestones && v.milestones == db.milestones[key := db.milestones[key] + updates]
            case DropMilestone(key) => v.milestones == db.milestones - {key}
  {
    hide Parses, Fits, IsComplete;
  }

  /** A row the operation leaves alone. */
  lemma Untouched(db: Db, v: Db, op: Op, row: Row)
    requires CellsOf(v, row) == CellsOf(db, row) && Made(db, op, row).None? && Given(op, row) == map[] && !Drops(op, row)
    ensures CellsOf(v, row) == Expected(db, op, row)
  {
    hide CellsOf, Made, Given, Drops;
    if CellsOf(db, row).Some? { NothingGiven(CellsOf(db, row).value); }
  }

  lemma MilestoneCells(db: Db, op: MilestoneOp, row: Row)
    requires PerformMilestone(db, op).Ok?
    ensures CellsOf(PerformMilestone(db, op).value, row) == Expected(db, OnMilestones(op), row)
    ensures Made(db, OnMilestones(op), row).Some? ==> CellsOf(db, row).None?
  {
    var v := PerformMilestone(db, op).value;
    MilestoneTable(db, op);
    MilestoneFrame(db, op);
    hide PerformMilestone;
    if row != MilestoneRow(op.key) {
      assert CellsOf(v, row) == CellsOf(db, row);
      Untouched(db, v, OnMilestones(op), row);
    }
  }

  lemma TicketCells(db: Db, op: TicketOp, row: Row)
    requires PerformTicket(db, op).Ok?
    ensures CellsOf(PerformTicket(db, op).value, row) == Expected(db, OnTickets(op), row)
    ensures Made(db, OnTickets(op), row).Some? ==> CellsOf(db, row).None?
  {
    hide Parses, Fits, IsClosed;
    if CellsOf(db, row).Some? { NothingGiven(CellsOf(db, row).value); }
  }

  lemma OtherCells(db: Db, op: Op, row: Row)
    requires (op.OnProfiles? || op.Send?) && Succeeds(db, op)
    ensures CellsOf(Step(db, op), row) == Expected(db, op, row) && Made(db, op, row).None?
  {
    StepFrame(db, op);
    hide PerformProfile, SendMessage;
    if CellsOf(db, row).Some? { NothingGiven(CellsOf(db, row).value); }
  }

  /**
  Cells read back: after a successful operation, every row of every table holds what it held, overridden
  by exactly the cells the operation gave it; a row it makes is new and holds exactly what was submitted
  (a converted client the first truthy name of body, company and lead, and its contact the lead's data).
  */
  lemma CellsReadBack(db: Db, op: Op, row: Row)
    requires Succeeds(db, op)
    ensures CellsOf(Step(db, op), row) == Expected(db, op, row)
    ensures Made(db, op, row).Some? ==> CellsOf(db, row).None?
  {
    hide PerformClient, PerformLead, PerformService, PerformMilestone, PerformTicket, PerformProfile, SendMessage, CellsOf, Expected, Made;
    match op
    case OnClients(o) => ClientCells(db, o, row);
    case OnLeads(o) => LeadCells(db, o, row);
    case OnServices(o) => ServiceCells(db, o, row);
    case OnMilestones(o) => MilestoneCells(db, o, row);
    case OnTickets(o) => TicketCells(db, o, row);
    case OnProfiles(_) => OtherCells(db, op, row);
    case Send(_, _, _) => OtherCells(db, op, row);
  }

  // ---------------------------------------------------------------------------
  // What a conversion makes
  // ---------------------------------------------------------------------------

  /** A cell that holds a text, and not the empty one. */
  predicate Filled(cols: Cols, c: Column) { c in cols && cols[c].Text? && cols[c].text != "" }

  /**
  The client a conversion makes is named by the submitted name, or failing that by the lead's company,
  or failing that by the lead's name; its other cells are the submitted ones.
  */
  lemma ConversionFills(db: Db, lead: Id, ids: ConvertIds, now: int, body: ConvertBody, actor: Id)
    requires Succeeds(db, OnClients(Convert(lead, ids, now, body, actor)))
    ensures var v := Step(db, OnClients(Convert(lead, ids, now, body, actor)));
            && lead in db.leads && ids.client in v.clients && ids.client !in db.clients
            && var from, made, named := db.leads[lead].cols, v.clients[ids.client].cols, body.name.Text? && body.name.text != "";
               && Name in made
               && (named ==> made[Name] == body.name)
               && (!named && Filled(from, Company) ==> made[Name] == from[Company])
               && (!named && !Filled(from, Company) && Name in from ==> made[Name] == from[Name])
               && made.Keys == body.cols.Keys + {Name} && (forall c :: c in body.cols && c != Name ==> made[c] == body.cols[c])
  {
    ConversionRows(db, Convert(lead, ids, now, body, actor));
    hide ConvertedName, ContactFromLead, ConvertLead, Filled;
    NamedInTurn(body, db.leads[lead]);
  }

  /** It gets one contact, its primary one, with the lead's name, email, phone and role. */
  lemma ConversionContact(db: Db, lead: Id, ids: ConvertIds, now: int, body: ConvertBody, actor: Id)
    requires Succeeds(db, OnClients(Convert(lead, ids, now, body, actor)))
    ensures var v := Step(db, OnClients(Convert(lead, ids, now, body, actor)));
            && lead in db.leads && ids.contact in v.contacts && ids.contact !in db.contacts
            && v.contacts.Keys == db.contacts.Keys + {ids.contact} && (forall k :: k in db.contacts ==> v.contacts[k] == db.contacts[k])
            && var from, contact := db.leads[lead].cols, v.contacts[ids.contact];
               && contact.clientId == ids.client && contact.isPrimary
               && contact.cols.Keys == {Name, Email, Phone, LeadRole}
               && forall c :: c in contact.cols ==> contact.cols[c] == if c in from then from[c] else Null
  {
    ConversionRows(db, Convert(lead, ids, now, body, actor));
    hide ConvertedName, ConvertLead;
    ContactOfConversion(ids.client, db.leads[lead]);
  }

  lemma NamedInTurn(body: ConvertBody, lead: Lead)
    ensures body.name.Text? && body.name.text != "" ==> ConvertedName(body, lead) == body.name
    ensures !(body.name.Text? && body.name.text != "") && Filled(lead.cols, Company) ==> ConvertedName(body, lead) == lead.cols[Company]
    ensures !(body.name.Text? && body.name.text != "") && !Filled(lead.cols, Company) && Name in lead.cols ==> ConvertedName(body, lead) == lead.cols[Name]
  {
  }

  // ---------------------------------------------------------------------------
  // The columns beside the cells, table by table
  // ---------------------------------------------------------------------------

  /** What a client's other columns should be: stage and creation time. */
  predicate ClientAsMade(db: Db, v: Db, op: ClientOp, c: Id) {
    var made := (op.NewClient? && op.id == c) || (op.Convert? && op.ids.client == c);
    && (c in v.clients <==> c in db.clients || made) && (made ==> c !in db.clients)
    && (c in v.clients ==>
          && v.clients[c].createdAt == (if made then op.now else db.clients[c].createdAt)
          && v.clients[c].stage == (if made && op.NewClient? then op.stage
                                    else if made then (if op.convert.stage.Some? then op.convert.stage.value else LeadStage)
                                    else if op.MoveStage? && op.id == c then op.stage
                                    else db.clients[c].stage))
  }

  lemma ClientOpColumns(db: Db, op: ClientOp, c: Id)
    requires PerformClient(db, op).Ok?
    ensures ClientAsMade(db, PerformClient(db, op).value, op, c)
  {
    if op.Convert? {
      ConversionRows(db, op);
      hide PerformClient, ConvertedName;
    } else {
      hide Parses, Fits, OwnScope, ConvertLead, CanMoveStage;
    }
  }

  /** A client's stage is set where it is made and where it is moved, and its creation time once. */
  lemma ClientColumns(db: Db, op: Op, c: Id)
    requires Succeeds(db, op)
    ensures var v := Step(db, op); if op.OnClients? then ClientAsMade(db, v, op.client, c) else v.clients == db.clients
  {
    hide PerformClient, PerformLead, PerformService, PerformMilestone, PerformTicket, PerformProfile, SendMessage, ClientAsMade;
    StepFrame(db, op);
    if op.OnClients? { ClientOpColumns(db, op.client, c); }
  }

  /** What a lead's other columns should be: its status, and the client it is linked to. */
  predicate LeadAsMade(db: Db, v: Db, op: Op, l: Id) {
    var made := op.OnLeads? && op.lead.NewLead? && op.lead.id == l;
    var moved := op.OnLeads? && op.lead.MoveStatus? && op.lead.id == l;
    var won := op.OnClients? && op.client.Convert? && op.client.lead == l;
    && (l in v.leads <==> l in db.leads || made) && (made ==> l !in db.leads)
    && (l in v.leads ==>
          && v.leads[l].createdAt == (if made then op.lead.now else db.leads[l].createdAt)
          && v.leads[l].status == (if made then New else if moved then op.lead.status else if won then LeadStatus.Converted else db.leads[l].status)
          && v.leads[l].convertedClientId == (if made then None else if won then Some(op.client.ids.client) else db.leads[l].convertedClientId))
  }

  lemma LeadOpColumns(db: Db, op: LeadOp, l: Id)
    requires PerformLead(db, op).Ok?
    ensures LeadAsMade(db, PerformLead(db, op).value, OnLeads(op), l)
  {
    hide Parses, Fits, OwnScope, StatusTargets;
  }

  lemma LeadsOfClientOp(db: Db, op: ClientOp, l: Id)
    requires PerformClient(db, op).Ok?
    ensures LeadAsMade(db, PerformClient(db, op).value, OnClients(op), l)
  {
    if op.Convert? {
      ConversionRows(db, op);
      hide PerformClient, ConvertedName;
    } else {
      hide Parses, Fits, OwnScope, ConvertLead, CanMoveStage;
    }
  }

  /** A lead's status is new, then what it is moved to, and converted with its client at the conversion. */
  lemma LeadColumns(db: Db, op: Op, l: Id)
    requires Succeeds(db, op)
    ensures LeadAsMade(db, Step(db, op), op, l)
  {
    hide PerformClient, PerformLead, PerformService, PerformMilestone, PerformTicket, PerformProfile, SendMessage;
    StepFrame(db, op);
    if op.OnClients? {
      LeadsOfClientOp(db, op.client, l);
    } else if op.OnLeads? {
      LeadOpColumns(db, op.lead, l);
    }
  }

  /** What a service's other columns should be: its client, its state and its creation time. */
  predicate ServiceAsMade(db: Db, v: Db, op: ServiceOp, s: Id) {
    var made, moved := op.NewService? && op.id == s, op.MoveState? && op.id == s;
    && (s in v.services <==> s in db.services || made) && (made ==> s !in db.services)
    && (s in v.services ==>
          && v.services[s].createdAt == (if made then op.now else db.services[s].createdAt)
          && v.services[s].clientId == (if made then op.client else db.services[s].clientId)
          && v.services[s].state == (if made then Scoping else if moved then op.state else db.services[s].state))
  }

  lemma ServiceOpColumns(db: Db, op: ServiceOp, s: Id)
    requires PerformService(db, op).Ok?
    ensures ServiceAsMade(db, PerformService(db, op).value, op, s)
  {
    hide Parses, Fits, ServiceScope, StateTargets;
  }

  /** A service belongs to the client it was made for, at scoping until it is moved. */
  lemma ServiceColumns(db: Db, op: Op, s: Id)
    requires Succeeds(db, op)
    ensures var v := Step(db, op); if op.OnServices? then ServiceAsMade(db, v, op.service, s) else v.services == db.services
  {
    hide PerformClient, PerformLead, PerformService, PerformMilestone, PerformTicket, PerformProfile, SendMessage, ServiceAsMade;
    StepFrame(db, op);
    if op.OnServices? { ServiceOpColumns(db, op.service, s); }
  }

  /** What a ticket's other columns should be: its client and its service. */
  predicate TicketAsMade(db: Db, v: Db, op: TicketOp, t: Id) {
    var made := op.NewTicket? && op.id == t;
    && (t in v.tickets <==> t in db.tickets || made) && (made ==> t !in db.tickets)
    && (t in v.tickets ==>
          && v.tickets[t].clientId == (if made then op.client else db.tickets[t].clientId)
          && v.tickets[t].serviceId == (if made then op.service else db.tickets[t].serviceId))
  }

  lemma TicketOpColumns(db: Db, op: TicketOp, t: Id)
    requires PerformTicket(db, op).Ok?
    ensures TicketAsMade(db, PerformTicket(db, op).value, op, t)
  {
    hide Parses, Fits, IsClosed;
  }

  /** A ticket keeps the client and the service it was opened for. */
  lemma TicketColumns(db: Db, op: Op, t: Id)
    requires Succeeds(db, op)
    ensures var v := Step(db, op); if op.OnTickets? then TicketAsMade(db, v, op.ticket, t) else v.tickets == db.tickets
  {
    hide PerformClient, PerformLead, PerformService, PerformMilestone, PerformTicket, PerformProfile, SendMessage, TicketAsMade;
    StepFrame(db, op);
    if op.OnTickets? { TicketOpColumns(db, op.ticket, t); }
  }

  /** The thread of messages grows by exactly what is sent. */
  lemma MessagesKept(db: Db, op: Op)
    requires Succeeds(db, op)
    ensures Step(db, op).messages == db.messages + (if op.Send? then [Message(op.to, op.sender, op.text)] else [])
  {
    hide PerformClient, PerformLead, PerformService, PerformMilestone, PerformTicket, PerformProfile;
    match op
    case OnClients(o) => ClientFrame(db, o);
    case OnLeads(o) => LeadFrame(db, o);
    case OnServices(o) => ServiceFrame(db, o);
    case OnMilestones(o) => MilestoneFrame(db, o);
    case OnTickets(o) => TicketFrame(db, o);
    case OnProfiles(o) => ProfileFrame(db, o);
    case Send(_, _, _) =>
  }
}
