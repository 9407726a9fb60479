/**
Who may do what, and what is left on record: rows out of a user's scope answer as rows that are not
there, rows move along their ladders one step at a time, and the activity log of any run is the trail
of its successful operations, each with the client it concerned and the user who did it.
*/
module CrmRules {
  import opened Common
  import opened Orm
  import opened StateMachines
  import opened Crm
  import opened CrmRuns
  import opened CrmTheorems
  import Billing

  // ---------------------------------------------------------------------------
  // Scope
  // ---------------------------------------------------------------------------

  predicate Owns(user: User, cols: Cols) { OwnerId in cols && cols[OwnerId] == Ref(user.id) }

  /** Consultors and comercials see what they own; everyone else sees all. */
  predicate Sees(user: User, cols: Cols) { user.role == Consultor || user.role == Comercial ==> Owns(user, cols) }

  /** Of services, only consultors are kept to their own. */
  predicate SeesService(user: User, cols: Cols) { user.role == Consultor ==> Owns(user, cols) }

  lemma ScopeIsSight(user: User, cols: Cols)
    ensures OwnScope(user, cols) == Sees(user, cols) && ServiceScope(user, cols) == SeesService(user, cols)
  {
  }

  /** A literal column takes the listed texts or null; the other columns are free. */
  predicate Literal(c: Column, v: Value) {
    match c
    case Vertical => v == Null || v == Text("clinicas_dentales") || v == Text("general")
    case Channel =>
      v == Null || v == Text("email_marketing") || v == Text("cold_calling") || v == Text("networking")
      || v == Text("referral") || v == Text("web_form") || v == Text("other")
    case Priority => v == Null || v == Text("high") || v == Text("medium") || v == Text("low")
    case ServiceType => v == Null || v == Text("assessment") || v == Text("development") || v == Text("formation")
    case _ => true
  }

  lemma ChosenIsLiteral(c: Column, v: Value)
    ensures Chosen(c, v) == Literal(c, v)
  {
  }

  /** Owners and assignees are user references, a status is a status, and nothing else is either. */
  predicate OfItsKind(c: Column, v: Value) {
    match v
    case Null => true
    case Ref(_) => c == OwnerId || c == AssignedTo
    case StatusOf(_) => c == Status
    case _ => c != OwnerId && c != AssignedTo && c != Status
  }

  /** Which bodies parse: known columns, values of their kind, and listed texts in the literal columns (a service's type aside). */
  lemma ParsesIff(body: Cols, columns: set<Column>)
    ensures Parses(body, columns)
            <==> forall c :: c in body ==> c in columns && OfItsKind(c, body[c]) && (c == ServiceType || Literal(c, body[c]))
  {
    forall c | c in body
      ensures Chosen(c, body[c]) == Literal(c, body[c])
    {
      ChosenIsLiteral(c, body[c]);
    }
    hide Chosen, Literal;
  }

  /** The operations that look their row up in the caller's scope, and what they answer when it is not there. */
  datatype Lookup = Lookup(visible: bool, missing: Error)

  function LookupOf(db: Db, op: Op): Option<Lookup> {
    match op
    case OnClients(PatchClient(user, id, _)) => Some(Lookup(id in db.clients && Sees(user, db.clients[id].cols), ClientNotFound))
    case OnClients(MoveStage(user, id, _, _)) => Some(Lookup(id in db.clients && Sees(user, db.clients[id].cols), ClientNotFound))
    case OnLeads(MoveStatus(user, id, _)) => Some(Lookup(id in db.leads && Sees(user, db.leads[id].cols), LeadNotFound))
    case OnLeads(PatchLead(user, id, _)) => Some(Lookup(id in db.leads && Sees(user, db.leads[id].cols), LeadNotFound))
    case OnServices(PatchService(user, id, _)) => Some(Lookup(id in db.services && SeesService(user, db.services[id].cols), ServiceNotFound))
    case OnServices(MoveState(user, id, _)) => Some(Lookup(id in db.services && SeesService(user, db.services[id].cols), ServiceNotFound))
    case OnMilestones(PatchMilestone(key, _, _)) => Some(Lookup(key in db.milestones, MilestoneNotFound))
    case OnMilestones(DropMilestone(key)) => Some(Lookup(key in db.milestones, MilestoneNotFound))
    case OnTickets(PatchTicket(id, _, client, _)) => Some(Lookup(id in db.tickets && db.tickets[id].clientId == client, TicketNotFound))
    case OnTickets(StaffPatchTicket(_, id, _)) => Some(Lookup(id in db.tickets, TicketNotFound))
    case _ => None
  }

  /** The columns a PATCH may carry, where the operation is one. */
  function Patchable(op: Op): Option<(Cols, set<Column>)> {
    match op
    case OnClients(PatchClient(_, _, updates)) => Some((updates, {Name, Sector, Size, Region, OwnerId, MrrCents, LifetimeValueCents}))
    case OnLeads(PatchLead(_, _, updates)) => Some((updates, {Name, Phone, Company, Notes, LeadRole}))
    case OnServices(PatchService(_, _, updates)) =>
      Some((updates, {Title, OwnerId, ProgressPct, StartedAt, EndedAt, SetupPriceCents, MonthlyCents, ScoreInt}))
    case OnMilestones(PatchMilestone(_, updates, _)) => Some((updates, {Title, DueDate, CompletedAt}))
    case OnTickets(PatchTicket(_, updates, _, _)) => Some((updates, {Title, Priority, Body}))
    case OnTickets(StaffPatchTicket(_, _, updates)) => Some((updates, {Title, Priority, Status, Body, AssignedTo}))
    case _ => None
  }

  predicate Readable(op: Op) { Patchable(op).Some? ==> Parses(Patchable(op).value.0, Patchable(op).value.1) }

  /** A comercial may not set a ticket's status. */
  predicate StatusForbidden(op: Op) {
    op.OnTickets? && op.ticket.StaffPatchTicket? && op.ticket.user.role == Comercial
    && Status in op.ticket.updates && op.ticket.updates[Status] != Null
  }

  /**
  A row out of the caller's scope answers exactly as a row that does not exist; a body with a column the
  operation does not take is refused before anything is looked up.
  */
  lemma OutOfScopeIsMissing(db: Db, op: Op)
    requires LookupOf(db, op).Some?
    ensures !Readable(op) <==> Perform(db, op) == Err(ValidationError)
    ensures Perform(db, op) == Err(Forbidden) <==> Readable(op) && StatusForbidden(op)
    ensures Readable(op) && !StatusForbidden(op)
            ==> (!LookupOf(db, op).value.visible <==> Perform(db, op) == Err(LookupOf(db, op).value.missing))
  {
    match op
    case OnClients(o) => ClientLookup(db, o);
    case OnLeads(o) => LeadLookup(db, o);
    case OnServices(o) => ServiceLookup(db, o);
    case OnMilestones(o) => MilestoneLookup(db, o);
    case OnTickets(o) => TicketLookup(db, o);
  }

  ghost predicate LooksUp(db: Db, op: Op)
    requires LookupOf(db, op).Some?
  {
    && (!Readable(op) <==> Perform(db, op) == Err(ValidationError))
    && (Perform(db, op) == Err(Forbidden) <==> Readable(op) && StatusForbidden(op))
    && (Readable(op) && !StatusForbidden(op)
        ==> (!LookupOf(db, op).value.visible <==> Perform(db, op) == Err(LookupOf(db, op).value.missing)))
  }

  lemma ClientLookup(db: Db, op: ClientOp)
    requires LookupOf(db, OnClients(op)).Some?
    ensures LooksUp(db, OnClients(op))
  {
    if op.id in db.clients { ScopeIsSight(op.user, db.clients[op.id].cols); }
    hide Parses, Fits, OwnScope, Sees, CanMoveStage;
  }

  lemma LeadLookup(db: Db, op: LeadOp)
    requires LookupOf(db, OnLeads(op)).Some?
    ensures LooksUp(db, OnLeads(op))
  {
    if op.id in db.leads { ScopeIsSight(op.user, db.leads[op.id].cols); }
    hide Parses, Fits, OwnScope, Sees, StatusTargets;
  }

  lemma ServiceLookup(db: Db, op: ServiceOp)
    requires LookupOf(db, OnServices(op)).Some?
    ensures LooksUp(db, OnServices(op))
  {
    if op.id in db.services { ScopeIsSight(op.user, db.services[op.id].cols); }
    assert SERVICE_UPDATABLE == {Title, OwnerId, ProgressPct, StartedAt, EndedAt, SetupPriceCents, MonthlyCents, ScoreInt};
    hide Parses, Fits, ServiceScope, SeesService, StateTargets, SERVICE_UPDATABLE;
  }

  lemma MilestoneLookup(db: Db, op: MilestoneOp)
    requires LookupOf(db, OnMilestones(op)).Some?
    ensures LooksUp(db, OnMilestones(op))
  {
    hide Parses, Fits, IsComplete;
  }

  lemma TicketLookup(db: Db, op: TicketOp)
    requires LookupOf(db, OnTickets(op)).Some?
    ensures LooksUp(db, OnTickets(op))
  {
    hide Parses, Fits, IsClosed;
  }

  // ---------------------------------------------------------------------------
  // What a row may hold
  // ---------------------------------------------------------------------------

  /** Required cells are filled, user references are real, and literal columns hold listed texts. */
  predicate Sound(cols: Cols, required: set<Column>, users: set<Id>) {
    && (forall c :: c in required ==> c in cols && cols[c] != Null)
    && (forall c :: c in cols && cols[c].Ref? ==> cols[c].id in users)
    && (forall c :: c in cols ==> Literal(c, cols[c]))
  }

  ghost predicate AllSound(db: Db) {
    && (forall i :: i in db.clients ==> Sound(db.clients[i].cols, {Name}, db.users))
    && (forall i :: i in db.leads ==> Sound(db.leads[i].cols, {Name, Email, Vertical, Channel}, db.users))
    && (forall i :: i in db.services ==> Sound(db.services[i].cols, {ServiceType, Title}, db.users))
    && (forall k :: k in db.milestones ==> Sound(db.milestones[k], {Title}, db.users))
    && (forall i :: i in db.tickets ==> Sound(db.tickets[i].cols, {Title, Priority, Status}, db.users))
  }

  lemma FitIsSound(cols: Cols, required: set<Column>, users: set<Id>)
    requires Fits(cols, required, users)
    ensures Sound(cols, required, users)
  {
    forall c | c in cols
      ensures Literal(c, cols[c])
    {
      ChosenIsLiteral(c, cols[c]);
    }
    hide Chosen, Literal;
  }

  lemma ClientWritten(db: Db, v: Db, id: Id)
    requires AllSound(db) && v == db.(clients := v.clients, leads := v.leads, contacts := v.contacts, profiles := v.profiles, log := v.log)
    requires id in v.clients && v.clients == db.clients[id := v.clients[id]] && Sound(v.clients[id].cols, {Name}, db.users)
    requires forall l :: l in v.leads ==> l in db.leads && v.leads[l].cols == db.leads[l].cols
    ensures AllSound(v)
  {
    hide Sound;
  }

  lemma ClientOpSound(db: Db, op: ClientOp)
    requires AllSound(db) && PerformClient(db, op).Ok?
    ensures AllSound(PerformClient(db, op).value)
  {
    hide AllSound, Parses, Fits, Sound, OwnScope, CanMoveStage, Billing.CreateSchema, Billing.InsertAtConversion, ConvertedName, ContactFromLead;
    var v := PerformClient(db, op).value;
    ClientFrame(db, op);
    var id := if op.Convert? then op.ids.client else op.id;
    if op.MoveStage? {
      assert Sound(db.clients[id].cols, {Name}, db.users) by { ClientSound(db, id); }
    } else {
      FitIsSound(v.clients[id].cols, {Name}, db.users);
    }
    ClientWritten(db, v, id);
  }

  lemma ClientSound(db: Db, id: Id)
    requires AllSound(db) && id in db.clients
    ensures Sound(db.clients[id].cols, {Name}, db.users)
  {
    hide Sound;
  }

  lemma AssignedSound(cols: Cols, required: set<Column>, users: set<Id>, owner: Id)
    requires Sound(cols, required, users) && owner in users
    ensures Sound(cols[OwnerId := Ref(owner)], required, users)
  {
  }

  lemma LeadOpSound(db: Db, op: LeadOp)
    requires AllSound(db) && PerformLead(db, op).Ok?
    ensures AllSound(PerformLead(db, op).value)
  {
    hide Parses, Fits, Sound, OwnScope, StatusTargets;
    var v := PerformLead(db, op).value;
    match op
    case NewLead(id, _, _) => FitIsSound(v.leads[id].cols, {Name, Email, Vertical, Channel}, db.users);
    case PatchLead(_, id, _) => FitIsSound(v.leads[id].cols, {Name, Email, Vertical, Channel}, db.users);
    case MoveStatus(_, id, _) =>
    case Assign(id, owner) => AssignedSound(db.leads[id].cols, {Name, Email, Vertical, Channel}, db.users, owner);
  }

  lemma ServiceOpSound(db: Db, op: ServiceOp)
    requires AllSound(db) && PerformService(db, op).Ok?
    ensures AllSound(PerformService(db, op).value)
  {
    hide Parses, Fits, Sound, ServiceScope, StateTargets;
    var v := PerformService(db, op).value;
    if !op.MoveState? {
      FitIsSound(v.services[op.id].cols, {ServiceType, Title}, db.users);
    }
  }

  lemma BlankSound(cols: Cols, users: set<Id>)
    requires Sound(cols, {Title}, users)
    ensures Sound(cols[CompletedAt := Null], {Title}, users)
  {
  }

  lemma MilestonesWritten(db: Db, v: Db)
    requires AllSound(db) && v == db.(milestones := v.milestones, log := v.log)
    requires forall k :: k in v.milestones ==> (k in db.milestones && v.milestones[k] == db.milestones[k]) || Sound(v.milestones[k], {Title}, db.users)
    ensures AllSound(v)
  {
    hide Sound;
  }

  lemma MilestoneRowsSound(db: Db, op: MilestoneOp, k: MilestoneKey)
    requires PerformMilestone(db, op).Ok? && k in PerformMilestone(db, op).value.milestones
    ensures var v := PerformMilestone(db, op).value;
            (k in db.milestones && v.milestones[k] == db.milestones[k]) || Sound(v.milestones[k], {Title}, db.users)
  {
    hide Parses, Fits, Sound, IsComplete;
    if op.NewMilestone? && k == op.key {
      FitIsSound(op.body, {Title}, db.users);
      BlankSound(op.body, db.users);
    } else if op.PatchMilestone? && k == op.key {
      FitIsSound(db.milestones[k] + op.updates, {Title}, db.users);
    }
  }

  lemma MilestoneOpSound(db: Db, op: MilestoneOp)
    requires AllSound(db) && PerformMilestone(db, op).Ok?
    ensures AllSound(PerformMilestone(db, op).value)
  {
    hide AllSound, PerformMilestone, Sound;
    var v := PerformMilestone(db, op).value;
    MilestoneFrame(db, op);
    forall k | k in v.milestones
      ensures (k in db.milestones && v.milestones[k] == db.milestones[k]) || Sound(v.milestones[k], {Title}, db.users)
    {
      MilestoneRowsSound(db, op, k);
    }
    MilestonesWritten(db, v);
  }

  lemma TicketOpSound(db: Db, op: TicketOp)
    requires AllSound(db) && PerformTicket(db, op).Ok?
    ensures AllSound(PerformTicket(db, op).value)
  {
    hide Parses, Fits, Sound, IsClosed;
    FitIsSound(PerformTicket(db, op).value.tickets[op.id].cols, {Title, Priority, Status}, db.users);
  }

  lemma StepSound(db: Db, op: Op)
    requires AllSound(db)
    ensures AllSound(Step(db, op))
  {
    hide PerformClient, PerformLead, PerformService, PerformMilestone, PerformTicket, PerformProfile, SendMessage, Sound;
    StepFrame(db, op);
    if Succeeds(db, op) {
      match op
      case OnClients(o) => ClientOpSound(db, o);
      case OnLeads(o) => LeadOpSound(db, o);
      case OnServices(o) => ServiceOpSound(db, o);
      case OnMilestones(o) => MilestoneOpSound(db, o);
      case OnTickets(o) => TicketOpSound(db, o);
      case OnProfiles(_) =>
      case Send(_, _, _) =>
    }
  }

  lemma {:induction false} RunSound(db: Db, ops: seq<Op>)
    requires AllSound(db)
    ensures AllSound(Run(db, ops))
    decreases |ops|
  {
    hide AllSound, Step;
    if ops != [] {
      StepSound(db, ops[0]);
      RunSound(Step(db, ops[0]), ops[1..]);
    }
  }

  /** In every reachable state every row has its required cells, refers to real users only, and holds listed texts in its literal columns. */
  lemma RowsAlwaysSound(users: set<Id>, ops: seq<Op>)
    ensures AllSound(Run(Empty(users), ops))
  {
    RunSound(Empty(users), ops);
  }

  /** The cells and the required columns of the row a PATCH is for. */
  function Patched(db: Db, op: Op): Option<(Cols, set<Column>)> {
    match op
    case OnClients(PatchClient(_, id, _)) => if id in db.clients then Some((db.clients[id].cols, {Name})) else None
    case OnLeads(PatchLead(_, id, _)) => if id in db.leads then Some((db.leads[id].cols, {Name, Email, Vertical, Channel})) else None
    case OnServices(PatchService(_, id, _)) => if id in db.services then Some((db.services[id].cols, {ServiceType, Title})) else None
    case OnMilestones(PatchMilestone(key, _, _)) => if key in db.milestones then Some((db.milestones[key], {Title})) else None
    case OnTickets(PatchTicket(id, _, _, _)) => if id in db.tickets then Some((db.tickets[id].cols, {Title, Priority, Status})) else None
    case OnTickets(StaffPatchTicket(_, id, _)) => if id in db.tickets then Some((db.tickets[id].cols, {Title, Priority, Status})) else None
    case _ => None
  }

  ghost predicate FitsOrFails(db: Db, op: Op)
    requires Patched(db, op).Some? && Patchable(op).Some?
  {
    var (cols, required) := Patched(db, op).value;
    && (Succeeds(db, op) <==> Fits(cols + Patchable(op).value.0, required, db.users))
    && (!Succeeds(db, op) ==> Perform(db, op) == Err(IntegrityError))
  }

  /** The PATCH is one that parses, for a row in sight. */
  predicate Admissible(db: Db, op: Op) {
    Patchable(op).Some? && Readable(op) && !StatusForbidden(op) && LookupOf(db, op).value.visible
  }

  lemma ClientPatch(db: Db, op: Op)
    requires Admissible(db, op) && op.OnClients?
    ensures FitsOrFails(db, op)
  {
    ScopeIsSight(op.client.user, db.clients[op.client.id].cols);
    hide Parses, Fits, OwnScope, Sees;
  }

  lemma LeadPatch(db: Db, op: Op)
    requires Admissible(db, op) && op.OnLeads?
    ensures FitsOrFails(db, op)
  {
    ScopeIsSight(op.lead.user, db.leads[op.lead.id].cols);
    hide Parses, Fits, OwnScope, Sees;
  }

  lemma ServicePatch(db: Db, op: Op)
    requires Admissible(db, op) && op.OnServices?
    ensures FitsOrFails(db, op)
  {
    ScopeIsSight(op.service.user, db.services[op.service.id].cols);
    assert SERVICE_UPDATABLE == {Title, OwnerId, ProgressPct, StartedAt, EndedAt, SetupPriceCents, MonthlyCents, ScoreInt};
    hide Parses, Fits, ServiceScope, SeesService, SERVICE_UPDATABLE;
  }

  lemma MilestonePatch(db: Db, op: Op)
    requires Admissible(db, op) && op.OnMilestones?
    ensures FitsOrFails(db, op)
  {
    hide Parses, Fits, IsComplete;
  }

  lemma TicketPatch(db: Db, op: Op)
    requires Admissible(db, op) && op.OnTickets?
    ensures FitsOrFails(db, op)
  {
    hide Parses, Fits, IsClosed;
  }

  /** A PATCH that parses, of a row in sight, succeeds exactly when the patched row fits its table. */
  lemma PatchSucceedsIff(db: Db, op: Op)
    requires Admissible(db, op)
    ensures Patched(db, op).Some? && FitsOrFails(db, op)
  {
    hide FitsOrFails, Perform;
    match op
    case OnClients(_) => ClientPatch(db, op);
    case OnLeads(_) => LeadPatch(db, op);
    case OnServices(_) => ServicePatch(db, op);
    case OnMilestones(_) => MilestonePatch(db, op);
    case OnTickets(_) => TicketPatch(db, op);
  }

  // ---------------------------------------------------------------------------
  // Ladders
  // ---------------------------------------------------------------------------

  const STAGES := [LeadStage, DiscoveryScheduled, DiscoveryDone, ProposalSent, Active]

  /** The rung of a stage on the ladder, from 0; -1 off it. */
  function StageRung(s: Stage): int {
    match s
    case LeadStage => 0
    case DiscoveryScheduled => 1
    case DiscoveryDone => 2
    case ProposalSent => 3
    case Active => 4
    case _ => -1
  }

  function StatusRung(s: LeadStatus): int {
    match s
    case New => 0
    case Contacted => 1
    case Qualified => 2
    case Converted => 3
    case _ => -1
  }

  function StateRung(s: ServiceState): int {
    match s
    case Scoping => 0
    case Running => 1
    case Review => 2
    case Completed => 3
    case Maintenance => 4
    case _ => -1
  }

  predicate StageMoves(from: Stage, to: Stage) { StageRung(from) >= 0 && (StageRung(to) == StageRung(from) + 1 || to == Lost) }

  predicate StatusMoves(from: LeadStatus, to: LeadStatus) {
    0 <= StatusRung(from) < 3 && (StatusRung(to) == StatusRung(from) + 1 || to == Disqualified)
  }

  /** The states of work, from which a service can pause and to which it can resume. */
  predicate InWork(s: ServiceState) { 0 <= StateRung(s) < 3 }

  predicate StateMoves(from: ServiceState, to: ServiceState) {
    (StateRung(from) >= 0 && StateRung(to) == StateRung(from) + 1) || (InWork(from) && to == Paused) || (from == Paused && InWork(to))
  }

  /** A client in sight moves one stage up, or from any stage of the ladder to lost, and not otherwise. */
  lemma StageMovesIff(db: Db, user: User, id: Id, to: Stage)
    requires id in db.clients && Sees(user, db.clients[id].cols)
    ensures var from, reply := db.clients[id].stage, Perform(db, OnClients(MoveStage(user, id, to, false)));
            && (reply.Ok? <==> StageMoves(from, to))
            && (reply.Err? ==> reply == Err(InvalidTransition))
  {
    ScopeIsSight(user, db.clients[id].cols);
    hide OwnScope, Sees;
    StageTableIff(db.clients[id].stage, to);
    hide StageTargets, StageMoves;
  }

  lemma StageTableIff(from: Stage, to: Stage)
    ensures to in StageTargets(from) <==> StageMoves(from, to)
    ensures to in StageTargets(from) ==> KnownStage(to)
  {
  }

  /** A lead in sight moves one status up, or from any open one to disqualified, and not otherwise. */
  lemma StatusMovesIff(db: Db, user: User, id: Id, to: LeadStatus)
    requires id in db.leads && Sees(user, db.leads[id].cols)
    ensures var from, reply := db.leads[id].status, Perform(db, OnLeads(MoveStatus(user, id, to)));
            && (reply.Ok? <==> StatusMoves(from, to))
            && (reply.Err? ==> reply == Err(InvalidTransition))
  {
    ScopeIsSight(user, db.leads[id].cols);
    hide OwnScope, Sees;
    StatusTableIff(db.leads[id].status, to);
    hide StatusTargets, StatusMoves;
  }

  lemma StatusTableIff(from: LeadStatus, to: LeadStatus)
    ensures to in StatusTargets(from) <==> StatusMoves(from, to)
  {
  }

  /** A service in sight moves one state up, or pauses from one of the first three, or resumes at any of them. */
  lemma StateMovesIff(db: Db, user: User, id: Id, to: ServiceState)
    requires id in db.services && SeesService(user, db.services[id].cols)
    ensures var from, reply := db.services[id].state, Perform(db, OnServices(MoveState(user, id, to)));
            && (reply.Ok? <==> StateMoves(from, to))
            && (reply.Err? ==> reply == Err(InvalidTransition))
  {
    ScopeIsSight(user, db.services[id].cols);
    hide ServiceScope, SeesService;
    StateTableIff(db.services[id].state, to);
    hide StateTargets, StateMoves;
  }

  lemma StateTableIff(from: ServiceState, to: ServiceState)
    ensures to in StateTargets(from) <==> StateMoves(from, to)
  {
  }

  /** The details of a client's stage_change entries, in append order. */
  function StageHistory(log: seq<Entry>, c: Id): seq<Detail> {
    if log == [] then []
    else StageHistory(log[..|log| - 1], c)
         + (if log[|log| - 1].clientId == c && log[|log| - 1].kind.StageChange? then [log[|log| - 1].detail] else [])
  }

  /** The moves from rung i to rung j, one at a time. */
  function Climb(i: nat, j: nat): seq<Detail>
    requires i <= j < |STAGES|
    decreases j
  {
    if i == j then [] else Climb(i, j - 1) + [StageMove(STAGES[j - 1], STAGES[j])]
  }

  /** A replay that stands on rung j climbed there: from where it started, or from where the log says the client was created. */
  lemma {:induction false} ReplayClimbs(log: seq<Entry>, c: Id, start: Replay<Stage>, j: nat) returns (i: nat)
    requires j < |STAGES| && StageReplay(log, c, start) == At(STAGES[j])
    ensures i <= j
    ensures StageHistory(log, c) == (if start.Unborn? then [ClientCreated(STAGES[i])] else []) + Climb(i, j)
    ensures start.At? ==> start.s == STAGES[i]
  {
    if log == [] {
      i := j;
    } else {
      var rest, e := log[..|log| - 1], log[|log| - 1];
      var before := StageReplay(rest, c, start);
      if e.clientId == c && e.kind.StageChange? {
        if before.Unborn? {
          NoHistory(rest, c, start);
          i := j;
        } else {
          RungBelow(before.s, j);
          i := ReplayClimbs(rest, c, start, j - 1);
        }
      } else {
        i := ReplayClimbs(rest, c, start, j);
      }
    }
  }

  lemma RungBelow(from: Stage, j: nat)
    requires j < |STAGES| && STAGES[j] in StageTargets(from)
    ensures j > 0 && from == STAGES[j - 1]
  {
  }

  lemma {:induction false} NoHistory(log: seq<Entry>, c: Id, start: Replay<Stage>)
    requires StageReplay(log, c, start) == Unborn
    ensures start.Unborn? && StageHistory(log, c) == []
  {
    if log != [] {
      NoHistory(log[..|log| - 1], c, start);
    }
  }

  /**
  A client created at the bottom of the ladder and active now was moved, through the routes, by exactly the four
  moves in order; in general a client that is not lost climbed rung by rung from the stage it was created at.
  */
  lemma ClimbedInOrder(users: set<Id>, ops: seq<Op>, c: Id, j: nat) returns (i: nat)
    requires ThroughRoutes(ops) && c in Run(Empty(users), ops).clients
    requires j < |STAGES| && Run(Empty(users), ops).clients[c].stage == STAGES[j]
    ensures var db := Run(Empty(users), ops);
            && i <= j
            && (db.clients[c].origin.Direct? ==> StageHistory(db.log, c) == [ClientCreated(STAGES[i])] + Climb(i, j))
            && (db.clients[c].origin.FromLead? ==> db.clients[c].origin.stage == STAGES[i] && StageHistory(db.log, c) == Climb(i, j))
  {
    hide Run;
    StageLogReplays(users, ops, c);
    var db := Run(Empty(users), ops);
    i := ReplayClimbs(db.log, c, StartOf(db.clients[c].origin), j);
  }

  lemma WholeClimb()
    ensures Climb(0, 4) == [StageMove(LeadStage, DiscoveryScheduled), StageMove(DiscoveryScheduled, DiscoveryDone),
                            StageMove(DiscoveryDone, ProposalSent), StageMove(ProposalSent, Active)]
  {
    assert Climb(0, 1) == [StageMove(LeadStage, DiscoveryScheduled)];
    assert Climb(0, 2) == Climb(0, 1) + [StageMove(DiscoveryScheduled, DiscoveryDone)];
    assert Climb(0, 3) == Climb(0, 2) + [StageMove(DiscoveryDone, ProposalSent)];
  }

  // ---------------------------------------------------------------------------
  // Other refusals
  // ---------------------------------------------------------------------------

  /** What a new row takes beside a body that parses: an id not in use, cells that fit, and the rows it refers to. */
  lemma CreationsIff(db: Db, id: Id, now: int, body: Cols, stage: Stage, client: Id, service: Option<Id>, actor: Id)
    ensures Parses(body, {Name, Sector, Size, Region, OwnerId, MrrCents}) ==>
              (Succeeds(db, OnClients(NewClient(id, now, body, stage, actor)))
               <==> id !in db.clients && !stage.UnknownStage? && Fits(body, {Name}, db.users))
    ensures Parses(body, {Name, Email, Phone, Company, Vertical, Channel, SourceUrl, Notes, LeadRole}) ==>
              (Succeeds(db, OnLeads(NewLead(id, now, body))) <==> id !in db.leads && Fits(body, {Name, Email, Vertical, Channel}, db.users))
    ensures Parses(body, {ServiceType, Title, OwnerId, SetupPriceCents, MonthlyCents}) ==>
              (Succeeds(db, OnServices(NewService(id, now, client, body, actor)))
               <==> client in db.clients && db.clients[client].stage != Lost && id !in db.services && Fits(body, {ServiceType, Title}, db.users))
    ensures Parses(body, {Title, Priority, Body}) ==>
              (Succeeds(db, OnTickets(NewTicket(id, client, service, body, actor)))
               <==> id !in db.tickets && client in db.clients && (service == None || service.value in db.services)
                    && Fits(body[Status := StatusOf(Pending)], {Title, Priority, Status}, db.users))
  {
    assert CLIENT_COLUMNS - {LifetimeValueCents} == {Name, Sector, Size, Region, OwnerId, MrrCents};
    assert LEAD_COLUMNS - {OwnerId} == {Name, Email, Phone, Company, Vertical, Channel, SourceUrl, Notes, LeadRole};
    hide Parses, Fits, CLIENT_COLUMNS, LEAD_COLUMNS;
  }

  /** A conversion whose body parses is refused for a missing lead, a linked one, and one that is not qualified, in this order. */
  lemma ConversionRefusals(db: Db, lead: Id, ids: ConvertIds, now: int, body: ConvertBody, actor: Id)
    requires Parses(body.cols, {Sector, Size, Region, OwnerId, MrrCents}) && Parses(map[Name := body.name], {Name})
    requires body.billing.Some? ==> Billing.CreateSchema(body.billing.value)
    ensures var reply := Perform(db, OnClients(Convert(lead, ids, now, body, actor)));
            && (reply == Err(LeadNotFound) <==> lead !in db.leads)
            && (reply == Err(LeadAlreadyConverted) <==> lead in db.leads && db.leads[lead].convertedClientId != None)
            && (reply == Err(LeadNotQualified) <==> lead in db.leads && db.leads[lead].convertedClientId == None && db.leads[lead].status != Qualified)
  {
    hide Parses, Fits, Billing.CreateSchema, Billing.InsertAtConversion, ConvertedName, ContactFromLead;
  }

  /** A service whose body parses is refused for a missing client and for a lost one. */
  lemma ServiceRefusals(db: Db, id: Id, now: int, client: Id, body: Cols, actor: Id)
    requires Parses(body, {ServiceType, Title, OwnerId, SetupPriceCents, MonthlyCents})
    ensures var reply := Perform(db, OnServices(NewService(id, now, client, body, actor)));
            && (reply == Err(ClientNotFound) <==> client !in db.clients)
            && (reply == Err(CannotCreateOnLostClient) <==> client in db.clients && db.clients[client].stage == Lost)
  {
    hide Parses, Fits;
  }

  /** A lead is assigned exactly when it and its new owner exist. */
  lemma AssignmentRefusals(db: Db, id: Id, owner: Id)
    ensures var reply := Perform(db, OnLeads(Assign(id, owner)));
            && (reply == Err(OwnerUserNotFound) <==> owner !in db.users)
            && (reply == Err(LeadNotFound) <==> owner in db.users && id !in db.leads)
            && (reply.Ok? <==> owner in db.users && id in db.leads)
  {
  }

  /** A milestone whose body parses is refused for a missing service; a message is taken between an existing client and user. */
  lemma MilestoneAndMessageRefusals(db: Db, key: MilestoneKey, body: Cols, to: Id, sender: Id, text: string)
    ensures key.n >= 1 && Parses(body, {Title, DueDate})
            ==> && (Perform(db, OnMilestones(NewMilestone(key, body))) == Err(ServiceNotFound) <==> key.service !in db.services)
                && (Succeeds(db, OnMilestones(NewMilestone(key, body)))
                    <==> key.service in db.services && key !in db.milestones && Fits(body, {Title}, db.users))
    ensures key.n == 0 ==> Perform(db, OnMilestones(NewMilestone(key, body))) == Err(ValidationError)
    ensures Succeeds(db, Send(to, sender, text)) <==> to in db.clients && sender in db.users
  {
    hide Parses, Fits;
  }

  // ---------------------------------------------------------------------------
  // The trail of a run
  // ---------------------------------------------------------------------------

  /** What a successful operation puts on record: its client, its kind, and who did it. */
  function Said(db: Db, op: Op): seq<Entry> {
    match op
    case OnClients(NewClient(id, _, _, stage, actor)) => [Entry(id, StageChange, ClientCreated(stage), actor)]
    case OnClients(MoveStage(user, id, to, _)) =>
      if id in db.clients then [Entry(id, StageChange, StageMove(db.clients[id].stage, to), user.id)] else []
    case OnClients(Convert(_, ids, _, _, actor)) => [Entry(ids.client, LeadConverted, Other, actor)]
    case OnServices(NewService(_, _, client, _, actor)) => [Entry(client, ServiceStarted, Other, actor)]
    case OnServices(MoveState(user, id, to)) =>
      if id in db.services then [Entry(db.services[id].clientId, ServiceStateChange, ServiceMove(id, db.services[id].state, to), user.id)] else []
    case OnMilestones(PatchMilestone(key, updates, actor)) =>
      if key in db.milestones && key.service in db.services && Completes(db.milestones[key], updates)
      then [Entry(db.services[key.service].clientId, MilestoneCompleted, Other, actor)] else []
    case OnTickets(NewTicket(_, client, _, _, actor)) => [Entry(client, TicketOpened, Other, actor)]
    case OnTickets(PatchTicket(_, _, client, actor)) => [Entry(client, TicketUpdated, Other, actor)]
    case OnTickets(StaffPatchTicket(user, id, updates)) =>
      if id !in db.tickets then []
      else [Entry(db.tickets[id].clientId, if Closes(db.tickets[id].cols, updates) then TicketClosed else TicketUpdated, Other, user.id)]
    case Send(to, sender, _) => [Entry(to, MessageSent, Other, sender)]
    case _ => []
  }

  /** The patch fills completed_at where it was null or missing. */
  predicate Completes(milestone: Cols, updates: Cols) {
    && (CompletedAt !in milestone || milestone[CompletedAt] == Null)
    && CompletedAt in updates && updates[CompletedAt] != Null
  }

  /** The patch sets the status of a ticket that is not closed to closed. */
  predicate Closes(ticket: Cols, updates: Cols) {
    && Status in updates && updates[Status] == StatusOf(Closed)
    && !(Status in ticket && ticket[Status] == StatusOf(Closed))
  }

  lemma ClientSays(db: Db, op: ClientOp)
    requires PerformClient(db, op).Ok?
    ensures PerformClient(db, op).value.log == db.log + Said(db, OnClients(op))
  {
    hide Parses, Fits, OwnScope, CanMoveStage, Billing.CreateSchema, Billing.InsertAtConversion, ConvertedName, ContactFromLead;
  }

  lemma ServiceSays(db: Db, op: ServiceOp)
    requires PerformService(db, op).Ok?
    ensures PerformService(db, op).value.log == db.log + Said(db, OnServices(op))
  {
    hide Parses, Fits, ServiceScope, StateTargets;
  }

  lemma CompletionSeen(before: Cols, updates: Cols)
    ensures !IsComplete(before) && IsComplete(before + updates) <==> Completes(before, updates)
  {
  }

  lemma MilestoneSays(db: Db, op: MilestoneOp)
    requires PerformMilestone(db, op).Ok?
    ensures PerformMilestone(db, op).value.log == db.log + Said(db, OnMilestones(op))
  {
    hide Parses, Fits, IsComplete, Completes;
    if op.PatchMilestone? {
      CompletionSeen(db.milestones[op.key], op.updates);
    }
  }

  lemma TicketSays(db: Db, op: TicketOp)
    requires PerformTicket(db, op).Ok?
    ensures PerformTicket(db, op).value.log == db.log + Said(db, OnTickets(op))
  {
    hide Parses, Fits;
  }

  lemma StepSays(db: Db, op: Op)
    requires Succeeds(db, op)
    ensures Step(db, op).log == db.log + Said(db, op)
  {
    hide PerformClient, PerformLead, PerformService, PerformMilestone, PerformTicket, PerformProfile, SendMessage, Said;
    match op
    case OnClients(o) => ClientSays(db, o);
    case OnLeads(o) => LeadFrame(db, o); SaysNothing(db, op);
    case OnServices(o) => ServiceSays(db, o);
    case OnMilestones(o) => MilestoneSays(db, o);
    case OnTickets(o) => TicketSays(db, o);
    case OnProfiles(o) => ProfileFrame(db, o); SaysNothing(db, op);
    case Send(to, sender, text) => SendSays(db, to, sender, text);
  }

  lemma SaysNothing(db: Db, op: Op)
    requires op.OnLeads? || op.OnProfiles?
    ensures db.log + Said(db, op) == db.log
  {
  }

  lemma SendSays(db: Db, to: Id, sender: Id, text: string)
    requires SendMessage(db, to, sender, text).Ok?
    ensures SendMessage(db, to, sender, text).value.log == db.log + Said(db, Send(to, sender, text))
  {
  }

  /** What the successful operations of a run put on record, in order. */
  function Trail(db: Db, ops: seq<Op>): seq<Entry>
    decreases |ops|
  {
    if ops == [] then [] else (if Succeeds(db, ops[0]) then Said(db, ops[0]) else []) + Trail(Step(db, ops[0]), ops[1..])
  }

  /** The activity log of any run is the trail of its successful operations, entry by entry. */
  lemma {:induction false} LogIsTrail(db: Db, ops: seq<Op>)
    ensures Run(db, ops).log == db.log + Trail(db, ops)
    decreases |ops|
  {
    hide Succeeds, Said, Perform;
    if ops == [] {
      assert db.log + [] == db.log;
    } else {
      var said := if Succeeds(db, ops[0]) then Said(db, ops[0]) else [];
      StepLog(db, ops[0]);
      LogIsTrail(Step(db, ops[0]), ops[1..]);
      assert db.log + said + Trail(Step(db, ops[0]), ops[1..]) == db.log + (said + Trail(Step(db, ops[0]), ops[1..]));
    }
  }

  lemma StepLog(db: Db, op: Op)
    ensures Step(db, op).log == db.log + if Succeeds(db, op) then Said(db, op) else []
  {
    hide Perform, Said;
    if Succeeds(db, op) {
      StepSays(db, op);
    } else {
      assert db.log + [] == db.log;
    }
  }
}
