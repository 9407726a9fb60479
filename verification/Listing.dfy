/**
Role-scoped listings: the list queries of leads, clients and services, the lookups beside them,
and the pagination control that walks their pages.
*/
module Listing {
  import opened Common
  import opened Orm
  import opened StateMachines
  import opened Crm

  // ---------------------------------------------------------------------------
  // Queries
  // ---------------------------------------------------------------------------

  /** One WHERE clause of a statement; a statement is a set of them, AND-combined. */
  datatype Where =
    | OwnerIs(owner: Id) | ColumnIs(column: Column, text: string) | NameLike(pattern: string)
    | StatusIs(status: LeadStatus) | StageIs(stage: Stage) | ClientIs(client: Id) | StateIs(state: ServiceState)

  /** name ILIKE pattern, as the database decides it. */
  type Like = (string, string) -> bool

  /** The clauses on columns every table has. */
  predicate ColsHold(like: Like, w: Where, cols: Cols) {
    match w
    case OwnerIs(owner) => Owner(cols) == Some(owner)
    case ColumnIs(column, text) => ValueOf(cols, column) == Text(text)
    case NameLike(pattern) => ValueOf(cols, Name).Text? && like(ValueOf(cols, Name).text, pattern)
    case _ => true
  }

  /** LIMIT limit OFFSET offset */
  function Page(list: seq<Id>, limit: nat, offset: nat): seq<Id> {
    if offset >= |list| then [] else list[offset..Min(offset + limit, |list|)]
  }

  function Descending(created: Rank): Rank {
    map i | i in created :: -created[i]
  }

  lemma RankedDescending(ids: set<Id>, created: Rank)
    requires ids <= created.Keys && Ranked(created.Keys, created)
    ensures Ranked(ids, Descending(created))
  {
  }

  /** SELECT ... ORDER BY created_at DESC, for creation times that are distinct. */
  function Select(ids: set<Id>, created: Rank): seq<Id>
    requires ids <= created.Keys && Ranked(created.Keys, created)
  {
    RankedDescending(ids, created);
    OrderBy(ids, Descending(created))
  }

  function Times<R>(rows: map<Id, R>, createdAt: R -> int): Rank {
    map i | i in rows :: createdAt(rows[i])
  }

  /** The rows a predicate wants. */
  function Wanted<R>(rows: map<Id, R>, wish: R -> bool): set<Id> {
    set i | i in rows && wish(rows[i])
  }

  /** The rows on which every clause of a statement holds. */
  function RowsWhere<R>(rows: map<Id, R>, holds: (Where, R) -> bool, stmt: set<Where>): set<Id> {
    set i | i in rows && Meets(rows[i], holds, stmt)
  }

  predicate Meets<R>(row: R, holds: (Where, R) -> bool, stmt: set<Where>) {
    forall w :: w in stmt ==> holds(w, row)
  }

  /** A statement selects what a predicate wants if it says the same of every row. */
  lemma RowsWhereWanted<R>(rows: map<Id, R>, holds: (Where, R) -> bool, stmt: set<Where>, wish: R -> bool)
    requires forall i :: i in rows ==> (wish(rows[i]) <==> Meets(rows[i], holds, stmt))
    ensures RowsWhere(rows, holds, stmt) == Wanted(rows, wish)
  {
  }

  /** get_for_user: the row, if it is there and in scope. */
  function Get<R>(rows: map<Id, R>, inScope: R -> bool, id: Id, missing: Error): Result<R, Error> {
    if id in rows && inScope(rows[id]) then Ok(rows[id]) else Err(missing)
  }

  // ---------------------------------------------------------------------------
  // Leads
  // ---------------------------------------------------------------------------

  datatype LeadFilters = LeadFilters(vertical: Option<string>, channel: Option<string>, status: Option<LeadStatus>, limit: nat, offset: nat)

  predicate TextIs(cols: Cols, c: Column, wanted: Option<string>) {
    wanted.Some? ==> ValueOf(cols, c) == Text(wanted.value)
  }

  function LeadTimes(leads: map<Id, Lead>): Rank { Times(leads, (lead: Lead) => lead.createdAt) }

  /** Each clause on one row. */
  function LeadHolds(like: Like): (Where, Lead) -> bool {
    (w: Where, lead: Lead) => ColsHold(like, w, lead.cols) && (w.StatusIs? ==> lead.status == w.status)
  }

  /** What a request asks for: its scope and its filters. */
  function LeadWish(user: User, f: LeadFilters): Lead -> bool {
    (lead: Lead) =>
      && OwnScope(user, lead.cols)
      && TextIs(lead.cols, Vertical, f.vertical) && TextIs(lead.cols, Channel, f.channel)
      && (f.status.Some? ==> lead.status == f.status.value)
  }

  function WantedLeads(leads: map<Id, Lead>, user: User, f: LeadFilters): set<Id> {
    Wanted(leads, LeadWish(user, f))
  }

  function LeadClauses(user: User, f: LeadFilters): set<Where> {
    (if user.role.Consultor? || user.role.Comercial? then {OwnerIs(user.id)} else {})
    + (if f.vertical.Some? then {ColumnIs(Vertical, f.vertical.value)} else {})
    + (if f.channel.Some? then {ColumnIs(Channel, f.channel.value)} else {})
    + (if f.status.Some? then {StatusIs(f.status.value)} else {})
  }

  lemma LeadClausesMean(like: Like, user: User, f: LeadFilters, row: Lead)
    ensures LeadWish(user, f)(row) <==> Meets(row, LeadHolds(like), LeadClauses(user, f))
  {
    var stmt := LeadClauses(user, f);
    if Meets(row, LeadHolds(like), stmt) {
      assert (user.role.Consultor? || user.role.Comercial?) ==> OwnerIs(user.id) in stmt;
      assert f.vertical.Some? ==> ColumnIs(Vertical, f.vertical.value) in stmt;
      assert f.channel.Some? ==> ColumnIs(Channel, f.channel.value) in stmt;
      assert f.status.Some? ==> StatusIs(f.status.value) in stmt;
    }
  }

  /** The row query and the count query grow side by side. */
  method LeadStatements(user: User, f: LeadFilters) returns (stmt: set<Where>, countStmt: set<Where>)
    ensures stmt == countStmt == LeadClauses(user, f)
  {
    stmt, countStmt := {}, {};
    if user.role.Consultor? || user.role.Comercial? {
      stmt, countStmt := stmt + {OwnerIs(user.id)}, countStmt + {OwnerIs(user.id)};
    }
    if f.vertical.Some? {
      stmt, countStmt := stmt + {ColumnIs(Vertical, f.vertical.value)}, countStmt + {ColumnIs(Vertical, f.vertical.value)};
    }
    if f.channel.Some? {
      stmt, countStmt := stmt + {ColumnIs(Channel, f.channel.value)}, countStmt + {ColumnIs(Channel, f.channel.value)};
    }
    if f.status.Some? {
      stmt, countStmt := stmt + {StatusIs(f.status.value)}, countStmt + {StatusIs(f.status.value)};
    }
  }

  method ListLeads(leads: map<Id, Lead>, like: Like, user: User, f: LeadFilters) returns (rows: seq<Id>, total: nat)
    requires Ranked(leads.Keys, LeadTimes(leads))
    ensures var wanted := WantedLeads(leads, user, f);
            rows == Page(Select(wanted, LeadTimes(leads)), f.limit, f.offset) && total == |wanted|
  {
    hide LeadHolds, LeadWish, LeadClauses;
    var stmt, countStmt := LeadStatements(user, f);
    forall i | i in leads
      ensures LeadWish(user, f)(leads[i]) <==> Meets(leads[i], LeadHolds(like), stmt)
    {
      LeadClausesMean(like, user, f, leads[i]);
    }
    hide Meets;
    RowsWhereWanted(leads, LeadHolds(like), stmt, LeadWish(user, f));
    rows := Page(Select(RowsWhere(leads, LeadHolds(like), stmt), LeadTimes(leads)), f.limit, f.offset);
    total := |RowsWhere(leads, LeadHolds(like), countStmt)|;
  }

  function GetLead(leads: map<Id, Lead>, user: User, id: Id): Result<Lead, Error> {
    Get(leads, (lead: Lead) => OwnScope(user, lead.cols), id, LeadNotFound)
  }

  function UnfilteredLeads(limit: nat): LeadFilters { LeadFilters(None, None, None, limit, 0) }

  // ---------------------------------------------------------------------------
  // Clients
  // ---------------------------------------------------------------------------

  datatype ClientFilters = ClientFilters(stage: Option<Stage>, owner: Option<Id>, sector: Option<string>, q: Option<string>, limit: nat, offset: nat)

  predicate NameMatches(like: Like, cols: Cols, q: Option<string>) {
    q.Some? ==> ValueOf(cols, Name).Text? && like(ValueOf(cols, Name).text, "%" + q.value + "%")
  }

  function ClientTimes(clients: map<Id, Client>): Rank { Times(clients, (client: Client) => client.createdAt) }

  /** Each clause on one row. */
  function ClientHolds(like: Like): (Where, Client) -> bool {
    (w: Where, client: Client) => ColsHold(like, w, client.cols) && (w.StageIs? ==> client.stage == w.stage)
  }

  /** What a request asks for: its scope and its filters. */
  function ClientWish(like: Like, user: User, f: ClientFilters): Client -> bool {
    (client: Client) =>
      && OwnScope(user, client.cols)
      && (f.stage.Some? ==> client.stage == f.stage.value)
      && (f.owner.Some? ==> Owner(client.cols) == f.owner)
      && TextIs(client.cols, Sector, f.sector) && NameMatches(like, client.cols, f.q)
  }

  function WantedClients(clients: map<Id, Client>, like: Like, user: User, f: ClientFilters): set<Id> {
    Wanted(clients, ClientWish(like, user, f))
  }

  function ClientClauses(user: User, f: ClientFilters): set<Where> {
    (if user.role.Consultor? || user.role.Comercial? then {OwnerIs(user.id)} else {})
    + (if f.stage.Some? then {StageIs(f.stage.value)} else {})
    + (if f.owner.Some? then {OwnerIs(f.owner.value)} else {})
    + (if f.sector.Some? then {ColumnIs(Sector, f.sector.value)} else {})
    + (if f.q.Some? then {NameLike("%" + f.q.value + "%")} else {})
  }

  lemma ClientClausesMean(like: Like, user: User, f: ClientFilters, row: Client)
    ensures ClientWish(like, user, f)(row) <==> Meets(row, ClientHolds(like), ClientClauses(user, f))
  {
    var stmt := ClientClauses(user, f);
    if Meets(row, ClientHolds(like), stmt) {
      assert (user.role.Consultor? || user.role.Comercial?) ==> OwnerIs(user.id) in stmt;
      assert f.stage.Some? ==> StageIs(f.stage.value) in stmt;
      assert f.owner.Some? ==> OwnerIs(f.owner.value) in stmt;
      assert f.sector.Some? ==> ColumnIs(Sector, f.sector.value) in stmt;
      assert f.q.Some? ==> NameLike("%" + f.q.value + "%") in stmt;
    }
  }

  /** The row query and the count query grow side by side. */
  method ClientStatements(user: User, f: ClientFilters) returns (stmt: set<Where>, countStmt: set<Where>)
    ensures stmt == countStmt == ClientClauses(user, f)
  {
    stmt, countStmt := {}, {};
    if user.role.Consultor? || user.role.Comercial? {
      stmt, countStmt := stmt + {OwnerIs(user.id)}, countStmt + {OwnerIs(user.id)};
    }
    if f.stage.Some? {
      stmt, countStmt := stmt + {StageIs(f.stage.value)}, countStmt + {StageIs(f.stage.value)};
    }
    if f.owner.Some? {
      stmt, countStmt := stmt + {OwnerIs(f.owner.value)}, countStmt + {OwnerIs(f.owner.value)};
    }
    if f.sector.Some? {
      stmt, countStmt := stmt + {ColumnIs(Sector, f.sector.value)}, countStmt + {ColumnIs(Sector, f.sector.value)};
    }
    if f.q.Some? {
      stmt, countStmt := stmt + {NameLike("%" + f.q.value + "%")}, countStmt + {NameLike("%" + f.q.value + "%")};
    }
  }

  method ListClients(clients: map<Id, Client>, like: Like, user: User, f: ClientFilters) returns (rows: seq<Id>, total: nat)
    requires Ranked(clients.Keys, ClientTimes(clients))
    ensures var wanted := WantedClients(clients, like, user, f);
            rows == Page(Select(wanted, ClientTimes(clients)), f.limit, f.offset) && total == |wanted|
  {
    hide ClientHolds, ClientWish, ClientClauses;
    var stmt, countStmt := ClientStatements(user, f);
    forall i | i in clients
      ensures ClientWish(like, user, f)(clients[i]) <==> Meets(clients[i], ClientHolds(like), stmt)
    {
      ClientClausesMean(like, user, f, clients[i]);
    }
    hide Meets;
    RowsWhereWanted(clients, ClientHolds(like), stmt, ClientWish(like, user, f));
    rows := Page(Select(RowsWhere(clients, ClientHolds(like), stmt), ClientTimes(clients)), f.limit, f.offset);
    total := |RowsWhere(clients, ClientHolds(like), countStmt)|;
  }

  function GetClient(clients: map<Id, Client>, user: User, id: Id): Result<Client, Error> {
    Get(clients, (client: Client) => OwnScope(user, client.cols), id, ClientNotFound)
  }

  function UnfilteredClients(limit: nat): ClientFilters { ClientFilters(None, None, None, None, limit, 0) }

  // ---------------------------------------------------------------------------
  // Services
  // ---------------------------------------------------------------------------

  datatype ServiceFilters = ServiceFilters(client: Option<Id>, owner: Option<Id>, state: Option<ServiceState>, kind: Option<string>, limit: nat, offset: nat)

  function ServiceTimes(services: map<Id, Service>): Rank { Times(services, (service: Service) => service.createdAt) }

  /** Each clause on one row. */
  function ServiceHolds(like: Like): (Where, Service) -> bool {
    (w: Where, service: Service) => ColsHold(like, w, service.cols)
      && (w.ClientIs? ==> service.clientId == w.client) && (w.StateIs? ==> service.state == w.state)
  }

  /** What a request asks for: its scope and its filters. */
  function ServiceWish(user: User, f: ServiceFilters): Service -> bool {
    (service: Service) =>
      && ServiceScope(user, service.cols)
      && (f.client.Some? ==> service.clientId == f.client.value)
      && (f.owner.Some? ==> Owner(service.cols) == f.owner)
      && (f.state.Some? ==> service.state == f.state.value)
      && TextIs(service.cols, ServiceType, f.kind)
  }

  function WantedServices(services: map<Id, Service>, user: User, f: ServiceFilters): set<Id> {
    Wanted(services, ServiceWish(user, f))
  }

  function ServiceClauses(user: User, f: ServiceFilters): set<Where> {
    (if user.role.Consultor? then {OwnerIs(user.id)} else {})
    + (if f.client.Some? then {ClientIs(f.client.value)} else {})
    + (if f.owner.Some? then {OwnerIs(f.owner.value)} else {})
    + (if f.state.Some? then {StateIs(f.state.value)} else {})
    + (if f.kind.Some? then {ColumnIs(ServiceType, f.kind.value)} else {})
  }

  lemma ServiceClausesMean(like: Like, user: User, f: ServiceFilters, row: Service)
    ensures ServiceWish(user, f)(row) <==> Meets(row, ServiceHolds(like), ServiceClauses(user, f))
  {
    var stmt := ServiceClauses(user, f);
    if Meets(row, ServiceHolds(like), stmt) {
      assert user.role.Consultor? ==> OwnerIs(user.id) in stmt;
      assert f.client.Some? ==> ClientIs(f.client.value) in stmt;
      assert f.owner.Some? ==> OwnerIs(f.owner.value) in stmt;
      assert f.state.Some? ==> StateIs(f.state.value) in stmt;
      assert f.kind.Some? ==> ColumnIs(ServiceType, f.kind.value) in stmt;
    }
  }

  /** The row query and the count query grow side by side. */
  method ServiceStatements(user: User, f: ServiceFilters) returns (stmt: set<Where>, countStmt: set<Where>)
    ensures stmt == countStmt == ServiceClauses(user, f)
  {
    stmt, countStmt := {}, {};
    if user.role.Consultor? {
      stmt, countStmt := stmt + {OwnerIs(user.id)}, countStmt + {OwnerIs(user.id)};
    }
    if f.client.Some? {
      stmt, countStmt := stmt + {ClientIs(f.client.value)}, countStmt + {ClientIs(f.client.value)};
    }
    if f.owner.Some? {
      stmt, countStmt := stmt + {OwnerIs(f.owner.value)}, countStmt + {OwnerIs(f.owner.value)};
    }
    if f.state.Some? {
      stmt, countStmt := stmt + {StateIs(f.state.value)}, countStmt + {StateIs(f.state.value)};
    }
    if f.kind.Some? {
      stmt, countStmt := stmt + {ColumnIs(ServiceType, f.kind.value)}, countStmt + {ColumnIs(ServiceType, f.kind.value)};
    }
  }

  method ListServices(services: map<Id, Service>, like: Like, user: User, f: ServiceFilters) returns (rows: seq<Id>, total: nat)
    requires Ranked(services.Keys, ServiceTimes(services))
    ensures var wanted := WantedServices(services, user, f);
            rows == Page(Select(wanted, ServiceTimes(services)), f.limit, f.offset) && total == |wanted|
  {
    hide ServiceHolds, ServiceWish, ServiceClauses;
    var stmt, countStmt := ServiceStatements(user, f);
    forall i | i in services
      ensures ServiceWish(user, f)(services[i]) <==> Meets(services[i], ServiceHolds(like), stmt)
    {
      ServiceClausesMean(like, user, f, services[i]);
    }
    hide Meets;
    RowsWhereWanted(services, ServiceHolds(like), stmt, ServiceWish(user, f));
    rows := Page(Select(RowsWhere(services, ServiceHolds(like), stmt), ServiceTimes(services)), f.limit, f.offset);
    total := |RowsWhere(services, ServiceHolds(like), countStmt)|;
  }

  function GetService(services: map<Id, Service>, user: User, id: Id): Result<Service, Error> {
    Get(services, (service: Service) => ServiceScope(user, service.cols), id, ServiceNotFound)
  }

  function UnfilteredServices(limit: nat): ServiceFilters { ServiceFilters(None, None, None, None, limit, 0) }

  // ---------------------------------------------------------------------------
  // The pagination control
  // ---------------------------------------------------------------------------

  datatype Pager = Pager(total: nat, limit: nat, offset: nat) {
    function From(): int { if total == 0 then 0 else offset + 1 }

    function To(): int { Min(offset + limit, total) }

    predicate PrevDisabled() { offset == 0 }

    predicate NextDisabled() { offset + limit >= total }

    function Next(): Pager { this.(offset := offset + limit) }

    function Prev(): Pager { this.(offset := Max(0, offset - limit)) }
  }

  /** The pages reached by pressing Next until it is disabled, joined. */
  ghost function Walk(list: seq<Id>, pager: Pager): seq<Id>
    requires pager.total == |list| && pager.limit >= 1
    decreases Max(0, pager.total - pager.offset)
  {
    Page(list, pager.limit, pager.offset) + (if pager.NextDisabled() then [] else Walk(list, pager.Next()))
  }

  /** From any offset, walking Next collects exactly the rest of the list, in order. */
  lemma {:induction false} WalkCollects(list: seq<Id>, pager: Pager)
    requires pager.total == |list| && pager.limit >= 1
    ensures Walk(list, pager) == if pager.offset >= |list| then [] else list[pager.offset..]
    decreases Max(0, pager.total - pager.offset)
  {
    if !pager.NextDisabled() {
      WalkCollects(list, pager.Next());
    }
  }

  /** The range on show has as many rows as the page exactly while there are rows and the offset is not past them. */
  lemma ShownRange(list: seq<Id>, pager: Pager)
    requires pager.total == |list| && pager.limit >= 1
    ensures |Page(list, pager.limit, pager.offset)| == pager.To() - pager.From() + 1 <==> pager.total > 0 && pager.offset <= pager.total
  {
  }

  /** Next is enabled exactly while the page after this one has rows. */
  lemma NextIffMore(list: seq<Id>, pager: Pager)
    requires pager.total == |list| && pager.limit >= 1
    ensures pager.NextDisabled() <==> Page(list, pager.limit, pager.offset + pager.limit) == []
  {
  }

  /** Prev, enabled after any Next, returns to the same page. */
  lemma PrevUndoesNext(pager: Pager)
    requires pager.limit >= 1
    ensures pager.Next().Prev() == pager && !pager.Next().PrevDisabled()
  {
  }

  // ---------------------------------------------------------------------------
  // Listing agrees with lookup
  // ---------------------------------------------------------------------------

  /** What a walk over a listing shows: exactly the wanted rows, newest first, whatever the page size. */
  lemma WalkShowsSelection(wanted: set<Id>, created: Rank, limit: nat)
    requires wanted <= created.Keys && Ranked(created.Keys, created) && limit >= 1
    ensures var shown := Walk(Select(wanted, created), Pager(|wanted|, limit, 0));
            && shown == Select(wanted, created) && |shown| == |wanted|
            && Lists(shown, wanted, Descending(created))
  {
    RankedDescending(wanted, created);
    OrderByLists(wanted, Descending(created));
    WalkCollects(Select(wanted, created), Pager(|wanted|, limit, 0));
  }

  /** With no filters, a lead shows up on some page exactly when the same user's lookup finds it. */
  lemma LeadListedIffFound(leads: map<Id, Lead>, user: User, limit: nat, id: Id)
    requires Ranked(leads.Keys, LeadTimes(leads)) && limit >= 1
    ensures var wanted := WantedLeads(leads, user, UnfilteredLeads(limit));
            id in Walk(Select(wanted, LeadTimes(leads)), Pager(|wanted|, limit, 0)) <==> GetLead(leads, user, id).Ok?
  {
    WalkShowsSelection(WantedLeads(leads, user, UnfilteredLeads(limit)), LeadTimes(leads), limit);
  }

  lemma ClientListedIffFound(clients: map<Id, Client>, like: Like, user: User, limit: nat, id: Id)
    requires Ranked(clients.Keys, ClientTimes(clients)) && limit >= 1
    ensures var wanted := WantedClients(clients, like, user, UnfilteredClients(limit));
            id in Walk(Select(wanted, ClientTimes(clients)), Pager(|wanted|, limit, 0)) <==> GetClient(clients, user, id).Ok?
  {
    WalkShowsSelection(WantedClients(clients, like, user, UnfilteredClients(limit)), ClientTimes(clients), limit);
  }

  lemma ServiceListedIffFound(services: map<Id, Service>, user: User, limit: nat, id: Id)
    requires Ranked(services.Keys, ServiceTimes(services)) && limit >= 1
    ensures var wanted := WantedServices(services, user, UnfilteredServices(limit));
            id in Walk(Select(wanted, ServiceTimes(services)), Pager(|wanted|, limit, 0)) <==> GetService(services, user, id).Ok?
  {
    WalkShowsSelection(WantedServices(services, user, UnfilteredServices(limit)), ServiceTimes(services), limit);
  }
}
