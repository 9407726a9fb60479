/**
What a user's lists and lookups show, told from the cells of the rows: the owner column decides for the
scoped roles, filters compare the named column, and newer rows come first.
*/
module ListingScope {
  import opened Common
  import opened Orm
  import opened StateMachines
  import opened Crm
  import opened CrmRules
  import opened Listing
  import CrmRuns

  predicate CellIs(cols: Cols, c: Column, wanted: Option<string>) {
    wanted.Some? ==> c in cols && cols[c] == Text(wanted.value)
  }

  predicate CellLike(like: Like, cols: Cols, q: Option<string>) {
    q.Some? ==> Name in cols && cols[Name].Text? && like(cols[Name].text, "%" + q.value + "%")
  }

  /** The leads a request selects: those its user sees, with the cells its filters name. */
  lemma LeadsSelected(leads: map<Id, Lead>, user: User, f: LeadFilters, id: Id)
    ensures id in WantedLeads(leads, user, f)
            <==> id in leads && Sees(user, leads[id].cols)
                 && CellIs(leads[id].cols, Vertical, f.vertical) && CellIs(leads[id].cols, Channel, f.channel)
                 && (f.status.Some? ==> leads[id].status == f.status.value)
  {
    if id in leads { ScopeIsSight(user, leads[id].cols); }
    hide OwnScope, Sees;
  }

  lemma ClientsSelected(clients: map<Id, Client>, like: Like, user: User, f: ClientFilters, id: Id)
    ensures id in WantedClients(clients, like, user, f)
            <==> id in clients && Sees(user, clients[id].cols)
                 && (f.stage.Some? ==> clients[id].stage == f.stage.value)
                 && (f.owner.Some? ==> OwnerId in clients[id].cols && clients[id].cols[OwnerId] == Ref(f.owner.value))
                 && CellIs(clients[id].cols, Sector, f.sector) && CellLike(like, clients[id].cols, f.q)
  {
    if id in clients { ScopeIsSight(user, clients[id].cols); }
    hide OwnScope, Sees;
  }

  lemma ServicesSelected(services: map<Id, Service>, user: User, f: ServiceFilters, id: Id)
    ensures id in WantedServices(services, user, f)
            <==> id in services && SeesService(user, services[id].cols)
                 && (f.client.Some? ==> services[id].clientId == f.client.value)
                 && (f.owner.Some? ==> OwnerId in services[id].cols && services[id].cols[OwnerId] == Ref(f.owner.value))
                 && (f.state.Some? ==> services[id].state == f.state.value)
                 && CellIs(services[id].cols, ServiceType, f.kind)
  {
    if id in services { ScopeIsSight(user, services[id].cols); }
    hide ServiceScope, SeesService;
  }

  /** On the pages, an earlier row is a newer one. */
  lemma NewestFirst(wanted: set<Id>, created: Rank, limit: nat, i: nat, j: nat)
    requires wanted <= created.Keys && Ranked(created.Keys, created) && limit >= 1 && i < j < |wanted|
    ensures var shown := Walk(Select(wanted, created), Pager(|wanted|, limit, 0));
            |shown| == |wanted| && shown[i] in wanted && shown[j] in wanted && created[shown[i]] > created[shown[j]]
  {
    WalkShowsSelection(wanted, created, limit);
    AscendingAt(Walk(Select(wanted, created), Pager(|wanted|, limit, 0)), Descending(created), i, j);
  }

  lemma {:induction false} AscendingAt(list: seq<Id>, rank: Rank, i: nat, j: nat)
    requires (forall k :: k in list ==> k in rank) && Ascending(list, rank) && i < j < |list|
    ensures rank[list[i]] < rank[list[j]]
  {
    if i == 0 {
      assert list[j] in list[1..] by { assert list[1..][j - 1] == list[j]; }
    } else {
      AscendingAt(list[1..], rank, i - 1, j - 1);
    }
  }

  /** Does a walk over the user's unfiltered list of leads come by this one? */
  ghost predicate LeadShown(leads: map<Id, Lead>, user: User, limit: nat, id: Id)
    requires Ranked(leads.Keys, LeadTimes(leads)) && limit >= 1
  {
    var wanted := WantedLeads(leads, user, UnfilteredLeads(limit));
    id in Walk(Select(wanted, LeadTimes(leads)), Pager(|wanted|, limit, 0))
  }

  /**
  After a successful assignment of a lead, a consultor or comercial comes by it in the list and finds it by
  lookup exactly when it was assigned to them; everyone else always does.
  */
  lemma AssignedLeadSeen(db: Db, id: Id, owner: Id, v: Db, viewer: User, limit: nat)
    requires CrmRuns.Perform(db, CrmRuns.OnLeads(CrmRuns.Assign(id, owner))) == Ok(v)
    requires Ranked(v.leads.Keys, LeadTimes(v.leads)) && limit >= 1
    ensures id in v.leads
    ensures var seen := viewer.role == Consultor || viewer.role == Comercial ==> viewer.id == owner;
            && (LeadShown(v.leads, viewer, limit, id) <==> seen)
            && GetLead(v.leads, viewer, id) == if seen then Ok(v.leads[id]) else Err(LeadNotFound)
  {
    Assigned(db, id, owner, v);
    hide CrmRuns.Perform, OwnScope;
    ScopeIsSight(viewer, v.leads[id].cols);
    LeadListedIffFound(v.leads, viewer, limit, id);
  }

  lemma Assigned(db: Db, id: Id, owner: Id, v: Db)
    requires CrmRuns.Perform(db, CrmRuns.OnLeads(CrmRuns.Assign(id, owner))) == Ok(v)
    ensures id in v.leads && OwnerId in v.leads[id].cols && v.leads[id].cols[OwnerId] == Ref(owner)
  {
  }

  /** A client whose owner cell names u is listed to, and found by, u and everyone who is not kept to their own. */
  lemma OwnedClientSeen(clients: map<Id, Client>, like: Like, id: Id, u: Id, viewer: User, limit: nat)
    requires id in clients && OwnerId in clients[id].cols && clients[id].cols[OwnerId] == Ref(u)
    requires Ranked(clients.Keys, ClientTimes(clients)) && limit >= 1
    ensures var wanted := WantedClients(clients, like, viewer, UnfilteredClients(limit));
            var seen := viewer.role == Consultor || viewer.role == Comercial ==> viewer.id == u;
            && (id in Walk(Select(wanted, ClientTimes(clients)), Pager(|wanted|, limit, 0)) <==> seen)
            && GetClient(clients, viewer, id) == if seen then Ok(clients[id]) else Err(ClientNotFound)
  {
    ScopeIsSight(viewer, clients[id].cols);
    hide OwnScope;
    ClientListedIffFound(clients, like, viewer, limit, id);
  }

  /** A service whose owner cell names u likewise, with only consultors kept to their own. */
  lemma OwnedServiceSeen(services: map<Id, Service>, id: Id, u: Id, viewer: User, limit: nat)
    requires id in services && OwnerId in services[id].cols && services[id].cols[OwnerId] == Ref(u)
    requires Ranked(services.Keys, ServiceTimes(services)) && limit >= 1
    ensures var wanted := WantedServices(services, viewer, UnfilteredServices(limit));
            var seen := viewer.role == Consultor ==> viewer.id == u;
            && (id in Walk(Select(wanted, ServiceTimes(services)), Pager(|wanted|, limit, 0)) <==> seen)
            && GetService(services, viewer, id) == if seen then Ok(services[id]) else Err(ServiceNotFound)
  {
    ScopeIsSight(viewer, services[id].cols);
    hide ServiceScope;
    ServiceListedIffFound(services, viewer, limit, id);
  }
}
