/**
What the billing operations keep over any interleaving on any number of clients: exactly one
default profile per client that has profiles, distinct tax ids, tax ids valid for their stored
type, and the order in which profiles are listed.
*/
module BillingRuns {
  import opened Common
  import opened Orm
  import opened Billing
  import TaxIds

  datatype Op =
    | NewClient(client: Id)
    | CreateOp(id: Id, createdAt: int, client: Id, fields: Fields, wantsDefault: bool)
    | UpdateOp(id: Id, updates: Fields)
    | DeleteOp(id: Id)
    | SetDefaultOp(id: Id)
    | ConvertOp(id: Id, createdAt: int, client: Id, fields: Fields)

  function Perform(db: Db, op: Op): Outcome {
    match op
    case NewClient(client) => Ok(db.profiles)
    case CreateOp(id, createdAt, client, fields, wantsDefault) => Create(db, id, createdAt, client, fields, wantsDefault)
    case UpdateOp(id, updates) => Update(db, id, updates)
    case DeleteOp(id) => Delete(db, id)
    case SetDefaultOp(id) => SetDefault(db, id)
    case ConvertOp(id, createdAt, client, fields) => InsertAtConversion(db, id, createdAt, client, fields)
  }

  /** One transaction: committed on success, rolled back on an error. */
  function Step(db: Db, op: Op): Db {
    match Perform(db, op)
    case Err(_) => db
    case Ok(profiles) =>
      Db(if op.NewClient? || op.ConvertOp? then db.clients + {op.client} else db.clients, profiles)
  }

  function Run(db: Db, ops: seq<Op>): Db
    decreases |ops|
  {
    if ops == [] then db else Run(Step(db, ops[0]), ops[1..])
  }

  // ---------------------------------------------------------------------------
  // The invariant
  // ---------------------------------------------------------------------------

  predicate RowOk(p: Profile) {
    p.fields.Keys == ALL_FIELDS && WellTyped(p.fields) && NoForbiddenNull(p.fields)
    && TaxIds.Valid(p.fields[TaxIdKind].kind, p.fields[TaxId].text)
  }

  ghost predicate RowsOk(db: Db) {
    forall i :: i in db.profiles ==> RowOk(db.profiles[i]) && db.profiles[i].clientId in db.clients
  }

  ghost predicate OneDefault(profiles: Table, c: Id) {
    ForClient(profiles, c) != {} ==> exists d :: Defaults(profiles, c) == {d}
  }

  ghost predicate TaxIdsDistinct(profiles: Table) {
    forall i, j :: i in profiles && j in profiles && i != j && profiles[i].clientId == profiles[j].clientId
                   && TaxId in profiles[i].fields && TaxId in profiles[j].fields
                   ==> profiles[i].fields[TaxId] != profiles[j].fields[TaxId]
  }

  ghost predicate Inv(db: Db) {
    RowsOk(db) && TaxIdsDistinct(db.profiles) && forall c :: OneDefault(db.profiles, c)
  }

  // ---------------------------------------------------------------------------
  // Rows stay valid and tax ids distinct
  // ---------------------------------------------------------------------------

  /** The pairing rule is what keeps a stored tax id valid: a partial update changes id and type together or not at all. */
  lemma UpdatedRowOk(p: Profile, updates: Fields)
    requires RowOk(p) && UpdateSchema(updates) && NoForbiddenNull(p.fields + updates)
    ensures RowOk(p.(fields := p.fields + updates))
  {
    var after := p.fields + updates;
    assert TaxId in updates ==> after[TaxId] == updates[TaxId];
    assert TaxIdKind in updates ==> after[TaxIdKind] == updates[TaxIdKind];
  }

  lemma StepRowsOk(db: Db, op: Op)
    requires RowsOk(db)
    ensures RowsOk(Step(db, op))
  {
    hide RowOk, Create, Update, Delete, SetDefault, InsertAtConversion;
    if Perform(db, op).Ok? {
      match op
      case NewClient(_) =>
      case CreateOp(id, createdAt, client, fields, wantsDefault) =>
        CreateRowsOk(db, id, createdAt, client, fields, wantsDefault);
      case UpdateOp(id, updates) => UpdateRowsOk(db, id, updates);
      case DeleteOp(id) => DeleteRowsOk(db, id);
      case SetDefaultOp(id) => SetDefaultRowsOk(db, id);
      case ConvertOp(id, createdAt, client, fields) => ConvertRowsOk(db, id, createdAt, client, fields);
    }
  }

  lemma DeleteRowsOk(db: Db, id: Id)
    requires RowsOk(db) && Delete(db, id).Ok?
    ensures RowsOk(db.(profiles := Delete(db, id).value))
  {
    hide TaxIds.Valid, WellTyped, NoForbiddenNull;
  }

  lemma SetDefaultRowsOk(db: Db, id: Id)
    requires RowsOk(db) && SetDefault(db, id).Ok?
    ensures RowsOk(db.(profiles := SetDefault(db, id).value))
  {
    hide TaxIds.Valid, WellTyped, NoForbiddenNull;
  }

  lemma ConvertRowsOk(db: Db, id: Id, createdAt: int, client: Id, fields: Fields)
    requires RowsOk(db) && InsertAtConversion(db, id, createdAt, client, fields).Ok?
    ensures RowsOk(Db(db.clients + {client}, InsertAtConversion(db, id, createdAt, client, fields).value))
  {
    hide TaxIds.Valid;
  }

  lemma CreateRowsOk(db: Db, id: Id, createdAt: int, client: Id, fields: Fields, wantsDefault: bool)
    requires RowsOk(db) && Create(db, id, createdAt, client, fields, wantsDefault).Ok?
    ensures RowsOk(db.(profiles := Create(db, id, createdAt, client, fields, wantsDefault).value))
  {
    hide TaxIds.Valid;
  }

  lemma UpdateRowsOk(db: Db, id: Id, updates: Fields)
    requires RowsOk(db) && Update(db, id, updates).Ok?
    ensures RowsOk(db.(profiles := Update(db, id, updates).value))
  {
    hide RowOk, UpdateSchema, NoForbiddenNull;
    UpdatedRowOk(db.profiles[id], updates);
  }

  lemma StepTaxIdsDistinct(db: Db, op: Op)
    requires RowsOk(db) && TaxIdsDistinct(db.profiles)
    ensures TaxIdsDistinct(Step(db, op).profiles)
  {
    hide RowsOk, Create, Update, InsertAtConversion;
    if Perform(db, op).Ok? {
      match op
      case NewClient(_) =>
      case CreateOp(id, createdAt, client, fields, wantsDefault) =>
        CreateTaxIdsDistinct(db, id, createdAt, client, fields, wantsDefault);
      case UpdateOp(id, updates) => UpdateTaxIdsDistinct(db, id, updates);
      case DeleteOp(id) =>
      case SetDefaultOp(id) =>
      case ConvertOp(id, createdAt, client, fields) =>
        ConvertTaxIdsDistinct(db, id, createdAt, client, fields);
    }
  }

  lemma CreateTaxIdsDistinct(db: Db, id: Id, createdAt: int, client: Id, fields: Fields, wantsDefault: bool)
    requires TaxIdsDistinct(db.profiles) && Create(db, id, createdAt, client, fields, wantsDefault).Ok?
    ensures TaxIdsDistinct(Create(db, id, createdAt, client, fields, wantsDefault).value)
  {
    hide TaxIds.Valid;
    assert TaxId in fields;
    assert !TaxIdTaken(db.profiles, client, fields[TaxId], None);
  }

  lemma UpdateTaxIdsDistinct(db: Db, id: Id, updates: Fields)
    requires RowsOk(db) && TaxIdsDistinct(db.profiles) && Update(db, id, updates).Ok?
    ensures TaxIdsDistinct(Update(db, id, updates).value)
  {
    hide TaxIds.Valid, UpdateSchema;
    var p := db.profiles;
    assert RowOk(p[id]);
    if TaxId in updates && updates[TaxId] != p[id].fields[TaxId] {
      assert !TaxIdTaken(p, p[id].clientId, updates[TaxId], Some(id));
    } else {
      assert (p[id].fields + updates)[TaxId] == p[id].fields[TaxId];
    }
  }

  lemma ConvertTaxIdsDistinct(db: Db, id: Id, createdAt: int, client: Id, fields: Fields)
    requires RowsOk(db) && TaxIdsDistinct(db.profiles) && InsertAtConversion(db, id, createdAt, client, fields).Ok?
    ensures TaxIdsDistinct(InsertAtConversion(db, id, createdAt, client, fields).value)
  {
    hide TaxIds.Valid, CreateSchema, RowOk;
  }

  // ---------------------------------------------------------------------------
  // Exactly one default
  // ---------------------------------------------------------------------------

  lemma CreateOneDefault(db: Db, id: Id, createdAt: int, client: Id, fields: Fields, wantsDefault: bool, c: Id)
    requires Create(db, id, createdAt, client, fields, wantsDefault).Ok? && OneDefault(db.profiles, c)
    ensures OneDefault(Create(db, id, createdAt, client, fields, wantsDefault).value, c)
    ensures ForClient(Create(db, id, createdAt, client, fields, wantsDefault).value, c) >= ForClient(db.profiles, c)
  {
    hide TaxIds.Valid, CreateSchema;
    var p, q := db.profiles, Create(db, id, createdAt, client, fields, wantsDefault).value;
    if c != client {
      assert ForClient(q, c) == ForClient(p, c) && Defaults(q, c) == Defaults(p, c);
    } else if ForClient(p, c) == {} || wantsDefault {
      assert ForClient(p, c) == {} ==> Defaults(p, c) == {};
      assert Defaults(q, c) == {id};
    } else {
      assert Defaults(q, c) == Defaults(p, c);
    }
  }

  lemma DeleteOneDefault(db: Db, id: Id, c: Id)
    requires Delete(db, id).Ok? && OneDefault(db.profiles, c)
    ensures OneDefault(Delete(db, id).value, c)
    ensures ForClient(db.profiles, c) != {} ==> ForClient(Delete(db, id).value, c) != {}
  {
    var p, q := db.profiles, Delete(db, id).value;
    assert ForClient(q, c) == ForClient(p, c) - {id};
    if p[id].clientId != c {
      assert id !in ForClient(p, c) && id !in Defaults(p, c);
      assert Defaults(q, c) == Defaults(p, c);
    } else if p[id].isDefault {
      assert Defaults(p, c) == {id} by { assert id in Defaults(p, c) && id in ForClient(p, c); }
      var heir := Oldest(p, ForClient(p, c) - {id});
      assert forall i :: i in Defaults(q, c) ==> i in Defaults(p, c) || i == heir;
      assert Defaults(q, c) == {heir};
      assert heir in ForClient(q, c);
    } else {
      assert Defaults(q, c) == Defaults(p, c);
      assert id in ForClient(p, c);
      var d :| Defaults(p, c) == {d};
      assert d in Defaults(p, c);
      assert d in ForClient(q, c);
    }
  }

  lemma SetDefaultOneDefault(db: Db, id: Id, c: Id)
    requires SetDefault(db, id).Ok? && OneDefault(db.profiles, c)
    ensures OneDefault(SetDefault(db, id).value, c)
    ensures ForClient(SetDefault(db, id).value, c) == ForClient(db.profiles, c)
  {
    var p, q := db.profiles, SetDefault(db, id).value;
    assert ForClient(q, c) == ForClient(p, c);
    if p[id].clientId == c {
      assert Defaults(q, c) == {id};
    } else {
      assert Defaults(q, c) == Defaults(p, c);
    }
  }

  lemma StepOneDefault(db: Db, op: Op, c: Id)
    requires RowsOk(db) && OneDefault(db.profiles, c)
    ensures OneDefault(Step(db, op).profiles, c)
    ensures ForClient(db.profiles, c) != {} ==> ForClient(Step(db, op).profiles, c) != {}
  {
    hide TaxIds.Valid, OneDefault, Create, Delete, SetDefault, InsertAtConversion;
    if Perform(db, op).Ok? {
      match op
      case NewClient(_) =>
      case CreateOp(id, createdAt, client, fields, wantsDefault) =>
        CreateOneDefault(db, id, createdAt, client, fields, wantsDefault, c);
      case UpdateOp(id, updates) => UpdateOneDefault(db, id, updates, c);
      case DeleteOp(id) => DeleteOneDefault(db, id, c);
      case SetDefaultOp(id) => SetDefaultOneDefault(db, id, c);
      case ConvertOp(id, createdAt, client, fields) =>
        ConvertOneDefault(db, id, createdAt, client, fields, c);
    }
  }

  lemma UpdateOneDefault(db: Db, id: Id, updates: Fields, c: Id)
    requires Update(db, id, updates).Ok? && OneDefault(db.profiles, c)
    ensures OneDefault(Update(db, id, updates).value, c)
    ensures ForClient(Update(db, id, updates).value, c) == ForClient(db.profiles, c)
  {
    hide TaxIds.Valid, UpdateSchema;
    var p, q := db.profiles, Update(db, id, updates).value;
    assert ForClient(q, c) == ForClient(p, c) && Defaults(q, c) == Defaults(p, c);
  }

  lemma ConvertOneDefault(db: Db, id: Id, createdAt: int, client: Id, fields: Fields, c: Id)
    requires RowsOk(db) && InsertAtConversion(db, id, createdAt, client, fields).Ok? && OneDefault(db.profiles, c)
    ensures OneDefault(InsertAtConversion(db, id, createdAt, client, fields).value, c)
    ensures ForClient(InsertAtConversion(db, id, createdAt, client, fields).value, c) >= ForClient(db.profiles, c)
  {
    hide TaxIds.Valid, CreateSchema, RowOk;
    var p, q := db.profiles, InsertAtConversion(db, id, createdAt, client, fields).value;
    if c == client {
      assert Defaults(q, c) == {id};
    } else {
      assert ForClient(q, c) == ForClient(p, c) && Defaults(q, c) == Defaults(p, c);
    }
  }

  lemma StepKeeps(db: Db, op: Op)
    requires Inv(db)
    ensures Inv(Step(db, op))
  {
    hide RowsOk, TaxIdsDistinct, OneDefault, Step;
    StepRowsOk(db, op);
    StepTaxIdsDistinct(db, op);
    forall c ensures OneDefault(Step(db, op).profiles, c) {
      StepOneDefault(db, op, c);
    }
  }

  lemma {:induction false} RunKeeps(db: Db, ops: seq<Op>)
    requires Inv(db)
    ensures Inv(Run(db, ops))
    decreases |ops|
  {
    hide Inv, Step;
    if ops != [] {
      StepKeeps(db, ops[0]);
      RunKeeps(Step(db, ops[0]), ops[1..]);
    }
  }

  const EMPTY := Db({}, map[])

  /** Over any interleaving of all five operations, a client with profiles has exactly one default and no tax id twice. */
  lemma ExactlyOneDefault(ops: seq<Op>, c: Id)
    ensures var p := Run(EMPTY, ops).profiles;
            && (ForClient(p, c) != {} ==> exists d :: Defaults(p, c) == {d} && d in ForClient(p, c))
            && forall i, j :: i in ForClient(p, c) && j in ForClient(p, c) && i != j
                              ==> TaxId in p[i].fields && TaxId in p[j].fields && p[i].fields[TaxId] != p[j].fields[TaxId]
  {
    RunKeeps(EMPTY, ops);
    var p := Run(EMPTY, ops).profiles;
    assert OneDefault(p, c);
    if ForClient(p, c) != {} {
      var d :| Defaults(p, c) == {d};
      assert d in Defaults(p, c);
    }
  }

  /** In every reachable state each stored tax id passes the validator of its stored type. */
  lemma StoredTaxIdsValid(ops: seq<Op>, i: Id)
    requires i in Run(EMPTY, ops).profiles
    ensures var f := Run(EMPTY, ops).profiles[i].fields;
            && TaxId in f && TaxIdKind in f && f[TaxId].Text? && f[TaxIdKind].Kind?
            && TaxIds.Valid(f[TaxIdKind].kind, f[TaxId].text)
  {
    hide TaxIds.Valid, Step, Run;
    RunKeeps(EMPTY, ops);
  }

  /** And each stored profile is complete: only the second address line and the email may be null, and the regime is one of five. */
  lemma StoredFieldsComplete(ops: seq<Op>, i: Id, f: Field)
    requires i in Run(EMPTY, ops).profiles
    ensures var fields := Run(EMPTY, ops).profiles[i].fields;
            && f in fields && (fields[f] == Null ==> f == AddressLine2 || f == BillingEmail)
            && (f == TaxRegime ==> fields[f].Text? && fields[f].text in ["general", "recargo_equivalencia", "simplificado", "exento", "intracomunitario"])
  {
    hide TaxIds.Valid, Step, Run;
    RunKeeps(EMPTY, ops);
    assert RowOk(Run(EMPTY, ops).profiles[i]);
    assert f in ALL_FIELDS;
  }

  /** A creation may leave out exactly those two; every other null is refused. */
  lemma NullableFields(fields: Fields, f: Field)
    requires CreateSchema(fields) && f != TaxId && f != TaxIdKind
    ensures CreateSchema(fields[f := Null]) <==> f == AddressLine2 || f == BillingEmail
  {
    hide TaxIds.Valid;
  }

  /** A client that has a profile at some moment has one ever after. */
  lemma {:induction false} NeverBackToNone(db: Db, ops: seq<Op>, c: Id)
    requires Inv(db) && ForClient(db.profiles, c) != {}
    ensures ForClient(Run(db, ops).profiles, c) != {}
    decreases |ops|
  {
    if ops != [] {
      assert OneDefault(db.profiles, c);
      StepOneDefault(db, ops[0], c);
      StepKeeps(db, ops[0]);
      NeverBackToNone(Step(db, ops[0]), ops[1..], c);
    }
  }

  /**
  The delete guard looks at is_default alone; without the invariant it does not protect the last
  profile: deleting succeeds and leaves a client with none exactly when its only profile is not default.
  */
  lemma DeleteGuardNeedsDefault(db: Db, id: Id)
    requires id in db.profiles
    ensures var c := db.profiles[id].clientId;
            (Delete(db, id).Ok? && ForClient(Delete(db, id).value, c) == {})
            <==> ForClient(db.profiles, c) == {id} && !db.profiles[id].isDefault
  {
    var p := db.profiles;
    var c := p[id].clientId;
    assert id in ForClient(p, c);
    if Delete(db, id).Ok? {
      var q := Delete(db, id).value;
      assert ForClient(q, c) == ForClient(p, c) - {id};
      assert ForClient(p, c) == (ForClient(p, c) - {id}) + {id};
    }
  }

  // ---------------------------------------------------------------------------
  // What an operation stores
  // ---------------------------------------------------------------------------

  /** The rows of a table but one are as before, up to which of them is default. */
  ghost predicate OthersKept(before: Table, after: Table, id: Id) {
    forall i :: i in before && i != id ==> i in after && after[i] == before[i].(isDefault := after[i].isDefault)
  }

  /**
  A successful creation stores what was submitted. With the wish to be default, or as the client's first,
  it is the client's one default; without, the client's defaults stay. Nothing else about any row changes.
  */
  lemma CreationStores(db: Db, op: Op)
    requires op.CreateOp? && Perform(db, op).Ok?
    ensures var p, q := db.profiles, Step(db, op).profiles;
            && op.id !in p && q.Keys == p.Keys + {op.id} && OthersKept(p, q, op.id)
            && q[op.id].clientId == op.client && q[op.id].createdAt == op.createdAt && q[op.id].fields == op.fields
            && (forall i :: i in p && p[i].clientId != op.client ==> q[i] == p[i])
            && (op.wantsDefault || (forall i :: i in p ==> p[i].clientId != op.client)
                ==> forall i :: i in q && q[i].clientId == op.client ==> (q[i].isDefault <==> i == op.id))
            && (!op.wantsDefault && (exists i :: i in p && p[i].clientId == op.client)
                ==> !q[op.id].isDefault && forall i :: i in p ==> q[i] == p[i])
  {
    hide CreateSchema, TaxIdTaken;
    var p := db.profiles;
    if exists i :: i in p && p[i].clientId == op.client {
      var i :| i in p && p[i].clientId == op.client;
      assert i in ForClient(p, op.client);
    } else {
      assert ForClient(p, op.client) == {};
    }
  }

  /** The profile of a converted lead stores what was submitted and is the new client's default. */
  lemma ConversionStores(db: Db, op: Op)
    requires op.ConvertOp? && Perform(db, op).Ok?
    ensures var p, q := db.profiles, Step(db, op).profiles;
            && op.id !in p && q.Keys == p.Keys + {op.id} && (forall i :: i in p ==> q[i] == p[i])
            && q[op.id] == Profile(op.client, op.createdAt, true, op.fields)
  {
    hide CreateSchema;
  }

  /** A successful update gives the given fields their new values and changes nothing else, in this row or another. */
  lemma UpdateStores(db: Db, op: Op)
    requires op.UpdateOp? && Perform(db, op).Ok?
    ensures var p, q := db.profiles, Step(db, op).profiles;
            && op.id in p && q.Keys == p.Keys && (forall i :: i in p && i != op.id ==> q[i] == p[i])
            && q[op.id] == p[op.id].(fields := q[op.id].fields)
            && q[op.id].fields.Keys == p[op.id].fields.Keys + op.updates.Keys
            && forall f :: f in q[op.id].fields ==> q[op.id].fields[f] == if f in op.updates then op.updates[f] else p[op.id].fields[f]
  {
    hide UpdateSchema, NoForbiddenNull, TaxIdTaken;
  }

  /** Deleting and choosing a default change no row but in its default mark. */
  lemma MarksOnly(db: Db, op: Op)
    requires (op.DeleteOp? || op.SetDefaultOp?) && Perform(db, op).Ok?
    ensures var p, q := db.profiles, Step(db, op).profiles;
            && op.id in p && q.Keys == (if op.DeleteOp? then p.Keys - {op.id} else p.Keys)
            && forall i :: i in q ==> q[i] == p[i].(isDefault := q[i].isDefault)
  {
    hide Oldest;
  }

  /** Another profile of the same client has this tax id. */
  ghost predicate HeldBy(profiles: Table, client: Id, taxId: Value, besides: Option<Id>) {
    exists i :: i in profiles && profiles[i].clientId == client && besides != Some(i)
                && TaxId in profiles[i].fields && profiles[i].fields[TaxId] == taxId
  }

  lemma TakenIsHeld(profiles: Table, client: Id, taxId: Value, besides: Option<Id>)
    ensures TaxIdTaken(profiles, client, taxId, besides) == HeldBy(profiles, client, taxId, besides)
  {
  }

  /** Why a creation that parses is refused, and that nothing else refuses it. */
  lemma CreationRefusals(db: Db, op: Op)
    requires op.CreateOp? && CreateSchema(op.fields)
    ensures Perform(db, op) == Err(ClientNotFound) <==> op.client !in db.clients
    ensures Perform(db, op) == Err(DuplicateTaxId) <==> op.client in db.clients && HeldBy(db.profiles, op.client, op.fields[TaxId], None)
    ensures Perform(db, op).Ok? <==> op.client in db.clients && !HeldBy(db.profiles, op.client, op.fields[TaxId], None) && op.id !in db.profiles
  {
    TakenIsHeld(db.profiles, op.client, op.fields[TaxId], None);
    hide CreateSchema, TaxIdTaken, HeldBy;
  }

  /** An update that parses answers a missing profile, or a tax id newly taken from another profile of the client. */
  lemma UpdateRefusals(db: Db, op: Op)
    requires op.UpdateOp? && UpdateSchema(op.updates) && RowsOk(db)
    ensures Perform(db, op) == Err(ProfileNotFound) <==> op.id !in db.profiles
    ensures Perform(db, op) == Err(DuplicateTaxId)
            <==> op.id in db.profiles && TaxId in op.updates && op.updates[TaxId] != db.profiles[op.id].fields[TaxId]
                 && HeldBy(db.profiles, db.profiles[op.id].clientId, op.updates[TaxId], Some(op.id))
  {
    hide UpdateSchema, TaxIdTaken, HeldBy, TaxIds.Valid;
    if op.id in db.profiles {
      assert RowOk(db.profiles[op.id]);
      assert TaxId in ALL_FIELDS;
      if TaxId in op.updates {
        TakenIsHeld(db.profiles, db.profiles[op.id].clientId, op.updates[TaxId], Some(op.id));
      }
    }
  }

  /** A delete is refused for a missing profile and for a client's one default, and for nothing else; set_default for the former only. */
  lemma DeletionRefusals(db: Db, op: Op)
    requires op.DeleteOp?
    ensures Perform(db, op) == Err(ProfileNotFound) <==> op.id !in db.profiles
    ensures Perform(db, op) == Err(CannotDeleteOnlyDefault)
            <==> op.id in db.profiles && db.profiles[op.id].isDefault
                 && forall i :: i in db.profiles && db.profiles[i].clientId == db.profiles[op.id].clientId ==> i == op.id
    ensures Perform(db, op).Err? ==> Perform(db, op).error.ProfileNotFound? || Perform(db, op).error.CannotDeleteOnlyDefault?
    ensures if op.id in db.profiles then SetDefault(db, op.id).Ok? else SetDefault(db, op.id) == Err(ProfileNotFound)
  {
    hide Oldest;
    if op.id in db.profiles {
      var all := ForClient(db.profiles, db.profiles[op.id].clientId);
      assert forall i :: i in all - {op.id} <==> i in db.profiles && db.profiles[i].clientId == db.profiles[op.id].clientId && i != op.id;
    }
  }

  // ---------------------------------------------------------------------------
  // Tax ids up to spelling
  // ---------------------------------------------------------------------------

  /** Which spellings of tax ids callers submit. */
  type Spellings = string -> bool

  /** The tax id an operation submits, if it gives one. */
  function Submitted(op: Op): Option<string> {
    var fields := match op
      case CreateOp(_, _, _, fields, _) => fields
      case UpdateOp(_, updates) => updates
      case ConvertOp(_, _, _, fields) => fields
      case _ => map[];
    if TaxId in fields && fields[TaxId].Text? then Some(fields[TaxId].text) else None
  }

  predicate AllSubmitted(ops: seq<Op>, a: Spellings) {
    forall k :: 0 <= k < |ops| && Submitted(ops[k]).Some? ==> a(Submitted(ops[k]).value)
  }

  predicate TaxTextIn(p: Profile, a: Spellings) {
    TaxId in p.fields && p.fields[TaxId].Text? ==> a(p.fields[TaxId].text)
  }

  ghost predicate Spelled(profiles: Table, a: Spellings) {
    forall i :: i in profiles ==> TaxTextIn(profiles[i], a)
  }

  lemma StepSpelled(db: Db, op: Op, a: Spellings)
    requires Spelled(db.profiles, a) && (Submitted(op).Some? ==> a(Submitted(op).value))
    ensures Spelled(Step(db, op).profiles, a)
  {
    hide CreateSchema, UpdateSchema, NoForbiddenNull, TaxIdTaken;
  }

  lemma {:induction false} RunSpelled(db: Db, ops: seq<Op>, a: Spellings)
    requires Spelled(db.profiles, a) && AllSubmitted(ops, a)
    ensures Spelled(Run(db, ops).profiles, a)
    decreases |ops|
  {
    hide Step, Submitted, Spelled;
    if ops != [] {
      StepSpelled(db, ops[0], a);
      RunSpelled(Step(db, ops[0]), ops[1..], a);
    }
  }

  /** No client holds the same tax id twice, even in two spellings of one normal form. */
  ghost predicate NormalFormsDistinct(profiles: Table) {
    forall i, j :: i in profiles && j in profiles && i != j && profiles[i].clientId == profiles[j].clientId
                   && TaxId in profiles[i].fields && TaxId in profiles[j].fields
                   && profiles[i].fields[TaxId].Text? && profiles[j].fields[TaxId].Text?
                   ==> TaxIds.Normalize(profiles[i].fields[TaxId].text) != TaxIds.Normalize(profiles[j].fields[TaxId].text)
  }

  /** Every run in which callers keep to these spellings leaves normal forms distinct. */
  ghost predicate KeepsFormsDistinct(a: Spellings) {
    forall ops: seq<Op> :: AllSubmitted(ops, a) ==> NormalFormsDistinct(Run(EMPTY, ops).profiles)
  }

  /** Among these spellings, no valid tax id has two. */
  ghost predicate OneSpellingEach(a: Spellings) {
    forall s: string, t: string, kind: TaxIds.TaxIdType ::
      a(s) && a(t) && TaxIds.Valid(kind, s) && TaxIds.Normalize(s) == TaxIds.Normalize(t) ==> s == t
  }

  /**
  The service compares tax ids as raw text. That keeps a client from holding one tax id twice exactly
  when callers submit a single spelling of each valid tax id, its normal form for instance.
  */
  lemma NormalFormsDistinctIff(a: Spellings)
    ensures KeepsFormsDistinct(a) <==> OneSpellingEach(a)
  {
    hide TaxIds.Valid, TaxIds.Normalize, Run, AllSubmitted, NormalFormsDistinct;
    if OneSpellingEach(a) {
      forall ops: seq<Op> | AllSubmitted(ops, a)
        ensures NormalFormsDistinct(Run(EMPTY, ops).profiles)
      {
        OneSpellingSuffices(ops, a);
      }
    } else {
      var s: string, t: string, kind: TaxIds.TaxIdType :|
        a(s) && a(t) && TaxIds.Valid(kind, s) && TaxIds.Normalize(s) == TaxIds.Normalize(t) && s != t;
      TwoSpellings(s, t, kind, a);
    }
  }

  /** Left to submit what they like, they can enter one NIF twice: 12345678Z and 12345678z. */
  lemma RawTextRepeats()
    ensures !KeepsFormsDistinct((text: string) => true)
  {
    var any := (text: string) => true;
    TaxIds.SampleNif();
    TaxIds.SmallLetter("12345678Z");
    hide TaxIds.Valid, TaxIds.Normalize, KeepsFormsDistinct;
    var s := "12345678Z";
    assert !OneSpellingEach(any) by { assert any(s) && any(s[8 := 'z']) && TaxIds.Valid(TaxIds.NIF, s); }
    NormalFormsDistinctIff(any);
  }

  lemma OneSpellingSuffices(ops: seq<Op>, a: Spellings)
    requires OneSpellingEach(a) && AllSubmitted(ops, a)
    ensures NormalFormsDistinct(Run(EMPTY, ops).profiles)
  {
    hide TaxIds.Valid, TaxIds.Normalize, Run, AllSubmitted, OneSpellingEach;
    RunSpelled(EMPTY, ops, a);
    var p := Run(EMPTY, ops).profiles;
    forall i, j | i in p && j in p && i != j && p[i].clientId == p[j].clientId && TaxId in p[i].fields && TaxId in p[j].fields
                  && p[i].fields[TaxId].Text? && p[j].fields[TaxId].Text?
      ensures TaxIds.Normalize(p[i].fields[TaxId].text) != TaxIds.Normalize(p[j].fields[TaxId].text)
    {
      StoredTaxIdsValid(ops, i);
      ExactlyOneDefault(ops, p[i].clientId);
      assert TaxTextIn(p[i], a) && TaxTextIn(p[j], a);
      SpellingsDiffer(p[i].fields[TaxId].text, p[j].fields[TaxId].text, p[i].fields[TaxIdKind].kind, a);
    }
  }

  lemma SpellingsDiffer(s: string, t: string, kind: TaxIds.TaxIdType, a: Spellings)
    requires OneSpellingEach(a) && a(s) && a(t) && TaxIds.Valid(kind, s) && s != t
    ensures TaxIds.Normalize(s) != TaxIds.Normalize(t)
  {
    hide TaxIds.Valid, TaxIds.Normalize;
  }

  function SampleFields(kind: TaxIds.TaxIdType, text: string): Fields {
    map f | f in ALL_FIELDS ::
      match f
      case TaxIdKind => Kind(kind)
      case TaxId => Text(text)
      case TaxRegime => Text("general")
      case _ => Text("x")
  }

  lemma SampleCreates(kind: TaxIds.TaxIdType, text: string)
    requires TaxIds.Valid(kind, text)
    ensures CreateSchema(SampleFields(kind, text))
  {
    hide TaxIds.Valid;
  }

  /** Two spellings of a valid tax id, entered one after the other for one client. */
  function TwoCreates(kind: TaxIds.TaxIdType, s: string, t: string): seq<Op> {
    [NewClient(1), CreateOp(1, 0, 1, SampleFields(kind, s), false), CreateOp(2, 1, 1, SampleFields(kind, t), false)]
  }

  lemma TwoSpellings(s: string, t: string, kind: TaxIds.TaxIdType, a: Spellings)
    requires a(s) && a(t) && TaxIds.Valid(kind, s) && TaxIds.Normalize(s) == TaxIds.Normalize(t) && s != t
    ensures AllSubmitted(TwoCreates(kind, s, t), a)
    ensures !NormalFormsDistinct(Run(EMPTY, TwoCreates(kind, s, t)).profiles)
  {
    assert TaxIds.Valid(kind, t);
    hide TaxIds.Valid, TaxIds.Normalize, CreateSchema, SampleFields, Step, Run;
    SampleCreates(kind, s);
    SampleCreates(kind, t);
    var ops := TwoCreates(kind, s, t);
    SampleText(kind, s);
    SampleText(kind, t);
    CreatesTwo(SampleFields(kind, s), SampleFields(kind, t));
    RunThree(EMPTY, ops);
    var p := Run(EMPTY, ops).profiles;
    assert 1 in p && 2 in p;
  }

  lemma SampleText(kind: TaxIds.TaxIdType, text: string)
    ensures TaxId in SampleFields(kind, text) && SampleFields(kind, text)[TaxId] == Text(text)
  {
  }

  lemma CreatesTwo(f: Fields, g: Fields)
    requires CreateSchema(f) && CreateSchema(g) && TaxId in f && TaxId in g && f[TaxId] != g[TaxId]
    ensures var born := Step(EMPTY, NewClient(1));
            Step(Step(born, CreateOp(1, 0, 1, f, false)), CreateOp(2, 1, 1, g, false)).profiles
            == map[1 := Profile(1, 0, true, f), 2 := Profile(1, 1, false, g)]
  {
    hide CreateSchema;
    var born := Step(EMPTY, NewClient(1));
    assert born == Db({1}, map[]);
    assert ForClient(born.profiles, 1) == {};
    var one := Step(born, CreateOp(1, 0, 1, f, false));
    assert one == Db({1}, map[1 := Profile(1, 0, true, f)]);
    assert 1 in ForClient(one.profiles, 1);
  }

  lemma RunThree(db: Db, ops: seq<Op>)
    requires |ops| == 3
    ensures Run(db, ops) == Step(Step(Step(db, ops[0]), ops[1]), ops[2])
  {
    hide Step;
    var a := Step(db, ops[0]);
    var b := Step(a, ops[1]);
    assert ops[1..][1..] == ops[2..] && ops[2..][1..] == [];
    assert Run(db, ops) == Run(a, ops[1..]) == Run(b, ops[2..]);
    assert Run(b, ops[2..]) == Run(Step(b, ops[2]), []);
  }

  // ---------------------------------------------------------------------------
  // Other clients are untouched
  // ---------------------------------------------------------------------------

  /** The client an operation is about; deletes and updates find it through the profile. */
  function Target(db: Db, op: Op): Option<Id> {
    match op
    case NewClient(client) => Some(client)
    case CreateOp(_, _, client, _, _) => Some(client)
    case ConvertOp(_, _, client, _) => Some(client)
    case UpdateOp(id, _) => if id in db.profiles then Some(db.profiles[id].clientId) else None
    case DeleteOp(id) => if id in db.profiles then Some(db.profiles[id].clientId) else None
    case SetDefaultOp(id) => if id in db.profiles then Some(db.profiles[id].clientId) else None
  }

  ghost function RowsOf(profiles: Table, c: Id): Table {
    map i | i in profiles && profiles[i].clientId == c :: profiles[i]
  }

  /** Rows of every client other than the operation's own are the same before and after. */
  lemma OtherClientsUntouched(db: Db, op: Op, c: Id)
    requires Target(db, op) != Some(c)
    ensures RowsOf(Step(db, op).profiles, c) == RowsOf(db.profiles, c)
  {
    hide TaxIds.Valid, CreateSchema, UpdateSchema;
  }

  // ---------------------------------------------------------------------------
  // Listing order
  // ---------------------------------------------------------------------------

  function Ages(profiles: Table): Rank {
    map i | i in profiles :: profiles[i].createdAt
  }

  ghost predicate DistinctAges(profiles: Table, c: Id) {
    Ranked(ForClient(profiles, c), Ages(profiles))
  }

  /** ORDER BY is_default DESC, created_at ASC */
  function Listing(profiles: Table, c: Id): seq<Id>
    requires Ranked(ForClient(profiles, c), Ages(profiles))
  {
    OrderBy(Defaults(profiles, c), Ages(profiles)) + OrderBy(ForClient(profiles, c) - Defaults(profiles, c), Ages(profiles))
  }

  /** With a unique default d, the listing is d and then everyone else by age. */
  lemma ListingShape(profiles: Table, c: Id, d: Id)
    requires DistinctAges(profiles, c) && Defaults(profiles, c) == {d}
    ensures Listing(profiles, c) == [d] + OrderBy(ForClient(profiles, c) - {d}, Ages(profiles))
  {
    assert d in Defaults(profiles, c);
    var rank := Ages(profiles);
    assert Least({d}, rank) == d;
    assert OrderBy({d}, rank) == [d] + OrderBy({d} - {d}, rank);
    assert {d} - {d} == {};
  }

  /** The head of the list is always the unique default. */
  lemma HeadIsDefault(ops: seq<Op>, c: Id)
    requires var p := Run(EMPTY, ops).profiles; DistinctAges(p, c) && ForClient(p, c) != {}
    ensures var p := Run(EMPTY, ops).profiles;
            && |Listing(p, c)| == |ForClient(p, c)|
            && Defaults(p, c) == {Listing(p, c)[0]}
  {
    var p := Run(EMPTY, ops).profiles;
    ExactlyOneDefault(ops, c);
    var d :| Defaults(p, c) == {d} && d in ForClient(p, c);
    ListingShape(p, c, d);
  }

  /**
  A successful delete of any profile, default or not, makes the list the old list without it: the
  promoted heir is exactly the one that was next in line.
  */
  lemma ListingAfterDelete(db: Db, id: Id)
    requires Inv(db) && Delete(db, id).Ok?
    requires DistinctAges(db.profiles, db.profiles[id].clientId)
    ensures var c := db.profiles[id].clientId;
            var q := Delete(db, id).value;
            && DistinctAges(q, c)
            && Listing(q, c) == Without(Listing(db.profiles, c), id)
  {
    var p := db.profiles;
    var c := p[id].clientId;
    assert id in ForClient(p, c) && OneDefault(p, c);
    var d :| Defaults(p, c) == {d};
    assert d in Defaults(p, c);
    if d == id {
      ListingAfterDefaultDelete(db, id);
    } else {
      ListingAfterOtherDelete(db, id, d);
    }
  }

  lemma ListingAfterDefaultDelete(db: Db, id: Id)
    requires Delete(db, id).Ok? && DistinctAges(db.profiles, db.profiles[id].clientId)
    requires Defaults(db.profiles, db.profiles[id].clientId) == {id}
    ensures var c := db.profiles[id].clientId;
            var q := Delete(db, id).value;
            && DistinctAges(q, c)
            && Listing(q, c) == Without(Listing(db.profiles, c), id)
  {
    var p, q := db.profiles, Delete(db, id).value;
    var c := p[id].clientId;
    var rest, rank := ForClient(p, c) - {id}, Ages(p);
    var heir := DefaultDeleted(db, id);
    RankedSubset(ForClient(p, c), rest, rank);
    HeirIsLeast(p, rest, heir);
    hide Delete, ForClient, Defaults, Ages;
    OrderByCongruent(rest, rank, Ages(q));
    OrderByLists(rest, rank);
    RankedSubset(rest, rest - {heir}, rank);
    OrderByCongruent(rest - {heir}, rank, Ages(q));
    hide Ranked, Least, Lists;
    ListingShape(p, c, id);
    ListingShape(q, c, heir);
    HeadDropped(id, OrderBy(rest, rank));
  }

  lemma RankedSubset(ids: set<Id>, some: set<Id>, rank: Rank)
    requires Ranked(ids, rank) && some <= ids
    ensures Ranked(some, rank)
  {
  }

  /** The oldest of some rows with distinct ages is the first of them by age. */
  lemma HeirIsLeast(p: Table, rest: set<Id>, heir: Id)
    requires rest != {} && rest <= p.Keys && Ranked(rest, Ages(p)) && IsOldest(p, rest, heir)
    ensures Least(rest, Ages(p)) == heir
  {
    var least := Least(rest, Ages(p));
    assert Ages(p)[least] <= Ages(p)[heir];
  }

  lemma DefaultDeleted(db: Db, id: Id) returns (heir: Id)
    requires Delete(db, id).Ok? && Defaults(db.profiles, db.profiles[id].clientId) == {id}
    ensures var p, q := db.profiles, Delete(db, id).value;
            var c := p[id].clientId;
            var rest := ForClient(p, c) - {id};
            && id in ForClient(p, c) && rest != {} && rest <= p.Keys && rest <= q.Keys && IsOldest(p, rest, heir)
            && ForClient(q, c) == rest && Defaults(q, c) == {heir}
            && forall i :: i in q ==> i in p && Ages(q)[i] == Ages(p)[i]
  {
    var p, q := db.profiles, Delete(db, id).value;
    var c := p[id].clientId;
    assert id in Defaults(p, c);
    heir := Oldest(p, ForClient(p, c) - {id});
    assert ForClient(q, c) == ForClient(p, c) - {id};
    assert forall i :: i in Defaults(q, c) <==> i == heir;
  }

  lemma HeadDropped(x: Id, rest: seq<Id>)
    requires x !in rest
    ensures Without([x] + rest, x) == rest
  {
    assert ([x] + rest)[1..] == rest;
    WithoutAbsent(rest, x);
  }

  lemma TailWithout(head: Id, tail: seq<Id>, x: Id)
    requires x != head
    ensures Without([head] + tail, x) == [head] + Without(tail, x)
  {
    assert ([head] + tail)[1..] == tail;
  }

  lemma OtherDeleted(db: Db, id: Id, d: Id)
    requires Delete(db, id).Ok? && Defaults(db.profiles, db.profiles[id].clientId) == {d} && d != id
    ensures var p, q := db.profiles, Delete(db, id).value;
            var c := p[id].clientId;
            && d in ForClient(p, c) && ForClient(p, c) <= p.Keys && ForClient(q, c) <= q.Keys
            && ForClient(q, c) == ForClient(p, c) - {id} && Defaults(q, c) == {d}
            && forall i :: i in q ==> i in p && Ages(q)[i] == Ages(p)[i]
  {
    var p, q := db.profiles, Delete(db, id).value;
    var c := p[id].clientId;
    assert d in Defaults(p, c) && id !in Defaults(p, c);
    assert forall i :: i in Defaults(q, c) <==> i in Defaults(p, c);
  }

  lemma ListingAfterOtherDelete(db: Db, id: Id, d: Id)
    requires Delete(db, id).Ok? && DistinctAges(db.profiles, db.profiles[id].clientId)
    requires Defaults(db.profiles, db.profiles[id].clientId) == {d} && d != id
    ensures var c := db.profiles[id].clientId;
            var q := Delete(db, id).value;
            && DistinctAges(q, c)
            && Listing(q, c) == Without(Listing(db.profiles, c), id)
  {
    var p, q := db.profiles, Delete(db, id).value;
    var c := p[id].clientId;
    var all, rank := ForClient(p, c), Ages(p);
    OtherDeleted(db, id, d);
    RankedSubset(all, all - {id}, rank);
    RankedSubset(all, all - {d}, rank);
    RankedSubset(all, all - {id} - {d}, rank);
    hide Delete, ForClient, Defaults, Ages, OrderBy;
    OrderByCongruent(all - {id}, rank, Ages(q));
    assert all - {d} - {id} == all - {id} - {d};
    OrderByCongruent(all - {id} - {d}, rank, Ages(q));
    hide Ranked;
    ListingShape(p, c, d);
    ListingShape(q, c, d);
    OrderByRemove(all - {d}, rank, id);
    TailWithout(d, OrderBy(all - {d}, rank), id);
  }

  /** set_default(p) lists p first and then all the others by age. */
  lemma ListingAfterSetDefault(db: Db, id: Id)
    requires Inv(db) && id in db.profiles && DistinctAges(db.profiles, db.profiles[id].clientId)
    ensures var c := db.profiles[id].clientId;
            && SetDefault(db, id).Ok?
            && DistinctAges(SetDefault(db, id).value, c)
            && Listing(SetDefault(db, id).value, c) == [id] + OrderBy(ForClient(db.profiles, c) - {id}, Ages(db.profiles))
  {
    hide TaxIds.Valid, RowsOk, TaxIdsDistinct, OneDefault;
    var p, q := db.profiles, SetDefault(db, id).value;
    var c := p[id].clientId;
    assert ForClient(q, c) == ForClient(p, c);
    assert Defaults(q, c) == {id};
    OrderByCongruent(ForClient(p, c), Ages(p), Ages(q));
    ListingShape(q, c, id);
    OrderByCongruent(ForClient(p, c) - {id}, Ages(p), Ages(q));
  }
}
