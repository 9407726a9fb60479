/**
Billing profiles: the service's operations on the billing_profiles table, one serial
transaction each. An operation that raises leaves the table as it was, because the session
is rolled back.
*/
module Billing {
  import opened Common
  import opened Orm
  import TaxIds

  datatype Field =
    | LegalName | TaxId | TaxIdKind | TaxRegime | AddressLine1 | AddressLine2
    | City | Province | PostalCode | Country | BillingEmail

  const ALL_FIELDS := {LegalName, TaxId, TaxIdKind, TaxRegime, AddressLine1, AddressLine2,
                       City, Province, PostalCode, Country, BillingEmail}

  const REGIMES := {"general", "recargo_equivalencia", "simplificado", "exento", "intracomunitario"}

  const NULLABLE := {AddressLine2, BillingEmail}

  datatype Value = Null | Text(text: string) | Kind(kind: TaxIds.TaxIdType)

  type Fields = map<Field, Value>

  datatype Profile = Profile(clientId: Id, createdAt: int, isDefault: bool, fields: Fields)

  type Table = map<Id, Profile>

  datatype Db = Db(clients: set<Id>, profiles: Table)

  datatype Error =
    | ValidationError | ClientNotFound | ProfileNotFound | DuplicateTaxId | CannotDeleteOnlyDefault | IntegrityError

  // ---------------------------------------------------------------------------
  // Schemas
  // ---------------------------------------------------------------------------

  /** Only the tax-id type column holds a type, and the regime is one of five; null is possible everywhere in a payload. */
  predicate WellTyped(fields: Fields) {
    && (forall f :: f in fields ==> fields[f].Null? || (if f.TaxIdKind? then fields[f].Kind? else fields[f].Text?))
    && (TaxRegime in fields && fields[TaxRegime].Text? ==> fields[TaxRegime].text in REGIMES)
  }

  predicate NoForbiddenNull(fields: Fields) {
    forall f :: f in fields && f !in NULLABLE ==> !fields[f].Null?
  }

  /** BillingProfileCreate: every field present (defaults filled in), and the tax id valid for its type. */
  predicate CreateSchema(fields: Fields) {
    fields.Keys == ALL_FIELDS && WellTyped(fields) && NoForbiddenNull(fields)
    && TaxIds.Valid(fields[TaxIdKind].kind, fields[TaxId].text)
  }

  predicate Given(fields: Fields, f: Field) { f in fields && !fields[f].Null? }

  /** BillingProfileUpdate: any fields, each unset, null or a value; tax id and type both given and valid, or neither given. */
  predicate UpdateSchema(updates: Fields) {
    && updates.Keys <= ALL_FIELDS && WellTyped(updates)
    && Given(updates, TaxId) == Given(updates, TaxIdKind)
    && (Given(updates, TaxId) ==> TaxIds.Valid(updates[TaxIdKind].kind, updates[TaxId].text))
  }

  // ---------------------------------------------------------------------------
  // Queries
  // ---------------------------------------------------------------------------

  function ForClient(profiles: Table, client: Id): set<Id> {
    set i | i in profiles && profiles[i].clientId == client
  }

  function Defaults(profiles: Table, client: Id): set<Id> {
    set i | i in profiles && profiles[i].clientId == client && profiles[i].isDefault
  }

  /** _assert_unique_tax_id's query finds a row. */
  predicate TaxIdTaken(profiles: Table, client: Id, taxId: Value, exclude: Option<Id>) {
    exists i :: i in profiles && profiles[i].clientId == client && Some(i) != exclude
                && TaxId in profiles[i].fields && profiles[i].fields[TaxId] == taxId
  }

  /** UPDATE ... SET is_default = false for a client's rows, sparing one if asked to. */
  function Demote(profiles: Table, client: Id, spare: Option<Id>): Table {
    map i | i in profiles ::
      if profiles[i].clientId == client && Some(i) != spare then profiles[i].(isDefault := false) else profiles[i]
  }

  /** ORDER BY created_at ASC, id ASC */
  predicate Older(profiles: Table, i: Id, j: Id)
    requires i in profiles && j in profiles
  {
    profiles[i].createdAt < profiles[j].createdAt || (profiles[i].createdAt == profiles[j].createdAt && i < j)
  }

  ghost predicate IsOldest(profiles: Table, ids: set<Id>, m: Id)
    requires ids <= profiles.Keys
  {
    m in ids && forall k :: k in ids && k != m ==> Older(profiles, m, k)
  }

  lemma OldestExists(profiles: Table, ids: set<Id>)
    requires ids != {} && ids <= profiles.Keys
    ensures exists m :: IsOldest(profiles, ids, m)
    decreases |ids|
  {
    var m :| m in ids;
    var rest := ids - {m};
    if rest == {} {
      assert ids == {m};
      assert IsOldest(profiles, ids, m);
    } else {
      OldestExists(profiles, rest);
      var l :| IsOldest(profiles, rest, l);
      assert forall k :: k in ids ==> k == m || k in rest;
      if Older(profiles, l, m) {
        assert IsOldest(profiles, ids, l);
      } else {
        assert IsOldest(profiles, ids, m);
      }
    }
  }

  /** The first row of that order: the profile a deleted default is replaced by. */
  function Oldest(profiles: Table, ids: set<Id>): (m: Id)
    requires ids != {} && ids <= profiles.Keys
    ensures IsOldest(profiles, ids, m)
  {
    OldestExists(profiles, ids);
    var m :| m in ids && forall k :: k in ids && k != m ==> Older(profiles, m, k);
    m
  }

  // ---------------------------------------------------------------------------
  // The operations
  // ---------------------------------------------------------------------------

  type Outcome = Result<Table, Error>

  function Create(db: Db, id: Id, createdAt: int, client: Id, fields: Fields, wantsDefault: bool): Outcome {
    var p := db.profiles;
    if !CreateSchema(fields) then Err(ValidationError)
    else if client !in db.clients then Err(ClientNotFound)
    else if TaxIdTaken(p, client, fields[TaxId], None) then Err(DuplicateTaxId)
    else if id in p then Err(IntegrityError)
    else
      var first := ForClient(p, client) == {};
      var base := if !first && wantsDefault then Demote(p, client, None) else p;
      Ok(base[id := Profile(client, createdAt, first || wantsDefault, fields)])
  }

  function Update(db: Db, id: Id, updates: Fields): Outcome {
    var p := db.profiles;
    if !UpdateSchema(updates) then Err(ValidationError)
    else if id !in p then Err(ProfileNotFound)
    else if TaxId in updates && TaxId in p[id].fields && updates[TaxId] != p[id].fields[TaxId]
            && TaxIdTaken(p, p[id].clientId, updates[TaxId], Some(id)) then Err(DuplicateTaxId)
    else if !NoForbiddenNull(p[id].fields + updates) then Err(IntegrityError)
    else Ok(p[id := p[id].(fields := p[id].fields + updates)])
  }

  function Delete(db: Db, id: Id): Outcome {
    var p := db.profiles;
    if id !in p then Err(ProfileNotFound)
    else if !p[id].isDefault then Ok(p - {id})
    else
      var others := ForClient(p, p[id].clientId) - {id};
      if others == {} then Err(CannotDeleteOnlyDefault)
      else
        var heir := Oldest(p, others);
        Ok(p[heir := p[heir].(isDefault := true)] - {id})
  }

  function SetDefault(db: Db, id: Id): Outcome {
    var p := db.profiles;
    if id !in p then Err(ProfileNotFound)
    else
      var demoted := Demote(p, p[id].clientId, Some(id));
      Ok(demoted[id := demoted[id].(isDefault := true)])
  }

  /** The profile a lead conversion writes for the client it has just created. */
  function InsertAtConversion(db: Db, id: Id, createdAt: int, client: Id, fields: Fields): Outcome {
    if !CreateSchema(fields) then Err(ValidationError)
    else if id in db.profiles || client in db.clients then Err(IntegrityError)
    else Ok(db.profiles[id := Profile(client, createdAt, true, fields)])
  }

  // ---------------------------------------------------------------------------
  // The service, updating rows in place
  // ---------------------------------------------------------------------------

  /** r and the rows agree with the specified outcome; on an error the rows may be dirty until the rollback. */
  ghost predicate Agrees(r: Result<(), Error>, profiles: Table, outcome: Outcome) {
    match outcome
    case Ok(table) => r.Ok? && profiles == table
    case Err(e) => r == Err(e)
  }

  class BillingProfileService {
    const clients: set<Id>
    var profiles: Table

    ghost function Contents(): Db
      reads this
    {
      Db(clients, profiles)
    }

    constructor (db: Db)
      ensures Contents() == db
    {
      clients := db.clients;
      profiles := db.profiles;
    }

    method CreateForClient(id: Id, createdAt: int, client: Id, fields: Fields, wantsDefault: bool) returns (r: Result<(), Error>)
      modifies this
      ensures Agrees(r, profiles, Create(old(Contents()), id, createdAt, client, fields, wantsDefault))
    {
      if !CreateSchema(fields) { return Err(ValidationError); }
      if client !in clients { return Err(ClientNotFound); }
      var taken := TaxIdTaken(profiles, client, fields[TaxId], None);
      if taken { return Err(DuplicateTaxId); }
      var count := |ForClient(profiles, client)|;
      var forceDefault := count == 0;
      var isDefault;
      if forceDefault {
        isDefault := true;
      } else if wantsDefault {
        profiles := Demote(profiles, client, None);
        isDefault := true;
      } else {
        isDefault := false;
      }
      if id in profiles { return Err(IntegrityError); }
      profiles := profiles[id := Profile(client, createdAt, isDefault, fields)];
      return Ok(());
    }

    method UpdateProfile(id: Id, updates: Fields) returns (r: Result<(), Error>)
      modifies this
      ensures Agrees(r, profiles, Update(old(Contents()), id, updates))
    {
      if !UpdateSchema(updates) { return Err(ValidationError); }
      if id !in profiles { return Err(ProfileNotFound); }
      var profile := profiles[id];
      if TaxId in updates && TaxId in profile.fields && updates[TaxId] != profile.fields[TaxId] {
        var taken := TaxIdTaken(profiles, profile.clientId, updates[TaxId], Some(id));
        if taken { return Err(DuplicateTaxId); }
      }
      var fields := SetAttrs(profile.fields, updates);
      profiles := profiles[id := profile.(fields := fields)];
      if !NoForbiddenNull(fields) { return Err(IntegrityError); }
      return Ok(());
    }

    method DeleteProfile(id: Id) returns (r: Result<(), Error>)
      modifies this
      ensures Agrees(r, profiles, Delete(old(Contents()), id))
    {
      if id !in profiles { return Err(ProfileNotFound); }
      var profile := profiles[id];
      if profile.isDefault {
        var others := ForClient(profiles, profile.clientId) - {id};
        if others == {} { return Err(CannotDeleteOnlyDefault); }
        var heir := Oldest(profiles, others);
        profiles := profiles[heir := profiles[heir].(isDefault := true)];
      }
      profiles := profiles - {id};
      return Ok(());
    }

    method MakeDefault(id: Id) returns (r: Result<(), Error>)
      modifies this
      ensures Agrees(r, profiles, SetDefault(old(Contents()), id))
    {
      if id !in profiles { return Err(ProfileNotFound); }
      var client := profiles[id].clientId;
      profiles := Demote(profiles, client, Some(id));
      profiles := profiles[id := profiles[id].(isDefault := true)];
      return Ok(());
    }
  }
}
