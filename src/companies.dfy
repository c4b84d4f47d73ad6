/** Companies registered by users. */
module CompaniesService {
  import opened Common
  import opened Store

  const CreatePrefix: string := "Error creating company: "
  const FindPrefix: string := "Error fetching company by name: "
  const UpdatePrefix: string := "Error updating company: "
  const DeletePrefix: string := "Error deleting company: "

  const UserMissing: HttpError := HttpError(BadRequest, "User does not exist")
  const CompanyMissing: HttpError := HttpError(NotFound, "Company not found")

  const CreateHandled: map<StoreCode, HttpError> :=
    map[P2002 := HttpError(BadRequest, "A company with this email already exists")]
  const DeleteHandled: map<StoreCode, HttpError> := map[P2025 := CompanyMissing]

  /** Every company belongs to a user on record. */
  predicate Owned(companies: map<Id, Company>, users: map<Id, User>) {
    forall k :: k in companies ==> companies[k].userId in users
  }

  /** No two companies share an email (the column is unique in the store). */
  predicate UniqueCompanyEmails(companies: map<Id, Company>) {
    forall a, b :: a in companies && b in companies && companies[a].email == companies[b].email ==> a == b
  }

  /** The fields an update may carry; an absent one keeps the stored value. */
  datatype CompanyPatch = CompanyPatch(
    userId: Option<Id>,
    name: Option<string>,
    email: Option<string>,
    phone: Option<string>,
    address: Option<string>,
    about: Option<string>,
    aboutUz: Option<string>,
    aboutRu: Option<string>,
    website: Option<string>,
    isVerified: Option<bool>)

  const NoChange: CompanyPatch := CompanyPatch(None, None, None, None, None, None, None, None, None, None)

  function Patched(c: Company, p: CompanyPatch): (r: Company)
    ensures p.userId.Some? ==> r.userId == p.userId.value
    ensures p.userId.None? ==> r.userId == c.userId
    ensures p.name.Some? ==> r.name == p.name.value
    ensures p.name.None? ==> r.name == c.name
    ensures p.email.Some? ==> r.email == p.email.value
    ensures p.email.None? ==> r.email == c.email
    ensures p.phone.Some? ==> r.phone == p.phone.value
    ensures p.phone.None? ==> r.phone == c.phone
    ensures p.address.Some? ==> r.address == p.address.value
    ensures p.address.None? ==> r.address == c.address
    ensures p.about.Some? ==> r.about == p.about
    ensures p.about.None? ==> r.about == c.about
    ensures p.aboutUz.Some? ==> r.aboutUz == p.aboutUz
    ensures p.aboutUz.None? ==> r.aboutUz == c.aboutUz
    ensures p.aboutRu.Some? ==> r.aboutRu == p.aboutRu
    ensures p.aboutRu.None? ==> r.aboutRu == c.aboutRu
    ensures p.website.Some? ==> r.website == p.website
    ensures p.website.None? ==> r.website == c.website
    ensures p.isVerified.Some? ==> r.isVerified == p.isVerified
    ensures p.isVerified.None? ==> r.isVerified == c.isVerified
  {
    Company(
      p.userId.GetOr(c.userId), p.name.GetOr(c.name), p.email.GetOr(c.email), p.phone.GetOr(c.phone),
      p.address.GetOr(c.address), p.about.Or(c.about), p.aboutUz.Or(c.aboutUz),
      p.aboutRu.Or(c.aboutRu), p.website.Or(c.website), p.isVerified.Or(c.isVerified))
  }

  /** The empty patch changes nothing, and applying a patch twice is applying it once. */
  lemma PatchLaws(c: Company, p: CompanyPatch)
    ensures Patched(c, NoChange) == c
    ensures Patched(Patched(c, p), p) == Patched(c, p)
  {
  }

  /** The checks of `update`: the company exists, and the user the patch names
      is given and exists. */
  function UpdateGate(companies: map<Id, Company>, users: map<Id, User>, id: Id, p: CompanyPatch): (r: Option<Thrown>)
    ensures r.None? <==> id in companies && p.userId.Some? && p.userId.value in users
  {
    if id !in companies then Some(Raised(CompanyMissing))
    else if p.userId.None? then Some(ScriptError(UndefinedKey))
    else if p.userId.value !in users then Some(Raised(UserMissing))
    else None
  }

  /** Registers company `c` for an existing user. `insert` is the store's
      verdict on the row, which refuses an email already on record. */
  method Create(db: Db, c: Company, insert: Verdict) returns (r: Result<(Id, Company)>)
    requires db.Valid()
    requires insert.Accept? ==> forall k :: k in db.companies ==> db.companies[k].email != c.email
    modifies db`companies, db`nextId
    ensures db.Valid()
    ensures c.userId !in db.users ==> r == Err(Caught(CreatePrefix, CreateHandled, Raised(UserMissing)))
    ensures c.userId in db.users && insert.Reject? ==>
      r == Err(Caught(CreatePrefix, CreateHandled, StoreError(insert.code, insert.message)))
    ensures c.userId in db.users && insert.Accept? ==>
      r == Ok((old(db.nextId), c)) && db.companies == old(db.companies)[old(db.nextId) := c]
      && db.nextId == old(db.nextId) + 1
    ensures r.Err? ==> db.companies == old(db.companies) && db.nextId == old(db.nextId)
    ensures Owned(old(db.companies), db.users) ==> Owned(db.companies, db.users)
    ensures UniqueCompanyEmails(old(db.companies)) ==> UniqueCompanyEmails(db.companies)
  {
    if c.userId !in db.users {
      r := Err(Caught(CreatePrefix, CreateHandled, Raised(UserMissing)));
      return;
    }
    if insert.Reject? {
      r := Err(Caught(CreatePrefix, CreateHandled, StoreError(insert.code, insert.message)));
      return;
    }
    var id := PlaceCompany(db, c);
    r := Ok((id, c));
  }

  /** Inserts a company row under a fresh id. */
  method PlaceCompany(db: Db, c: Company) returns (id: Id)
    requires db.Valid()
    modifies db`companies, db`nextId
    ensures db.Valid()
    ensures id == old(db.nextId) && db.nextId == id + 1 && db.companies == old(db.companies)[id := c]
  {
    id := db.FreshId();
    db.companies := db.companies[id := c];
    assert KeysBelow(db.companies, db.nextId);
    db.StaysValid();
  }

  /** Some company whose name folds like `name`. */
  method FindByName(db: Db, name: string) returns (r: Result<(Id, Company)>)
    ensures r.Ok? ==>
      r.value.0 in db.companies && r.value.1 == db.companies[r.value.0] && db.fold(r.value.1.name) == db.fold(name)
    ensures r.Err? <==> forall k :: k in db.companies ==> db.fold(db.companies[k].name) != db.fold(name)
    ensures r.Err? ==> r.error == Wrapped(FindPrefix, Raised(CompanyMissing))
  {
    if k :| k in db.companies && db.fold(db.companies[k].name) == db.fold(name) {
      r := Ok((k, db.companies[k]));
    } else {
      r := Err(Wrapped(FindPrefix, Raised(CompanyMissing)));
    }
  }

  /** Rewrites company `id` with the fields of `p`. `write` is the store's
      verdict on the update, which refuses an email already on record. */
  method Update(db: Db, id: Id, p: CompanyPatch, write: Verdict) returns (r: Result<Company>)
    requires write.Accept? && p.email.Some? ==> forall k :: k in db.companies && k != id ==> db.companies[k].email != p.email.value
    modifies db`companies
    ensures var gate := UpdateGate(old(db.companies), db.users, id, p);
      && (gate.Some? ==> r == Err(Wrapped(UpdatePrefix, gate.value)))
      && (gate.None? && write.Reject? ==> r == Err(Wrapped(UpdatePrefix, StoreError(write.code, write.message))))
      && (gate.None? && write.Accept? ==>
            r == Ok(Patched(old(db.companies)[id], p)) && db.companies == old(db.companies)[id := r.value])
      && (r.Err? ==> db.companies == old(db.companies))
    ensures Owned(old(db.companies), db.users) ==> Owned(db.companies, db.users)
    ensures UniqueCompanyEmails(old(db.companies)) ==> UniqueCompanyEmails(db.companies)
  {
    var gate := UpdateGate(db.companies, db.users, id, p);
    if gate.Some? {
      r := Err(Wrapped(UpdatePrefix, gate.value));
      return;
    }
    if write.Reject? {
      r := Err(Wrapped(UpdatePrefix, StoreError(write.code, write.message)));
      return;
    }
    var c := Patched(db.companies[id], p);
    db.companies := db.companies[id := c];
    r := Ok(c);
  }

  /** Deletes company `id`. `delete` is the store's verdict on the delete. */
  method Remove(db: Db, id: Id, delete: Verdict) returns (r: Result<Company>)
    modifies db`companies
    ensures id !in old(db.companies) ==> r == Err(Caught(DeletePrefix, DeleteHandled, Raised(CompanyMissing)))
    ensures id in old(db.companies) && delete.Reject? ==>
      r == Err(Caught(DeletePrefix, DeleteHandled, StoreError(delete.code, delete.message)))
    ensures id in old(db.companies) && delete.Accept? ==>
      r == Ok(old(db.companies)[id]) && db.companies == old(db.companies) - {id}
    ensures r.Err? ==> db.companies == old(db.companies)
  {
    if id !in db.companies {
      r := Err(Caught(DeletePrefix, DeleteHandled, Raised(CompanyMissing)));
      return;
    }
    if delete.Reject? {
      r := Err(Caught(DeletePrefix, DeleteHandled, StoreError(delete.code, delete.message)));
      return;
    }
    r := Ok(db.companies[id]);
    db.companies := db.companies - {id};
  }
}
