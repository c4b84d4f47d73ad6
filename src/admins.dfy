/** Administrator accounts, keyed by a unique email. */
module AdminsService {
  import opened Common
  import opened Store

  const CreatePrefix: string := "Error creating admin. "
  const FetchPrefix: string := "Error fetching admin: "
  const UpdatePrefix: string := "Error updating admin: "
  const DeletePrefix: string := "Error removing admin: "

  const EmailTaken: HttpError := HttpError(InternalServerError, "Admin with this email already exists")

  /** The cost factor passed to the password hash. */
  const SaltRounds: nat := 7

  /** The message of the store error raised when a delete finds no row. */
  const RecordToDeleteMissing: string := "Record to delete does not exist."

  /** The fields of a new admin, with the password in plain text. */
  datatype AdminInput = AdminInput(name: string, email: string, password: string, isSuperAdmin: bool)

  /** The row stored for `a`: the password column holds the hash. */
  function Stored(a: AdminInput, hash: (string, nat) -> string): (r: Admin)
    ensures r.passwordHash == hash(a.password, SaltRounds)
    ensures r.name == a.name && r.email == a.email && r.isSuperAdmin == a.isSuperAdmin
  {
    Admin(a.name, a.email, hash(a.password, SaltRounds), a.isSuperAdmin)
  }

  /** The fields an update may carry. The password is written as given. */
  datatype AdminPatch = AdminPatch(name: Option<string>, email: Option<string>, password: Option<string>, isSuperAdmin: Option<bool>)

  function Patched(a: Admin, p: AdminPatch): (r: Admin)
    ensures p.password.Some? ==> r.passwordHash == p.password.value
    ensures p.password.None? ==> r.passwordHash == a.passwordHash
    ensures p.email.None? ==> r.email == a.email
    ensures p.email.Some? ==> r.email == p.email.value
    ensures p.name.Some? ==> r.name == p.name.value
    ensures p.name.None? ==> r.name == a.name
    ensures p.isSuperAdmin.Some? ==> r.isSuperAdmin == p.isSuperAdmin.value
    ensures p.isSuperAdmin.None? ==> r.isSuperAdmin == a.isSuperAdmin
  {
    Admin(p.name.GetOr(a.name), p.email.GetOr(a.email), p.password.GetOr(a.passwordHash), p.isSuperAdmin.GetOr(a.isSuperAdmin))
  }

  /** An update that carries a password stores it in plain text, unlike
      `create`, whenever the hash of that password differs from it. */
  lemma UpdateSkipsHash(a: Admin, p: AdminPatch, hash: (string, nat) -> string)
    requires p.password.Some? && hash(p.password.value, SaltRounds) != p.password.value
    ensures Patched(a, p).passwordHash != hash(p.password.value, SaltRounds)
  {
  }

  /** Adds an admin unless one with that email exists. The password is hashed
      before the lookup. `insert` is the store's verdict on the row; the insert
      is returned without being awaited, so its failure escapes the handler. */
  method Create(db: Db, a: AdminInput, hash: (string, nat) -> string, insert: Verdict) returns (r: Result<(Id, Admin)>)
    requires db.Valid()
    modifies db`admins, db`nextId
    ensures db.Valid()
    ensures (exists k :: k in old(db.admins) && old(db.admins)[k].email == a.email) ==>
      r == Err(Wrapped(CreatePrefix, Raised(EmailTaken)))
    ensures (forall k :: k in old(db.admins) ==> old(db.admins)[k].email != a.email) && insert.Reject? ==>
      r == Err(Unhandled)
    ensures (forall k :: k in old(db.admins) ==> old(db.admins)[k].email != a.email) && insert.Accept? ==>
      r == Ok((old(db.nextId), Stored(a, hash))) && db.admins == old(db.admins)[old(db.nextId) := Stored(a, hash)]
      && db.nextId == old(db.nextId) + 1
    ensures r.Err? ==> db.admins == old(db.admins) && db.nextId == old(db.nextId)
  {
    var row := Stored(a, hash);
    if k :| k in db.admins && db.admins[k].email == a.email {
      r := Err(Wrapped(CreatePrefix, Raised(EmailTaken)));
      return;
    }
    if insert.Reject? {
      r := Err(Unhandled);
      return;
    }
    var id := PlaceAdmin(db, row);
    r := Ok((id, row));
  }

  /** Inserts an admin row, whose email no admin holds, under a fresh id. */
  method PlaceAdmin(db: Db, row: Admin) returns (id: Id)
    requires db.Valid()
    requires forall k :: k in db.admins ==> db.admins[k].email != row.email
    modifies db`admins, db`nextId
    ensures db.Valid()
    ensures id == old(db.nextId) && db.nextId == id + 1 && db.admins == old(db.admins)[id := row]
  {
    id := db.FreshId();
    db.admins := db.admins[id := row];
    assert KeysBelow(db.admins, db.nextId);
    db.StaysValid();
  }

  /** The admin with id `id`, or nothing. */
  method FindOne(db: Db, id: Id) returns (r: Option<Admin>)
    ensures r.Some? <==> id in db.admins
    ensures r.Some? ==> r.value == db.admins[id]
  {
    if id in db.admins {
      r := Some(db.admins[id]);
    } else {
      r := None;
    }
  }

  /** The admin with email `email`, or nothing; at most one matches. */
  method FindOneByEmail(db: Db, email: string) returns (r: Option<(Id, Admin)>)
    requires db.Valid()
    ensures r.None? <==> forall k :: k in db.admins ==> db.admins[k].email != email
    ensures r.Some? ==> r.value.0 in db.admins && r.value.1 == db.admins[r.value.0] && r.value.1.email == email
    ensures r.Some? ==> forall k :: k in db.admins && db.admins[k].email == email ==> k == r.value.0
  {
    if k :| k in db.admins && db.admins[k].email == email {
      r := Some((k, db.admins[k]));
    } else {
      r := None;
    }
  }

  /** Rewrites admin `id` with the fields of `p`, with no check of its own.
      `write` is the store's verdict, which refuses an email already taken. */
  method Update(db: Db, id: Id, p: AdminPatch, write: Verdict) returns (r: Result<Admin>)
    requires db.Valid()
    requires write.Accept? && p.email.Some? ==> forall k :: k in db.admins && k != id ==> db.admins[k].email != p.email.value
    modifies db`admins
    ensures db.Valid()
    ensures id !in old(db.admins) ==> r == Err(Wrapped(UpdatePrefix, StoreError(P2025, RecordNotFound)))
    ensures id in old(db.admins) && write.Reject? ==> r == Err(Wrapped(UpdatePrefix, StoreError(write.code, write.message)))
    ensures id in old(db.admins) && write.Accept? ==>
      r == Ok(Patched(old(db.admins)[id], p)) && db.admins == old(db.admins)[id := r.value]
    ensures r.Err? ==> db.admins == old(db.admins)
  {
    if id !in db.admins {
      r := Err(Wrapped(UpdatePrefix, StoreError(P2025, RecordNotFound)));
      return;
    }
    if write.Reject? {
      r := Err(Wrapped(UpdatePrefix, StoreError(write.code, write.message)));
      return;
    }
    var a := Patched(db.admins[id], p);
    db.admins := db.admins[id := a];
    db.StaysValid();
    r := Ok(a);
  }

  /** Deletes admin `id`, with no check of its own. */
  method Remove(db: Db, id: Id, delete: Verdict) returns (r: Result<Admin>)
    requires db.Valid()
    modifies db`admins
    ensures db.Valid()
    ensures id !in old(db.admins) ==> r == Err(Wrapped(DeletePrefix, StoreError(P2025, RecordToDeleteMissing)))
    ensures id in old(db.admins) && delete.Reject? ==> r == Err(Wrapped(DeletePrefix, StoreError(delete.code, delete.message)))
    ensures id in old(db.admins) && delete.Accept? ==> r == Ok(old(db.admins)[id]) && db.admins == old(db.admins) - {id}
    ensures r.Err? ==> db.admins == old(db.admins)
  {
    if id !in db.admins {
      r := Err(Wrapped(DeletePrefix, StoreError(P2025, RecordToDeleteMissing)));
      return;
    }
    if delete.Reject? {
      r := Err(Wrapped(DeletePrefix, StoreError(delete.code, delete.message)));
      return;
    }
    r := Ok(db.admins[id]);
    db.admins := db.admins - {id};
    db.StaysValid();
  }

  /** Two `create` calls with the same email, as two requests in turn: once the
      first has stored its admin, the second is refused as a duplicate and
      writes nothing, whatever the store would say about its row. */
  method CreatedAdminBlocksEmail(db: Db, a: AdminInput, b: AdminInput, hash: (string, nat) -> string,
                                 firstInsert: Verdict, secondInsert: Verdict)
    returns (first: Result<(Id, Admin)>, second: Result<(Id, Admin)>)
    requires db.Valid() && b.email == a.email
    modifies db`admins, db`nextId
    ensures db.Valid()
    ensures first.Ok? ==> second == Err(Wrapped(CreatePrefix, Raised(EmailTaken)))
    ensures first.Ok? ==>
      db.admins == old(db.admins)[old(db.nextId) := Stored(a, hash)] && db.nextId == old(db.nextId) + 1
  {
    first := Create(db, a, hash, firstInsert);
    if first.Ok? {
      assert db.admins[first.value.0].email == b.email;
    }
    second := Create(db, b, hash, secondInsert);
  }
}
