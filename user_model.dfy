/**
 * The User schema: field setters (trim, lowercase), field validators, the unique indexes on
 * `email`, `googleId` and `githubId` (the last two sparse), the `select: false` projection,
 * and the user collection as a store object whose operations keep all of these invariants.
 */
module UserModel {
  import opened Wrappers
  import opened Text
  import opened Errors

  datatype Provider = Google | GitHub

  /** A stored user document. Absent optional fields are None. */
  datatype User = User(
    id: nat,
    name: string,
    email: string,
    password: Option<string>,
    googleId: Option<string>,
    githubId: Option<string>
  )

  function ProviderId(u: User, p: Provider): Option<string> {
    match p
    case Google => u.googleId
    case GitHub => u.githubId
  }

  /** `user.googleId = id` / `user.githubId = id` on a document. */
  function WithProviderId(u: User, p: Provider, pid: string): (v: User)
    ensures ProviderId(v, p) == Some(pid)
    ensures v.id == u.id && v.name == u.name && v.email == u.email && v.password == u.password
    ensures p == Google ==> v.githubId == u.githubId
    ensures p == GitHub ==> v.googleId == u.googleId
  {
    match p
    case Google => u.(googleId := Some(pid))
    case GitHub => u.(githubId := Some(pid))
  }

  /** A document as a query returns it by default: the `select: false` paths are left out. */
  function DefaultView(u: User): (v: User)
    ensures v.password.None? && v.googleId.None? && v.githubId.None?
    ensures v.id == u.id && v.name == u.name && v.email == u.email
  {
    u.(password := None, googleId := None, githubId := None)
  }

  // ---------------------------------------------------------------------------------
  // Setters (they run on assignment and on query filters)

  function NormalizeEmail(s: string): string {
    Lower(Trim(s))
  }

  /** A stored e-mail is already in normal form, so looking it up again finds the same user. */
  lemma NormalizeEmailIdempotent(s: string)
    ensures NormalizeEmail(NormalizeEmail(s)) == NormalizeEmail(s)
  {
    var t := Trim(s);
    TrimIsTrimmed(s);
    LowerKeepsTrimmed(t);
    TrimOfTrimmed(Lower(t));
    LowerIdempotent(t);
  }

  /** The `trim` setter on `name`. */
  function SetName(name: Option<string>): Option<string> {
    if name.Some? then Some(Trim(name.value)) else None
  }

  /** The `trim` and `lowercase` setters on `email`. */
  function SetEmail(email: Option<string>): Option<string> {
    if email.Some? then Some(NormalizeEmail(email.value)) else None
  }

  // ---------------------------------------------------------------------------------
  // Validators: at most one message per path, in schema order

  const NameRequired := "Name is required"
  const NameTooShort := "Name must be at least 3 characters long"
  const NameTooLong := "Name must be at most 50 characters long"
  const EmailRequired := "Email is required"
  const EmailInvalid := "Please provide a valid email address"
  const PasswordTooShort := "Password must be at least 6 characters long"

  /** `minlength`/`maxlength` compare JavaScript's `length`, which counts UTF-16 code units. */
  function NameErrors(name: Option<string>): seq<string> {
    if name.None? || name.value == "" then [NameRequired]
    else if JsLength(name.value) < 3 then [NameTooShort]
    else if JsLength(name.value) > 50 then [NameTooLong]
    else []
  }

  function EmailErrors(email: Option<string>): seq<string> {
    if email.None? || email.value == "" then [EmailRequired]
    else if !IsEmail(email.value) then [EmailInvalid]
    else []
  }

  /** `password` is optional; `minLength` applies only to a present value. */
  function PasswordErrors(password: Option<string>): seq<string> {
    if password.Some? && JsLength(password.value) < 6 then [PasswordTooShort] else []
  }

  /** The messages of a ValidationError for these (already set) field values. */
  function FieldErrors(name: Option<string>, email: Option<string>, password: Option<string>): seq<string> {
    NameErrors(name) + EmailErrors(email) + PasswordErrors(password)
  }

  /** The schema's constraints on a stored document, stated declaratively. */
  ghost predicate ValidFields(name: string, email: string, password: Option<string>) {
    && 3 <= JsLength(name) <= 50
    && MatchesEmailPattern(email)
    && (password.Some? ==> JsLength(password.value) >= 6)
  }

  /** A stored document passes the schema's validators. */
  predicate Validates(u: User) {
    FieldErrors(Some(u.name), Some(u.email), u.password) == []
  }

  /** Validation reports no message exactly when every field meets the schema. */
  lemma FieldErrorsEmptyIff(name: Option<string>, email: Option<string>, password: Option<string>)
    ensures FieldErrors(name, email, password) == [] <==>
            name.Some? && email.Some? && ValidFields(name.value, email.value, password)
    ensures |NameErrors(name)| <= 1 && |EmailErrors(email)| <= 1 && |PasswordErrors(password)| <= 1
    ensures |FieldErrors(name, email, password)| <= 3
  {
    if email.Some? {
      IsEmailMatchesPattern(email.value);
    }
  }

  /** A name of two characters outside the Basic Multilingual Plane is four code units long,
      so the length bounds accept it; a name of 26 such characters is 52 code units and is
      rejected as too long. */
  lemma {:induction false} AstralNameLength(c: char, long: string)
    requires c as int > 0xFFFF
    requires |long| == 26 && forall k :: 0 <= k < |long| ==> long[k] as int > 0xFFFF
    ensures NameErrors(Some([c, c])) == []
    ensures NameErrors(Some(long)) == [NameTooLong]
  {
    JsLengthAllAstral([c, c]);
    JsLengthAllAstral(long);
  }

  // ---------------------------------------------------------------------------------
  // The unique indexes

  ghost predicate UniqueEmails(users: map<nat, User>) {
    forall i, j :: i in users && j in users && users[i].email == users[j].email ==> i == j
  }

  /** `unique: true, sparse: true`: only users that have the id take part. */
  ghost predicate UniqueProvider(users: map<nat, User>, p: Provider) {
    forall i, j ::
      i in users && j in users && ProviderId(users[i], p).Some? && ProviderId(users[i], p) == ProviderId(users[j], p)
      ==> i == j
  }

  /** Every document is valid and stored under its own id, below the next fresh id. */
  ghost predicate StoredValid(users: map<nat, User>, nextId: nat) {
    && (forall id :: id in users ==> users[id].id == id && id < nextId)
    && (forall id {:trigger Validates(users[id])} :: id in users ==> Validates(users[id]))
  }

  /** The collection invariant: the documents are stored valid and the unique indexes hold. */
  ghost predicate WellFormed(users: map<nat, User>, nextId: nat) {
    && StoredValid(users, nextId)
    && UniqueEmails(users)
    && UniqueProvider(users, Google)
    && UniqueProvider(users, GitHub)
  }

  /** Inserting a valid document that clashes with no unique index under the fresh id keeps
      the invariant. */
  lemma InsertKeepsWellFormed(users: map<nat, User>, nextId: nat, u: User)
    requires WellFormed(users, nextId)
    requires u.id == nextId && Validates(u)
    requires !Clashes(users, u.email, u.googleId, u.githubId)
    ensures WellFormed(users[nextId := u], nextId + 1)
  {
    InsertKeepsStoredValid(users, nextId, u);
    InsertKeepsUniqueEmails(users, nextId, u);
    InsertKeepsProviderUnique(users, nextId, u, Google);
    InsertKeepsProviderUnique(users, nextId, u, GitHub);
  }

  lemma InsertKeepsStoredValid(users: map<nat, User>, nextId: nat, u: User)
    requires StoredValid(users, nextId)
    requires u.id == nextId && Validates(u)
    ensures StoredValid(users[nextId := u], nextId + 1)
  {
  }

  lemma InsertKeepsUniqueEmails(users: map<nat, User>, nextId: nat, u: User)
    requires nextId !in users && UniqueEmails(users)
    requires !Clashes(users, u.email, u.googleId, u.githubId)
    ensures UniqueEmails(users[nextId := u])
  {
    var m := users[nextId := u];
    forall i, j | i in m && j in m && m[i].email == m[j].email
      ensures i == j
    {
      if i != nextId && j != nextId {
        assert users[i].email == users[j].email;
      }
    }
  }

  /** Setting a provider id that no other document holds keeps the invariant; the other
      fields, and so validity, are untouched. */
  lemma SetProviderKeepsWellFormed(users: map<nat, User>, nextId: nat, id: nat, p: Provider, pid: string)
    requires WellFormed(users, nextId) && id in users
    requires forall k :: k in users && k != id ==> ProviderId(users[k], p) != Some(pid)
    ensures WellFormed(users[id := WithProviderId(users[id], p, pid)], nextId)
  {
    SetProviderKeepsStoredValid(users, nextId, id, p, pid);
    SetProviderKeepsUniqueEmails(users, id, p, pid);
    SetProviderKeepsOtherUnique(users, id, p, pid, if p == Google then GitHub else Google);
    SetProviderKeepsOwnUnique(users, id, p, pid);
  }

  lemma SetProviderKeepsStoredValid(users: map<nat, User>, nextId: nat, id: nat, p: Provider, pid: string)
    requires StoredValid(users, nextId) && id in users
    ensures StoredValid(users[id := WithProviderId(users[id], p, pid)], nextId)
  {
    var m := users[id := WithProviderId(users[id], p, pid)];
    forall k | k in m
      ensures Validates(m[k])
    {
      assert Validates(users[k]);
      assert FieldErrors(Some(m[k].name), Some(m[k].email), m[k].password)
          == FieldErrors(Some(users[k].name), Some(users[k].email), users[k].password);
    }
  }

  lemma SetProviderKeepsUniqueEmails(users: map<nat, User>, id: nat, p: Provider, pid: string)
    requires UniqueEmails(users) && id in users
    ensures UniqueEmails(users[id := WithProviderId(users[id], p, pid)])
  {
    var m := users[id := WithProviderId(users[id], p, pid)];
    assert forall k :: k in m ==> m[k].email == users[k].email;
  }

  lemma SetProviderKeepsOwnUnique(users: map<nat, User>, id: nat, p: Provider, pid: string)
    requires UniqueProvider(users, p) && id in users
    requires forall k :: k in users && k != id ==> ProviderId(users[k], p) != Some(pid)
    ensures UniqueProvider(users[id := WithProviderId(users[id], p, pid)], p)
  {
    var m := users[id := WithProviderId(users[id], p, pid)];
    forall i, j | i in m && j in m && ProviderId(m[i], p).Some? && ProviderId(m[i], p) == ProviderId(m[j], p)
      ensures i == j
    {
      if i != id && j != id {
        assert ProviderId(users[i], p) == ProviderId(users[j], p);
      }
    }
  }

  lemma SetProviderKeepsOtherUnique(users: map<nat, User>, id: nat, p: Provider, pid: string, q: Provider)
    requires id in users && q != p && UniqueProvider(users, q)
    ensures UniqueProvider(users[id := WithProviderId(users[id], p, pid)], q)
  {
    var m := users[id := WithProviderId(users[id], p, pid)];
    assert forall k :: k in m ==> ProviderId(m[k], q) == ProviderId(users[k], q);
  }

  lemma InsertKeepsProviderUnique(users: map<nat, User>, nextId: nat, u: User, p: Provider)
    requires nextId !in users && UniqueProvider(users, p)
    requires !Clashes(users, u.email, u.googleId, u.githubId)
    ensures UniqueProvider(users[nextId := u], p)
  {
    var m := users[nextId := u];
    forall i, j | i in m && j in m && ProviderId(m[i], p).Some? && ProviderId(m[i], p) == ProviderId(m[j], p)
      ensures i == j
    {
      if i != nextId && j != nextId {
        assert ProviderId(users[i], p) == ProviderId(users[j], p);
      }
    }
  }

  /** Does `findOne({ email })` find a user? */
  ghost predicate HasEmail(users: map<nat, User>, email: string) {
    exists k :: k in users && users[k].email == NormalizeEmail(email)
  }

  /** The key of the user `findOne({ email })` finds, if any (unique when the index holds). */
  ghost function EmailKey(users: map<nat, User>, email: string): (r: Option<nat>)
    ensures r.Some? <==> HasEmail(users, email)
    ensures r.Some? ==> r.value in users && users[r.value].email == NormalizeEmail(email)
  {
    if HasEmail(users, email) then
      Some(var k :| k in users && users[k].email == NormalizeEmail(email); k)
    else None
  }

  /** Under the unique e-mail index, any document carrying the normalised e-mail is the one
      `findOne({ email })` finds. */
  lemma EmailKeyUnique(users: map<nat, User>, nextId: nat, email: string, k: nat)
    requires WellFormed(users, nextId)
    requires k in users && users[k].email == NormalizeEmail(email)
    ensures EmailKey(users, email) == Some(k) && users[k].id == k
  {
  }

  /** Would inserting a document with these keys violate a unique index? */
  predicate Clashes(users: map<nat, User>, email: string, googleId: Option<string>, githubId: Option<string>) {
    exists k | k in users ::
      || users[k].email == email
      || (googleId.Some? && users[k].googleId == googleId)
      || (githubId.Some? && users[k].githubId == githubId)
  }

  /** The user collection. */
  class UserStore {
    var users: map<nat, User>
    var nextId: nat

    ghost predicate Valid()
      reads this
    {
      WellFormed(users, nextId)
    }

    constructor ()
      ensures Valid() && users == map[]
    {
      users := map[];
      nextId := 0;
    }

    /** `User.findById(id)`. */
    method FindById(id: nat) returns (r: Option<User>)
      requires Valid()
      ensures r.Some? <==> id in users
      ensures r.Some? ==> r.value == users[id] && r.value.id == id
    {
      r := if id in users then Some(users[id]) else None;
    }

    /** `User.findOne({ email })`; the filter goes through the same setters as the path. */
    method FindOneByEmail(email: string) returns (r: Option<User>)
      requires Valid()
      ensures r.Some? <==> HasEmail(users, email)
      ensures r.Some? ==> EmailKey(users, email) == Some(r.value.id) && users[r.value.id] == r.value
      ensures r.Some? ==> r.value.email == NormalizeEmail(email)
    {
      var e := NormalizeEmail(email);
      if k :| k in users && users[k].email == e {
        EmailKeyUnique(users, nextId, email, k);
        r := Some(users[k]);
      } else {
        r := None;
      }
    }

    /** `User.findOne({ googleId: pid })` / `User.findOne({ githubId: pid })`. */
    method FindOneByProvider(p: Provider, pid: string) returns (r: Option<User>)
      requires Valid()
      ensures r.Some? <==> exists k :: k in users && ProviderId(users[k], p) == Some(pid)
      ensures r.Some? ==> r.value.id in users && users[r.value.id] == r.value
      ensures r.Some? ==> ProviderId(r.value, p) == Some(pid)
    {
      if k :| k in users && ProviderId(users[k], p) == Some(pid) {
        r := Some(users[k]);
      } else {
        r := None;
      }
    }

    /** `User.create({...})`: setters, then validation, then the unique indexes, then insertion
        under a fresh id. A failure leaves the collection as it was. */
    method Create(name: Option<string>, email: Option<string>, password: Option<string>,
                  googleId: Option<string>, githubId: Option<string>)
      returns (r: Result<User, ErrorValue>)
      requires Valid()
      modifies this
      ensures Valid()
      ensures var errs := FieldErrors(SetName(name), SetEmail(email), password);
        if errs != [] then
          r == Err(ValidationFailure("User", errs)) && users == old(users)
        else if Clashes(old(users), SetEmail(email).value, googleId, githubId) then
          r == Err(DuplicateKey()) && users == old(users)
        else
          && r.Ok?
          && r.value == User(old(nextId), SetName(name).value, SetEmail(email).value, password, googleId, githubId)
          && r.value.id !in old(users)
          && users == old(users)[r.value.id := r.value]
    {
      var n, e := SetName(name), SetEmail(email);
      var errs := FieldErrors(n, e, password);
      if errs != [] {
        return Err(ValidationFailure("User", errs));
      }
      if Clashes(users, e.value, googleId, githubId) {
        return Err(DuplicateKey());
      }
      var u := User(nextId, n.value, e.value, password, googleId, githubId);
      InsertKeepsWellFormed(users, nextId, u);
      users := users[nextId := u];
      nextId := nextId + 1;
      r := Ok(u);
    }

    /** `user.<provider>Id = pid; await user.save()` on a stored user: only the modified path is
        written, and the sparse unique index may reject it. */
    method SetProviderId(id: nat, p: Provider, pid: string) returns (r: Result<User, ErrorValue>)
      requires Valid() && id in users
      modifies this
      ensures Valid()
      ensures if exists k :: k in old(users) && k != id && ProviderId(old(users)[k], p) == Some(pid) then
                r == Err(DuplicateKey()) && users == old(users)
              else
                r == Ok(WithProviderId(old(users)[id], p, pid)) && users == old(users)[id := r.value]
    {
      if k :| k in users && k != id && ProviderId(users[k], p) == Some(pid) {
        return Err(DuplicateKey());
      }
      var u := WithProviderId(users[id], p, pid);
      SetProviderKeepsWellFormed(users, nextId, id, p, pid);
      users := users[id := u];
      r := Ok(u);
    }
  }
}
