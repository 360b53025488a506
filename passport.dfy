/**
 * The Google and GitHub verify callbacks: resolve a provider profile to a user by provider id,
 * else by linking the account whose e-mail matches, else by creating a password-less user.
 */
module Passport {
  import opened Wrappers
  import opened Text
  import opened Errors
  import opened UserModel

  /** The fields of a passport profile the callbacks read. */
  datatype Profile = Profile(id: string, displayName: Option<string>, username: Option<string>, emails: seq<string>)

  /** `profile.emails?.[0]?.value`. */
  function FirstEmail(profile: Profile): (r: Option<string>)
    ensures r.Some? <==> |profile.emails| > 0
    ensures r.Some? ==> r.value == profile.emails[0]
  {
    if |profile.emails| > 0 then Some(profile.emails[0]) else None
  }

  /** `profile.displayName || profile.username`. */
  function GitHubName(profile: Profile): (r: Option<string>)
    ensures profile.displayName.Some? && profile.displayName.value != "" ==> r == profile.displayName
    ensures !(profile.displayName.Some? && profile.displayName.value != "") ==> r == profile.username
  {
    if profile.displayName.Some? && profile.displayName.value != "" then profile.displayName else profile.username
  }

  function OtherProvider(p: Provider): Provider {
    if p == Google then GitHub else Google
  }

  ghost predicate HasProviderId(users: map<nat, User>, p: Provider, pid: string) {
    exists k :: k in users && ProviderId(users[k], p) == Some(pid)
  }

  /** 1. Known provider id: that user is handed back, as a default query returns it, and
      nothing is written. */
  ghost predicate FoundByProviderId(before: map<nat, User>, after: map<nat, User>, p: Provider, pid: string,
                                    r: Result<User, ErrorValue>)
  {
    && r.Ok? && r.value.id in before && ProviderId(before[r.value.id], p) == Some(pid)
    && r.value == DefaultView(before[r.value.id])
    && after == before
  }

  /** 2. Known e-mail: the provider id is attached to that user, which is handed back with it,
      and no user is created. */
  ghost predicate LinkedByEmail(before: map<nat, User>, after: map<nat, User>, p: Provider, pid: string,
                                email: string, r: Result<User, ErrorValue>)
  {
    && r.Ok? && r.value.id in before && before[r.value.id].email == NormalizeEmail(email)
    && r.value == WithProviderId(DefaultView(before[r.value.id]), p, pid)
    && after == before[r.value.id := WithProviderId(before[r.value.id], p, pid)]
  }

  /** 3. A new password-less user with this provider id exactly when the schema accepts the set
      name and e-mail; otherwise a validation error and no change. With no usable e-mail the
      schema rejects the new user. */
  ghost predicate CreatedOrFailed(before: map<nat, User>, after: map<nat, User>, p: Provider, pid: string,
                                  email: Option<string>, name: Option<string>, r: Result<User, ErrorValue>)
  {
    && (r.Ok? <==> FieldErrors(SetName(name), SetEmail(email), None) == [])
    && (r.Ok? ==>
          && r.value.id !in before && after == before[r.value.id := r.value]
          && Some(r.value.name) == SetName(name) && Some(r.value.email) == SetEmail(email)
          && ProviderId(r.value, p) == Some(pid) && ProviderId(r.value, OtherProvider(p)).None?)
    && (r.Err? ==> after == before)
    && (email.None? || Trim(email.value) == "" ==> r.Err? && r.error.name == "ValidationError")
  }

  /** What a verify callback does to the collection (`before` to `after`) and what it hands to
      `done`: Ok(user) for `done(null, user)`, Err(e) for `done(e, undefined)`. The user handed
      back never carries a password. */
  ghost predicate Resolved(before: map<nat, User>, after: map<nat, User>, p: Provider, pid: string,
                           email: Option<string>, name: Option<string>, r: Result<User, ErrorValue>)
  {
    && (r.Ok? ==> r.value.password.None?)
    && if HasProviderId(before, p, pid) then FoundByProviderId(before, after, p, pid, r)
       else if email.Some? && email.value != "" && HasEmail(before, email.value) then
         LinkedByEmail(before, after, p, pid, email.value, r)
       else CreatedOrFailed(before, after, p, pid, email, name, r)
  }

  /** The body shared by both verify callbacks. */
  method ResolveProfile(store: UserStore, p: Provider, pid: string, email: Option<string>, name: Option<string>)
    returns (r: Result<User, ErrorValue>)
    requires store.Valid()
    modifies store
    ensures store.Valid()
    ensures Resolved(old(store.users), store.users, p, pid, email, name, r)
  {
    ghost var before := store.users;
    var user := store.FindOneByProvider(p, pid);
    if user.Some? {
      r := Ok(DefaultView(user.value));
      assert FoundByProviderId(before, store.users, p, pid, r);
      return;
    }
    assert !HasProviderId(before, p, pid);
    if email.Some? && email.value != "" {
      user := store.FindOneByEmail(email.value);
      if user.Some? {
        // Link account: only the provider path is written, and no other user holds pid.
        var saved := store.SetProviderId(user.value.id, p, pid);
        assert saved.Ok?;
        r := Ok(WithProviderId(DefaultView(user.value), p, pid));
        assert LinkedByEmail(before, store.users, p, pid, email.value, r);
        return;
      }
      assert !HasEmail(before, email.value);
    }
    var googleId := if p == Google then Some(pid) else None;
    var githubId := if p == GitHub then Some(pid) else None;
    r := store.Create(name, email, None, googleId, githubId);
    if email.None? || Trim(email.value) == "" {
      assert EmailRequired in FieldErrors(SetName(name), SetEmail(email), None);
    }
    assert CreatedOrFailed(before, store.users, p, pid, email, name, r);
  }

  /** The Google strategy's verify callback. */
  method GoogleVerify(store: UserStore, profile: Profile) returns (r: Result<User, ErrorValue>)
    requires store.Valid()
    modifies store
    ensures store.Valid()
    ensures Resolved(old(store.users), store.users, Google, profile.id, FirstEmail(profile), profile.displayName, r)
  {
    r := ResolveProfile(store, Google, profile.id, FirstEmail(profile), profile.displayName);
  }

  /** The GitHub strategy's verify callback: the same rule on `githubId`, with the user name
      falling back to the GitHub username. */
  method GitHubVerify(store: UserStore, profile: Profile) returns (r: Result<User, ErrorValue>)
    requires store.Valid()
    modifies store
    ensures store.Valid()
    ensures Resolved(old(store.users), store.users, GitHub, profile.id, FirstEmail(profile), GitHubName(profile), r)
  {
    r := ResolveProfile(store, GitHub, profile.id, FirstEmail(profile), GitHubName(profile));
  }

  /** A second login with the same provider id returns the same user and writes nothing. */
  lemma {:induction false} SecondLoginSameUser(s0: map<nat, User>, s1: map<nat, User>, s2: map<nat, User>,
                                               p: Provider, pid: string, u1: User,
                                               email: Option<string>, name: Option<string>,
                                               email2: Option<string>, name2: Option<string>,
                                               r2: Result<User, ErrorValue>)
    requires UniqueProvider(s1, p)
    requires Resolved(s0, s1, p, pid, email, name, Ok(u1))
    requires Resolved(s1, s2, p, pid, email2, name2, r2)
    ensures s2 == s1 && r2.Ok? && r2.value.id == u1.id
  {
    if HasProviderId(s0, p, pid) {
      assert FoundByProviderId(s0, s1, p, pid, Ok(u1));
    } else if email.Some? && email.value != "" && HasEmail(s0, email.value) {
      assert LinkedByEmail(s0, s1, p, pid, email.value, Ok(u1));
    } else {
      assert CreatedOrFailed(s0, s1, p, pid, email, name, Ok(u1));
    }
    assert u1.id in s1 && ProviderId(s1[u1.id], p) == Some(pid);
    assert HasProviderId(s1, p, pid);
    assert FoundByProviderId(s1, s2, p, pid, r2);
  }

  /** A first login (no user holds the provider id, none has the e-mail) whose name and e-mail
      the schema accepts creates exactly one user, carrying the provider id. */
  lemma {:induction false} FirstLoginCreatesOneUser(before: map<nat, User>, after: map<nat, User>, p: Provider,
                                                    pid: string, email: Option<string>, name: Option<string>,
                                                    r: Result<User, ErrorValue>)
    requires Resolved(before, after, p, pid, email, name, r)
    requires !HasProviderId(before, p, pid)
    requires email.Some? && !HasEmail(before, email.value)
    requires FieldErrors(SetName(name), SetEmail(email), None) == []
    ensures r.Ok? && r.value.id !in before && after.Keys == before.Keys + {r.value.id}
    ensures after[r.value.id] == r.value && ProviderId(r.value, p) == Some(pid)
  {
    assert CreatedOrFailed(before, after, p, pid, email, name, r);
  }

  /** A callback adds at most one user, and only on the create path. */
  lemma {:induction false} AddsAtMostOneUser(before: map<nat, User>, after: map<nat, User>, p: Provider, pid: string,
                                             email: Option<string>, name: Option<string>, r: Result<User, ErrorValue>)
    requires Resolved(before, after, p, pid, email, name, r)
    ensures before.Keys <= after.Keys
    ensures after.Keys == before.Keys || (r.Ok? && after.Keys == before.Keys + {r.value.id} && r.value.id !in before)
    ensures email.Some? && email.value != "" && HasEmail(before, email.value) ==> after.Keys == before.Keys
  {
  }
}
