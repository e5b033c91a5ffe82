/** `user_services.py`: signup, login with session claims, and reading and
    partially updating the caller's own user row. */
module UserServices {
  import opened Common
  import opened Tables

  /** `UserCreate`: the signup form. */
  datatype UserCreate = UserCreate(email: Email, name: string, password: string, profile: map<string, string>)

  /** `OAuth2PasswordRequestForm`: the login form; `username` is the email. */
  datatype LoginForm = LoginForm(username: Email, password: string)

  /** The password-hashing collaborator, `hashing.hash` and `hashing.verify`. */
  datatype Hasher = Hasher(hash: string -> string, verify: (string, string) -> bool)

  /** What the login path relies on: a password verifies against its own hash. */
  ghost predicate HashSound(h: Hasher) {
    forall p :: h.verify(p, h.hash(p))
  }

  const DuplicateEmail := HttpError(BadRequest, "User with this email already exists")
  const InvalidCredentials := HttpError(Unauthorized, "Invalid email or password")

  /** The row `create_user` commits: the form with the password replaced by
      its hash. */
  function NewUser(id: nat, info: UserCreate, h: Hasher): (u: User)
    ensures u.id == id
    ensures u.email == info.email && u.name == info.name && u.profile == info.profile
    ensures u.password == h.hash(info.password)
  {
    User(id, info.email, info.name, h.hash(info.password), info.profile)
  }

  /** `create_user`: refuses an email that is already registered (400,
      nothing added); otherwise appends one user row with the hashed
      password and the next id. */
  method CreateUser(db: Database, info: UserCreate, h: Hasher) returns (r: Result<string>)
    requires db.Valid()
    modifies db`users, db`nextUserId
    ensures db.Valid()
    ensures FindUser(old(db.users), info.email).Some? ==>
              r == Err(DuplicateEmail) && db.users == old(db.users) && db.nextUserId == old(db.nextUserId)
    ensures FindUser(old(db.users), info.email).None? ==>
              && r == Ok("User created Successfully")
              && db.users == old(db.users) + [NewUser(old(db.nextUserId), info, h)]
              && db.nextUserId == old(db.nextUserId) + 1
  {
    if FindUser(db.users, info.email).Some? {
      return Err(DuplicateEmail);
    }
    db.users := db.users + [NewUser(db.nextUserId, info, h)];
    db.nextUserId := db.nextUserId + 1;
    r := Ok("User created Successfully");
  }

  /** The claims `authenticate_user` signs into the session token: the email,
      and the company and role of the membership row, both absent when the
      user has no row. */
  function SessionClaims(email: Email, member: Option<CompanyMember>): (t: TokenData)
    ensures t.email == email
    ensures member.None? ==> t.companyId.None? && t.role.None?
    ensures member.Some? ==> t.companyId == Some(member.value.companyId) && t.role == Some(RoleValue(member.value.role))
  {
    TokenData(email,
              if member.Some? then Some(member.value.companyId) else None,
              if member.Some? then Some(RoleValue(member.value.role)) else None)
  }

  /** `authenticate_user`: the same 401 whether the email is unknown or the
      password does not verify; otherwise the session claims built from the
      user's first membership row. The signing of the claims into an access
      token is left to the token collaborator. */
  function AuthenticateUser(users: seq<User>, members: seq<CompanyMember>, form: LoginForm, h: Hasher): (r: Result<TokenData>)
    ensures r.Err? <==> FindUser(users, form.username).None? ||
                        !h.verify(form.password, users[FindUser(users, form.username).value].password)
    ensures r.Err? ==> r.error == InvalidCredentials
    ensures r.Ok? ==> r.value == SessionClaims(form.username, FirstMembership(members, form.username))
  {
    match FindUser(users, form.username)
    case None => Err(InvalidCredentials)
    case Some(k) =>
      if !h.verify(form.password, users[k].password) then Err(InvalidCredentials)
      else Ok(SessionClaims(users[k].email, FirstMembership(members, users[k].email)))
  }

  /** Under the single-membership invariant the session carries the company
      and role of the user's one membership row, wherever it is stored. */
  lemma LoginCarriesMembership(users: seq<User>, members: seq<CompanyMember>, form: LoginForm, h: Hasher, k: nat)
    requires SingleMembership(members)
    requires k < |members| && members[k].userId == form.username
    requires AuthenticateUser(users, members, form, h).Ok?
    ensures AuthenticateUser(users, members, form, h).value.companyId == Some(members[k].companyId)
    ensures AuthenticateUser(users, members, form, h).value.role == Some(RoleValue(members[k].role))
  {
    SoleMembershipIsFirst(members, k);
  }

  /** Signup followed by login with the same password succeeds, and the
      session reflects whatever membership the user already has. */
  lemma SignupThenLogin(users: seq<User>, members: seq<CompanyMember>, id: nat, info: UserCreate, h: Hasher)
    requires HashSound(h)
    requires FindUser(users, info.email).None?
    ensures AuthenticateUser(users + [NewUser(id, info, h)], members, LoginForm(info.email, info.password), h)
            == Ok(SessionClaims(info.email, FirstMembership(members, info.email)))
  {
    var us := users + [NewUser(id, info, h)];
    var k := FindUser(us, info.email);
    assert us[|users|].email == info.email;
    assert k == Some(|users|) by {
      forall i | 0 <= i < |users| ensures us[i].email != info.email {
        assert us[i] == users[i];
      }
    }
    assert h.verify(info.password, h.hash(info.password));
  }

  /** `get_user_details`: the first row with the caller's email, as
      `.first()` returns it, or 404. */
  function GetUserDetails(users: seq<User>, current: TokenData): (r: Result<User>)
    ensures r.Err? <==> forall i :: 0 <= i < |users| ==> users[i].email != current.email
    ensures r.Err? ==> r.error == UserNotFound
    ensures r.Ok? ==> r.value in users && r.value.email == current.email
    ensures r.Ok? ==> exists k :: 0 <= k < |users| && r.value == users[k] &&
                                  forall i :: 0 <= i < k ==> users[i].email != current.email
  {
    match FindUser(users, current.email)
    case None => Err(UserNotFound)
    case Some(k) => Ok(users[k])
  }

  /** The value of an attribute of a user row as `getattr` sees it; id,
      email and password are not attributes an update reaches. */
  function Attr(u: User, field: string): Option<string> {
    if field == "name" then Some(u.name)
    else if field in u.profile then Some(u.profile[field])
    else None
  }

  /** `setattr(user, field, value)` on a profile attribute. */
  function SetAttr(u: User, field: string, value: string): (v: User)
    ensures v.id == u.id && v.email == u.email && v.password == u.password
    ensures forall f :: Attr(v, f) == if f == field then Some(value) else Attr(u, f)
  {
    if field == "name" then u.(name := value)
    else u.(profile := u.profile[field := value])
  }

  /** `v` is `u` with exactly the attributes named in `update` overwritten. */
  ghost predicate Updated(u: User, update: map<string, string>, v: User) {
    && v.id == u.id && v.email == u.email && v.password == u.password
    && forall f :: Attr(v, f) == if f in update then Some(update[f]) else Attr(u, f)
  }

  /** The loop over `update_data.model_dump(exclude_unset=True)`: one setattr
      per field that was set, in any order. */
  method ApplyUpdate(u: User, update: map<string, string>) returns (v: User)
    ensures Updated(u, update, v)
  {
    v := u;
    var remaining := update.Keys;
    while remaining != {}
      invariant remaining <= update.Keys
      invariant v.id == u.id && v.email == u.email && v.password == u.password
      invariant forall f :: Attr(v, f) == if f in update && f !in remaining then Some(update[f]) else Attr(u, f)
      decreases remaining
    {
      var f :| f in remaining;
      v := SetAttr(v, f, update[f]);
      remaining := remaining - {f};
    }
  }

  /** `update_user_details`: 404 and no change when the caller has no row;
      otherwise the caller's row gets exactly the set fields and every other
      row stays as it was. */
  method UpdateUserDetails(db: Database, update: map<string, string>, current: TokenData) returns (r: Result<User>)
    requires db.Valid()
    modifies db`users
    ensures db.Valid()
    ensures FindUser(old(db.users), current.email).None? ==>
              r == Err(UserNotFound) && db.users == old(db.users)
    ensures FindUser(old(db.users), current.email).Some? ==>
              var k := FindUser(old(db.users), current.email).value;
              && r.Ok?
              && Updated(old(db.users)[k], update, r.value)
              && db.users == old(db.users)[k := r.value]
  {
    var found := FindUser(db.users, current.email);
    if found.None? {
      return Err(UserNotFound);
    }
    var k := found.value;
    var v := ApplyUpdate(db.users[k], update);
    db.users := db.users[k := v];
    r := Ok(v);
  }
}
