/**
 * The authentication endpoints (backend/app/api/api_v1/endpoints/auth.py): password login,
 * which issues an access token naming the user, and signup. Password hashing, its check
 * and the signing of the token are parameters of the model.
 */
module AuthApi {
  import opened Common
  import opened Models
  import opened Schemas
  import opened Db
  import opened Deps

  /** The settings' default for `ACCESS_TOKEN_EXPIRE_MINUTES` (backend/app/core/config.py). */
  const AccessTokenExpireMinutes: int := 30
  const BearerTokenType: string := "bearer"

  /** One message for an unknown email and for a wrong password. */
  const IncorrectCredentials: ApiError := ApiError(400, "Incorrect email or password")
  const EmailInUse: ApiError := ApiError(400, "The user with this username already exists in the system.")

  /**
   * `login_access_token`: the form's username is looked up as an email; an unknown email
   * and a password `verify` rejects both give the same 400. Otherwise the token names the
   * user found and expires after the configured minutes.
   */
  function Login(db: Database, form: LoginForm, verify: (string, string) -> bool): (r: Response<Token>)
    reads db
    ensures !EmailTaken(db.users, form.username) ==> r == Err(IncorrectCredentials)
    ensures EmailTaken(db.users, form.username) ==>
      var u := UserByEmail(db.users, form.username).value;
      && (!verify(form.password, u.passwordHash) ==> r == Err(IncorrectCredentials))
      && (verify(form.password, u.passwordHash) ==>
            r == Ok(Token(AccessClaims(u.id, AccessTokenExpireMinutes), BearerTokenType)))
  {
    match UserByEmail(db.users, form.username)
    case None => Err(IncorrectCredentials)
    case Some(user) =>
      if !verify(form.password, user.passwordHash) then Err(IncorrectCredentials)
      else Ok(Token(AccessClaims(user.id, AccessTokenExpireMinutes), BearerTokenType))
  }

  /**
   * With unique emails, a user who presents their own email and a password matching their
   * stored hash logs in as themselves.
   */
  lemma LoginNamesTheAccountOwner(db: Database, u: User, password: string, verify: (string, string) -> bool)
    requires db.Valid() && u in db.users && verify(password, u.passwordHash)
    ensures Login(db, LoginForm(u.email, password), verify) ==
      Ok(Token(AccessClaims(u.id, AccessTokenExpireMinutes), BearerTokenType))
  {
    var i :| 0 <= i < |db.users| && db.users[i] == u;
    var found := UserByEmail(db.users, u.email).value;
    var j :| 0 <= j < |db.users| && db.users[j] == found;
    assert i == j;
  }

  /**
   * The token a login issues resolves, through `get_current_user`, to the user who logged in
   * (ids are unique).
   */
  lemma LoginTokenResolvesToUser(db: Database, form: LoginForm, verify: (string, string) -> bool)
    requires db.Valid() && Login(db, form, verify).Ok?
    ensures
      var claims := Login(db, form, verify).value.accessToken;
      var current := GetCurrentUser(db.users, Claims(Some(NumericSubject(claims.subject))));
      current.Ok? && current.value.email == form.username && current.value == UserByEmail(db.users, form.username).value
  {
    var u := UserByEmail(db.users, form.username).value;
    var found := UserById(db.users, u.id).value;
    var i :| 0 <= i < |db.users| && db.users[i] == u;
    var j :| 0 <= j < |db.users| && db.users[j] == found;
    assert i == j;
  }

  /**
   * `create_user`: an email already in use is refused with 400; otherwise the user is stored
   * with the hash of the password, never the password itself, and the default role.
   * Emails stay unique.
   */
  method CreateUser(db: Database, input: UserCreate, hash: string -> string) returns (r: Response<User>)
    requires db.Valid()
    modifies db
    ensures db.Valid()
    ensures EmailTaken(old(db.users), input.email) ==> r == Err(EmailInUse) && unchanged(db)
    ensures !EmailTaken(old(db.users), input.email) ==>
      && r == Ok(User(old(db.nextUserId), input.email, input.name, hash(input.password), DefaultUserRole))
      && db.users == old(db.users) + [r.value]
      && db.projects == old(db.projects) && db.members == old(db.members)
      && db.issues == old(db.issues) && db.comments == old(db.comments)
  {
    if UserByEmail(db.users, input.email).Some? {
      return Err(EmailInUse);
    }
    var user := db.InsertUser(input.email, input.name, hash(input.password));
    r := Ok(user);
  }
}
