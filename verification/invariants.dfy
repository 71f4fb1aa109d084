/**
 What holds of the backend across requests: the store invariant every
 route preserves, the user fields no route rewrites, and the round trips
 between routes (signup then login, create then get, forgot then reset).
 */
module Invariants {
  import opened Wrappers
  import opened Text
  import opened Seqs
  import opened Store
  import opened Crypto
  import opened Models
  import opened Server
  import opened Routes

  // ------------------------------------------------------------ validity

  /** Changing a user in place without touching name or email keeps the store valid. */
  lemma SaveUserKeepsValid(s: State, i: nat, u: User)
    requires Valid(s) && i < |s.users|
    requires u.name == s.users[i].value.name && u.email == s.users[i].value.email
    ensures Valid(s.(users := Save(s.users, i, u)))
  {
    SaveKeepsPositions(s.users, i, u, 0);
  }

  /** Appending a valid user under the next id and a new email keeps the store valid. */
  lemma AppendUserKeepsValid(s: State, d: Doc<User>)
    requires Valid(s) && d.id == s.nextId && ValidUser(d.value)
    requires forall i :: 0 <= i < |s.users| ==> s.users[i].value.email != d.value.email
    ensures Valid(State(s.users + [d], s.recipes, s.nextId + 1))
  {
    var users := s.users + [d];
    assert forall i :: 0 <= i < |s.users| ==> users[i] == s.users[i];
  }

  lemma SignupKeepsValid(env: Env, s: State, b: SignupBody)
    requires Valid(s)
    ensures Valid(Signup(env, s, b).state)
  {
    var out := Signup(env, s, b);
    if out.response.status == 201 {
      var d := out.state.users[|s.users|];
      assert out.state.users == s.users + [d];
      assert out.state == State(s.users + [d], s.recipes, s.nextId + 1);
      AppendUserKeepsValid(s, d);
    }
  }

  lemma LoginKeepsValid(env: Env, s: State, b: LoginBody, now: int)
    requires Valid(s)
    ensures Valid(Login(env, s, b, now).state)
  {
    if Login(env, s, b, now).response.status == 200 {
      var i := FindByEmail(s.users, b.email.value).value;
      SaveUserKeepsValid(s, i, s.users[i].value.(lastLogin := Some(now), isOnline := true));
    }
  }

  lemma LogoutKeepsValid(env: Env, s: State, bearer: Option<Jwt>, now: int)
    requires Valid(s)
    ensures Valid(Logout(env, s, bearer, now).state)
  {
    var out := Logout(env, s, bearer, now);
    if Authenticate(env, bearer, now).Admit? {
      var c := bearer.value.claims;
      if c.userId.Some? && Position(s.users, c.userId.value).Some? {
        var i := Position(s.users, c.userId.value).value;
        var u := s.users[i].value.(isOnline := false);
        assert out.state == s.(users := Save(s.users, i, u));
        SaveUserKeepsValid(s, i, u);
      } else {
        assert out.state == s;
      }
    }
  }

  lemma ResetKeepsValid(env: Env, s: State, b: ResetBody, now: int)
    requires Valid(s)
    ensures Valid(ResetPassword(env, s, b, now).state)
  {
    if ResetPassword(env, s, b, now).response.status == 200 {
      var i := Position(s.users, b.token.value.claims.userId.value).value;
      SaveUserKeepsValid(s, i, s.users[i].value.(password := Hash(b.newPassword.value)));
    }
  }

  lemma CreateKeepsValid(env: Env, s: State, bearer: Option<Jwt>, b: RecipeBody, now: int)
    requires Valid(s)
    ensures Valid(CreateRecipe(env, s, bearer, b, now).state)
  {
    var out := CreateRecipe(env, s, bearer, b, now);
    if out.response.status == 201 {
      AppendRecipeKeepsValid(s, Doc(s.nextId, NewRecipe(b, bearer.value.claims.userId, now)));
    }
  }

  /** Appending a recipe under the next id keeps the store valid. */
  lemma AppendRecipeKeepsValid(s: State, d: Doc<Recipe>)
    requires Valid(s) && d.id == s.nextId
    ensures Valid(s.(recipes := s.recipes + [d], nextId := s.nextId + 1))
  {
    var recipes := s.recipes + [d];
    assert forall i :: 0 <= i < |s.recipes| ==> recipes[i] == s.recipes[i];
  }

  lemma UpdateKeepsValid(env: Env, s: State, bearer: Option<Jwt>, id: Id, b: RecipeBody, now: int)
    requires Valid(s)
    ensures Valid(UpdateRecipe(env, s, bearer, id, b, now).state)
  {
    var out := UpdateRecipe(env, s, bearer, id, b, now);
    if out.response.status == 200 {
      var i := Position(s.recipes, id).value;
      SaveKeepsPositions(s.recipes, i, Overwrite(s.recipes[i].value, b), id);
    }
  }

  lemma DeleteKeepsValid(env: Env, s: State, bearer: Option<Jwt>, id: Id, now: int)
    requires Valid(s)
    ensures Valid(DeleteRecipe(env, s, bearer, id, now).state)
  {
    var out := DeleteRecipe(env, s, bearer, id, now);
    if out.response.status == 200 {
      SubsequenceUniqueIds(out.state.recipes, s.recipes);
    }
  }

  /** Every route keeps the store invariant. */
  lemma HandleKeepsValid(env: Env, s: State, req: Request, now: int)
    requires Valid(s)
    ensures Valid(Handle(env, s, req, now).state)
  {
    if req.SignupRequest? || req.LoginRequest? || req.LogoutRequest? || req.ResetPasswordRequest? {
      AccountRoutesKeepValid(env, s, req, now);
    } else {
      RecipeRoutesKeepValid(env, s, req, now);
    }
  }

  lemma AccountRoutesKeepValid(env: Env, s: State, req: Request, now: int)
    requires Valid(s)
    requires req.SignupRequest? || req.LoginRequest? || req.LogoutRequest? || req.ResetPasswordRequest?
    ensures Valid(Handle(env, s, req, now).state)
  {
    match req
    case SignupRequest(b) => SignupKeepsValid(env, s, b);
    case LoginRequest(b) => LoginKeepsValid(env, s, b, now);
    case LogoutRequest(t) => LogoutKeepsValid(env, s, t, now);
    case ResetPasswordRequest(b) => ResetKeepsValid(env, s, b, now);
  }

  lemma RecipeRoutesKeepValid(env: Env, s: State, req: Request, now: int)
    requires Valid(s)
    requires !(req.SignupRequest? || req.LoginRequest? || req.LogoutRequest? || req.ResetPasswordRequest?)
    ensures Valid(Handle(env, s, req, now).state)
  {
    match req
    case CreateRecipeRequest(t, b) => CreateKeepsValid(env, s, t, b, now);
    case UpdateRecipeRequest(t, id, b) => UpdateKeepsValid(env, s, t, id, b, now);
    case DeleteRecipeRequest(t, id) => DeleteKeepsValid(env, s, t, id, now);
    case _ =>
  }

  // ------------------------------------------------------ stable user data

  /**
   Users are never deleted or moved, and no route rewrites a user's name,
   email, role or status; a user a route adds starts `Active`, offline and
   without `lastLogin`.
   */
  predicate UsersStable(s: State, s': State) {
    && |s.users| <= |s'.users|
    && (forall i :: 0 <= i < |s.users| ==>
          && s'.users[i].id == s.users[i].id
          && s'.users[i].value.name == s.users[i].value.name
          && s'.users[i].value.email == s.users[i].value.email
          && s'.users[i].value.role == s.users[i].value.role
          && s'.users[i].value.status == s.users[i].value.status)
    && (forall i :: |s.users| <= i < |s'.users| ==>
          && s'.users[i].value.status == Active
          && !s'.users[i].value.isOnline && s'.users[i].value.lastLogin.None?)
  }

  lemma HandleKeepsUsersStable(env: Env, s: State, req: Request, now: int)
    ensures UsersStable(s, Handle(env, s, req, now).state)
  {
    if req.SignupRequest? || req.LoginRequest? || req.LogoutRequest? || req.ResetPasswordRequest? {
      AccountRoutesStable(env, s, req, now);
    } else {
      OtherRoutesKeepUsers(env, s, req, now);
      SameUsersStable(s, Handle(env, s, req, now).state);
    }
  }

  lemma AccountRoutesStable(env: Env, s: State, req: Request, now: int)
    requires req.SignupRequest? || req.LoginRequest? || req.LogoutRequest? || req.ResetPasswordRequest?
    ensures UsersStable(s, Handle(env, s, req, now).state)
  {
    match req
    case SignupRequest(b) => SignupStable(env, s, b);
    case LoginRequest(b) => LoginStable(env, s, b, now);
    case LogoutRequest(t) => LogoutStable(env, s, t, now);
    case ResetPasswordRequest(b) => ResetStable(env, s, b, now);
  }

  /** Every route other than signup, login, logout and reset leaves the users as they are. */
  lemma OtherRoutesKeepUsers(env: Env, s: State, req: Request, now: int)
    requires !(req.SignupRequest? || req.LoginRequest? || req.LogoutRequest? || req.ResetPasswordRequest?)
    ensures Handle(env, s, req, now).state.users == s.users
  {
  }

  lemma SameUsersStable(s: State, s': State)
    requires s'.users == s.users
    ensures UsersStable(s, s')
  {
  }

  lemma SignupStable(env: Env, s: State, b: SignupBody)
    ensures UsersStable(s, Signup(env, s, b).state)
  {
    var out := Signup(env, s, b);
    if out.response.status == 201 {
      var d := out.state.users[|s.users|];
      assert out.state.users == s.users + [d];
      AppendStable(s, out.state, d);
    } else {
      SameUsersStable(s, out.state);
    }
  }

  /** Appending a fresh, offline, never-logged-in active user keeps every user stable. */
  lemma AppendStable(s: State, s': State, d: Doc<User>)
    requires s'.users == s.users + [d]
    requires d.value.status == Active && !d.value.isOnline && d.value.lastLogin.None?
    ensures UsersStable(s, s')
  {
    assert forall i :: 0 <= i < |s.users| ==> s'.users[i] == s.users[i];
  }

  lemma LogoutStable(env: Env, s: State, t: Option<Jwt>, now: int)
    ensures UsersStable(s, Logout(env, s, t, now).state)
  {
    var s' := Logout(env, s, t, now).state;
    assert forall i :: 0 <= i < |s.users| ==>
      s'.users[i].id == s.users[i].id && s'.users[i].value.(isOnline := false) == s.users[i].value.(isOnline := false);
  }

  /** Saving a user in place with the same name, email, role and status keeps every user stable. */
  lemma SaveStable(s: State, s': State, i: nat, u: User)
    requires i < |s.users| && s'.users == Save(s.users, i, u)
    requires u.name == s.users[i].value.name && u.email == s.users[i].value.email
    requires u.role == s.users[i].value.role && u.status == s.users[i].value.status
    ensures UsersStable(s, s')
  {
  }

  lemma LoginStable(env: Env, s: State, b: LoginBody, now: int)
    ensures UsersStable(s, Login(env, s, b, now).state)
  {
    var out := Login(env, s, b, now);
    if out.response.status == 200 {
      var i := FindByEmail(s.users, b.email.value).value;
      SaveStable(s, out.state, i, s.users[i].value.(lastLogin := Some(now), isOnline := true));
    } else {
      SameUsersStable(s, out.state);
    }
  }

  lemma ResetStable(env: Env, s: State, b: ResetBody, now: int)
    ensures UsersStable(s, ResetPassword(env, s, b, now).state)
  {
    var out := ResetPassword(env, s, b, now);
    if out.response.status == 200 {
      var i := Position(s.users, b.token.value.claims.userId.value).value;
      SaveStable(s, out.state, i, s.users[i].value.(password := Hash(b.newPassword.value)));
    } else {
      SameUsersStable(s, out.state);
    }
  }

  // --------------------------------------------------- signup and login

  /**
   After a successful signup the same email (in any letter case or with
   surrounding blanks) is refused as already registered.
   */
  lemma SignupTwiceRefused(env: Env, s: State, b: SignupBody, b2: SignupBody)
    requires Signup(env, s, b).response.status == 201
    requires Truthy(b2.name) && Truthy(b2.email) && Truthy(b2.password)
    requires NormalizeEmail(b2.email.value) == NormalizeEmail(b.email.value)
    ensures var s' := Signup(env, s, b).state;
      Signup(env, s', b2) == Step(s', Response(400, "User already exists", NoBody))
  {
    var s' := Signup(env, s, b).state;
    assert s'.users[|s.users|].value.email == NormalizeEmail(b2.email.value);
  }

  /** Signing up and then logging in with the same email and password succeeds. */
  lemma SignupThenLogin(env: Env, s: State, b: SignupBody, now: int)
    requires Signup(env, s, b).response.status == 201
    ensures var s' := Signup(env, s, b).state;
      Login(env, s', LoginBody(b.email, b.password), now).response.status == 200
  {
    var s' := Signup(env, s, b).state;
    var d := s'.users[|s.users|];
    var key := NormalizeEmail(b.email.value);
    assert s'.users == s.users + [d];
    FindOneAppend(s.users, d, (u: User) => u.email == key);
    assert FindByEmail(s'.users, b.email.value) == Some(|s.users|);
    assert CredentialsMatch(s', b.email.value, b.password.value);
  }

  /**
   A login token carries the user's id, stored email and role, and
   verifies exactly until five hours after the login.
   */
  lemma LoginTokenLifetime(env: Env, s: State, b: LoginBody, now: int, later: int)
    requires Login(env, s, b, now).response.status == 200
    ensures var t := Login(env, s, b, now).response.body.token;
      var d := s.users[FindByEmail(s.users, b.email.value).value];
      && t.claims == Claims(Some(d.id), Some(d.value.email), Some(RoleName(d.value.role)))
      && (Verify(env.jwtSecret, t, later).Some? <==> later < now + LoginTtl)
  {
  }

  /**
   An unknown email and a wrong password are answered identically, so a
   caller cannot tell which one failed.
   */
  lemma LoginFailuresIndistinguishable(env: Env, s1: State, s2: State, b1: LoginBody, b2: LoginBody, now: int)
    requires Truthy(b1.email) && Truthy(b1.password) && FindByEmail(s1.users, b1.email.value).None?
    requires Truthy(b2.email) && Truthy(b2.password) && FindByEmail(s2.users, b2.email.value).Some?
    requires !Matches(b2.password.value, s2.users[FindByEmail(s2.users, b2.email.value).value].value.password)
    ensures Login(env, s1, b1, now).response == Login(env, s2, b2, now).response
    ensures Login(env, s1, b1, now).state == s1 && Login(env, s2, b2, now).state == s2
  {
  }

  /** Logging out twice is the same as logging out once. */
  lemma LogoutIdempotent(env: Env, s: State, bearer: Option<Jwt>, now: int)
    ensures var once := Logout(env, s, bearer, now);
      Logout(env, once.state, bearer, now) == once
  {
    var once := Logout(env, s, bearer, now);
    if Authenticate(env, bearer, now).Admit? {
      var c := bearer.value.claims;
      if c.userId.Some? && Position(s.users, c.userId.value).Some? {
        var i := Position(s.users, c.userId.value).value;
        SaveKeepsPositions(s.users, i, s.users[i].value.(isOnline := false), c.userId.value);
      }
    }
  }

  // ------------------------------------------------------------- recipes

  /**
   A recipe created from a body is then found under the id the create
   returned, with the submitted fields, the schema defaults, the caller as
   owner and the creation instant.
   */
  lemma CreateThenGet(env: Env, s: State, bearer: Option<Jwt>, b: RecipeBody, now: int)
    requires Valid(s)
    requires CreateRecipe(env, s, bearer, b, now).response.status == 201
    ensures var s' := CreateRecipe(env, s, bearer, b, now).state;
      var d := CreateRecipe(env, s, bearer, b, now).response.body.recipe;
      && d.id == s.nextId
      && GetRecipe(s', d.id).response == Response(200, "", RecipeDoc(d))
      && d.value == NewRecipe(b, bearer.value.claims.userId, now)
  {
    var s' := CreateRecipe(env, s, bearer, b, now).state;
    var n := |s.recipes|;
    assert !HasId(s.recipes, s.nextId);
    PositionAppend(s.recipes, Doc(s.nextId, NewRecipe(b, bearer.value.claims.userId, now)));
  }

  /**
   The update applies the body as it comes, so a body that names another
   owner moves the recipe into that user's own list.
   */
  lemma UpdateReassignsOwner(env: Env, s: State, bearer: Option<Jwt>, id: Id, b: RecipeBody, now: int, owner: Id)
    requires UpdateRecipe(env, s, bearer, id, b, now).response.status == 200
    requires b.createdBy == Some(owner)
    ensures var out := UpdateRecipe(env, s, bearer, id, b, now);
      out.response.body.recipe in RecipesBy(out.state.recipes, owner)
  {
    var out := UpdateRecipe(env, s, bearer, id, b, now);
    var i := Position(s.recipes, id).value;
    var r' := Overwrite(s.recipes[i].value, b);
    assert out.state.recipes[i] == Doc(id, r');
  }

  /** After a successful delete the id is gone: exactly one recipe left the store. */
  lemma DeleteThenGone(env: Env, s: State, bearer: Option<Jwt>, id: Id, now: int)
    requires Valid(s)
    requires DeleteRecipe(env, s, bearer, id, now).response.status == 200
    ensures var s' := DeleteRecipe(env, s, bearer, id, now).state;
      && |s'.recipes| == |s.recipes| - 1
      && GetRecipe(s', id).response.status == 404
  {
    RemoveOne(s.recipes, id);
  }

  // ------------------------------------------------------ password reset

  lemma ResetSuccess(env: Env, s: State, b: ResetBody, now: int, i: nat)
    requires Valid(s) && Truthy(b.email) && b.token.Some? && Truthy(b.newPassword)
    requires Verify(env.jwtSecret, b.token.value, now).Some?
    requires i < |s.users| && b.token.value.claims.userId == Some(s.users[i].id)
    requires s.users[i].value.email == NormalizeEmail(b.email.value)
    ensures ResetPassword(env, s, b, now).response.status == 200
  {
    UniquePosition(s.users, i);
    assert ResetTarget(s, b.token.value.claims, b.email.value, i);
  }

  /**
   The link issued by forgot-password resets the password of the user it
   was issued for, with the email as submitted, exactly until fifteen
   minutes after it was issued.
   */
  lemma ForgotThenReset(env: Env, s: State, email: string, issued: int, pw: string, now: int)
    requires Valid(s) && email != "" && pw != ""
    requires FindByEmail(s.users, email).Some?
    ensures var t := ForgotPassword(env, s, Some(email), issued).response.body.token;
      var ok := ResetPassword(env, s, ResetBody(Some(email), Some(t), Some(pw)), now).response.status == 200;
      ok <==> now < issued + ResetTtl
  {
    var t := ForgotPassword(env, s, Some(email), issued).response.body.token;
    if now < issued + ResetTtl {
      var i := FindByEmail(s.users, email).value;
      ResetSuccess(env, s, ResetBody(Some(email), Some(t), Some(pw)), now, i);
    }
  }

  /**
   A forgot-password body without an email still gets a link when anyone
   is registered: its token is a valid reset token for the first user in
   store order, for fifteen minutes, and the link's email reads "undefined".
   */
  lemma ForgotWithoutEmailPicksFirstUser(env: Env, s: State, issued: int, now: int)
    requires |s.users| > 0
    ensures var out := ForgotPassword(env, s, None, issued);
      && out.response.status == 200
      && out.response.body.email == UndefinedText
      && (Verify(env.jwtSecret, out.response.body.token, now).Some? <==> now < issued + ResetTtl)
      && (now < issued + ResetTtl ==>
            Verify(env.jwtSecret, out.response.body.token, now).value.userId == Some(s.users[0].id))
  {
  }

  /**
   Any verifiable token that carries the user's id is accepted by reset,
   including the five-hour login token.
   */
  lemma ResetAcceptsLoginToken(env: Env, s: State, b: LoginBody, loginAt: int, pw: string, now: int)
    requires Valid(s) && pw != ""
    requires Login(env, s, b, loginAt).response.status == 200
    requires now < loginAt + LoginTtl
    ensures var step := Login(env, s, b, loginAt);
      ResetPassword(env, step.state, ResetBody(b.email, Some(step.response.body.token), Some(pw)), now).response.status == 200
  {
    var step := Login(env, s, b, loginAt);
    LoginKeepsValid(env, s, b, loginAt);
    var i := FindByEmail(s.users, b.email.value).value;
    ResetSuccess(env, step.state, ResetBody(b.email, Some(step.response.body.token), Some(pw)), now, i);
  }

  /**
   After a reset only that user's hash differs: its new password logs in,
   and any other password, the old one included, does not.
   */
  lemma ResetThenLogin(env: Env, s: State, b: ResetBody, now: int, pw: string, later: int)
    requires Valid(s) && ResetPassword(env, s, b, now).response.status == 200
    requires Truthy(Some(pw))
    ensures var s' := ResetPassword(env, s, b, now).state;
      Login(env, s', LoginBody(b.email, Some(pw)), later).response.status == 200 <==> pw == b.newPassword.value
  {
    var s' := ResetPassword(env, s, b, now).state;
    var i := Position(s.users, b.token.value.claims.userId.value).value;
    var k :| ResetTarget(s, b.token.value.claims, b.email.value, k);
    assert k == i;
    ResetKeepsValid(env, s, b, now);
    assert s'.users[i].value.email == s.users[i].value.email;
    UniqueEmailFind(s'.users, i, b.email.value);
  }

  /** With unique emails, the user holding the normalised email is the one found. */
  lemma UniqueEmailFind(users: seq<Doc<User>>, i: nat, email: string)
    requires UniqueEmails(users) && i < |users| && users[i].value.email == NormalizeEmail(email)
    ensures FindByEmail(users, email) == Some(i)
  {
    var f := FindByEmail(users, email);
    assert f.Some?;
  }
}
