/**
 The HTTP route handlers of the backend as a state machine: each handler
 maps the current store contents and one request to the next store
 contents and a response (status, message, body). Token verification
 and password hashing are the opaque operations of `Crypto`; the clock
 is the integer `now` (seconds).
 */
module Server {
  import opened Wrappers
  import opened Text
  import opened Seqs
  import opened Store
  import opened Crypto
  import opened Models
  import opened Stats

  /** Process configuration read from the environment at start-up. */
  datatype Env = Env(jwtSecret: string, adminCode: string, frontendUrl: string)

  /** The two collections of the document store, and the next identifier it will generate. */
  datatype State = State(users: seq<Doc<User>>, recipes: seq<Doc<Recipe>>, nextId: nat)

  datatype Body =
    | NoBody
    | UserSummary(name: string, email: string, role: string)
    | TokenIssued(token: Jwt)
    | RecipeDoc(recipe: Doc<Recipe>)
    | RecipeList(recipes: seq<Doc<Recipe>>)
    | UserList(users: seq<Doc<PublicUser>>)
    | ResetLink(frontendUrl: string, token: Jwt, email: string)
    | DashboardStats(stats: Dashboard)
    | Profile(user: Doc<PublicUser>, recipes: seq<Doc<Recipe>>)

  datatype Response = Response(status: nat, message: string, body: Body)

  datatype Step = Step(state: State, response: Response)

  /** The generic catch path, for a document the schema's validators refuse. */
  const ServerError := Response(500, "Server error", NoBody)

  /** A JSON body field is truthy: present and not the empty string. */
  predicate Truthy(f: Option<string>) {
    f.Some? && f.value != ""
  }

  // ------------------------------------------------------------ invariant

  predicate UniqueEmails(users: seq<Doc<User>>) {
    forall i, j :: 0 <= i < j < |users| ==> users[i].value.email != users[j].value.email
  }

  /**
   What the store guarantees between requests: identifiers are unique and
   older than `nextId`, every user passed the schema's validators, and no
   two users share an email (the schema's `unique` index).
   */
  predicate Valid(s: State) {
    && UniqueIds(s.users) && UniqueIds(s.recipes)
    && (forall i :: 0 <= i < |s.users| ==> s.users[i].id < s.nextId && ValidUser(s.users[i].value))
    && (forall i :: 0 <= i < |s.recipes| ==> s.recipes[i].id < s.nextId)
    && UniqueEmails(s.users)
  }

  /** `User.findOne({ email })`, the query value normalised by the schema's setters. */
  function FindByEmail(users: seq<Doc<User>>, email: string): (r: Option<nat>)
    ensures r.Some? ==> r.value < |users| && users[r.value].value.email == NormalizeEmail(email)
    ensures r.None? ==> forall j :: 0 <= j < |users| ==> users[j].value.email != NormalizeEmail(email)
  {
    var key := NormalizeEmail(email);
    FindOne(users, (u: User) => u.email == key)
  }

  // ---------------------------------------------------------- middleware

  datatype Gate = Admit(claims: Claims) | Deny(response: Response)

  const NoToken := Response(401, "Access denied. No token provided.", NoBody)
  const BadToken := Response(401, "Invalid token.", NoBody)
  const AdminsOnly := Response(403, "Access denied. Admins only.", NoBody)

  /**
   `authenticate`: no bearer token is a 401 "no token", a token that does
   not verify is a 401 "invalid", and a verified token admits its claims.
   */
  function Authenticate(env: Env, bearer: Option<Jwt>, now: int): (g: Gate)
    ensures bearer.None? ==> g == Deny(NoToken)
    ensures bearer.Some? && Verify(env.jwtSecret, bearer.value, now).None? ==> g == Deny(BadToken)
    ensures g.Admit? <==> bearer.Some? && Verify(env.jwtSecret, bearer.value, now).Some?
    ensures g.Admit? ==> g.claims == bearer.value.claims
  {
    match bearer
    case None => Deny(NoToken)
    case Some(t) =>
      match Verify(env.jwtSecret, t, now)
      case None => Deny(BadToken)
      case Some(c) => Admit(c)
  }

  /** `authorizeAdmin`: the verified role must be exactly the string "admin". */
  predicate IsAdmin(c: Claims) {
    c.role == Some("admin")
  }

  /** `authenticate` followed by `authorizeAdmin`. */
  function AdminGate(env: Env, bearer: Option<Jwt>, now: int): (g: Gate)
    ensures Authenticate(env, bearer, now).Deny? ==> g == Authenticate(env, bearer, now)
    ensures g.Admit? <==> Authenticate(env, bearer, now).Admit? && IsAdmin(bearer.value.claims)
    ensures Authenticate(env, bearer, now).Admit? && !IsAdmin(bearer.value.claims) ==> g == Deny(AdminsOnly)
    ensures g.Admit? ==> g.claims == bearer.value.claims
  {
    match Authenticate(env, bearer, now)
    case Deny(r) => Deny(r)
    case Admit(c) => if IsAdmin(c) then Admit(c) else Deny(AdminsOnly)
  }

  // -------------------------------------------------------------- signup

  datatype SignupBody = SignupBody(
    name: Option<string>,
    email: Option<string>,
    password: Option<string>,
    role: Option<string>,
    adminCode: Option<string>)

  /** The role signup assigns: "admin" only when asked for with the right code. */
  function AssignedRole(b: SignupBody): Role {
    if b.role == Some("admin") then AdminRole else UserRole
  }

  /**
   POST /api/users/signup. Checks, in this order: a missing field is a
   400, an already registered email a 400, a request for the admin role
   with the wrong code a 403; a name or email that is only whitespace is
   refused by the schema on save (500). Success appends exactly one user
   holding the password's hash, and answers 201 with the submitted name
   and email and the assigned role, never the password.
   */
  function Signup(env: Env, s: State, b: SignupBody): (out: Step)
    ensures !(Truthy(b.name) && Truthy(b.email) && Truthy(b.password))
      ==> out == Step(s, Response(400, "Please provide all fields", NoBody))
    ensures Truthy(b.name) && Truthy(b.email) && Truthy(b.password) && FindByEmail(s.users, b.email.value).Some?
      ==> out == Step(s, Response(400, "User already exists", NoBody))
    ensures Truthy(b.name) && Truthy(b.email) && Truthy(b.password) && FindByEmail(s.users, b.email.value).None?
        && b.role == Some("admin") && b.adminCode != Some(env.adminCode)
      ==> out == Step(s, Response(403, "Invalid admin code", NoBody))
    ensures out.response.status == 201 <==>
      && Truthy(b.name) && Truthy(b.email) && Truthy(b.password)
      && FindByEmail(s.users, b.email.value).None?
      && (b.role == Some("admin") ==> b.adminCode == Some(env.adminCode))
      && !AllSpace(b.name.value) && NormalizeEmail(b.email.value) != ""
    ensures out.response.status != 201 ==> out.state == s
    ensures out.response.status == 201 ==>
      && out.state.recipes == s.recipes && out.state.nextId == s.nextId + 1
      && |out.state.users| == |s.users| + 1 && out.state.users[..|s.users|] == s.users
      && out.state.users[|s.users|] == Doc(s.nextId, NewUser(b.name.value, b.email.value, Hash(b.password.value), AssignedRole(b)))
      && out.response.body == UserSummary(b.name.value, b.email.value, RoleName(AssignedRole(b)))
  {
    if !(Truthy(b.name) && Truthy(b.email) && Truthy(b.password)) then
      Step(s, Response(400, "Please provide all fields", NoBody))
    else if FindByEmail(s.users, b.email.value).Some? then
      Step(s, Response(400, "User already exists", NoBody))
    else if b.role == Some("admin") && b.adminCode != Some(env.adminCode) then
      Step(s, Response(403, "Invalid admin code", NoBody))
    else
      var role := AssignedRole(b);
      var u := NewUser(b.name.value, b.email.value, Hash(b.password.value), role);
      if !ValidUser(u) then Step(s, ServerError)
      else
        var users := s.users + [Doc(s.nextId, u)];
        assert users[..|s.users|] == s.users;
        Step(State(users, s.recipes, s.nextId + 1),
             Response(201, "User registered successfully", UserSummary(b.name.value, b.email.value, RoleName(role))))
  }

  // --------------------------------------------------------- login/logout

  datatype LoginBody = LoginBody(email: Option<string>, password: Option<string>)

  const BadCredentials := Response(400, "Invalid email or password", NoBody)

  /** The claims a login token carries. */
  function LoginClaims(d: Doc<User>): Claims {
    Claims(Some(d.id), Some(d.value.email), Some(RoleName(d.value.role)))
  }

  /** The password `password` opens the account registered under `email`. */
  predicate CredentialsMatch(s: State, email: string, password: string) {
    var i := FindByEmail(s.users, email);
    i.Some? && Matches(password, s.users[i.value].value.password)
  }

  /**
   POST /api/users/login. Unknown email and wrong password give the same
   400 and change nothing; success marks that user online with
   `lastLogin = now` and issues a token for its id, email and role that
   expires five hours later.
   */
  function Login(env: Env, s: State, b: LoginBody, now: int): (out: Step)
    ensures !(Truthy(b.email) && Truthy(b.password))
      ==> out == Step(s, Response(400, "Email and password required", NoBody))
    ensures Truthy(b.email) && Truthy(b.password) && !CredentialsMatch(s, b.email.value, b.password.value)
      ==> out == Step(s, BadCredentials)
    ensures out.response.status == 200 <==>
      Truthy(b.email) && Truthy(b.password) && CredentialsMatch(s, b.email.value, b.password.value)
    ensures out.response.status != 200 ==> out.state == s
    ensures out.response.status == 200 ==>
      var i := FindByEmail(s.users, b.email.value).value;
      var d := s.users[i];
      && out.state == s.(users := Save(s.users, i, d.value.(lastLogin := Some(now), isOnline := true)))
      && out.response.body == TokenIssued(Jwt(LoginClaims(d), now + LoginTtl, env.jwtSecret))
  {
    if !(Truthy(b.email) && Truthy(b.password)) then
      Step(s, Response(400, "Email and password required", NoBody))
    else
      match FindByEmail(s.users, b.email.value)
      case None => Step(s, BadCredentials)
      case Some(i) =>
        var d := s.users[i];
        if !Matches(b.password.value, d.value.password) then Step(s, BadCredentials)
        else
          var u := d.value.(lastLogin := Some(now), isOnline := true);
          var token := Sign(env.jwtSecret, LoginClaims(d), now, LoginTtl);
          Step(s.(users := Save(s.users, i, u)), Response(200, "Login successful", TokenIssued(token)))
  }

  /**
   POST /api/users/logout. Any verified token gets 200; the user its id
   names, when there is one, is marked offline and nothing else changes.
   */
  function Logout(env: Env, s: State, bearer: Option<Jwt>, now: int): (out: Step)
    ensures Authenticate(env, bearer, now).Deny? ==> out == Step(s, Authenticate(env, bearer, now).response)
    ensures Authenticate(env, bearer, now).Admit? ==> out.response == Response(200, "Logged out successfully", NoBody)
    ensures out.state.recipes == s.recipes && out.state.nextId == s.nextId
    ensures |out.state.users| == |s.users|
    ensures forall i :: 0 <= i < |s.users| ==>
      out.state.users[i] == (
        if Authenticate(env, bearer, now).Admit? && bearer.value.claims.userId == Some(s.users[i].id)
           && Position(s.users, s.users[i].id) == Some(i)
        then Doc(s.users[i].id, s.users[i].value.(isOnline := false))
        else s.users[i])
  {
    match Authenticate(env, bearer, now)
    case Deny(r) => Step(s, r)
    case Admit(c) =>
      var users :=
        match c.userId
        case None => s.users
        case Some(uid) =>
          match Position(s.users, uid)
          case None => s.users
          case Some(i) => Save(s.users, i, s.users[i].value.(isOnline := false));
      Step(s.(users := users), Response(200, "Logged out successfully", NoBody))
  }

  /** GET /api/users: admins get every user without its password hash. */
  function ListUsers(env: Env, s: State, bearer: Option<Jwt>, now: int): (out: Step)
    ensures out.state == s
    ensures AdminGate(env, bearer, now).Deny? ==> out.response == AdminGate(env, bearer, now).response
    ensures AdminGate(env, bearer, now).Admit? ==>
      && out.response.status == 200 && out.response.body.UserList?
      && |out.response.body.users| == |s.users|
      && forall i :: 0 <= i < |s.users| ==>
           out.response.body.users[i] == Doc(s.users[i].id, Public(s.users[i].value))
  {
    match AdminGate(env, bearer, now)
    case Deny(r) => Step(s, r)
    case Admit(_) =>
      Step(s, Response(200, "", UserList(Map(s.users, (d: Doc<User>) => Doc(d.id, Public(d.value))))))
  }

  // ------------------------------------------------------------- recipes

  datatype RecipeBody = RecipeBody(
    title: Option<string>,
    description: Option<string>,
    ingredients: Option<seq<string>>,
    steps: Option<seq<string>>,
    cookingTime: Option<int>,
    servings: Option<int>,
    category: Option<string>,
    difficulty: Option<string>,
    imageUrl: Option<string>,
    createdBy: Option<Id>,
    createdAt: Option<int>)

  /** The seven required fields are all truthy; an array is truthy even when empty, a number unless 0. */
  predicate RequiredPresent(b: RecipeBody) {
    && Truthy(b.title) && Truthy(b.description)
    && b.ingredients.Some? && b.steps.Some?
    && b.cookingTime.Some? && b.cookingTime.value != 0
    && b.servings.Some? && b.servings.value != 0
    && Truthy(b.category)
  }

  /**
   `new Recipe({ ...fields, createdBy })` at instant `now`, with the
   schema's defaults. Only the nine form fields are taken from the body, so
   a `createdBy` or `createdAt` in it is ignored.
   */
  function NewRecipe(b: RecipeBody, createdBy: Option<Id>, now: int): (r: Recipe)
    requires RequiredPresent(b)
    ensures r.title == b.title.value && r.description == b.description.value
    ensures r.ingredients == b.ingredients.value && r.steps == b.steps.value
    ensures r.cookingTime == b.cookingTime.value && r.servings == b.servings.value
    ensures r.category == b.category.value && r.imageUrl == b.imageUrl
    ensures r.difficulty == (if b.difficulty.Some? then b.difficulty.value else DefaultDifficulty)
    ensures r.createdBy == createdBy && r.createdAt == now
  {
    Recipe(b.title.value, b.description.value, b.ingredients.value, b.steps.value,
           b.cookingTime.value, b.servings.value, b.category.value,
           b.difficulty.GetOr(DefaultDifficulty), b.imageUrl, createdBy, now)
  }

  /**
   POST /api/recipes (admin). Without all seven required fields it is a
   400 and nothing changes; otherwise exactly one recipe is appended, owned
   by the caller's user id, and returned with 201.
   */
  function CreateRecipe(env: Env, s: State, bearer: Option<Jwt>, b: RecipeBody, now: int): (out: Step)
    ensures AdminGate(env, bearer, now).Deny? ==> out == Step(s, AdminGate(env, bearer, now).response)
    ensures AdminGate(env, bearer, now).Admit? && !RequiredPresent(b)
      ==> out == Step(s, Response(400, "Please provide all required fields", NoBody))
    ensures out.response.status == 201 <==> AdminGate(env, bearer, now).Admit? && RequiredPresent(b)
    ensures out.response.status == 201 ==>
      var r := NewRecipe(b, bearer.value.claims.userId, now);
      && out.state == s.(recipes := s.recipes + [Doc(s.nextId, r)], nextId := s.nextId + 1)
      && out.response.body == RecipeDoc(Doc(s.nextId, r))
  {
    match AdminGate(env, bearer, now)
    case Deny(resp) => Step(s, resp)
    case Admit(c) =>
      if !RequiredPresent(b) then Step(s, Response(400, "Please provide all required fields", NoBody))
      else
        var d := Doc(s.nextId, NewRecipe(b, c.userId, now));
        Step(s.(recipes := s.recipes + [d], nextId := s.nextId + 1),
             Response(201, "Recipe added successfully", RecipeDoc(d)))
  }

  /** GET /api/recipes: every recipe, in store order. */
  function ListRecipes(s: State): (out: Step)
    ensures out.state == s
    ensures out.response == Response(200, "", RecipeList(s.recipes))
  {
    Step(s, Response(200, "", RecipeList(s.recipes)))
  }

  /** GET /api/recipes/:id: the recipe with that id, or 404; never a change. */
  function GetRecipe(s: State, id: Id): (out: Step)
    ensures out.state == s
    ensures !HasId(s.recipes, id) ==> out.response == Response(404, "Recipe not found", NoBody)
    ensures HasId(s.recipes, id) ==>
      && out.response.status == 200 && out.response.body.RecipeDoc?
      && out.response.body.recipe.id == id && out.response.body.recipe in s.recipes
  {
    match Position(s.recipes, id)
    case None => Step(s, Response(404, "Recipe not found", NoBody))
    case Some(i) => Step(s, Response(200, "", RecipeDoc(s.recipes[i])))
  }

  /**
   Overwrites exactly the fields the request body supplies. The update
   passes the whole body on, so a body carrying `createdBy` or `createdAt`
   rewrites the owner or the creation instant too.
   */
  function Overwrite(r: Recipe, b: RecipeBody): (r': Recipe)
    ensures r'.title == b.title.GetOr(r.title) && r'.description == b.description.GetOr(r.description)
    ensures r'.ingredients == b.ingredients.GetOr(r.ingredients) && r'.steps == b.steps.GetOr(r.steps)
    ensures r'.cookingTime == b.cookingTime.GetOr(r.cookingTime) && r'.servings == b.servings.GetOr(r.servings)
    ensures r'.category == b.category.GetOr(r.category) && r'.difficulty == b.difficulty.GetOr(r.difficulty)
    ensures r'.imageUrl == (if b.imageUrl.Some? then b.imageUrl else r.imageUrl)
    ensures r'.createdBy == (if b.createdBy.Some? then b.createdBy else r.createdBy)
    ensures r'.createdAt == b.createdAt.GetOr(r.createdAt)
  {
    Recipe(b.title.GetOr(r.title), b.description.GetOr(r.description),
           b.ingredients.GetOr(r.ingredients), b.steps.GetOr(r.steps),
           b.cookingTime.GetOr(r.cookingTime), b.servings.GetOr(r.servings),
           b.category.GetOr(r.category), b.difficulty.GetOr(r.difficulty),
           if b.imageUrl.Some? then b.imageUrl else r.imageUrl,
           if b.createdBy.Some? then b.createdBy else r.createdBy,
           b.createdAt.GetOr(r.createdAt))
  }

  /**
   PUT /api/recipes/:id (admin). An unknown id is a 404 with no change;
   otherwise only that recipe changes, to its overwritten form, which is
   returned.
   */
  function UpdateRecipe(env: Env, s: State, bearer: Option<Jwt>, id: Id, b: RecipeBody, now: int): (out: Step)
    ensures AdminGate(env, bearer, now).Deny? ==> out == Step(s, AdminGate(env, bearer, now).response)
    ensures AdminGate(env, bearer, now).Admit? && !HasId(s.recipes, id)
      ==> out == Step(s, Response(404, "Recipe not found", NoBody))
    ensures out.response.status == 200 <==> AdminGate(env, bearer, now).Admit? && HasId(s.recipes, id)
    ensures out.response.status == 200 ==>
      var i := Position(s.recipes, id).value;
      var r' := Overwrite(s.recipes[i].value, b);
      && out.state == s.(recipes := Save(s.recipes, i, r'))
      && out.response.body == RecipeDoc(Doc(id, r'))
  {
    match AdminGate(env, bearer, now)
    case Deny(resp) => Step(s, resp)
    case Admit(_) =>
      match Position(s.recipes, id)
      case None => Step(s, Response(404, "Recipe not found", NoBody))
      case Some(i) =>
        var r' := Overwrite(s.recipes[i].value, b);
        Step(s.(recipes := Save(s.recipes, i, r')), Response(200, "Recipe updated successfully", RecipeDoc(Doc(id, r'))))
  }

  /**
   DELETE /api/recipes/:id (admin). An unknown id is a 404 with no change;
   otherwise exactly the documents with that id leave the collection, the
   others keep their order, and the removed recipe is returned.
   */
  function DeleteRecipe(env: Env, s: State, bearer: Option<Jwt>, id: Id, now: int): (out: Step)
    ensures AdminGate(env, bearer, now).Deny? ==> out == Step(s, AdminGate(env, bearer, now).response)
    ensures AdminGate(env, bearer, now).Admit? && !HasId(s.recipes, id)
      ==> out == Step(s, Response(404, "Recipe not found or already deleted", NoBody))
    ensures out.response.status == 200 <==> AdminGate(env, bearer, now).Admit? && HasId(s.recipes, id)
    ensures out.state.users == s.users && out.state.nextId == s.nextId
    ensures out.response.status == 200 ==>
      && out.state.recipes == Remove(s.recipes, id)
      && out.response.body.RecipeDoc? && out.response.body.recipe.id == id
      && out.response.body.recipe in s.recipes
  {
    match AdminGate(env, bearer, now)
    case Deny(resp) => Step(s, resp)
    case Admit(_) =>
      match Position(s.recipes, id)
      case None => Step(s, Response(404, "Recipe not found or already deleted", NoBody))
      case Some(i) =>
        Step(s.(recipes := Remove(s.recipes, id)), Response(200, "Recipe deleted successfully", RecipeDoc(s.recipes[i])))
  }

  // ------------------------------------------------------ password reset

  /** What a template literal prints for `undefined`. */
  const UndefinedText := "undefined"

  /**
   POST /api/users/forgot-password. An unknown email is a 404; a known
   one gets a fifteen-minute token carrying only the user's id, in a link
   to the front end with the email exactly as submitted. A body without
   an email queries `{ email: undefined }`, which the document mapper
   sends as the empty filter: the first user in store order gets the
   link, and the link's email reads "undefined"; only an empty store is
   a 404 then. Nothing changes.
   */
  function ForgotPassword(env: Env, s: State, email: Option<string>, now: int): (out: Step)
    ensures out.state == s
    ensures out.response.status == 200 <==>
      if email.Some? then FindByEmail(s.users, email.value).Some? else |s.users| > 0
    ensures out.response.status != 200 ==> out.response == Response(404, "User not found", NoBody)
    ensures out.response.status == 200 && email.Some? ==>
      var d := s.users[FindByEmail(s.users, email.value).value];
      out.response.body == ResetLink(env.frontendUrl, Jwt(Claims(Some(d.id), None, None), now + ResetTtl, env.jwtSecret), email.value)
    ensures out.response.status == 200 && email.None? ==>
      out.response.body == ResetLink(env.frontendUrl, Jwt(Claims(Some(s.users[0].id), None, None), now + ResetTtl, env.jwtSecret), UndefinedText)
  {
    var found := if email.Some? then FindByEmail(s.users, email.value) else FindOne(s.users, (u: User) => true);
    match found
    case None => Step(s, Response(404, "User not found", NoBody))
    case Some(i) =>
      var token := Sign(env.jwtSecret, Claims(Some(s.users[i].id), None, None), now, ResetTtl);
      Step(s, Response(200, "Reset link generated", ResetLink(env.frontendUrl, token, email.GetOr(UndefinedText))))
  }

  datatype ResetBody = ResetBody(email: Option<string>, token: Option<Jwt>, newPassword: Option<string>)

  /**
   The user a reset request names: the one whose id the verified token
   carries and whose stored email matches the submitted one.
   */
  predicate ResetTarget(s: State, c: Claims, email: string, i: nat) {
    && c.userId.Some? && i < |s.users| && s.users[i].id == c.userId.value
    && Position(s.users, c.userId.value) == Some(i)
    && s.users[i].value.email == NormalizeEmail(email)
  }

  /**
   POST /api/users/reset-password. A missing field is a 400, a token that
   does not verify a 400, and a verified token whose id does not name a
   user with the submitted email a 404; nothing changes then. Otherwise
   only that user's password hash is replaced. Any verifiable token is
   accepted, whatever else it carries.
   */
  function ResetPassword(env: Env, s: State, b: ResetBody, now: int): (out: Step)
    ensures !(Truthy(b.email) && b.token.Some? && Truthy(b.newPassword))
      ==> out == Step(s, Response(400, "Email, token, and new password are required", NoBody))
    ensures Truthy(b.email) && b.token.Some? && Truthy(b.newPassword) && Verify(env.jwtSecret, b.token.value, now).None?
      ==> out == Step(s, Response(400, "Invalid or expired token", NoBody))
    ensures out.response.status == 200 <==>
      && Truthy(b.email) && b.token.Some? && Truthy(b.newPassword)
      && Verify(env.jwtSecret, b.token.value, now).Some?
      && exists i :: ResetTarget(s, b.token.value.claims, b.email.value, i)
    ensures out.response.status != 200 ==> out.state == s
    ensures out.response.status == 200 ==>
      var i := Position(s.users, b.token.value.claims.userId.value).value;
      out.state == s.(users := Save(s.users, i, s.users[i].value.(password := Hash(b.newPassword.value))))
  {
    if !(Truthy(b.email) && b.token.Some? && Truthy(b.newPassword)) then
      Step(s, Response(400, "Email, token, and new password are required", NoBody))
    else
      match Verify(env.jwtSecret, b.token.value, now)
      case None => Step(s, Response(400, "Invalid or expired token", NoBody))
      case Some(c) =>
        var target :=
          match c.userId
          case None => None
          case Some(uid) =>
            match Position(s.users, uid)
            case None => None
            case Some(i) => if s.users[i].value.email == NormalizeEmail(b.email.value) then Some(i) else None;
        assert target.Some? <==> exists i :: ResetTarget(s, c, b.email.value, i) by {
          if target.Some? {
            assert ResetTarget(s, c, b.email.value, target.value);
          }
        }
        match target
        case None => Step(s, Response(404, "User not found or email mismatch", NoBody))
        case Some(i) =>
          var u := s.users[i].value.(password := Hash(b.newPassword.value));
          Step(s.(users := Save(s.users, i, u)), Response(200, "Password reset successful", NoBody))
  }

  // ----------------------------------------------------------- dashboard

  predicate IsAdminUser(u: User) {
    u.role == AdminRole
  }

  predicate IsActiveUser(u: User) {
    u.status == Active
  }

  function UserValues(users: seq<Doc<User>>): seq<User> {
    Map(users, (d: Doc<User>) => d.value)
  }

  /** The dashboard aggregate, recomputed from both collections. */
  function DashboardOf(s: State): (d: Dashboard)
    ensures d.totalUsers == |s.users| && d.totalRecipes == |s.recipes|
    ensures d.totalAdmins <= d.totalUsers && d.activeUsers <= d.totalUsers
    ensures d.totalAdmins == Count(UserValues(s.users), IsAdminUser)
    ensures d.activeUsers == Count(UserValues(s.users), IsActiveUser)
    ensures Sum(d.recipesByCategory) <= d.totalRecipes
    ensures Sum(d.recipesByCategory) == d.totalRecipes
        <==> forall i :: 0 <= i < |s.recipes| ==> s.recipes[i].value.category != ""
    ensures d.recipesByCategory == CategoryCounts(s.recipes)
  {
    CategorySumBound(s.recipes);
    var users := UserValues(s.users);
    Dashboard(|s.users|, Count(users, IsAdminUser), Count(users, IsActiveUser), |s.recipes|, CategoryCounts(s.recipes))
  }

  /** GET /api/admin/dashboard (admin): the aggregate; never a change. */
  function DashboardRoute(env: Env, s: State, bearer: Option<Jwt>, now: int): (out: Step)
    ensures out.state == s
    ensures AdminGate(env, bearer, now).Deny? ==> out.response == AdminGate(env, bearer, now).response
    ensures AdminGate(env, bearer, now).Admit? ==> out.response == Response(200, "", DashboardStats(DashboardOf(s)))
  {
    match AdminGate(env, bearer, now)
    case Deny(r) => Step(s, r)
    case Admit(_) => Step(s, Response(200, "", DashboardStats(DashboardOf(s))))
  }

  // -------------------------------------------------------------- profile

  /** The recipes a user created: `Recipe.find({ createdBy: userId })`. */
  function RecipesBy(recipes: seq<Doc<Recipe>>, uid: Id): (r: seq<Doc<Recipe>>)
    ensures IsSubsequence(r, recipes)
    ensures forall i :: 0 <= i < |r| ==> r[i].value.createdBy == Some(uid)
    ensures forall i :: 0 <= i < |recipes| && recipes[i].value.createdBy == Some(uid) ==> recipes[i] in r
  {
    Filter(recipes, (d: Doc<Recipe>) => d.value.createdBy == Some(uid))
  }

  /**
   GET /api/users/me. A verified caller whose id names a user gets that
   user without its hash and exactly the recipes it created, in store
   order; otherwise 404 (or the gate's 401). Never a change.
   */
  function Me(env: Env, s: State, bearer: Option<Jwt>, now: int): (out: Step)
    ensures out.state == s
    ensures Authenticate(env, bearer, now).Deny? ==> out.response == Authenticate(env, bearer, now).response
    ensures out.response.status == 200 <==>
      Authenticate(env, bearer, now).Admit? && bearer.value.claims.userId.Some?
      && HasId(s.users, bearer.value.claims.userId.value)
    ensures Authenticate(env, bearer, now).Admit? && out.response.status != 200
      ==> out.response == Response(404, "User not found", NoBody)
    ensures out.response.status == 200 ==>
      var uid := bearer.value.claims.userId.value;
      var i := Position(s.users, uid).value;
      out.response.body == Profile(Doc(uid, Public(s.users[i].value)), RecipesBy(s.recipes, uid))
  {
    match Authenticate(env, bearer, now)
    case Deny(r) => Step(s, r)
    case Admit(c) =>
      match c.userId
      case None => Step(s, Response(404, "User not found", NoBody))
      case Some(uid) =>
        match Position(s.users, uid)
        case None => Step(s, Response(404, "User not found", NoBody))
        case Some(i) =>
          Step(s, Response(200, "", Profile(Doc(uid, Public(s.users[i].value)), RecipesBy(s.recipes, uid))))
  }
}
