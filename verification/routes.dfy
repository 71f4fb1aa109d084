/**
 The route table of the backend: one request value per endpoint and the
 dispatch to its handler, plus what holds across every route.
 */
module Routes {
  import opened Wrappers
  import opened Store
  import opened Crypto
  import opened Models
  import opened Server

  datatype Request =
    | SignupRequest(signup: SignupBody)
    | LoginRequest(login: LoginBody)
    | LogoutRequest(bearer: Option<Jwt>)
    | ListUsersRequest(bearer: Option<Jwt>)
    | CreateRecipeRequest(bearer: Option<Jwt>, recipe: RecipeBody)
    | ListRecipesRequest
    | GetRecipeRequest(id: Id)
    | UpdateRecipeRequest(bearer: Option<Jwt>, id: Id, recipe: RecipeBody)
    | DeleteRecipeRequest(bearer: Option<Jwt>, id: Id)
    | ForgotPasswordRequest(email: Option<string>)
    | ResetPasswordRequest(reset: ResetBody)
    | DashboardRequest(bearer: Option<Jwt>)
    | MeRequest(bearer: Option<Jwt>)

  /** The routes mounted behind `authenticate, authorizeAdmin`. */
  predicate IsAdminRoute(req: Request) {
    req.ListUsersRequest? || req.CreateRecipeRequest? || req.UpdateRecipeRequest?
    || req.DeleteRecipeRequest? || req.DashboardRequest?
  }

  /** The routes mounted behind `authenticate` only. */
  predicate IsMemberRoute(req: Request) {
    req.LogoutRequest? || req.MeRequest?
  }

  function Handle(env: Env, s: State, req: Request, now: int): Step {
    match req
    case SignupRequest(b) => Signup(env, s, b)
    case LoginRequest(b) => Login(env, s, b, now)
    case LogoutRequest(t) => Logout(env, s, t, now)
    case ListUsersRequest(t) => ListUsers(env, s, t, now)
    case CreateRecipeRequest(t, b) => CreateRecipe(env, s, t, b, now)
    case ListRecipesRequest => ListRecipes(s)
    case GetRecipeRequest(id) => GetRecipe(s, id)
    case UpdateRecipeRequest(t, id, b) => UpdateRecipe(env, s, t, id, b, now)
    case DeleteRecipeRequest(t, id) => DeleteRecipe(env, s, t, id, now)
    case ForgotPasswordRequest(e) => ForgotPassword(env, s, e, now)
    case ResetPasswordRequest(b) => ResetPassword(env, s, b, now)
    case DashboardRequest(t) => DashboardRoute(env, s, t, now)
    case MeRequest(t) => Me(env, s, t, now)
  }

  /**
   The gate on the admin routes: no bearer token is a 401 "no token", an
   unverifiable token a 401 "invalid", a verified role other than exactly
   "admin" a 403, and in each case the store is unchanged.
   */
  lemma AdminRouteGate(env: Env, s: State, req: Request, now: int)
    requires IsAdminRoute(req)
    ensures req.bearer.None? ==> Handle(env, s, req, now) == Step(s, NoToken)
    ensures req.bearer.Some? && Verify(env.jwtSecret, req.bearer.value, now).None?
      ==> Handle(env, s, req, now) == Step(s, BadToken)
    ensures req.bearer.Some? && Verify(env.jwtSecret, req.bearer.value, now).Some?
        && req.bearer.value.claims.role != Some("admin")
      ==> Handle(env, s, req, now) == Step(s, AdminsOnly)
  {
  }

  /** The member routes answer 401 the same way, and change nothing then. */
  lemma MemberRouteGate(env: Env, s: State, req: Request, now: int)
    requires IsMemberRoute(req)
    ensures req.bearer.None? ==> Handle(env, s, req, now) == Step(s, NoToken)
    ensures req.bearer.Some? && Verify(env.jwtSecret, req.bearer.value, now).None?
      ==> Handle(env, s, req, now) == Step(s, BadToken)
  {
  }

  /** Every response carries one of the status codes the routes use. */
  lemma StatusCodes(env: Env, s: State, req: Request, now: int)
    ensures Handle(env, s, req, now).response.status in {200, 201, 400, 401, 403, 404, 500}
  {
    if req.SignupRequest? || req.LoginRequest? || req.LogoutRequest? || req.ResetPasswordRequest?
      || req.ListUsersRequest? || req.ForgotPasswordRequest? || req.MeRequest? {
      UserRouteCodes(env, s, req, now);
    } else {
      RecipeRouteCodes(env, s, req, now);
    }
  }

  lemma UserRouteCodes(env: Env, s: State, req: Request, now: int)
    requires req.SignupRequest? || req.LoginRequest? || req.LogoutRequest? || req.ResetPasswordRequest?
      || req.ListUsersRequest? || req.ForgotPasswordRequest? || req.MeRequest?
    ensures Handle(env, s, req, now).response.status in {200, 201, 400, 401, 403, 404, 500}
  {
  }

  lemma RecipeRouteCodes(env: Env, s: State, req: Request, now: int)
    requires !(req.SignupRequest? || req.LoginRequest? || req.LogoutRequest? || req.ResetPasswordRequest?
      || req.ListUsersRequest? || req.ForgotPasswordRequest? || req.MeRequest?)
    ensures Handle(env, s, req, now).response.status in {200, 201, 400, 401, 403, 404, 500}
  {
  }
}
