/**
 The account pages: sign-up, forgot-password and reset-password. Each
 validates its form before anything is sent, builds the request body, and
 decides where the page goes after the server answers.
 */
module AccountForms {
  import opened Wrappers
  import opened Text
  import opened Crypto
  import opened Models
  import opened Links
  import opened Gates
  import Server
  import Invariants

  // -------------------------------------------------------------- sign-up

  datatype SignupForm = SignupForm(name: string, email: string, password: string, confirmPassword: string)

  const EmptySignupForm := SignupForm("", "", "", "")

  /**
   The sign-up request: nothing when the two passwords differ; otherwise
   the name and email trimmed, the password as typed, and neither a role
   nor an admin code.
   */
  function SignupRequest(f: SignupForm): (r: Option<Server.SignupBody>)
    ensures r.None? <==> f.password != f.confirmPassword
    ensures r.Some? ==> r.value.name == Some(Trim(f.name)) && r.value.email == Some(Trim(f.email))
    ensures r.Some? ==> r.value.password == Some(f.password)
    ensures r.Some? ==> r.value.role.None? && r.value.adminCode.None?
  {
    if f.password != f.confirmPassword then None
    else Some(Server.SignupBody(Some(Trim(f.name)), Some(Trim(f.email)), Some(f.password), None, None))
  }

  datatype AfterSignup = AfterSignup(form: SignupForm, nav: Nav)

  /** Success clears all four fields and goes to the login page; failure keeps the form. */
  function SignupSubmitted(f: SignupForm, ok: bool): (a: AfterSignup)
    ensures ok ==> a.form == EmptySignupForm && a.nav == Navigate(LoginPath)
    ensures !ok ==> a.form == f && a.nav == Stay
  {
    if ok then AfterSignup(EmptySignupForm, Navigate(LoginPath)) else AfterSignup(f, Stay)
  }

  /** The page never asks for the admin role, so whoever signs up through it is a plain user. */
  lemma PageSignupIsNeverAdmin(env: Server.Env, s: Server.State, f: SignupForm)
    requires SignupRequest(f).Some?
    requires Server.Signup(env, s, SignupRequest(f).value).response.status == 201
    ensures var out := Server.Signup(env, s, SignupRequest(f).value);
      && out.state.users[|s.users|].value.role == UserRole
      && out.response.body.role == "user"
  {
  }

  /**
   Because the page trims the name and email itself, the server answers
   its requests with 201 or 400, never with the 500 the schema's
   validators cause for a blank name or email.
   */
  lemma PageSignupNeverFaults(env: Server.Env, s: Server.State, f: SignupForm)
    requires SignupRequest(f).Some?
    ensures var st := Server.Signup(env, s, SignupRequest(f).value).response.status;
      st == 201 || st == 400
  {
    var b := SignupRequest(f).value;
    TrimmedNotBlank(f.name);
    TrimmedEmailNotBlank(f.email);
    SignupWithoutRoleNeverFaults(env, s, b);
  }

  /** A body without a role whose truthy name and email are not blank is answered 201 or 400. */
  lemma SignupWithoutRoleNeverFaults(env: Server.Env, s: Server.State, b: Server.SignupBody)
    requires b.role.None?
    requires Server.Truthy(b.name) && Server.Truthy(b.email)
      ==> !AllSpace(b.name.value) && NormalizeEmail(b.email.value) != ""
    ensures var st := Server.Signup(env, s, b).response.status;
      st == 201 || st == 400
  {
  }

  /** A trimmed string that is not empty is not all whitespace. */
  lemma TrimmedNotBlank(x: string)
    ensures Trim(x) != "" ==> !AllSpace(Trim(x))
  {
    if Trim(x) != "" {
      assert Trim(Trim(x)) == Trim(x);
    }
  }

  /** A trimmed email that is not empty stays non-empty when normalised. */
  lemma TrimmedEmailNotBlank(x: string)
    ensures Trim(x) != "" ==> NormalizeEmail(Trim(x)) != ""
  {
    var e := Trim(x);
    if e != "" {
      TrimmedNotBlank(x);
      LowerKeepsBlankness(e);
    }
  }

  // ------------------------------------------------------ forgot-password

  /** `!email` stops the page; otherwise it sends the trimmed email. */
  function ForgotRequest(email: string): (r: Option<string>)
    ensures r.None? <==> email == ""
    ensures r.Some? ==> r.value == Trim(email)
  {
    if email == "" then None else Some(Trim(email))
  }

  /** The reset page's query parameters, as `URLSearchParams.get` returns them. */
  datatype ResetQuery = ResetQuery(token: Option<string>, email: Option<string>)

  /** Where the forgot-password page goes once the server answers. */
  datatype ForgotNav = StayOnForgot | OpenResetPage(query: ResetQuery)

  /**
   After the answer: a refusal stays on the page, and so does a link with
   no "token=" (the expression throws and the page reports an error);
   otherwise the reset page opens with the extracted token and the email
   as the user typed it, untrimmed.
   */
  function ForgotNavigation(email: string, ok: bool, resetLink: string): (n: ForgotNav)
    ensures !ok ==> n == StayOnForgot
    ensures n.OpenResetPage? <==> ok && Includes(resetLink, Marker)
    ensures n.OpenResetPage? ==>
      n.query == ResetQuery(Some(ExtractResetToken(resetLink).value), Some(email))
  {
    if !ok then StayOnForgot
    else match ExtractResetToken(resetLink)
      case None => StayOnForgot
      case Some(t) => OpenResetPage(ResetQuery(Some(t), Some(email)))
  }

  // ------------------------------------------------------- reset-password

  datatype ResetForm = ResetForm(email: string, password: string, confirmPassword: string)

  /** The email field starts from the query's `email`, or empty; the passwords start empty. */
  function Prefill(q: ResetQuery): (f: ResetForm)
    ensures f.email == q.email.GetOr("") && f.password == "" && f.confirmPassword == ""
  {
    ResetForm(q.email.GetOr(""), "", "")
  }

  /** A missing or empty `token` sends the user back to the forgot-password page. */
  function ResetPageGate(q: ResetQuery): (n: Nav)
    ensures n == Stay <==> q.token.Some? && q.token.value != ""
    ensures n != Stay ==> n == Navigate("/forgot-password")
  {
    if q.token.Some? && q.token.value != "" then Stay else Navigate("/forgot-password")
  }

  /** The JSON the reset page posts; the token is the query's, possibly null. */
  datatype ResetRequestBody = ResetRequestBody(email: string, token: Option<string>, newPassword: string)

  /**
   The reset request: nothing for an empty email field or differing
   passwords; otherwise the trimmed email, the query's token and the new
   password as typed.
   */
  function ResetRequest(q: ResetQuery, f: ResetForm): (r: Option<ResetRequestBody>)
    ensures r.None? <==> f.email == "" || f.password != f.confirmPassword
    ensures r.Some? ==> r.value == ResetRequestBody(Trim(f.email), q.token, f.password)
  {
    if f.email == "" then None
    else if f.password != f.confirmPassword then None
    else Some(ResetRequestBody(Trim(f.email), q.token, f.password))
  }

  datatype AfterReset = AfterReset(form: ResetForm, nav: Nav)

  /** Success clears the form and goes to the login page; failure keeps it. */
  function ResetSubmitted(f: ResetForm, ok: bool): (a: AfterReset)
    ensures ok ==> a.form == ResetForm("", "", "") && a.nav == Navigate(LoginPath)
    ensures !ok ==> a.form == f && a.nav == Stay
  {
    if ok then AfterReset(ResetForm("", "", ""), Navigate(LoginPath)) else AfterReset(f, Stay)
  }

  // ------------------------------------------------------------- journeys

  /**
   From the forgot-password page to the reset page: when the server finds
   the account, the reset page opens with exactly the token the server
   signed (in its text form `text`, which has no '&' or "token=" in it, and
   a front-end URL without "token="), prefilled with the untrimmed email,
   and a submit with matching passwords posts that token and the trimmed
   email.
   */
  lemma ForgotPageOpensResetPage(env: Server.Env, s: Server.State, email: string, now: int,
                                 text: Jwt -> string, pw: string)
    requires ForgotRequest(email).Some?
    requires Server.ForgotPassword(env, s, ForgotRequest(email), now).response.status == 200
    requires !Includes(env.frontendUrl, Marker)
    requires var t := Server.ForgotPassword(env, s, ForgotRequest(email), now).response.body.token;
      !Includes(text(t), Marker) && '&' !in text(t)
    ensures var body := Server.ForgotPassword(env, s, ForgotRequest(email), now).response.body;
      var link := ResetLinkText(body.frontendUrl, text(body.token), body.email);
      var q := ResetQuery(Some(text(body.token)), Some(email));
      && ForgotNavigation(email, true, link) == OpenResetPage(q)
      && Prefill(q).email == email
      && ResetRequest(q, Prefill(q).(password := pw, confirmPassword := pw))
         == Some(ResetRequestBody(Trim(email), Some(text(body.token)), pw))
  {
    var body := Server.ForgotPassword(env, s, ForgotRequest(email), now).response.body;
    ResetLinkRoundTrip(body.frontendUrl, text(body.token), body.email);
  }

  /**
   And on to the server: when the token's text form parses back to the
   token, the reset the page posts succeeds exactly while the token is
   less than fifteen minutes old.
   */
  lemma ForgotPageResetSucceeds(env: Server.Env, s: Server.State, email: string, issued: int,
                                text: Jwt -> string, parse: string -> Option<Jwt>, pw: string, now: int)
    requires Server.Valid(s) && pw != ""
    requires ForgotRequest(email).Some?
    requires Server.ForgotPassword(env, s, ForgotRequest(email), issued).response.status == 200
    requires var t := Server.ForgotPassword(env, s, ForgotRequest(email), issued).response.body.token;
      parse(text(t)) == Some(t)
    ensures var t := Server.ForgotPassword(env, s, ForgotRequest(email), issued).response.body.token;
      var b := Server.ResetBody(Some(Trim(email)), parse(text(t)), Some(pw));
      var ok := Server.ResetPassword(env, s, b, now).response.status == 200;
      ok <==> now < issued + ResetTtl
  {
    var e := Trim(email);
    Invariants.ForgotThenReset(env, s, e, issued, pw, now);
  }
}
