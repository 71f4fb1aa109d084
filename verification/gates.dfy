/**
 The client-side role gates of the admin pages. Each reads the role out of
 the stored token without checking its signature or expiry and decides
 whether to stay on the page or navigate away. The three pages differ in
 how they treat an unreadable token and in whether the role comparison
 ignores letter case.
 */
module Gates {
  import opened Wrappers
  import opened Text
  import opened Crypto
  import opened Models
  import Server

  /** What local storage holds under "token", as far as a page can read it. */
  datatype StoredToken =
    | Missing                    // no item, or the empty string
    | Unreadable                 // the payload does not decode
    | Readable(claims: Claims)   // decoded, neither verified nor checked for expiry

  /** What the gate does: nothing, or a redirect. */
  datatype Nav = Stay | Navigate(path: string)

  const LoginPath := "/login"
  const HomePath := "/"

  /** `role?.toLowerCase() === "admin"` */
  predicate AdminIgnoringCase(c: Claims) {
    c.role.Some? && Lower(c.role.value) == "admin"
  }

  /**
   The admin home page: no token goes to the login page, an unreadable one
   to the home page, and so does any role that is not "admin" in some
   letter case.
   */
  function AdminHomeGate(t: StoredToken): (n: Nav)
    ensures n == Stay <==> t.Readable? && AdminIgnoringCase(t.claims)
    ensures t.Missing? ==> n == Navigate(LoginPath)
    ensures t.Unreadable? ==> n == Navigate(HomePath)
    ensures t.Readable? && !AdminIgnoringCase(t.claims) ==> n == Navigate(HomePath)
  {
    match t
    case Missing => Navigate(LoginPath)
    case Unreadable => Navigate(HomePath)
    case Readable(c) => if AdminIgnoringCase(c) then Stay else Navigate(HomePath)
  }

  /**
   The add-recipe page: no token and an unreadable token both go to the
   login page; the role must be exactly "admin", otherwise the home page.
   */
  function AddRecipeGate(t: StoredToken): (n: Nav)
    ensures n == Stay <==> t.Readable? && Server.IsAdmin(t.claims)
    ensures t.Missing? || t.Unreadable? ==> n == Navigate(LoginPath)
    ensures t.Readable? && !Server.IsAdmin(t.claims) ==> n == Navigate(HomePath)
  {
    match t
    case Missing => Navigate(LoginPath)
    case Unreadable => Navigate(LoginPath)
    case Readable(c) => if c.role == Some("admin") then Stay else Navigate(HomePath)
  }

  /**
   The update-recipe page: no token and an unreadable token both go to the
   login page; the role is compared ignoring letter case, otherwise the
   home page.
   */
  function UpdateRecipeGate(t: StoredToken): (n: Nav)
    ensures n == Stay <==> t.Readable? && AdminIgnoringCase(t.claims)
    ensures t.Missing? || t.Unreadable? ==> n == Navigate(LoginPath)
    ensures t.Readable? && !AdminIgnoringCase(t.claims) ==> n == Navigate(HomePath)
  {
    match t
    case Missing => Navigate(LoginPath)
    case Unreadable => Navigate(LoginPath)
    case Readable(c) => if AdminIgnoringCase(c) then Stay else Navigate(HomePath)
  }

  /** The exact comparison is the strictest: whoever passes it passes the other two gates. */
  lemma AddRecipeGateStrictest(t: StoredToken)
    ensures AddRecipeGate(t) == Stay ==> AdminHomeGate(t) == Stay && UpdateRecipeGate(t) == Stay
  {
    if AddRecipeGate(t) == Stay {
      assert Lower("admin") == "admin";
    }
  }

  /** A role spelled "Admin" opens the admin home and update pages but not the add page, and the server refuses it. */
  lemma CapitalisedAdminSplitsGates(id: Option<Store.Id>, email: Option<string>)
    ensures var t := Readable(Claims(id, email, Some("Admin")));
      && AdminHomeGate(t) == Stay && UpdateRecipeGate(t) == Stay
      && AddRecipeGate(t) == Navigate(HomePath)
      && !Server.IsAdmin(t.claims)
  {
    assert Lower("Admin") == "admin";
  }

  /**
   On a token the server issued at login, whose role is one of the two
   schema roles, the three gates agree with each other and with the
   server's admin check.
   */
  lemma GatesAgreeOnLoginTokens(id: Store.Id, email: string, r: Role)
    ensures var c := Claims(Some(id), Some(email), Some(RoleName(r)));
      var t := Readable(c);
      && (AdminHomeGate(t) == Stay <==> r == AdminRole)
      && (UpdateRecipeGate(t) == Stay <==> r == AdminRole)
      && (AddRecipeGate(t) == Stay <==> r == AdminRole)
      && (Server.IsAdmin(c) <==> r == AdminRole)
  {
    assert Lower("admin") == "admin";
    assert Lower("user") == "user";
  }

  /** The gates read the token without checking expiry: an expired admin token still opens the page. */
  lemma ExpiredTokenPassesGate(secret: string, issued: int, now: int)
    requires now >= issued + LoginTtl
    ensures var t := Sign(secret, Claims(None, None, Some("admin")), issued, LoginTtl);
      && AddRecipeGate(Readable(t.claims)) == Stay
      && Verify(secret, t, now).None?
  {
  }
}
