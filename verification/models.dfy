/**
 The two document shapes of the store: users and recipes, with the
 schema's defaults, enumerations and normalising setters.
 */
module Models {
  import opened Wrappers
  import opened Text
  import opened Store
  import opened Crypto

  /** The schema's `enum: ['user', 'admin']`. */
  datatype Role = UserRole | AdminRole

  function RoleName(r: Role): string {
    match r
    case UserRole => "user"
    case AdminRole => "admin"
  }

  /** The schema's `enum: ['Active', 'Inactive']`. */
  datatype Status = Active | Inactive

  /**
   A stored user. Only the password hash is kept; `lastLogin` is absent
   until the first successful login. The unused reset-token fields are
   not part of this model.
   */
  datatype User = User(
    name: string,
    email: string,
    password: PasswordHash,
    role: Role,
    status: Status,
    lastLogin: Option<int>,
    isOnline: bool)

  /** The schema's setters on `email`: `lowercase: true, trim: true`. */
  function NormalizeEmail(e: string): (r: string)
    ensures IsTrimmed(r) && IsLowerCase(r)
    ensures IsTrimmed(e) && IsLowerCase(e) ==> r == e
  {
    var l := Lower(e);
    LowerIsLowerCase(e);
    var r := Trim(l);
    assert IsLowerCase(r) by {
      forall k | 0 <= k < |r| ensures !('A' <= r[k] <= 'Z') {
        var c := r[k];
        assert c in l;
        var i :| 0 <= i < |l| && l[i] == c;
      }
    }
    LowerIsLowerCase(e);
    r
  }

  lemma NormalizeEmailIdempotent(e: string)
    ensures NormalizeEmail(NormalizeEmail(e)) == NormalizeEmail(e)
  {
  }

  /** What the schema's validators accept for a user after its setters ran. */
  predicate ValidUser(u: User) {
    && u.name != "" && IsTrimmed(u.name)
    && u.email != "" && IsTrimmed(u.email) && IsLowerCase(u.email)
  }

  /**
   `new User({ name, email, password, role })`: setters applied, and the
   defaults `status: 'Active'`, `isOnline: false`, no `lastLogin`.
   */
  function NewUser(name: string, email: string, password: PasswordHash, role: Role): (u: User)
    ensures u.name == Trim(name) && u.email == NormalizeEmail(email)
    ensures u.password == password && u.role == role
    ensures u.status == Active && !u.isOnline && u.lastLogin.None?
    ensures ValidUser(u) <==> !AllSpace(name) && NormalizeEmail(email) != ""
  {
    User(Trim(name), NormalizeEmail(email), password, role, Active, None, false)
  }

  /** A user as `select('-password')` returns it. */
  datatype PublicUser = PublicUser(
    name: string,
    email: string,
    role: string,
    status: Status,
    lastLogin: Option<int>,
    isOnline: bool)

  function Public(u: User): (p: PublicUser)
    ensures p.name == u.name && p.email == u.email && p.role == RoleName(u.role)
    ensures p.status == u.status && p.lastLogin == u.lastLogin && p.isOnline == u.isOnline
  {
    PublicUser(u.name, u.email, RoleName(u.role), u.status, u.lastLogin, u.isOnline)
  }

  /**
   A stored recipe. `ingredients` and `steps` are ordered; `difficulty` is
   free text (no enumeration in the schema); `imageUrl` may be absent;
   `createdBy` refers to a user by identifier.
   */
  datatype Recipe = Recipe(
    title: string,
    description: string,
    ingredients: seq<string>,
    steps: seq<string>,
    cookingTime: int,
    servings: int,
    category: string,
    difficulty: string,
    imageUrl: Option<string>,
    createdBy: Option<Id>,
    createdAt: int)

  /** The schema's `default: "Medium"` for `difficulty`. */
  const DefaultDifficulty := "Medium"
}
