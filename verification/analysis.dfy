/**
 The statistics the admin analysis page computes from the user list and
 the recipe list it fetches.
 */
module Analysis {
  import opened Wrappers
  import opened Seqs
  import opened Store
  import opened Crypto
  import opened Models
  import opened Stats
  import Server

  /** Thirty days, in seconds of the model's clock. */
  const RecentWindow: int := 30 * 24 * 60 * 60

  datatype AnalysisStats = AnalysisStats(
    totalUsers: nat,
    totalAdmins: nat,
    totalRecipes: nat,
    recipesByCategory: seq<Entry>,
    activeUsers: nat,
    recentlyActiveUsers: nat,
    onlineUsers: nat)

  predicate IsAdminEntry(u: Doc<PublicUser>) {
    u.value.role == "admin"
  }

  predicate IsActiveEntry(u: Doc<PublicUser>) {
    u.value.status == Active
  }

  predicate IsOnlineEntry(u: Doc<PublicUser>) {
    u.value.isOnline
  }

  predicate HasLoggedIn(u: Doc<PublicUser>) {
    u.value.lastLogin.Some?
  }

  /** `u.lastLogin && new Date(u.lastLogin) > thirtyDaysAgo` */
  predicate RecentlyActive(now: int, u: Doc<PublicUser>) {
    u.value.lastLogin.Some? && u.value.lastLogin.value > now - RecentWindow
  }

  /** The filter `fetchStats` applies for the recently active count. */
  function RecentAt(now: int): Doc<PublicUser> -> bool {
    u => RecentlyActive(now, u)
  }

  /**
   `fetchStats` after both fetches succeed. Every user count is bounded by
   the list length, only users who have logged in can be recently active,
   and the category tally is the one the server dashboard computes, so its
   values add up to the recipe count exactly when no category is empty.
   */
  function ComputeStats(users: seq<Doc<PublicUser>>, recipes: seq<Doc<Recipe>>, now: int): (st: AnalysisStats)
    ensures st.totalUsers == |users| && st.totalRecipes == |recipes|
    ensures st.totalAdmins <= st.totalUsers && st.activeUsers <= st.totalUsers
    ensures st.onlineUsers <= st.totalUsers
    ensures st.recentlyActiveUsers <= Count(users, HasLoggedIn) <= st.totalUsers
    ensures st.totalAdmins == Count(users, IsAdminEntry) && st.activeUsers == Count(users, IsActiveEntry)
    ensures st.onlineUsers == Count(users, IsOnlineEntry)
    ensures st.recentlyActiveUsers == Count(users, RecentAt(now))
    ensures st.recipesByCategory == CategoryCounts(recipes)
    ensures WellFormed(st.recipesByCategory)
    ensures Sum(st.recipesByCategory) <= st.totalRecipes
    ensures Sum(st.recipesByCategory) == st.totalRecipes
        <==> forall i :: 0 <= i < |recipes| ==> recipes[i].value.category != ""
  {
    var recent := RecentAt(now);
    CountMonotone(users, recent, HasLoggedIn);
    CategorySumBound(recipes);
    AnalysisStats(
      |users|,
      Count(users, IsAdminEntry),
      |recipes|,
      CategoryCounts(recipes),
      Count(users, IsActiveEntry),
      Count(users, recent),
      Count(users, IsOnlineEntry))
  }

  /**
   Fed the lists an admin fetches from the server, the page reports the
   same totals, admin count, active count and category tally as the
   server's own dashboard.
   */
  lemma AgreesWithDashboard(env: Server.Env, s: Server.State, bearer: Option<Jwt>, now: int, clock: int)
    requires Server.AdminGate(env, bearer, now).Admit?
    ensures var users := Server.ListUsers(env, s, bearer, now).response.body.users;
      var recipes := Server.ListRecipes(s).response.body.recipes;
      var st := ComputeStats(users, recipes, clock);
      var d := Server.DashboardOf(s);
      && st.totalUsers == d.totalUsers && st.totalAdmins == d.totalAdmins
      && st.activeUsers == d.activeUsers && st.totalRecipes == d.totalRecipes
      && st.recipesByCategory == d.recipesByCategory
  {
    var pub := (d: Doc<User>) => Doc(d.id, Public(d.value));
    var users := Server.ListUsers(env, s, bearer, now).response.body.users;
    assert users == Map(s.users, pub);
    var val := (d: Doc<User>) => d.value;
    CountMap(s.users, pub, IsAdminEntry, (d: Doc<User>) => Server.IsAdminUser(d.value));
    CountMap(s.users, val, Server.IsAdminUser, (d: Doc<User>) => Server.IsAdminUser(d.value));
    CountMap(s.users, pub, IsActiveEntry, (d: Doc<User>) => Server.IsActiveUser(d.value));
    CountMap(s.users, val, Server.IsActiveUser, (d: Doc<User>) => Server.IsActiveUser(d.value));
  }

  /**
   The recently active count (`ComputeStats`' `recentlyActiveUsers`) is the
   number of users whose last login lies strictly after the instant thirty
   days before `now`.
   */
  lemma RecentWithinWindow(users: seq<Doc<PublicUser>>, now: int)
    ensures Count(users, RecentAt(now))
      == |set i | 0 <= i < |users| && users[i].value.lastLogin.Some? && users[i].value.lastLogin.value > now - RecentWindow|
  {
    var recent := RecentAt(now);
    var counted := Satisfying(users, recent);
    var window := set i | 0 <= i < |users| && users[i].value.lastLogin.Some? && users[i].value.lastLogin.value > now - RecentWindow;
    forall i | 0 <= i < |users| ensures recent(users[i]) == RecentlyActive(now, users[i]) {
    }
    assert forall i :: i in counted <==> i in window;
    assert counted == window;
  }

  /** Until someone logs in, nobody is recently active. */
  lemma NoLoginNoRecentActivity(users: seq<Doc<PublicUser>>, recipes: seq<Doc<Recipe>>, now: int)
    requires forall i :: 0 <= i < |users| ==> users[i].value.lastLogin.None?
    ensures ComputeStats(users, recipes, now).recentlyActiveUsers == 0
  {
    var hasLogin := HasLoggedIn;
    assert Count(users, hasLogin) == 0 by {
      FilterCongruent(users, hasLogin, (u: Doc<PublicUser>) => false);
    }
  }
}
