/** The in-memory user directory and session of UserProvider: an ordered list
    of registered users, an authenticated flag and the current user. */
module UserContext {
  import opened Lowercase

  datatype Option<T> = None | Some(value: T)

  /** One registered account (id, display name, e-mail, password). */
  datatype User = User(id: int, nome: string, email: string, senha: string)

  /** E-mails are compared after lowering both sides: they must have the same
      length and agree at every position up to case. */
  predicate SameEmail(a: string, b: string): (same: bool)
    ensures same <==> |a| == |b| && forall i :: 0 <= i < |a| ==> LowerChar(a[i]) == LowerChar(b[i])
  {
    LowerEqualIff(a, b);
    Lower(a) == Lower(b)
  }

  /** The credential test of login: e-mail up to case, password exactly. */
  predicate Matches(u: User, email: string, senha: string) {
    SameEmail(u.email, email) && u.senha == senha
  }

  /** Whether some user's e-mail equals `email` up to case. */
  function EmailTaken(users: seq<User>, email: string): (b: bool)
    ensures b <==> exists i :: 0 <= i < |users| && SameEmail(users[i].email, email)
  {
    if users == [] then false
    else SameEmail(users[0].email, email) || EmailTaken(users[1..], email)
  }

  /** The first user, in list order, whose e-mail equals `email` up to case and
      whose password equals `senha` exactly; None when there is no such user. */
  function FindUser(users: seq<User>, email: string, senha: string): (r: Option<User>)
    ensures r.None? <==> forall i :: 0 <= i < |users| ==> !Matches(users[i], email, senha)
    ensures r.Some? ==>
      exists i :: 0 <= i < |users| && users[i] == r.value && Matches(users[i], email, senha) &&
        forall j :: 0 <= j < i ==> !Matches(users[j], email, senha)
  {
    if users == [] then None
    else if Matches(users[0], email, senha) then Some(users[0])
    else
      var r := FindUser(users[1..], email, senha);
      if r.Some? then
        ghost var k :| 0 <= k < |users[1..]| && users[1..][k] == r.value && Matches(users[1..][k], email, senha) &&
          forall j :: 0 <= j < k ==> !Matches(users[1..][j], email, senha);
        assert users[k + 1] == r.value && forall j :: 0 <= j < k + 1 ==> !Matches(users[j], email, senha);
        r
      else r
  }

  /** No two users have e-mails that are equal up to case. */
  ghost predicate EmailsUnique(users: seq<User>) {
    forall i, j :: 0 <= i < j < |users| ==> !SameEmail(users[i].email, users[j].email)
  }

  /** The provider's three state cells. */
  datatype State = State(users: seq<User>, isAuthenticated: bool, currentUser: Option<User>)

  /** What every reachable state satisfies: unique e-mails, the flag set exactly
      when there is a current user, and the current user is a registered one. */
  ghost predicate Inv(s: State) {
    EmailsUnique(s.users) &&
    (s.isAuthenticated <==> s.currentUser.Some?) &&
    (s.currentUser.Some? ==> s.currentUser.value in s.users)
  }

  /** The new state and the boolean an operation reports. */
  datatype Step = Step(state: State, ok: bool)

  /** The state the provider starts in. */
  function Initial(): (s: State)
    ensures s.users == [] && !s.isAuthenticated && s.currentUser.None?
  {
    State([], false, None)
  }

  /** addUser: refuse an e-mail already taken up to case; otherwise put the
      new user in front of the existing ones. The session is never touched. */
  function AddUserStep(s: State, id: int, nome: string, email: string, senha: string): (r: Step)
    ensures r.ok <==> forall i :: 0 <= i < |s.users| ==> !SameEmail(s.users[i].email, email)
    ensures !r.ok ==> r.state == s
    ensures r.ok ==> (|r.state.users| == |s.users| + 1 && r.state.users[0] == User(id, nome, email, senha) &&
                      r.state.users[1..] == s.users)
    ensures r.state.isAuthenticated == s.isAuthenticated && r.state.currentUser == s.currentUser
  {
    if EmailTaken(s.users, email) then Step(s, false)
    else Step(s.(users := [User(id, nome, email, senha)] + s.users), true)
  }

  /** login: on a matching user, authenticate as the first one; otherwise
      report false and leave everything as it was. */
  function LoginStep(s: State, email: string, senha: string): (r: Step)
    ensures r.ok <==> exists i :: 0 <= i < |s.users| && Matches(s.users[i], email, senha)
    ensures !r.ok ==> r.state == s
    ensures r.state.users == s.users
    ensures r.ok ==> r.state.isAuthenticated && r.state.currentUser == FindUser(s.users, email, senha)
  {
    match FindUser(s.users, email, senha)
    case Some(u) => Step(s.(isAuthenticated := true, currentUser := Some(u)), true)
    case None => Step(s, false)
  }

  /** logout: clear the session whatever it was; the users stay. */
  function LogoutStep(s: State): (r: State)
    ensures r.users == s.users && !r.isAuthenticated && r.currentUser.None?
  {
    s.(isAuthenticated := false, currentUser := None)
  }

  lemma InitialInv()
    ensures Inv(Initial())
  {
  }

  /** addUser keeps e-mails unique, and keeps the session invariant. */
  lemma AddUserPreservesInv(s: State, id: int, nome: string, email: string, senha: string)
    requires Inv(s)
    ensures Inv(AddUserStep(s, id, nome, email, senha).state)
  {
  }

  lemma LoginPreservesInv(s: State, email: string, senha: string)
    requires Inv(s)
    ensures Inv(LoginStep(s, email, senha).state)
  {
  }

  lemma LogoutPreservesInv(s: State)
    requires Inv(s)
    ensures Inv(LogoutStep(s))
  {
  }

  /** Logging out twice is the same as logging out once. */
  lemma LogoutIdempotent(s: State)
    ensures LogoutStep(LogoutStep(s)) == LogoutStep(s)
  {
  }

  /** In a state with unique e-mails, a registered user's own credentials, with
      the e-mail written in any case, log in as exactly that user. */
  lemma RegisteredUserLogsIn(s: State, u: User, email: string)
    requires Inv(s)
    requires u in s.users
    requires SameEmail(email, u.email)
    ensures LoginStep(s, email, u.senha) == Step(s.(isAuthenticated := true, currentUser := Some(u)), true)
  {
  }

  /** A user just registered can log in at once, and becomes the current user. */
  lemma AddThenLogin(s: State, id: int, nome: string, email: string, senha: string)
    requires AddUserStep(s, id, nome, email, senha).ok
    ensures var t := AddUserStep(s, id, nome, email, senha).state;
      LoginStep(t, email, senha).ok &&
      LoginStep(t, email, senha).state.currentUser == Some(User(id, nome, email, senha))
  {
  }

  /** Registering an e-mail that differs from a registered one only in case
      fails, so two registrations of the same e-mail grow the list by one. */
  lemma SecondRegistrationRejected(s: State, id1: int, nome1: string, email1: string, senha1: string,
                                   id2: int, nome2: string, email2: string, senha2: string)
    requires SameEmail(email1, email2)
    requires AddUserStep(s, id1, nome1, email1, senha1).ok
    ensures var t := AddUserStep(s, id1, nome1, email1, senha1).state;
      !AddUserStep(t, id2, nome2, email2, senha2).ok &&
      AddUserStep(t, id2, nome2, email2, senha2).state == t &&
      |t.users| == |s.users| + 1
  {
  }

  /** A failed login leaves a previous session in place. */
  lemma FailedLoginKeepsSession(s: State, email: string, senha: string)
    requires s.isAuthenticated
    requires forall i :: 0 <= i < |s.users| ==> !Matches(s.users[i], email, senha)
    ensures LoginStep(s, email, senha).state.isAuthenticated
    ensures LoginStep(s, email, senha).state.currentUser == s.currentUser
  {
  }

  /** The provider object: the three state cells updated in place. */
  class UserProvider {
    var users: seq<User>
    var isAuthenticated: bool
    var currentUser: Option<User>

    function Model(): State
      reads this
    {
      State(users, isAuthenticated, currentUser)
    }

    ghost predicate Valid()
      reads this
    {
      Inv(Model())
    }

    constructor ()
      ensures Valid()
      ensures Model() == Initial()
    {
      users := [];
      isAuthenticated := false;
      currentUser := None;
    }

    method AddUser(id: int, nome: string, email: string, senha: string) returns (ok: bool)
      requires Valid()
      modifies this
      ensures Valid()
      ensures Step(Model(), ok) == AddUserStep(old(Model()), id, nome, email, senha)
    {
      AddUserPreservesInv(Model(), id, nome, email, senha);
      var taken := EmailTaken(users, email);
      if taken {
        return false;
      }
      var novo := User(id, nome, email, senha);
      users := [novo] + users;
      return true;
    }

    method Login(email: string, senha: string) returns (ok: bool)
      requires Valid()
      modifies this
      ensures Valid()
      ensures Step(Model(), ok) == LoginStep(old(Model()), email, senha)
    {
      LoginPreservesInv(Model(), email, senha);
      var found := FindUser(users, email, senha);
      if found.Some? {
        isAuthenticated := true;
        currentUser := found;
        return true;
      }
      return false;
    }

    method Logout()
      requires Valid()
      modifies this
      ensures Valid()
      ensures Model() == LogoutStep(old(Model()))
    {
      isAuthenticated := false;
      currentUser := None;
    }
  }

  /** `ANA@X.com` and `ana@x.com`, the two e-mails of `Scenario`, differ only in case. */
  lemma ScenarioEmails()
    ensures SameEmail("ANA@X.com", "ana@x.com")
  {
    assert Lower("ANA@X.com") == "ana@x.com";
  }

  /** Register Ana, reject `ANA@X.com`, log in as Ana, log out twice; each
      assert follows from the method contracts. */
  method Scenario() {
    var p := new UserProvider();
    var ok1 := p.AddUser(1, "Ana", "ana@x.com", "123");
    assert ok1 && p.users == [User(1, "Ana", "ana@x.com", "123")];
    ScenarioEmails();
    var ok2 := p.AddUser(2, "Ana2", "ANA@X.com", "999");
    assert SameEmail(p.users[0].email, "ANA@X.com");
    assert !ok2 && |p.users| == 1;
    RegisteredUserLogsIn(p.Model(), p.users[0], "ana@x.com");
    var ok3 := p.Login("ana@x.com", "123");
    assert ok3 && p.isAuthenticated && p.currentUser.value.nome == "Ana";
    p.Logout();
    assert !p.isAuthenticated;
    p.Logout();
    assert !p.isAuthenticated && p.currentUser.None?;
  }
}
