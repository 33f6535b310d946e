/** The user service (UserServiceImpl): account registration and password login with their
    input checks, the admin test, and the public user view. Sessions are not modelled: the
    logged-in user is what login returns. */
module Users {
  import opened Common
  import opened Entities
  import opened Store

  const MIN_ACCOUNT_LENGTH := 4
  const MIN_PASSWORD_LENGTH := 8

  /** What is stored for a password: the digest of the salt followed by the password. */
  function Encrypt(password: string): Digest {
    Md5Hex(SALT + password)
  }

  /** Salting is injective: two passwords with the same stored digest are the same password. */
  lemma EncryptInjective(p: string, q: string)
    requires Encrypt(p) == Encrypt(q)
    ensures p == q
  {
    assert (SALT + p)[|SALT|..] == p;
    assert (SALT + q)[|SALT|..] == q;
  }

  /** An account name and a password that pass the length checks of register and login. */
  predicate WellFormedAccount(account: string) {
    !IsBlank(account) && |account| >= MIN_ACCOUNT_LENGTH
  }

  predicate WellFormedPassword(password: string) {
    !IsBlank(password) && |password| >= MIN_PASSWORD_LENGTH
  }

  /** The input checks of userRegister, in their order: none blank, account length,
      password length, the two passwords equal. Every failure is PARAMS_ERROR. */
  function RegisterGuard(account: Option<string>, password: Option<string>, check: Option<string>): (r: Outcome)
    ensures r == Pass <==>
              && account.Some? && password.Some? && check.Some?
              && WellFormedAccount(account.value) && WellFormedPassword(password.value)
              && password == check
    ensures r.Fail? ==> r.code == ParamsError
  {
    if IsBlankOrNull(account) || IsBlankOrNull(password) || IsBlankOrNull(check) then Fail(ParamsError)
    else if |account.value| < MIN_ACCOUNT_LENGTH then Fail(ParamsError)
    else if |password.value| < MIN_PASSWORD_LENGTH then Fail(ParamsError)
    else if password.value != check.value then Fail(ParamsError)
    else Pass
  }

  /** The input checks of userLogin: the same blank and length checks, without a second password. */
  function LoginGuard(account: Option<string>, password: Option<string>): (r: Outcome)
    ensures r == Pass <==>
              account.Some? && password.Some? && WellFormedAccount(account.value) && WellFormedPassword(password.value)
    ensures r.Fail? ==> r.code == ParamsError
  {
    if IsBlankOrNull(account) || IsBlankOrNull(password) then Fail(ParamsError)
    else if |account.value| < MIN_ACCOUNT_LENGTH then Fail(ParamsError)
    else if |password.value| < MIN_PASSWORD_LENGTH then Fail(ParamsError)
    else Pass
  }

  /** Credentials that register are accepted by login's input checks. */
  lemma RegisteredCredentialsPassLoginChecks(account: Option<string>, password: Option<string>, check: Option<string>)
    ensures RegisterGuard(account, password, check) == Pass ==> LoginGuard(account, password) == Pass
  {
  }

  /** The rows selectCount(eq("userAccount", account)) counts. */
  function AccountsNamed(users: map<Id, User>, account: string): (r: set<Id>)
    ensures forall k :: k in r <==> k in users && users[k].userAccount == account
  {
    set k | k in users && users[k].userAccount == account
  }

  /** The rows login's selectOne matches: the account and the stored digest of the password. */
  function LoginMatches(users: map<Id, User>, account: string, password: string): (r: set<Id>)
    ensures r <= AccountsNamed(users, account)
  {
    set k | k in users && users[k].userAccount == account && users[k].userPassword == Encrypt(password)
  }

  /** The row userRegister inserts: no name and no role yet (the column defaults are not part of this model). */
  function NewAccount(id: Id, account: string, password: string): User {
    User(id, account, Encrypt(password), None, None)
  }

  /** After registering, the new account is the one and only login match for the same
      credentials, and a different password matches nothing. */
  lemma RegisterThenLogin(users: map<Id, User>, id: Id, account: string, password: string, other: string)
    requires AccountsNamed(users, account) == {} && id !in users
    ensures LoginMatches(users[id := NewAccount(id, account, password)], account, password) == {id}
    ensures other != password ==> LoginMatches(users[id := NewAccount(id, account, password)], account, other) == {}
  {
    var users' := users[id := NewAccount(id, account, password)];
    assert id in LoginMatches(users', account, password);
    forall k | k in LoginMatches(users', account, other)
      ensures k == id && other == password
    {
      EncryptInjective(other, password);
    }
  }

  /** userRegister: the input checks, then PARAMS_ERROR for an account name already in use;
      otherwise exactly one row is added and its id returned. */
  method UserRegister(db: Database, account: Option<string>, password: Option<string>, check: Option<string>)
    returns (r: Result<Id>)
    requires db.Valid()
    modifies db
    ensures db.Valid() && old(db.nextId) <= db.nextId
    ensures r.Err? ==> r == Err(ParamsError) && db.Snapshot() == old(db.Snapshot())
    ensures r.Ok? <==> RegisterGuard(account, password, check) == Pass && AccountsNamed(old(db.users), account.value) == {}
    ensures r.Ok? ==>
              && r.value !in old(db.users)
              && db.Snapshot() == old(db.Snapshot()).(users := old(db.users)[r.value := NewAccount(r.value, account.value, password.value)])
              && LoginMatches(db.users, account.value, password.value) == {r.value}
  {
    var guard := RegisterGuard(account, password, check);
    if guard.Fail? {
      return Err(guard.code);
    }
    if AccountsNamed(db.users, account.value) != {} {
      return Err(ParamsError);
    }
    var id := db.FreshId();
    var u := NewAccount(id, account.value, password.value);
    RegisterThenLogin(db.users, id, account.value, password.value, password.value);
    db.InsertUser(u);
    r := Ok(id);
  }

  /** What login returns: the user and the ids of its organizations (LoginUserVO). */
  datatype LoginView = LoginView(user: User, organizations: set<Id>)

  /** userLogin: the input checks, PARAMS_ERROR when no row has this account and password,
      FORBIDDEN for a banned account. Account names are unique, so at most one row matches. */
  method UserLogin(db: Database, account: Option<string>, password: Option<string>) returns (r: Result<LoginView>)
    requires db.Valid()
    ensures LoginGuard(account, password).Fail? ==> r == Err(ParamsError)
    ensures LoginGuard(account, password).Pass? && LoginMatches(db.users, account.value, password.value) == {} ==>
              r == Err(ParamsError)
    ensures forall k | LoginGuard(account, password).Pass? && k in LoginMatches(db.users, account.value, password.value) ::
              if db.users[k].userRole == Some(ROLE_BAN) then r == Err(Forbidden)
              else r == Ok(LoginView(db.users[k], OrganizationsOf(db.members, k)))
  {
    var guard := LoginGuard(account, password);
    if guard.Fail? {
      return Err(guard.code);
    }
    var matches := LoginMatches(db.users, account.value, password.value);
    if matches == {} {
      return Err(ParamsError);
    }
    var k :| k in matches;
    assert forall j | j in matches :: j == k;
    var u := db.users[k];
    if u.userRole == Some(ROLE_BAN) {
      return Err(Forbidden);
    }
    r := Ok(LoginView(u, OrganizationsOf(db.members, k)));
  }

  /** isAdmin(User): a logged-in user whose role is the admin value; the same test every
      permission gate starts with. */
  function IsAdmin(user: Option<User>): (r: bool)
    ensures r <==> user.Some? && user.value.userRole == Some(ROLE_ADMIN)
    ensures user.Some? ==> (r <==> IsPlatformAdmin(user.value))
  {
    user.Some? && IsPlatformAdmin(user.value)
  }

  /** getUserVO(User): null for null, otherwise the public profile. */
  function GetUserVO(user: Option<User>): (r: Option<UserView>)
    ensures r.Some? <==> user.Some?
    ensures r.Some? ==> r.value.id == user.value.id && r.value.userName == user.value.userName
  {
    if user.None? then None else Some(UserView(user.value.id, user.value.userName))
  }

  /** getUserVO(List): one view per user, in order; an empty (or null) list gives an empty list. */
  function GetUserVOs(users: seq<User>): (r: seq<UserView>)
    ensures |r| == |users|
    ensures forall i | 0 <= i < |users| :: Some(r[i]) == GetUserVO(Some(users[i]))
  {
    if |users| == 0 then [] else [GetUserVO(Some(users[0])).value] + GetUserVOs(users[1..])
  }
}
