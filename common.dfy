/** Shared vocabulary of the model: ids, users, error codes, graph property values,
    and the string helpers (StringUtils.isBlank) that every service uses. */
module Common {

  datatype Option<+T> = None | Some(value: T)

  /** The codes carried by the BusinessException that the services throw, plus
      NullPointer for a java.lang.NullPointerException that escapes a service. */
  datatype ErrorCode =
    | ParamsError
    | NotLogin
    | NoAuth
    | NotFound
    | Forbidden
    | SystemError
    | OperationError
    | NullPointer

  /** A void service method: it returns normally or throws. */
  datatype Outcome = Pass | Fail(code: ErrorCode)

  /** A service method that returns a value or throws. */
  datatype Result<+T> = Ok(value: T) | Err(code: ErrorCode)

  /** One abstract id type for every entity (the Java code mixes Long and String ids). */
  type Id = nat

  /** PermissionEnum */
  datatype Perm = Read | Write

  // Folder.space, the four-value scheme of the permission engine.
  const PLATFORM_PUBLIC := "platform_public"
  const ORGANIZATION_PUBLIC := "organization_public"
  const USER_PUBLIC := "user_public"
  const USER_PRIVATE := "user_private"

  // The three-value scheme still used by the graph service and the storage layout.
  const LEGACY_PUBLIC := "public"
  const LEGACY_ORGANIZATION := "organization"
  const LEGACY_PRIVATE := "private"

  predicate IsCurrentSpace(space: string) {
    space == PLATFORM_PUBLIC || space == ORGANIZATION_PUBLIC || space == USER_PUBLIC || space == USER_PRIVATE
  }

  // Folder.mergeState
  const MERGE_PENDING := "PENDING"
  const MERGE_APPROVED := "APPROVED"
  const MERGE_REJECTED := "REJECTED"

  /** UserRoleEnum.ADMIN and UserRoleEnum.BAN values of User.userRole. */
  const ROLE_ADMIN := "admin"
  const ROLE_BAN := "ban"

  /** OrganizationMember.roleInOrg of an organization administrator. */
  const ORG_ADMIN := "admin"

  /** The salted MD5 digest stored as a password: Md5Hex(x) stands for
      DigestUtils.md5DigestAsHex(x.getBytes()), a foreign function. */
  datatype Digest = Md5Hex(input: string)

  const SALT := "ams-net-salt"

  datatype User = User(
    id: Id,
    userAccount: string,
    userPassword: Digest,
    userName: Option<string>,
    userRole: Option<string>)

  /** The public profile of a user (UserVO). */
  datatype UserView = UserView(id: Id, userName: Option<string>)

  /** The platform-admin test every gate starts with. */
  predicate IsPlatformAdmin(u: User) {
    u.userRole == Some(ROLE_ADMIN)
  }

  /** Character.isWhitespace */
  predicate IsWhitespace(c: char) {
    || c == ' ' || c == '\t' || c == '\n' || c == '\U{B}' || c == '\U{C}' || c == '\r'
    || ('\U{1C}' <= c <= '\U{1F}')
    || c == '\U{1680}'
    || ('\U{2000}' <= c <= '\U{2006}')
    || ('\U{2008}' <= c <= '\U{200A}')
    || c == '\U{2028}' || c == '\U{2029}' || c == '\U{205F}' || c == '\U{3000}'
  }

  /** StringUtils.isBlank on a non-null string: empty or whitespace only. */
  predicate IsBlank(s: string) {
    forall i | 0 <= i < |s| :: IsWhitespace(s[i])
  }

  /** StringUtils.isBlank on a string that may be null. */
  predicate IsBlankOrNull(s: Option<string>) {
    s.None? || IsBlank(s.value)
  }

  /** A graph property value. Null is what Java's null becomes in a Cypher parameter map;
      the graph never stores it. */
  datatype Value = Null | Str(s: string) | Int(i: int) | Bool(b: bool) | IdVal(id: Id)

  type Props = map<string, Value>

  /** A parsed JSON object (Map<String, Object>), as the annotation services handle it. */
  type JsonDoc = map<string, Value>

  function DigitChar(d: nat): (c: char)
    requires d < 10
    ensures '0' <= c <= '9'
  {
    "0123456789"[d]
  }

  /** The decimal text of an id, as it appears inside a storage path. */
  function IdText(n: Id): (s: string)
    ensures |s| > 0
    ensures forall i | 0 <= i < |s| :: '0' <= s[i] <= '9'
    decreases n
  {
    if n < 10 then [DigitChar(n)] else IdText(n / 10) + [DigitChar(n % 10)]
  }

  /** Every entry of `small` is kept unchanged in `big`. */
  predicate Extends<K, V(==)>(small: map<K, V>, big: map<K, V>) {
    forall k | k in small :: k in big && big[k] == small[k]
  }

  /** The ids of a list, as a set. */
  function Elements(xs: seq<Id>): (r: set<Id>)
    ensures forall x :: x in r <==> x in xs
  {
    set x | x in xs
  }

  /** Extending a list by one id adds that id to its set of ids. */
  lemma ElementsSnoc(xs: seq<Id>, i: nat)
    requires i < |xs|
    ensures Elements(xs[..i + 1]) == Elements(xs[..i]) + {xs[i]}
  {
    assert xs[..i + 1] == xs[..i] + [xs[i]];
  }

  lemma ExtendsTransitive<K, V>(a: map<K, V>, b: map<K, V>, c: map<K, V>)
    requires Extends(a, b) && Extends(b, c)
    ensures Extends(a, c)
  {
  }

  /** The iteration order of a hash-based collection is unspecified: any listing of the
      elements, each exactly once, may come out. */
  method Enumerate<T(==)>(s: set<T>) returns (xs: seq<T>)
    ensures |xs| == |s|
    ensures forall x :: x in xs <==> x in s
    ensures forall i, j | 0 <= i < j < |xs| :: xs[i] != xs[j]
  {
    xs := [];
    var rest := s;
    while rest != {}
      invariant forall x :: x in s <==> x in rest || x in xs
      invariant forall x | x in xs :: x !in rest
      invariant forall i, j | 0 <= i < j < |xs| :: xs[i] != xs[j]
      invariant |xs| + |rest| == |s|
      decreases |rest|
    {
      var x :| x in rest;
      xs := xs + [x];
      rest := rest - {x};
    }
  }

  /** A sequence without repetitions has as many distinct elements as entries. */
  lemma {:induction false} DistinctCard<T>(xs: seq<T>)
    requires forall i, j | 0 <= i < j < |xs| :: xs[i] != xs[j]
    ensures |set x | x in xs| == |xs|
  {
    if |xs| > 0 {
      var init := xs[..|xs| - 1];
      DistinctCard(init);
      assert (set x | x in xs) == (set x | x in init) + {xs[|xs| - 1]};
      assert xs[|xs| - 1] !in (set x | x in init);
    }
  }
}
