/**
 * The Factory pattern: a user is created from a category name, compared
 * without regard to case; an unknown name is an error carrying the name as
 * given. The three user classes hold only constant data, so they are the three
 * values of one datatype.
 */
module Factory {
  import opened Results

  /** The three kinds of user, each with a fixed role name and permission list. */
  datatype User = Admin | Moderator | RegularUser {

    /**
     * `getRole()`: the display name of the role. It is the kind's factory key
     * up to case, except for the regular user, whose role name has a space.
     */
    function Role(): (r: string)
      ensures SameIgnoringCase(r, Key(this)) <==> this != RegularUser
    {
      match this
      case Admin => assert LowerChar('A') == 'a'; "Admin"
      case Moderator => assert LowerChar('M') == 'm'; "Moderator"
      case RegularUser => "Regular User"
    }

    /** `getPermissions()`: the permission names, in the order the class lists them, without repeats. */
    function Permissions(): (r: seq<string>)
      ensures Distinct(r)
      ensures |r| == match this case Admin => 5 case Moderator => 4 case RegularUser => 3
    {
      match this
      case Admin => ["create_user", "delete_user", "edit_user", "manage_system", "view_logs"]
      case Moderator => ["edit_content", "delete_content", "manage_users", "view_reports"]
      case RegularUser => ["view_content", "create_content", "edit_own_content"]
    }
  }

  /** The lower-case name `createUser` accepts for each kind of user. */
  function Key(u: User): string {
    match u
    case Admin => "admin"
    case Moderator => "moderator"
    case RegularUser => "regular"
  }

  /** ASCII lower-casing of one character; every other character is kept. */
  function LowerChar(c: char): (r: char)
    ensures 'A' <= c <= 'Z' ==> r as int == c as int + 32
    ensures !('A' <= c <= 'Z') ==> r == c
  {
    if 'A' <= c <= 'Z' then (c as int + 32) as char else c
  }

  /** `String.toLowerCase()`, restricted to ASCII letters: each character is lower-cased in place. */
  function ToLower(s: string): (r: string)
    ensures |r| == |s|
    ensures forall i :: 0 <= i < |s| ==> r[i] == LowerChar(s[i])
  {
    if s == [] then [] else [LowerChar(s[0])] + ToLower(s[1..])
  }

  /** Two strings that are equal once lower-cased. */
  predicate SameIgnoringCase(a: string, b: string) {
    |a| == |b| && forall i :: 0 <= i < |a| ==> LowerChar(a[i]) == LowerChar(b[i])
  }

  const InvalidUserType := "Invalid user type: "

  /**
   * `createUser`: the kind whose key is the lower-cased input, or a failure
   * whose message quotes the input exactly as given.
   */
  function CreateUser(userType: string): (r: Result<User, string>)
    ensures r.Success? <==> exists u: User :: ToLower(userType) == Key(u)
    ensures r.Success? ==> Key(r.value) == ToLower(userType)
    ensures r.Failure? ==> r.error == InvalidUserType + userType
  {
    var lower := ToLower(userType);
    if lower == "admin" then assert Key(Admin) == lower; Success(Admin)
    else if lower == "moderator" then assert Key(Moderator) == lower; Success(Moderator)
    else if lower == "regular" then assert Key(RegularUser) == lower; Success(RegularUser)
    else
      assert forall u: User :: Key(u) != lower;
      Failure(InvalidUserType + userType)
  }

  lemma ToLowerOfSameIgnoringCase(a: string, b: string)
    requires SameIgnoringCase(a, b)
    ensures ToLower(a) == ToLower(b)
  {
  }

  /** Lower-case letters are what ToLower produces, so lower-casing twice changes nothing more. */
  lemma ToLowerIdempotent(s: string)
    ensures ToLower(ToLower(s)) == ToLower(s)
  {
  }

  /** Every key, in any casing, yields its kind of user. */
  lemma AnyCasingOfKeySucceeds(s: string, u: User)
    requires SameIgnoringCase(s, Key(u))
    ensures CreateUser(s) == Success(u)
  {
    ToLowerOfSameIgnoringCase(s, Key(u));
    assert ToLower(Key(u)) == Key(u);
  }

  /**
   * Inputs that differ only in case succeed or fail together and name the same
   * kind; only the failure message differs, since it quotes the input as given.
   */
  lemma CaseInsensitive(a: string, b: string)
    requires SameIgnoringCase(a, b)
    ensures CreateUser(a).Success? == CreateUser(b).Success?
    ensures CreateUser(a).Success? ==> CreateUser(a).value == CreateUser(b).value
  {
    ToLowerOfSameIgnoringCase(a, b);
  }

  /** Keys and users correspond one to one: creating from a key gives back that user. */
  lemma KeyRoundTrip(u: User)
    ensures CreateUser(Key(u)) == Success(u)
  {
    AnyCasingOfKeySucceeds(Key(u), u);
  }

  /** The role names "Admin" and "Moderator" are accepted as input, since case is ignored. */
  lemma RoleNameAdminAccepted()
    ensures CreateUser(Admin.Role()) == Success(Admin)
  {
    AnyCasingOfKeySucceeds(Admin.Role(), Admin);
  }

  lemma RoleNameModeratorAccepted()
    ensures CreateUser(Moderator.Role()) == Success(Moderator)
  {
    AnyCasingOfKeySucceeds(Moderator.Role(), Moderator);
  }

  /** The role name "Regular User" is not a key: it is an invalid user type. */
  lemma RoleNameRegularUserRejected(name: string)
    requires name == RegularUser.Role()
    ensures CreateUser(name) == Failure("Invalid user type: Regular User")
  {
    LongerThanEveryKeyRejected(name);
    assert InvalidUserType + name == "Invalid user type: Regular User";
  }

  /** An input longer than every key cannot name a user. */
  lemma LongerThanEveryKeyRejected(s: string)
    requires |s| > 9
    ensures CreateUser(s) == Failure(InvalidUserType + s)
  {
    assert forall u: User :: |Key(u)| <= 9;
  }

  predicate Distinct(s: seq<string>) {
    forall i, j :: 0 <= i < j < |s| ==> s[i] != s[j]
  }

  /** Each kind of user has its own role name. */
  lemma RolesDistinct(u: User, v: User)
    ensures u.Role() == v.Role() <==> u == v
  {
  }
}
