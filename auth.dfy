/**
 * The session: who is signed in, whether a sign-in is in progress, and the
 * copy of the user kept in the browser's storage under `farmUser` so that a
 * reload restores the session.
 */
module Auth {
  import opened Wrappers
  import opened JsText

  /** `UserRole`. */
  datatype Role = Farmer | Veterinarian | Regulator

  /** How the source spells a role. */
  function RoleValue(role: Role): (value: string)
    ensures |value| > 0
  {
    match role
    case Farmer => "farmer"
    case Veterinarian => "veterinarian"
    case Regulator => "regulator"
  }

  /** `User`; the three affiliations are optional fields. */
  datatype User = User(
    id: string,
    name: string,
    phone: string,
    role: Role,
    farmId: Option<string>,
    practiceId: Option<string>,
    region: Option<string>)

  /** The OTP every sign-in accepts. */
  const DemoOtp := "1234"

  /**
   * The user a successful sign-in creates at `nowMs`: the id is the role and
   * the sign-in time, the name is fixed per role, and exactly the role's own
   * affiliation is filled in.
   */
  function NewUser(phone: string, role: Role, nowMs: int): (u: User)
    ensures u.phone == phone && u.role == role
    ensures u.id == RoleValue(role) + "_" + IntToString(nowMs)
    ensures role == Farmer ==> u.name == "Rajesh Kumar"
    ensures role == Veterinarian ==> u.name == "Dr. Priya Sharma"
    ensures role == Regulator ==> u.name == "Inspector Singh"
    ensures u.farmId.Some? <==> role == Farmer
    ensures u.practiceId.Some? <==> role == Veterinarian
    ensures u.region.Some? <==> role == Regulator
    ensures u.farmId.Some? ==> u.farmId.value == "FARM001"
    ensures u.practiceId.Some? ==> u.practiceId.value == "VET001"
    ensures u.region.Some? ==> u.region.value == "Punjab"
  {
    User(
      RoleValue(role) + "_" + IntToString(nowMs),
      match role
      case Farmer => "Rajesh Kumar"
      case Veterinarian => "Dr. Priya Sharma"
      case Regulator => "Inspector Singh",
      phone,
      role,
      if role == Farmer then Some("FARM001") else None,
      if role == Veterinarian then Some("VET001") else None,
      if role == Regulator then Some("Punjab") else None)
  }

  /** A created user's id splits back into the role and the sign-in time. */
  lemma NewUserIdRecoversLoginTime(phone: string, role: Role, nowMs: int)
    ensures var id := NewUser(phone, role, nowMs).id;
      var n := |RoleValue(role)|;
      && |id| > n
      && id[..n] == RoleValue(role)
      && id[n] == '_'
      && ParseInt(id[n + 1..]) == Some(nowMs)
  {
    JoinedParts(RoleValue(role), IntToString(nowMs));
    ParseIntOfIntToString(nowMs);
  }

  /** `prefix + "_" + rest` splits back at the length of `prefix`. */
  lemma JoinedParts(prefix: string, rest: string)
    ensures var joined := prefix + "_" + rest;
      && |joined| > |prefix|
      && joined[..|prefix|] == prefix
      && joined[|prefix|] == '_'
      && joined[|prefix| + 1..] == rest
  {
    var joined := prefix + "_" + rest;
    assert joined[..|prefix|] == prefix;
    assert joined[|prefix| + 1..] == rest;
  }

  /** Sign-ins with different roles or at different times create users with different ids. */
  lemma NewUserIdsDistinct(phone1: string, role1: Role, t1: int, phone2: string, role2: Role, t2: int)
    requires role1 != role2 || t1 != t2
    ensures NewUser(phone1, role1, t1).id != NewUser(phone2, role2, t2).id
  {
    var id1 := NewUser(phone1, role1, t1).id;
    var id2 := NewUser(phone2, role2, t2).id;
    if role1 != role2 {
      assert id1[0] == RoleValue(role1)[0];
      assert id2[0] == RoleValue(role2)[0];
    } else if id1 == id2 {
      NewUserIdRecoversLoginTime(phone1, role1, t1);
      NewUserIdRecoversLoginTime(phone2, role2, t2);
    }
  }

  /** `AuthProvider`: the signed-in user, the loading flag and the stored session. */
  class AuthProvider {
    var user: Option<User>
    var isLoading: bool
    /** The `farmUser` entry of the browser's storage. */
    var storedSession: Option<User>

    /** The signed-in user is always the one kept in storage. */
    ghost predicate Valid()
      reads this
    {
      user.Some? ==> storedSession == user
    }

    /** `isAuthenticated`: someone is signed in. */
    predicate IsAuthenticated()
      reads this
    {
      user.Some?
    }

    /** The provider mounts signed out and loading, over whatever storage holds. */
    constructor (storedSession: Option<User>)
      ensures Valid()
      ensures user == None && isLoading
      ensures this.storedSession == storedSession
    {
      user := None;
      isLoading := true;
      this.storedSession := storedSession;
    }

    /** The mount effect: signs the stored user back in, then stops loading. */
    method RestoreSession()
      requires Valid()
      modifies this
      ensures Valid()
      ensures user == if storedSession.Some? then storedSession else old(user)
      ensures !isLoading && storedSession == old(storedSession)
    {
      if storedSession.Some? {
        user := storedSession;
      }
      isLoading := false;
    }

    /**
     * `login`: the demo OTP signs in a new user and stores it; any other OTP
     * is refused and changes nothing but the loading flag. Loading is over
     * when it returns, on either path.
     */
    method Login(phone: string, otp: string, role: Role, nowMs: int) returns (success: bool)
      requires Valid()
      modifies this
      ensures Valid()
      ensures success <==> otp == DemoOtp
      ensures success ==> user == Some(NewUser(phone, role, nowMs)) && storedSession == user
      ensures !success ==> user == old(user) && storedSession == old(storedSession)
      ensures !isLoading
    {
      isLoading := true;
      if otp == DemoOtp {
        var newUser := NewUser(phone, role, nowMs);
        user := Some(newUser);
        storedSession := Some(newUser);
        isLoading := false;
        return true;
      }
      isLoading := false;
      return false;
    }

    /** `logout`: signs out and forgets the stored session. */
    method Logout()
      modifies this
      ensures Valid()
      ensures user == None && storedSession == None
      ensures !IsAuthenticated()
      ensures isLoading == old(isLoading)
    {
      user := None;
      storedSession := None;
    }
  }
}
