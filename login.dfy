/**
 * The sign-in screen: pick a role, enter a phone number and ask for an OTP,
 * then enter the OTP. Which of the three panels is visible follows from
 * the selected role and whether an OTP was sent.
 */
module Login {
  import opened Wrappers
  import Auth

  /** The OTP field's `maxLength`. */
  const OtpMaxLength := 4

  /** The role cards are listed while no role is chosen. */
  predicate ShowsRoleList(selectedRole: Option<Auth.Role>) {
    selectedRole.None?
  }

  /** The phone panel shows once a role is chosen and until an OTP is sent. */
  predicate ShowsPhoneEntry(selectedRole: Option<Auth.Role>, otpSent: bool) {
    selectedRole.Some? && !otpSent
  }

  /** The OTP panel shows once an OTP is sent. */
  predicate ShowsOtpEntry(otpSent: bool) {
    otpSent
  }

  /** "Change Role" is offered with a chosen role until an OTP is sent. */
  predicate OffersChangeRole(selectedRole: Option<Auth.Role>, otpSent: bool) {
    selectedRole.Some? && !otpSent
  }

  /**
   * As long as an OTP is only ever sent with a role chosen, exactly one of
   * the three panels is visible.
   */
  lemma ExactlyOnePhase(selectedRole: Option<Auth.Role>, otpSent: bool)
    requires otpSent ==> selectedRole.Some?
    ensures ShowsRoleList(selectedRole) <==> !ShowsPhoneEntry(selectedRole, otpSent) && !ShowsOtpEntry(otpSent)
    ensures ShowsPhoneEntry(selectedRole, otpSent) <==> !ShowsRoleList(selectedRole) && !ShowsOtpEntry(otpSent)
    ensures ShowsOtpEntry(otpSent) <==> !ShowsRoleList(selectedRole) && !ShowsPhoneEntry(selectedRole, otpSent)
  {
  }

  /** What the OTP field keeps of typed text: at most its first four characters. */
  function OtpInput(value: string): (kept: string)
    ensures |kept| <= OtpMaxLength
    ensures kept <= value
    ensures |value| <= OtpMaxLength ==> kept == value
  {
    if |value| <= OtpMaxLength then value else value[..OtpMaxLength]
  }

  /** What a press of "Verify & Login" led to: nothing without a role, else the toast shown. */
  datatype LoginOutcome = NoRole | Succeeded | Failed

  /** `Login`: the screen's four state fields. */
  class LoginScreen {
    var phone: string
    var otp: string
    var selectedRole: Option<Auth.Role>
    var otpSent: bool

    /** An OTP is only ever sent with a role chosen, and the OTP field holds at most four characters. */
    ghost predicate Valid()
      reads this
    {
      (otpSent ==> selectedRole.Some?) && |otp| <= OtpMaxLength
    }

    constructor ()
      ensures Valid()
      ensures phone == "" && otp == "" && selectedRole == None && !otpSent
    {
      phone := "";
      otp := "";
      selectedRole := None;
      otpSent := false;
    }

    /** A role card's `onClick`. */
    method SelectRole(role: Auth.Role)
      requires Valid()
      modifies this
      ensures Valid()
      ensures selectedRole == Some(role)
      ensures phone == old(phone) && otp == old(otp) && otpSent == old(otpSent)
    {
      selectedRole := Some(role);
    }

    /** The phone field's `onChange`. */
    method SetPhone(value: string)
      requires Valid()
      modifies this
      ensures Valid()
      ensures phone == value
      ensures otp == old(otp) && selectedRole == old(selectedRole) && otpSent == old(otpSent)
    {
      phone := value;
    }

    /** The OTP field's `onChange`, cut to the field's `maxLength`. */
    method SetOtp(value: string)
      requires Valid()
      modifies this
      ensures Valid()
      ensures otp == OtpInput(value)
      ensures phone == old(phone) && selectedRole == old(selectedRole) && otpSent == old(otpSent)
    {
      otp := OtpInput(value);
    }

    /**
     * `sendOtp`: refused (with an error toast) when the phone is empty or no
     * role is chosen; otherwise the OTP is marked as sent.
     */
    method SendOtp() returns (sent: bool)
      requires Valid()
      modifies this
      ensures Valid()
      ensures sent <==> phone != "" && selectedRole.Some?
      ensures otpSent == (old(otpSent) || sent)
      ensures phone == old(phone) && otp == old(otp) && selectedRole == old(selectedRole)
    {
      if phone == "" || selectedRole.None? {
        return false;
      }
      otpSent := true;
      return true;
    }

    /** "Change Number": back to the phone panel with the OTP cleared. */
    method ChangeNumber()
      requires Valid()
      modifies this
      ensures Valid()
      ensures !otpSent && otp == ""
      ensures phone == old(phone) && selectedRole == old(selectedRole)
    {
      otpSent := false;
      otp := "";
    }

    /** "Change Role", offered only before an OTP is sent: back to the role list. */
    method ChangeRole()
      requires Valid()
      requires OffersChangeRole(selectedRole, otpSent)
      modifies this
      ensures Valid()
      ensures selectedRole == None
      ensures phone == old(phone) && otp == old(otp) && otpSent == old(otpSent)
    {
      selectedRole := None;
    }

    /**
     * `handleLogin`: without a role nothing happens; otherwise the session
     * is asked to sign in with the entered phone and OTP, and the outcome
     * decides which toast is shown. The screen's own fields stay as they are.
     */
    method HandleLogin(auth: Auth.AuthProvider, nowMs: int) returns (outcome: LoginOutcome)
      requires Valid() && auth.Valid()
      modifies auth
      ensures Valid() && auth.Valid()
      ensures outcome == NoRole <==> selectedRole.None?
      ensures outcome == NoRole ==> unchanged(auth)
      ensures outcome == Succeeded <==> selectedRole.Some? && otp == Auth.DemoOtp
      ensures outcome == Succeeded ==> auth.user == Some(Auth.NewUser(phone, selectedRole.value, nowMs))
      ensures outcome == Failed ==> auth.user == old(auth.user) && auth.storedSession == old(auth.storedSession)
      ensures outcome != NoRole ==> !auth.isLoading
    {
      if selectedRole.None? {
        return NoRole;
      }
      var success := auth.Login(phone, otp, selectedRole.value, nowMs);
      outcome := if success then Succeeded else Failed;
    }
  }
}
