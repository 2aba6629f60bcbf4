/** The login page's demo credential check. */
module Login {
  import opened Wrappers

  /** The `role` query parameter, or "staff" when it is absent or empty. */
  function RoleFromQuery(param: Option<string>): (role: string)
    ensures role != ""
    ensures param.Some? && param.value != "" ==> role == param.value
    ensures param.None? || param.value == "" ==> role == "staff"
  {
    if param.Some? && param.value != "" then param.value else "staff"
  }

  /**
   * Where a login attempt leads: the owner form needs the password "admin" and leads to
   * "/owner"; any other role uses the staff form, which needs the PIN "1234" and leads to
   * "/staff". E-mail and staff id are never looked at.
   */
  function CheckCredentials(role: string, password: string, pin: string): (target: Option<string>)
    ensures target == Some("/owner") <==> role == "owner" && password == "admin"
    ensures target == Some("/staff") <==> role != "owner" && pin == "1234"
    ensures target.Some? ==> target.value == "/owner" || target.value == "/staff"
  {
    if role == "owner" then
      if password == "admin" then Some("/owner") else None
    else
      if pin == "1234" then Some("/staff") else None
  }

  /** An owner's attempt does not depend on the PIN field, a staff attempt not on the password field. */
  lemma CredentialsIgnoreOtherForm(role: string, password: string, pin: string, password': string, pin': string)
    ensures role == "owner" ==> CheckCredentials(role, password, pin) == CheckCredentials(role, password, pin')
    ensures role != "owner" ==> CheckCredentials(role, password, pin) == CheckCredentials(role, password', pin)
  {
  }

  class LoginPage {
    const role: string
    var email: string
    var password: string
    var staffId: string
    var pin: string
    var isLoading: bool

    constructor(roleParam: Option<string>)
      ensures role == RoleFromQuery(roleParam)
      ensures email == "" && password == "" && staffId == "" && pin == "" && !isLoading
    {
      role := RoleFromQuery(roleParam);
      email, password, staffId, pin := "", "", "", "";
      isLoading := false;
    }

    /** The form's submit: the credential decision, with loading over at the end either way. */
    method HandleLogin() returns (navigateTo: Option<string>)
      modifies this
      ensures navigateTo == CheckCredentials(role, password, pin)
      ensures !isLoading
      ensures email == old(email) && password == old(password) && staffId == old(staffId) && pin == old(pin)
    {
      isLoading := true;
      if role == "owner" {
        navigateTo := if password == "admin" then Some("/owner") else None;
      } else {
        navigateTo := if pin == "1234" then Some("/staff") else None;
      }
      isLoading := false;
    }
  }
}
