/** The login screen (src/pages/Login.tsx): a role picker, a four-digit PIN
    pad, the lookup of a user by role and PIN, and the page each role lands on.
    The session store that records the logged-in user is not part of this
    model: a successful login is reported as an outcome carrying the user. */
module Login {
  import opened Types
  import opened MockData

  /** `users.find((u) => u.role === role && u.pin === pin)`; a user without a PIN never matches. */
  predicate Credentials(u: User, role: UserRole, pin: string)
  {
    u.role == role && u.pin == Some(pin)
  }

  /** The first user with the role and PIN, if any. */
  function FindUser(users: seq<User>, role: UserRole, pin: string): (r: Option<User>)
    ensures r.None? <==> forall k :: 0 <= k < |users| ==> !Credentials(users[k], role, pin)
    ensures r.Some? ==> r.value in users && Credentials(r.value, role, pin)
  {
    if users == [] then None
    else if Credentials(users[0], role, pin) then Some(users[0])
    else FindUser(users[1..], role, pin)
  }

  /** The page a role is sent to after logging in. */
  function LandingRoute(role: UserRole): (path: string)
    ensures role == Waiter ==> path == "/waiter"
    ensures role == Kitchen ==> path == "/kds"
    ensures role == Cashier ==> path == "/billing"
    ensures role == Admin || role == Manager ==> path == "/dashboard"
    ensures role == Storekeeper ==> path == "/inventory"
  {
    match role
    case Waiter => "/waiter"
    case Kitchen => "/kds"
    case Cashier => "/billing"
    case Admin => "/dashboard"
    case Manager => "/dashboard"
    case Storekeeper => "/inventory"
  }

  /** The Login button is enabled only with exactly four digits entered, so
      a press of the enabled button never meets an empty PIN. */
  predicate LoginEnabled(pin: string)
    ensures LoginEnabled(pin) ==> pin != ""
  {
    |pin| == 4
  }

  datatype LoginOutcome =
    | MissingRole
    | MissingPin
    | InvalidPin
    | LoggedIn(user: User, route: string)

  /** The outcome of pressing Login, before its effect on the PIN. */
  function Attempt(users: seq<User>, role: Option<UserRole>, pin: string): (o: LoginOutcome)
    ensures role.None? <==> o == MissingRole
    ensures role.Some? && pin == "" <==> o == MissingPin
    ensures o.LoggedIn? <==> role.Some? && pin != "" && exists k :: 0 <= k < |users| && Credentials(users[k], role.value, pin)
    ensures o.LoggedIn? ==>
      o.user in users && Credentials(o.user, role.value, pin) && o.route == LandingRoute(o.user.role)
  {
    if role.None? then MissingRole
    else if pin == "" then MissingPin
    else
      var found := FindUser(users, role.value, pin);
      if found.Some? then LoggedIn(found.value, LandingRoute(found.value.role)) else InvalidPin
  }

  /** The lookup returns the first user that matches, not merely some match. */
  lemma {:induction false} FindUserFirst(users: seq<User>, role: UserRole, pin: string, k: nat)
    requires k < |users| && Credentials(users[k], role, pin)
    requires forall j :: 0 <= j < k ==> !Credentials(users[j], role, pin)
    ensures FindUser(users, role, pin) == Some(users[k])
  {
    if k > 0 {
      FindUserFirst(users[1..], role, pin, k - 1);
    }
  }

  /** The demo waiter gets in with PIN 4567 and lands on the waiter screen. */
  lemma MockWaiterLogin()
    ensures Attempt(MockUsers, Some(Waiter), "4567") == LoggedIn(MockUsers[3], "/waiter")
  {
    FindUserFirst(MockUsers, Waiter, "4567", 3);
  }

  /** The demo admin gets in with PIN 1234 and lands on the dashboard. */
  lemma MockAdminLogin()
    ensures Attempt(MockUsers, Some(Admin), "1234") == LoggedIn(MockUsers[0], "/dashboard")
  {
  }

  /** The waiter's PIN does not open the admin role. */
  lemma MockWrongRole()
    ensures Attempt(MockUsers, Some(Admin), "4567") == InvalidPin
  {
    var us := MockUsers;
    assert us[0].pin != Some("4567");
    forall k | 1 <= k < |us| ensures !Credentials(us[k], Admin, "4567") {
      assert us[k].role != Admin;
    }
  }

  class LoginPage {
    var selectedRole: Option<UserRole>
    var pin: string

    /** The PIN never grows past four characters. */
    predicate Valid()
      reads this
    {
      |pin| <= 4
    }

    constructor ()
      ensures selectedRole == None && pin == "" && Valid()
    {
      selectedRole := None;
      pin := "";
    }

    method SelectRole(role: UserRole)
      modifies this
      ensures selectedRole == Some(role) && pin == old(pin)
    {
      selectedRole := Some(role);
    }

    /** A keypad digit is appended only while fewer than four are entered. */
    method HandlePinInput(digit: char)
      modifies this
      ensures |old(pin)| < 4 ==> pin == old(pin) + [digit]
      ensures |old(pin)| >= 4 ==> pin == old(pin)
      ensures selectedRole == old(selectedRole)
      ensures old(Valid()) ==> Valid()
    {
      if |pin| < 4 {
        pin := pin + [digit];
      }
    }

    /** `pin.slice(0, -1)`: drops the last character; an empty PIN stays empty. */
    method HandleBackspace()
      modifies this
      ensures |old(pin)| > 0 ==> pin == old(pin)[..|old(pin)| - 1]
      ensures old(pin) == "" ==> pin == ""
      ensures selectedRole == old(selectedRole)
      ensures old(Valid()) ==> Valid()
    {
      if |pin| > 0 {
        pin := pin[..|pin| - 1];
      }
    }

    /** The Clear key. */
    method ClearPin()
      modifies this
      ensures pin == "" && selectedRole == old(selectedRole) && Valid()
    {
      pin := "";
    }

    /** `handleLogin`: a missing role or PIN changes nothing, a failed lookup clears the PIN. */
    method HandleLogin(users: seq<User>) returns (o: LoginOutcome)
      modifies this
      ensures o == Attempt(users, old(selectedRole), old(pin))
      ensures o == InvalidPin ==> pin == ""
      ensures o != InvalidPin ==> pin == old(pin)
      ensures selectedRole == old(selectedRole)
      ensures old(Valid()) ==> Valid()
    {
      if selectedRole.None? {
        return MissingRole;
      }
      if pin == "" {
        return MissingPin;
      }
      var found := FindUser(users, selectedRole.value, pin);
      if found.Some? {
        o := LoggedIn(found.value, LandingRoute(found.value.role));
      } else {
        o := InvalidPin;
        pin := "";
      }
    }
  }

  /** The button's four-digit guard is stricter than the empty-PIN check: with
      the button enabled, a chosen role never gets the missing-PIN error. */
  lemma EnabledLoginHasPin(users: seq<User>, role: UserRole, pin: string)
    requires LoginEnabled(pin)
    ensures Attempt(users, Some(role), pin) != MissingPin
    ensures Attempt(users, Some(role), pin) != MissingRole
  {
  }

  /** Typing five digits into an empty PIN keeps only the first four, which enables the Login button. */
  method FiveDigits(page: LoginPage)
    requires page.pin == ""
    modifies page
    ensures page.pin == "1234" && LoginEnabled(page.pin)
  {
    page.HandlePinInput('1');
    page.HandlePinInput('2');
    page.HandlePinInput('3');
    page.HandlePinInput('4');
    page.HandlePinInput('5');
  }
}
