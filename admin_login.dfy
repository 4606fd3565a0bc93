/** client/src/components/auth/AdminLogin.jsx: the admin login form's
    attempt counter and lockout. After three failed attempts (a rejected login,
    or a login whose user is not an admin) the form locks; the lockout timer's
    expiry unlocks it and resets the counter. The login call's outcome is a
    parameter of the submit handler and the timer's expiry is an event of its
    own. */
module AdminLogin {
  import opened Common
  import AuthReducer

  const MaxAttempts: nat := 3

  const LockedError := "Account is temporarily locked. Please try again later."
  const NotAdminError := "Access denied. Admin privileges required."
  const LockoutError := "Account locked for 5 minutes due to multiple failed attempts."

  /** The two inputs of the form. */
  datatype Field = Email | Password

  /** How `this.props.login(email, password)` ended: it returned a response
      whose user has the given role, or it threw with the server's error text. */
  datatype LoginOutcome = Returned(role: Option<string>) | Threw(serverError: Option<string>)

  predicate IsFailure(outcome: LoginOutcome)
  {
    outcome.Threw? || outcome.role != Some(AdminRole)
  }

  class AdminLoginForm {
    var email: string
    var password: string
    var error: Option<string>
    var attempts: nat
    var isLocked: bool
    /** A lockout timer is pending. */
    var lockoutTimer: bool

    /** The counter stays below three while the form is open and is three
        while it is locked; a timer is pending exactly while it is locked. */
    ghost predicate Valid()
      reads this
    {
      && (isLocked <==> lockoutTimer)
      && (isLocked ==> attempts == MaxAttempts)
      && (!isLocked ==> attempts < MaxAttempts)
    }

    constructor ()
      ensures Valid()
      ensures email == "" && password == "" && error.None? && attempts == 0 && !isLocked && !lockoutTimer
    {
      email, password, error := "", "", None;
      attempts, isLocked, lockoutTimer := 0, false, false;
    }

    /** `handleChange`: stores the input and clears the error. */
    method HandleChange(field: Field, value: string)
      requires Valid()
      modifies this
      ensures Valid()
      ensures error.None?
      ensures field == Email ==> email == value && password == old(password)
      ensures field == Password ==> password == value && email == old(email)
      ensures attempts == old(attempts) && isLocked == old(isLocked) && lockoutTimer == old(lockoutTimer)
    {
      match field {
        case Email => email := value;
        case Password => password := value;
      }
      error := None;
    }

    /** `lockAccount`: locks the form and starts the lockout timer. */
    method LockAccount()
      modifies this
      ensures isLocked && lockoutTimer && error == Some(LockoutError)
      ensures email == old(email) && password == old(password) && attempts == old(attempts)
    {
      isLocked := true;
      error := Some(LockoutError);
      lockoutTimer := true;
    }

    /** `handleSubmit`. While locked nothing is attempted. Otherwise the login
        is attempted: an admin resets the counter, every other outcome counts
        one failure and the third failure locks the form. `attempted` says
        whether the login call was made. Which message `error` shows after the
        third failure is left open. */
    method HandleSubmit(outcome: LoginOutcome) returns (attempted: bool)
      requires Valid()
      modifies this
      ensures Valid()
      ensures email == old(email) && password == old(password)
      ensures attempted <==> !old(isLocked)
      ensures old(isLocked) ==>
                error == Some(LockedError) && attempts == old(attempts) && isLocked && lockoutTimer
      ensures !old(isLocked) && !IsFailure(outcome) ==>
                attempts == 0 && !isLocked && error == old(error)
      ensures !old(isLocked) && IsFailure(outcome) ==>
                attempts == old(attempts) + 1 && (isLocked <==> attempts == MaxAttempts)
      ensures !old(isLocked) && IsFailure(outcome) && !isLocked ==>
                error == Some(if outcome.Returned? then NotAdminError else OrElse(outcome.serverError, "Invalid credentials"))
    {
      if isLocked {
        error := Some(LockedError);
        return false;
      }
      attempted := true;
      match outcome
      case Returned(role) =>
        if role != Some(AdminRole) {
          var newAttempts := attempts + 1;
          error := Some(NotAdminError);
          attempts := newAttempts;
          if newAttempts >= MaxAttempts {
            LockAccount();
          }
          return;
        }
        attempts := 0;
      case Threw(serverError) =>
        var newAttempts := attempts + 1;
        error := Some(OrElse(serverError, "Invalid credentials"));
        attempts := newAttempts;
        if newAttempts >= MaxAttempts {
          LockAccount();
        }
    }

    /** The lockout timer fires: the form unlocks with a fresh counter and no
        error. Without a pending timer there is nothing to fire. */
    method LockoutExpires()
      requires Valid()
      modifies this
      ensures Valid()
      ensures email == old(email) && password == old(password)
      ensures old(lockoutTimer) ==> !isLocked && attempts == 0 && error.None? && !lockoutTimer
      ensures !old(lockoutTimer) ==>
                isLocked == old(isLocked) && attempts == old(attempts) && error == old(error) && !lockoutTimer
    {
      if lockoutTimer {
        isLocked, attempts, error, lockoutTimer := false, 0, None, false;
      }
    }

    /** The "Attempts remaining" line: shown under an error message once an
        attempt has failed and while the form is not locked. */
    function AttemptsRemaining(): (r: Option<int>)
      reads this
      requires Valid()
      ensures r.Some? <==> Truthy(error) && attempts > 0 && !isLocked
      ensures r.Some? ==> r.value == MaxAttempts - attempts && 1 <= r.value <= 2
    {
      if Truthy(error) && attempts > 0 && !isLocked then Some(MaxAttempts - attempts) else None
    }
  }

  /** Where the form sends a visitor who is already signed in: an admin to the
      admin area, anyone else to the dashboard; `None` renders the form. */
  function Landing(isAuthenticated: bool, user: Option<AuthReducer.AuthUser>): (to: Option<string>)
    ensures to.None? <==> !isAuthenticated
    ensures isAuthenticated ==>
              to == Some(if user.Some? && user.value.role == Some(AdminRole) then "/admin" else "/dashboard")
  {
    if isAuthenticated && user.Some? && user.value.role == Some(AdminRole) then Some("/admin")
    else if isAuthenticated then Some("/dashboard")
    else None
  }

  /** Three failed submissions on a freshly mounted form lock it, a fourth is
      not attempted, and the timer's expiry opens the form again with a fresh
      counter. */
  method ThreeFailuresLock(o1: LoginOutcome, o2: LoginOutcome, o3: LoginOutcome, o4: LoginOutcome)
    returns (lockedAfterThree: bool, fourthAttempted: bool, unlocked: bool)
    requires IsFailure(o1) && IsFailure(o2) && IsFailure(o3)
    ensures lockedAfterThree && !fourthAttempted && unlocked
  {
    var form := new AdminLoginForm();
    var a1 := form.HandleSubmit(o1);
    var a2 := form.HandleSubmit(o2);
    var a3 := form.HandleSubmit(o3);
    lockedAfterThree := form.isLocked && form.attempts == MaxAttempts;
    fourthAttempted := form.HandleSubmit(o4);
    form.LockoutExpires();
    unlocked := !form.isLocked && form.attempts == 0 && form.AttemptsRemaining().None?;
  }
}
