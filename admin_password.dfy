/**
 * The password gate in front of the admin panel: a fixed password, a
 * count of failed attempts with a lockout at five, and a flag kept in the
 * browser's session storage so that a reload stays signed in.
 */
module AdminPasswordProtection {
  import opened Common

  const AdminPassword: string := "admin123"

  /** Failed attempts after which the form is disabled. */
  const MaxAttempts: nat := 5

  /** The session storage key and the value that marks a signed-in
      session. */
  const SessionKey: string := "admin-authenticated"
  const SessionTrue: string := "true"

  /** The toasts `handleSubmit` raises. */
  datatype SubmitResult =
    | AccessGranted
    | AccessDenied(attemptsShown: nat, tooManyAttempts: bool)

  /** The inputs are enabled exactly below five failed attempts, so a
      failure made while they are enabled brings the count to five at
      most; from five on they stay disabled until a logout. */
  predicate InputEnabled(attempts: nat)
    ensures InputEnabled(attempts) ==> attempts + 1 <= MaxAttempts
    ensures attempts < MaxAttempts ==> InputEnabled(attempts)
  {
    attempts < MaxAttempts
  }

  /** The submit button is enabled below five failed attempts and when the
      password is not blank. */
  predicate SubmitEnabled(attempts: nat, password: string)
    ensures SubmitEnabled(attempts, password) ==> InputEnabled(attempts) && password != []
    ensures AllSpace(password) ==> !SubmitEnabled(attempts, password)
  {
    attempts < MaxAttempts && !IsBlank(password)
  }

  /** A blank password or a locked-out gate cannot be submitted, and a
      gate still open to input accepts any password that has a visible
      character. */
  lemma SubmitEnabledIff(attempts: nat, password: string)
    ensures SubmitEnabled(attempts, password) <==>
      InputEnabled(attempts) && exists i :: 0 <= i < |password| && !IsSpace(password[i])
  {
  }

  class Gate {
    var password: string
    var isAuthenticated: bool
    var attempts: nat
    /** The browser's session storage, key to value. */
    var session: map<string, string>

    /** The mount-time check: "true" stored under SessionKey starts the
        gate signed in. */
    constructor (sessionAtMount: map<string, string>)
      ensures isAuthenticated <==> SessionKey in sessionAtMount && sessionAtMount[SessionKey] == SessionTrue
      ensures password == [] && attempts == 0 && session == sessionAtMount
    {
      password := [];
      attempts := 0;
      session := sessionAtMount;
      isAuthenticated := SessionKey in sessionAtMount && sessionAtMount[SessionKey] == SessionTrue;
    }

    /** The input's onChange. */
    method SetPassword(value: string)
      modifies this
      ensures password == value
      ensures isAuthenticated == old(isAuthenticated) && attempts == old(attempts) && session == old(session)
    {
      password := value;
    }

    /** `handleSubmit`: the exact password signs in and is remembered for
        the session; any other counts one more failure and clears the
        field, with a second warning once five failures are reached. */
    method Submit() returns (result: SubmitResult)
      modifies this
      ensures old(password) == AdminPassword ==>
                result == AccessGranted && isAuthenticated && session == old(session)[SessionKey := SessionTrue]
                && attempts == old(attempts) && password == old(password)
      ensures old(password) != AdminPassword ==>
                result == AccessDenied(old(attempts) + 1, old(attempts) >= MaxAttempts - 1)
                && attempts == old(attempts) + 1 && password == []
                && isAuthenticated == old(isAuthenticated) && session == old(session)
      ensures result.AccessDenied? ==> (result.tooManyAttempts <==> attempts >= MaxAttempts)
    {
      if password == AdminPassword {
        isAuthenticated := true;
        session := session[SessionKey := SessionTrue];
        result := AccessGranted;
      } else {
        var tooMany := attempts >= MaxAttempts - 1;
        result := AccessDenied(attempts + 1, tooMany);
        attempts := attempts + 1;
        password := [];
      }
    }

    /** `handleLogout`: sign out, forget the session, clear the field and
        the failure count. Other session keys are kept. */
    method Logout()
      modifies this
      ensures !isAuthenticated && session == old(session) - {SessionKey} && password == [] && attempts == 0
    {
      isAuthenticated := false;
      session := session - {SessionKey};
      password := [];
      attempts := 0;
    }
  }

  /** Five wrong passwords in a row lock the form, and the fifth is the
      one that raises the warning. */
  method LockoutScenario()
  {
    var gate := new Gate(map[]);
    gate.SetPassword("guess");
    var last := gate.Submit();
    assert !last.tooManyAttempts;
    last := gate.Submit();
    last := gate.Submit();
    last := gate.Submit();
    assert last == AccessDenied(4, false);
    last := gate.Submit();
    assert last == AccessDenied(5, true) && !gate.isAuthenticated;
    assert last.tooManyAttempts;
    assert !InputEnabled(gate.attempts) && !SubmitEnabled(gate.attempts, "admin123");
    gate.Logout();
    assert InputEnabled(gate.attempts);
  }
}
