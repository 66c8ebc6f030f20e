/** The authentication context: two pieces of state, the current user and a
    loading flag, and the operations that consult the identity service and
    update them. Every remote call is an outcome passed in; every operation
    raises the flag, consults its outcomes, updates or keeps the user, and
    lowers the flag on every path. An operation's `thrown` result is the
    message of the `Error` it re-throws, or None when it resolves. */
module AuthProvider {
  import opened Wrappers
  import opened Appwrite
  import opened Types

  /** Text before the first `@` (`email.split('@')[0]`); the whole string
      when it has none. */
  function NameFromEmail(email: string): (name: string)
    ensures |name| <= |email| && name == email[..|name|]
    ensures forall i :: 0 <= i < |name| ==> name[i] != '@'
    ensures |name| < |email| ==> email[|name|] == '@'
  {
    if |email| == 0 || email[0] == '@' then ""
    else [email[0]] + NameFromEmail(email[1..])
  }

  const DefaultPreferences := Preferences(Light, "en", USD, Notifications(true, false, true))
  const NoKyc := Kyc(Pending, [], None)

  /** `fetchUserProfile`'s mock profile over the account it re-reads. */
  function Profile(a: Account, now: string): (u: User)
    ensures u.id == a.id && u.email == a.email && u.name == a.name
    ensures u.emailVerification == a.emailVerification && u.phone == a.phone
    ensures u.createdAt == a.createdAt && u.updatedAt == a.updatedAt
    ensures u.preferences == DefaultPreferences && u.kyc == NoKyc && u.avatar.None?
    ensures u.gdprConsent == UserConsent(false, false, true, now)
  {
    User(a.id, a.createdAt, a.updatedAt, a.email, a.name, a.emailVerification, a.phone, None,
         DefaultPreferences, NoKyc, UserConsent(false, false, true, now))
  }

  /** The three separate `new Date().toISOString()` reads of the demo login,
      which differ when the clock advances between them. */
  datatype DemoClock = DemoClock(createdAt: string, updatedAt: string, consentDate: string)

  /** The user the demo login invents; `stamp` is `Date.now()` as text. */
  function DemoUser(email: string, stamp: string, clock: DemoClock): (u: User)
    ensures u.email == email && u.emailVerification
    ensures u.id == "demo-user-" + stamp
    ensures u.createdAt == clock.createdAt && u.updatedAt == clock.updatedAt
    ensures u.name == NameFromEmail(email)
    ensures '@' !in u.name && u.name <= email
    ensures u.gdprConsent == UserConsent(false, true, true, clock.consentDate)
  {
    var name := NameFromEmail(email);
    assert forall i :: 0 <= i < |name| ==> name[i] != '@';
    User("demo-user-" + stamp, clock.createdAt, clock.updatedAt, email, name, true, None, None,
         DefaultPreferences, NoKyc, UserConsent(false, true, true, clock.consentDate))
  }

  /** What reading `$id` off a null account throws. */
  const NullAccountError := PlainError("Cannot read properties of null (reading '$id')")

  /** What calling the unimported `account` throws. */
  const MissingAccountError := PlainError("account is not defined")

  /** The error the demo login throws for the password `wrongpassword`. */
  const DemoCredentialsError := PlainError("user_invalid_credentials")

  const DemoWrongPassword := "wrongpassword"

  /** `fetchUserProfile`: re-reads the account (ignoring the id it is given)
      and fails when that read comes back null. */
  function FetchUserProfile(reread: Result<Account, AppwriteError>, now: string): (r: Result<User, AppwriteError>)
    ensures reread.Ok? <==> r.Ok?
    ensures r.Ok? ==> r.value == Profile(reread.value, now)
    ensures r.Err? ==> r.error == NullAccountError
  {
    match GetCurrentUser(reread)
    case Some(a) => Ok(Profile(a, now))
    case None => Err(NullAccountError)
  }

  datatype SessionStatus = Checking | Authenticated | Anonymous

  class AuthState {
    var user: Option<User>
    var isLoading: bool

    /** Mounting: no user yet, and loading until the first check ends. */
    constructor ()
      ensures user == None && isLoading
      ensures Status() == Checking
    {
      user := None;
      isLoading := true;
    }

    /** `isAuthenticated: !!user`. */
    function IsAuthenticated(): (b: bool)
      reads this
      ensures b <==> user != None
    {
      user.Some?
    }

    /** The three states of the session as the rest of the interface sees it. */
    function Status(): (s: SessionStatus)
      reads this
      ensures s == Checking <==> isLoading
      ensures s == Authenticated <==> !isLoading && IsAuthenticated()
      ensures s == Anonymous <==> !isLoading && !IsAuthenticated()
    {
      if isLoading then Checking else if user.Some? then Authenticated else Anonymous
    }

    /** The dashboard's guard: it sends the visitor to the login page once
        loading is over and nobody is signed in. */
    function DashboardRedirects(): (redirect: bool)
      reads this
      ensures redirect <==> Status() == Anonymous
    {
      !isLoading && !IsAuthenticated()
    }

    /** `checkAuth`: never throws. No session leaves the user alone; a session
        whose profile cannot be re-read clears it. */
    method CheckAuth(session: Result<Account, AppwriteError>, reread: Result<Account, AppwriteError>, now: string)
      modifies this
      ensures !isLoading
      ensures session.Err? ==> user == old(user)
      ensures session.Ok? && reread.Err? ==> user == None
      ensures session.Ok? && reread.Ok? ==> user == Some(Profile(reread.value, now))
    {
      isLoading := true;
      var current := GetCurrentUser(session);
      if current.Some? {
        var profile := FetchUserProfile(reread, now);
        if profile.Ok? {
          user := Some(profile.value);
        } else {
          user := None;
        }
      }
      isLoading := false;
    }

    /** `login`, in demo mode or against the identity service. */
    method Login(email: string, password: string, demo: bool, stamp: string, clock: DemoClock, now: string,
                 session: Result<(), AppwriteError>,
                 current: Result<Account, AppwriteError>,
                 reread: Result<Account, AppwriteError>)
      returns (thrown: Option<string>)
      modifies this
      ensures !isLoading
      ensures demo && password == DemoWrongPassword ==>
        thrown == Some("user_invalid_credentials") && user == old(user)
      ensures demo && password != DemoWrongPassword ==>
        thrown == None && user == Some(DemoUser(email, stamp, clock))
      ensures !demo && session.Err? ==>
        thrown == Some(HandleAppwriteError(session.error)) && user == old(user)
      ensures !demo && session.Ok? && current.Err? ==>
        thrown == None && user == old(user)
      ensures !demo && session.Ok? && current.Ok? && reread.Err? ==>
        thrown == Some(NullAccountError.message) && user == old(user)
      ensures !demo && session.Ok? && current.Ok? && reread.Ok? ==>
        thrown == None && user == Some(Profile(reread.value, now))
    {
      isLoading := true;
      var failure: Option<AppwriteError> := None;
      if demo {
        if password == DemoWrongPassword {
          failure := Some(DemoCredentialsError);
        } else {
          user := Some(DemoUser(email, stamp, clock));
        }
      } else {
        var created := Rethrow(session);
        if created.Err? {
          failure := Some(created.error);
          RethrowNormalisesOnce(session);
        } else {
          var account := GetCurrentUser(current);
          if account.Some? {
            var profile := FetchUserProfile(reread, now);
            if profile.Ok? {
              user := Some(profile.value);
            } else {
              failure := Some(profile.error);
            }
          }
        }
      }
      thrown := if failure.Some? then Some(HandleAppwriteError(failure.value)) else None;
      isLoading := false;
    }

    /** `register`: never signs the new account in; a failed verification
        email is swallowed. */
    method Register(created: Result<Account, AppwriteError>, verification: Result<(), AppwriteError>)
      returns (thrown: Option<string>)
      modifies this
      ensures !isLoading && user == old(user)
      ensures created.Ok? ==> thrown == None
      ensures created.Err? ==> thrown == Some(HandleAppwriteError(created.error))
    {
      isLoading := true;
      var account := Rethrow(created);
      if account.Err? {
        RethrowNormalisesOnce(created);
        thrown := Some(HandleAppwriteError(account.error));
      } else {
        var sent := Rethrow(verification);
        thrown := None;
      }
      isLoading := false;
    }

    /** `logout`: the user is cleared only once the session is deleted. */
    method Logout(deleted: Result<(), AppwriteError>) returns (thrown: Option<string>)
      modifies this
      ensures !isLoading
      ensures deleted.Ok? ==> thrown == None && user == None
      ensures deleted.Err? ==> thrown == Some(HandleAppwriteError(deleted.error)) && user == old(user)
    {
      isLoading := true;
      var r := Rethrow(deleted);
      if r.Ok? {
        user := None;
        thrown := None;
      } else {
        RethrowNormalisesOnce(deleted);
        thrown := Some(HandleAppwriteError(r.error));
      }
      isLoading := false;
    }

    /** `updateProfile`: merges the patch over the current user, if any. */
    method UpdateProfile(data: UserPatch) returns (thrown: Option<string>)
      modifies this
      ensures !isLoading && thrown == None
      ensures old(user).Some? ==> user == Some(Merge(old(user).value, data))
      ensures old(user).None? ==> user == None
    {
      isLoading := true;
      if user.Some? {
        user := Some(Merge(user.value, data));
      }
      thrown := None;
      isLoading := false;
    }

    /** `verifyEmail`: on success, the session is checked again. */
    method VerifyEmail(verified: Result<(), AppwriteError>,
                       session: Result<Account, AppwriteError>,
                       reread: Result<Account, AppwriteError>, now: string)
      returns (thrown: Option<string>)
      modifies this
      ensures !isLoading
      ensures verified.Err? ==> thrown == Some(HandleAppwriteError(verified.error)) && user == old(user)
      ensures verified.Ok? && session.Err? ==> thrown == None && user == old(user)
      ensures verified.Ok? && session.Ok? && reread.Err? ==> thrown == None && user == None
      ensures verified.Ok? && session.Ok? && reread.Ok? ==>
        thrown == None && user == Some(Profile(reread.value, now))
    {
      isLoading := true;
      var r := Rethrow(verified);
      if r.Ok? {
        CheckAuth(session, reread, now);
        thrown := None;
      } else {
        RethrowNormalisesOnce(verified);
        thrown := Some(HandleAppwriteError(r.error));
      }
      isLoading := false;
    }

    /** `resetPassword`: asks for a recovery email; the user is untouched. */
    method ResetPassword(requested: Result<(), AppwriteError>) returns (thrown: Option<string>)
      modifies this
      ensures !isLoading && user == old(user)
      ensures requested.Ok? <==> thrown == None
      ensures requested.Err? ==> thrown == Some(HandleAppwriteError(requested.error))
    {
      isLoading := true;
      var r := Rethrow(requested);
      if r.Ok? {
        thrown := None;
      } else {
        RethrowNormalisesOnce(requested);
        thrown := Some(HandleAppwriteError(r.error));
      }
      isLoading := false;
    }

    /** `updatePassword`: its call goes to a name the module never imports,
        so it always throws and changes nothing but the flag. */
    method UpdatePassword(password: string, oldPassword: string) returns (thrown: Option<string>)
      modifies this
      ensures !isLoading && user == old(user)
      ensures thrown == Some("account is not defined")
    {
      isLoading := true;
      thrown := Some(HandleAppwriteError(MissingAccountError));
      isLoading := false;
    }

    /** `deleteAccount`: logs out and reports what logging out reported. */
    method DeleteAccount(deleted: Result<(), AppwriteError>) returns (thrown: Option<string>)
      modifies this
      ensures !isLoading
      ensures deleted.Ok? ==> thrown == None && user == None
      ensures deleted.Err? ==> thrown == Some(HandleAppwriteError(deleted.error)) && user == old(user)
    {
      isLoading := true;
      var loggedOut := Logout(deleted);
      if loggedOut.Some? {
        thrown := Some(HandleAppwriteError(PlainError(loggedOut.value)));
        NormaliseIdempotent(deleted.error);
      } else {
        thrown := None;
      }
      isLoading := false;
    }
  }

  /** A fresh context whose first check finds no session, then a demo login
      with the wrong password: the raw tag is reported and nobody is signed
      in. */
  method WrongDemoPasswordScenario(email: string, noSession: AppwriteError)
    returns (thrown: Option<string>, status: SessionStatus, redirect: bool)
    ensures thrown == Some("user_invalid_credentials")
    ensures status == Anonymous && redirect
  {
    var auth := new AuthState();
    auth.CheckAuth(Err(noSession), Err(noSession), "");
    thrown := auth.Login(email, DemoWrongPassword, true, "", DemoClock("", "", ""), "", Ok(()), Err(noSession), Err(noSession));
    status := auth.Status();
    redirect := auth.DashboardRedirects();
  }

  /** A signed-in user whose remote logout fails stays signed in. */
  method FailedLogoutScenario(account: Account, failure: AppwriteError, now: string)
    returns (thrown: Option<string>, status: SessionStatus)
    ensures thrown == Some(HandleAppwriteError(failure))
    ensures status == Authenticated
  {
    var auth := new AuthState();
    auth.CheckAuth(Ok(account), Ok(account), now);
    thrown := auth.Logout(Err(failure));
    status := auth.Status();
  }
}
