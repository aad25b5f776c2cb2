/** The authentication context: role classification from the e-mail address
    and the `currentUser` / `loading` / `error` steps of the login and logout
    handlers. The identity provider is outside the model: what it answered is
    an input. */
module Auth {
  import opened Models
  import opened Text

  /** `getUserRole`, given the e-mail of the provider's current user (`None`
      when there is no user or no e-mail). The test is case-sensitive and
      "admin" is tried before "owner". */
  function UserRoleFor(email: Option<string>): Role
  {
    if !Truthy(email) then User
    else if Includes(email.value, "admin") then SuperAdmin
    else if Includes(email.value, "owner") then Owner
    else User
  }

  /** Each role, characterised by the e-mail it comes from. */
  lemma RoleClassification(email: Option<string>)
    ensures UserRoleFor(email) == SuperAdmin <==> email.Some? && Includes(email.value, "admin")
    ensures UserRoleFor(email) == Owner
      <==> email.Some? && !Includes(email.value, "admin") && Includes(email.value, "owner")
    ensures UserRoleFor(email) == User
      <==> email.None? || (!Includes(email.value, "admin") && !Includes(email.value, "owner"))
  {
    if email == Some("") {
      assert !Includes("", "admin") && !Includes("", "owner");
    }
  }

  /** A string contains each of its infixes. */
  lemma IncludesInfix(pre: string, t: string, post: string)
    ensures Includes(pre + t + post, t)
  {
    var s := pre + t + post;
    assert s[|pre|..|pre| + |t|] == t;
    assert OccursAt(s, t, |pre|);
    IncludesIffOccurs(s, t);
  }

  /** An address that holds both words is classified "superadmin". */
  lemma AdminWinsOverOwner(pre: string, mid: string, post: string)
    ensures UserRoleFor(Some(pre + "owner" + mid + "admin" + post)) == SuperAdmin
    ensures UserRoleFor(Some(pre + "admin" + mid + "owner" + post)) == SuperAdmin
  {
    IncludesInfix(pre + "owner" + mid, "admin", post);
    IncludesInfix(pre, "admin", mid + "owner" + post);
    assert pre + "admin" + (mid + "owner" + post) == pre + "admin" + mid + "owner" + post;
  }

  /** What the provider answered to a sign-in: the account, or an error. */
  datatype Account = Account(
    uid: string,
    email: Option<string>,
    displayName: Option<string>,
    photoURL: Option<string>)

  datatype SignInResult = SignedIn(account: Account) | SignInFailed

  /** The session record a successful login stores. */
  function SessionUser(a: Account): UserData
  {
    UserData(
      uid := a.uid,
      email := a.email,
      displayName := a.displayName,
      photoURL := a.photoURL,
      role := Some(UserRoleFor(a.email)),
      tenantId := Some("default-tenant"),
      companyId := Some("default-company"))
  }

  const EmailLoginError := "Failed to login. Please check your credentials."
  const GoogleLoginError := "Failed to login with Google."
  const LogoutError := "Failed to logout."

  /** The provider's session state. `demoUserStored` stands for the
      "demoUser" entry of local storage, which logout consults. */
  class AuthSession {
    var currentUser: Option<UserData>
    var loading: bool
    var error: Option<string>
    var demoUserStored: bool

    /** The provider starts loading, with no user and no error. */
    constructor (demoUserStored: bool)
      ensures currentUser == None && loading && error == None
      ensures this.demoUserStored == demoUserStored
    {
      currentUser := None;
      loading := true;
      error := None;
      this.demoUserStored := demoUserStored;
    }

    /** The shared steps of both login handlers: loading on and error cleared,
        then the provider's answer, then loading off. `thrown` says the
        handler re-throws the provider's error to its caller. */
    method SignIn(result: SignInResult, failure: string) returns (thrown: bool)
      modifies this
      ensures !loading
      ensures thrown <==> result.SignInFailed?
      ensures result.SignedIn? ==> currentUser == Some(SessionUser(result.account)) && error == None
      ensures result.SignInFailed? ==> currentUser == old(currentUser) && error == Some(failure)
      ensures demoUserStored == old(demoUserStored)
    {
      loading := true;
      error := None;
      match result {
        case SignedIn(account) =>
          currentUser := Some(SessionUser(account));
          thrown := false;
        case SignInFailed =>
          error := Some(failure);
          thrown := true;
      }
      loading := false;
    }

    /** `loginWithEmail`, given the provider's answer to the credentials. */
    method LoginWithEmail(result: SignInResult) returns (thrown: bool)
      modifies this
      ensures !loading
      ensures thrown <==> result.SignInFailed?
      ensures result.SignedIn? ==> currentUser == Some(SessionUser(result.account)) && error == None
      ensures result.SignInFailed? ==> currentUser == old(currentUser) && error == Some(EmailLoginError)
      ensures demoUserStored == old(demoUserStored)
    {
      thrown := SignIn(result, EmailLoginError);
    }

    /** `loginWithGoogle`, given the provider's answer to the popup. */
    method LoginWithGoogle(result: SignInResult) returns (thrown: bool)
      modifies this
      ensures !loading
      ensures thrown <==> result.SignInFailed?
      ensures result.SignedIn? ==> currentUser == Some(SessionUser(result.account)) && error == None
      ensures result.SignInFailed? ==> currentUser == old(currentUser) && error == Some(GoogleLoginError)
      ensures demoUserStored == old(demoUserStored)
    {
      thrown := SignIn(result, GoogleLoginError);
    }

    /** `logout`: a stored demo user is removed without asking the provider;
        otherwise the provider signs out, which may fail. */
    method Logout(signOutSucceeds: bool) returns (thrown: bool)
      modifies this
      ensures !loading && !demoUserStored
      ensures thrown <==> !old(demoUserStored) && !signOutSucceeds
      ensures !thrown ==> currentUser == None && error == None
      ensures thrown ==> currentUser == old(currentUser) && error == Some(LogoutError)
    {
      loading := true;
      error := None;
      if demoUserStored {
        demoUserStored := false;
        currentUser := None;
        thrown := false;
      } else if signOutSucceeds {
        currentUser := None;
        thrown := false;
      } else {
        error := Some(LogoutError);
        thrown := true;
      }
      loading := false;
    }
  }
}
