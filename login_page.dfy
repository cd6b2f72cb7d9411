/** The login page: its form state, the analytics events it tracks, and the domain it
    reports for an email address. */
module LoginPage {
  import opened Common
  import opened AdminAuth

  /** The position of the first '@'. */
  function FirstAt(s: string): (i: nat)
    requires '@' in s
    ensures i < |s| && s[i] == '@' && '@' !in s[..i]
  {
    if s[0] == '@' then 0
    else
      assert '@' in s[1..] by { var k :| 0 <= k < |s| && s[k] == '@'; assert s[1..][k - 1] == '@'; }
      var j := FirstAt(s[1..]);
      assert s[..j + 1] == [s[0]] + s[1..][..j];
      j + 1
  }

  /** The text before the first '@', or all of it. */
  function BeforeAt(s: string): (r: string)
    ensures '@' !in r && |r| <= |s| && r == s[..|r|]
    ensures |r| < |s| ==> s[|r|] == '@'
  {
    if '@' in s then s[..FirstAt(s)] else s
  }

  /** `email.includes('@') ? email.split('@')[1] : 'unknown'`: the second '@'-separated
      field. */
  function EmailDomain(email: string): (d: string)
    ensures '@' !in email ==> d == "unknown"
    ensures '@' in email ==> '@' !in d
    ensures '@' in email ==> d == BeforeAt(email[FirstAt(email) + 1..])
  {
    if '@' in email then BeforeAt(email[FirstAt(email) + 1..]) else "unknown"
  }

  /** For `local@domain` followed by nothing or by another '@'-field, the domain is
      exactly `domain`. */
  lemma {:induction false} DomainOfAddress(local: string, domain: string, rest: string)
    requires '@' !in local && '@' !in domain
    requires rest == "" || rest[0] == '@'
    ensures EmailDomain(local + "@" + domain + rest) == domain
  {
    var email := local + "@" + domain + rest;
    assert email[|local|] == '@';
    assert FirstAt(email) == |local|;
    var after := email[|local| + 1..];
    assert after == domain + rest;
    if rest == "" {
      assert after == domain;
    } else {
      assert after[|domain|] == '@';
      assert FirstAt(after) == |domain|;
      assert after[..|domain|] == domain;
    }
  }

  datatype AnalyticsEvent =
    | LoginAttempted(emailDomain: string)
    | LoginSucceeded(emailDomain: string)
    | LoginFailed(errorMessage: string)

  class Page {
    var email: string
    var password: string
    var error: string
    var loading: bool
    /** The events handed to the analytics service, oldest first. */
    var tracked: seq<AnalyticsEvent>

    constructor ()
      ensures email == "" && password == "" && error == "" && !loading && tracked == []
    {
      email, password, error, loading, tracked := "", "", "", false, [];
    }

    method SetEmail(value: string)
      modifies this`email
      ensures email == value
    {
      email := value;
    }

    method SetPassword(value: string)
      modifies this`password
      ensures password == value
    {
      password := value;
    }

    /** `handleSubmit`: clear the error, track the attempt, log in, then track exactly
        one outcome; only success navigates, a failure shows the login error; loading
        ends either way.  `navigateTo` is the path handed to `navigate`. */
    method HandleSubmit(session: Session, response: LoginResponse, userJson: string)
        returns (navigateTo: Option<string>)
      requires session.Valid()
      modifies this`error, this`loading, this`tracked
      modifies session`token, session`admin, session`storage
      ensures session.Valid() && !loading
      ensures navigateTo.Some? <==> LoginError(response).None?
      ensures navigateTo.Some? ==>
                navigateTo == Some("/dashboard") && error == ""
                && tracked == old(tracked) + [LoginAttempted(EmailDomain(email)), LoginSucceeded(EmailDomain(email))]
                && session.IsAuthenticated() == (response.token != "")
                && response.LoginReply? && session.token == Some(response.token)
                && session.admin == Some(AdminUser(response.user.id, response.user.email))
                && session.storage == old(session.storage)[TokenKey := response.token][UserKey := userJson]
      ensures navigateTo.None? ==>
                error == LoginError(response).value
                && tracked == old(tracked) + [LoginAttempted(EmailDomain(email)), LoginFailed(error)]
                && session.token == old(session.token) && session.admin == old(session.admin)
                && session.storage == old(session.storage)
    {
      error := "";
      loading := true;
      tracked := tracked + [LoginAttempted(EmailDomain(email))];
      var thrown := session.Login(email, password, response, userJson);
      if thrown.None? {
        tracked := tracked + [LoginSucceeded(EmailDomain(email))];
        navigateTo := Some("/dashboard");
      } else {
        tracked := tracked + [LoginFailed(MessageOr(thrown.value, "unknown_error"))];
        error := MessageOr(thrown.value, "Login failed. Please check your credentials.");
        navigateTo := None;
      }
      loading := false;
    }
  }
}
