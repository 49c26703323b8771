/**
 * The account views of accounts/views.py: the login redirect, the sign-up
 * validation and the records it creates, and the profile update rule. POST and
 * GET parameters are maps from key to value; the existing user names and
 * e-mail addresses are sets.
 */
module Accounts {
  import opened Wrappers

  /** `request.POST` or `request.GET`: the value sent for each key. */
  type Params = map<string, string>

  /** `params.get(key)`. */
  function Get(params: Params, key: string): (v: Option<string>)
    ensures v.Some? <==> key in params
    ensures v.Some? ==> v.value == params[key]
  {
    if key in params then Some(params[key]) else None
  }

  /** `params.get(key, default)`. */
  function GetOr(params: Params, key: string, default: string): (v: string)
    ensures key in params ==> v == params[key]
    ensures key !in params ==> v == default
  {
    if key in params then params[key] else default
  }

  /** Python's `not v` on a parameter: missing or empty. */
  predicate Blank(v: Option<string>)
  {
    v.None? || v.value == ""
  }

  // ---------------------------------------------------------------------------
  // login_view
  // ---------------------------------------------------------------------------

  /** What the login view answers. */
  datatype LoginOutcome = Redirect(target: string) | ShowLoginForm(invalidCredentials: bool)

  /**
   * `login_view`. `credentialsValid` is whether `authenticate` found a user for
   * the posted name and password; `query` is `request.GET`.
   */
  function LoginView(authenticated: bool, isPost: bool, credentialsValid: bool, query: Params): (r: LoginOutcome)
    ensures authenticated ==> r == Redirect("home")
    ensures !authenticated && isPost && credentialsValid ==> r == Redirect(GetOr(query, "next", "home"))
    ensures !authenticated && !(isPost && credentialsValid) ==> r == ShowLoginForm(isPost)
  {
    if authenticated then Redirect("home")
    else if isPost && credentialsValid then Redirect(GetOr(query, "next", "home"))
    else ShowLoginForm(isPost)
  }

  /** After a successful login the target is `next` when given and `home` otherwise. */
  lemma LoginRedirectDefault(query: Params)
    ensures "next" !in query ==> LoginView(false, true, true, query) == Redirect("home")
    ensures "next" in query ==> LoginView(false, true, true, query) == Redirect(query["next"])
  {
  }

  // ---------------------------------------------------------------------------
  // signup_view: validation
  // ---------------------------------------------------------------------------

  /** The five sign-up errors, in the order they are checked. */
  datatype SignupError = Required | PasswordMismatch | PasswordTooShort | UsernameTaken | EmailTaken

  function Rank(e: SignupError): nat
  {
    match e
    case Required => 0
    case PasswordMismatch => 1
    case PasswordTooShort => 2
    case UsernameTaken => 3
    case EmailTaken => 4
  }

  /** The message shown for each error. */
  function Message(e: SignupError): string
  {
    match e
    case Required => "Username, email, and password are required."
    case PasswordMismatch => "Passwords do not match."
    case PasswordTooShort => "Password must be at least 8 characters long."
    case UsernameTaken => "Username already exists. Please choose another."
    case EmailTaken => "Email already registered. Please use another or login."
  }

  const MinPasswordLength: nat := 8

  /** `len(None)` raises `TypeError`: the one way the validation itself fails. */
  datatype ValidationCrash = PasswordTypeError

  /**
   * When each error applies to a form that has a `password1`. `filter(username=None)`
   * matches no user, so a missing name or address is never taken.
   */
  predicate Fails(e: SignupError, post: Params, usernames: set<string>, emails: set<string>)
  {
    match e
    case Required => Blank(Get(post, "username")) || Blank(Get(post, "email")) || Blank(Get(post, "password1"))
    case PasswordMismatch => Get(post, "password1") != Get(post, "password2")
    case PasswordTooShort => "password1" in post && |post["password1"]| < MinPasswordLength
    case UsernameTaken => "username" in post && post["username"] in usernames
    case EmailTaken => "email" in post && post["email"] in emails
  }

  /** The errors are listed in check order, each at most once. */
  ghost predicate InCheckOrder(errors: seq<SignupError>)
  {
    forall i, j :: 0 <= i < j < |errors| ==> Rank(errors[i]) < Rank(errors[j])
  }

  /** The error of `e` when it fails, as a list of zero or one. */
  function IfFails(e: SignupError, post: Params, usernames: set<string>, emails: set<string>): (r: seq<SignupError>)
    ensures r == [] || r == [e]
  {
    if Fails(e, post, usernames, emails) then [e] else []
  }

  /** The error list of a form that has a `password1`: the failing checks in check order. */
  function Errors(post: Params, usernames: set<string>, emails: set<string>): seq<SignupError>
  {
    IfFails(Required, post, usernames, emails) + IfFails(PasswordMismatch, post, usernames, emails)
    + IfFails(PasswordTooShort, post, usernames, emails) + IfFails(UsernameTaken, post, usernames, emails)
    + IfFails(EmailTaken, post, usernames, emails)
  }

  /** Appending at most one error, ranked above every error of a list in check order, keeps it in order. */
  lemma AppendInOrder(errors: seq<SignupError>, e: SignupError, extra: seq<SignupError>)
    requires InCheckOrder(errors)
    requires forall x :: x in errors ==> Rank(x) < Rank(e)
    requires extra == [] || extra == [e]
    ensures InCheckOrder(errors + extra)
    ensures forall x :: x in errors + extra ==> Rank(x) <= Rank(e)
  {
    if extra == [e] {
      forall i, j | 0 <= i < j < |errors + extra| ensures Rank((errors + extra)[i]) < Rank((errors + extra)[j]) {
        if j == |errors| {
          assert (errors + extra)[i] == errors[i] && errors[i] in errors;
        }
      }
    } else {
      assert errors + extra == errors;
    }
  }

  /** An error is in the list exactly when its check fails. */
  lemma {:induction false} ErrorsMembers(post: Params, usernames: set<string>, emails: set<string>, e: SignupError)
    ensures e in Errors(post, usernames, emails) <==> Fails(e, post, usernames, emails)
  {
    var l0 := IfFails(Required, post, usernames, emails);
    var l1 := IfFails(PasswordMismatch, post, usernames, emails);
    var l2 := IfFails(PasswordTooShort, post, usernames, emails);
    var l3 := IfFails(UsernameTaken, post, usernames, emails);
    var l4 := IfFails(EmailTaken, post, usernames, emails);
    assert Errors(post, usernames, emails) == l0 + l1 + l2 + l3 + l4;
    assert e in l0 + l1 + l2 + l3 + l4 <==> e in l0 || e in l1 || e in l2 || e in l3 || e in l4;
    match e
    case Required =>
    case PasswordMismatch =>
    case PasswordTooShort =>
    case UsernameTaken =>
    case EmailTaken =>
  }

  /** Five lists of at most one error each, one per check, joined in check order, are in check order. */
  lemma JoinedInOrder(l0: seq<SignupError>, l1: seq<SignupError>, l2: seq<SignupError>, l3: seq<SignupError>,
                      l4: seq<SignupError>)
    requires l0 == [] || l0 == [Required]
    requires l1 == [] || l1 == [PasswordMismatch]
    requires l2 == [] || l2 == [PasswordTooShort]
    requires l3 == [] || l3 == [UsernameTaken]
    requires l4 == [] || l4 == [EmailTaken]
    ensures InCheckOrder(l0 + l1 + l2 + l3 + l4)
  {
    AppendInOrder([], Required, l0);
    assert [] + l0 == l0;
    AppendInOrder(l0, PasswordMismatch, l1);
    AppendInOrder(l0 + l1, PasswordTooShort, l2);
    AppendInOrder(l0 + l1 + l2, UsernameTaken, l3);
    AppendInOrder(l0 + l1 + l2 + l3, EmailTaken, l4);
  }

  /** The error list is in check order. */
  lemma ErrorsOrdered(post: Params, usernames: set<string>, emails: set<string>)
    ensures InCheckOrder(Errors(post, usernames, emails))
  {
    JoinedInOrder(IfFails(Required, post, usernames, emails), IfFails(PasswordMismatch, post, usernames, emails),
                  IfFails(PasswordTooShort, post, usernames, emails), IfFails(UsernameTaken, post, usernames, emails),
                  IfFails(EmailTaken, post, usernames, emails));
  }

  /** The error list holds exactly the failing checks, in check order and once each. */
  lemma ErrorsCharacterised(post: Params, usernames: set<string>, emails: set<string>)
    ensures forall e :: e in Errors(post, usernames, emails) <==> Fails(e, post, usernames, emails)
    ensures InCheckOrder(Errors(post, usernames, emails))
  {
    forall e ensures e in Errors(post, usernames, emails) <==> Fails(e, post, usernames, emails) {
      ErrorsMembers(post, usernames, emails, e);
    }
    ErrorsOrdered(post, usernames, emails);
  }

  /** The messages the form shows, one per error, in the same order. */
  function Messages(errors: seq<SignupError>): (m: seq<string>)
    ensures |m| == |errors|
    ensures forall i :: 0 <= i < |errors| ==> m[i] == Message(errors[i])
  {
    if errors == [] then [] else [Message(errors[0])] + Messages(errors[1..])
  }

  /**
   * The validation block: every check runs and appends its error. A missing
   * `password1` makes the length check raise after the first two checks ran.
   */
  method ValidateSignup(post: Params, usernames: set<string>, emails: set<string>)
    returns (r: Result<seq<SignupError>, ValidationCrash>)
    ensures r.Err? <==> "password1" !in post
    ensures r.Ok? ==> r.value == Errors(post, usernames, emails)
    ensures r.Ok? ==> forall e :: e in r.value <==> Fails(e, post, usernames, emails)
    ensures r.Ok? ==> InCheckOrder(r.value)
  {
    var username, email := Get(post, "username"), Get(post, "email");
    var password1, password2 := Get(post, "password1"), Get(post, "password2");
    var errors: seq<SignupError> := [];
    if Blank(username) || Blank(email) || Blank(password1) {
      errors := errors + [Required];
    }
    ghost var e0 := IfFails(Required, post, usernames, emails);
    assert errors == e0;
    if password1 != password2 {
      errors := errors + [PasswordMismatch];
    }
    ghost var e1 := IfFails(PasswordMismatch, post, usernames, emails);
    assert errors == e0 + e1;
    if password1.None? {
      return Err(PasswordTypeError);
    }
    if |password1.value| < MinPasswordLength {
      errors := errors + [PasswordTooShort];
    }
    ghost var e2 := IfFails(PasswordTooShort, post, usernames, emails);
    assert errors == e0 + e1 + e2;
    if username.Some? && username.value in usernames {
      errors := errors + [UsernameTaken];
    }
    ghost var e3 := IfFails(UsernameTaken, post, usernames, emails);
    assert errors == e0 + e1 + e2 + e3;
    if email.Some? && email.value in emails {
      errors := errors + [EmailTaken];
    }
    ghost var e4 := IfFails(EmailTaken, post, usernames, emails);
    assert errors == e0 + e1 + e2 + e3 + e4;
    r := Ok(errors);
    ErrorsCharacterised(post, usernames, emails);
  }

  /** A form that fills every field properly, with fresh name and address, passes every check. */
  lemma ProperFormPasses(post: Params, usernames: set<string>, emails: set<string>, e: SignupError)
    requires "username" in post && post["username"] != "" && post["username"] !in usernames
    requires "email" in post && post["email"] != "" && post["email"] !in emails
    requires "password1" in post && "password2" in post && post["password1"] == post["password2"]
    requires |post["password1"]| >= MinPasswordLength
    ensures !Fails(e, post, usernames, emails)
  {
  }

  /** An empty password is reported both as missing and as too short. */
  lemma EmptyPasswordTwoErrors(post: Params, usernames: set<string>, emails: set<string>)
    requires "password1" in post && post["password1"] == ""
    ensures Fails(Required, post, usernames, emails) && Fails(PasswordTooShort, post, usernames, emails)
  {
  }

  // ---------------------------------------------------------------------------
  // signup_view: the records created
  // ---------------------------------------------------------------------------

  /** The `User` created: name, address, password, first and last name. */
  datatype Account = Account(username: string, email: string, password: string, firstName: string, lastName: string)

  /** A `UserProfile` row; the optional fields are NULL when None. */
  datatype Profile = Profile(ageGroup: Option<string>, occupation: Option<string>, location: Option<string>,
                             preferredLanguage: string, phone: Option<string>)

  /** `x if x else None` on a parameter read with default `''`. */
  function Optional(post: Params, key: string): (v: Option<string>)
    ensures v.None? <==> key !in post || post[key] == ""
    ensures v.Some? ==> v.value == post[key]
  {
    var x := GetOr(post, key, "");
    if x != "" then Some(x) else None
  }

  /** The profile created at sign-up. */
  function NewProfile(post: Params): (p: Profile)
    ensures p.ageGroup == Optional(post, "age_group")
    ensures p.occupation == Optional(post, "occupation")
    ensures p.location == Optional(post, "location")
    ensures p.preferredLanguage == GetOr(post, "preferred_language", "English")
    ensures p.phone.None?
  {
    Profile(Optional(post, "age_group"), Optional(post, "occupation"), Optional(post, "location"),
            GetOr(post, "preferred_language", "English"), None)
  }

  /** Empty optional fields are stored as None, and the language defaults to English only when it is not sent. */
  lemma NewProfileDefaults(post: Params)
    ensures "age_group" in post && post["age_group"] == "" ==> NewProfile(post).ageGroup.None?
    ensures "preferred_language" !in post ==> NewProfile(post).preferredLanguage == "English"
    ensures "preferred_language" in post ==> NewProfile(post).preferredLanguage == post["preferred_language"]
  {
  }

  /** What the sign-up view answers. */
  datatype SignupOutcome =
    | RedirectHome
    | ShowSignupForm(messages: seq<string>)
    | Registered(account: Account, profile: Profile)
    | RegistrationFailed
    | ServerError

  /**
   * `signup_view`: an authenticated user goes home, a GET shows the form, a
   * POST with errors shows them in check order, and a clean POST creates the
   * user and the profile. The `TypeError` of a missing `password1` escapes the
   * view. `creationSucceeds` is whether `create_user` and the profile insert
   * raise nothing; when they raise, the form is shown again with the error.
   */
  method SignupView(authenticated: bool, isPost: bool, post: Params, usernames: set<string>, emails: set<string>,
                    creationSucceeds: bool)
    returns (outcome: SignupOutcome)
    ensures authenticated ==> outcome == RedirectHome
    ensures !authenticated && !isPost ==> outcome == ShowSignupForm([])
    ensures !authenticated && isPost && "password1" !in post ==> outcome == ServerError
    ensures outcome.ShowSignupForm? && isPost ==>
              exists e :: Fails(e, post, usernames, emails) && Message(e) in outcome.messages
    ensures !authenticated && isPost && "password1" in post && Errors(post, usernames, emails) != [] ==>
              outcome == ShowSignupForm(Messages(Errors(post, usernames, emails)))
    ensures outcome.Registered? || outcome.RegistrationFailed? <==>
              !authenticated && isPost && "password1" in post && forall e :: !Fails(e, post, usernames, emails)
    ensures outcome.Registered? ==> creationSucceeds
    ensures outcome.RegistrationFailed? ==> !creationSucceeds
    ensures outcome.Registered? ==>
              "username" in post && "email" in post && "password1" in post &&
              outcome.account == Account(post["username"], post["email"], post["password1"],
                                         GetOr(post, "first_name", ""), GetOr(post, "last_name", ""))
              && outcome.profile == NewProfile(post)
  {
    if authenticated {
      return RedirectHome;
    }
    if !isPost {
      return ShowSignupForm([]);
    }
    var validation := ValidateSignup(post, usernames, emails);
    if validation.Err? {
      return ServerError;
    }
    var errors := validation.value;
    if errors != [] {
      assert Fails(errors[0], post, usernames, emails);
      var messages := Messages(errors);
      assert messages[0] == Message(errors[0]);
      return ShowSignupForm(messages);
    }
    forall e ensures !Fails(e, post, usernames, emails) {
      assert e !in errors;
    }
    if !creationSucceeds {
      return RegistrationFailed;
    }
    assert !Fails(Required, post, usernames, emails);
    var account := Account(post["username"], post["email"], post["password1"],
                           GetOr(post, "first_name", ""), GetOr(post, "last_name", ""));
    outcome := Registered(account, NewProfile(post));
  }

  // ---------------------------------------------------------------------------
  // profile_view: the update rule
  // ---------------------------------------------------------------------------

  /** `post.get(key, current)` for a nullable field. */
  function Posted(post: Params, key: string, current: Option<string>): (v: Option<string>)
    ensures key in post ==> v == Some(post[key])
    ensures key !in post ==> v == current
  {
    if key in post then Some(post[key]) else current
  }

  /** The `UserProfile` object the view edits. */
  class UserProfile {
    var ageGroup: Option<string>
    var occupation: Option<string>
    var location: Option<string>
    var preferredLanguage: string
    var phone: Option<string>

    /** `UserProfile.objects.create(user=...)`: no details yet, the model's default language. */
    constructor()
      ensures ageGroup.None? && occupation.None? && location.None? && phone.None?
      ensures preferredLanguage == "en"
    {
      ageGroup, occupation, location, phone := None, None, None, None;
      preferredLanguage := "en";
    }

    /** The profile half of a POST: each field takes the posted value when sent and keeps its value otherwise. */
    method Update(post: Params)
      modifies this
      ensures ageGroup == Posted(post, "age_group", old(ageGroup))
      ensures occupation == Posted(post, "occupation", old(occupation))
      ensures location == Posted(post, "location", old(location))
      ensures preferredLanguage == GetOr(post, "preferred_language", old(preferredLanguage))
      ensures phone == Posted(post, "phone", old(phone))
    {
      ageGroup := Posted(post, "age_group", ageGroup);
      occupation := Posted(post, "occupation", occupation);
      location := Posted(post, "location", location);
      preferredLanguage := GetOr(post, "preferred_language", preferredLanguage);
      phone := Posted(post, "phone", phone);
    }
  }

  /** The `User` object the view edits. */
  class UserAccount {
    var firstName: string
    var lastName: string
    var email: string

    constructor(firstName: string, lastName: string, email: string)
      ensures this.firstName == firstName && this.lastName == lastName && this.email == email
    {
      this.firstName, this.lastName, this.email := firstName, lastName, email;
    }

    /** The user half of a POST: the same rule for the names and the address. */
    method Update(post: Params)
      modifies this
      ensures firstName == GetOr(post, "first_name", old(firstName))
      ensures lastName == GetOr(post, "last_name", old(lastName))
      ensures email == GetOr(post, "email", old(email))
    {
      firstName := GetOr(post, "first_name", firstName);
      lastName := GetOr(post, "last_name", lastName);
      email := GetOr(post, "email", email);
    }
  }

  /** The POST branch of `profile_view`: the profile is saved first, then the user. */
  method ProfileUpdate(profile: UserProfile, user: UserAccount, post: Params)
    modifies profile, user
    ensures profile.ageGroup == Posted(post, "age_group", old(profile.ageGroup))
    ensures profile.occupation == Posted(post, "occupation", old(profile.occupation))
    ensures profile.location == Posted(post, "location", old(profile.location))
    ensures profile.preferredLanguage == GetOr(post, "preferred_language", old(profile.preferredLanguage))
    ensures profile.phone == Posted(post, "phone", old(profile.phone))
    ensures user.firstName == GetOr(post, "first_name", old(user.firstName))
    ensures user.lastName == GetOr(post, "last_name", old(user.lastName))
    ensures user.email == GetOr(post, "email", old(user.email))
  {
    profile.Update(post);
    user.Update(post);
  }

  /** Posting the same form twice leaves a field as posting it once. */
  lemma PostedIdempotent(post: Params, key: string, current: Option<string>)
    ensures Posted(post, key, Posted(post, key, current)) == Posted(post, key, current)
  {
  }

  /** A form that sends none of a field's key leaves that field alone. */
  lemma UnsentFieldKept(post: Params, key: string, current: Option<string>)
    requires key !in post
    ensures Posted(post, key, current) == current
  {
  }
}
