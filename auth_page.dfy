/** The sign-in / sign-up page: the submit handler's mode and field
    transitions and the mode toggle.  The result of the authentication call
    is an input; the calls made are recorded. */
module AuthPage {
  import opened Js

  /** The page's form and mode. */
  datatype AuthForm = AuthForm(isLogin: bool, email: string, password: string, fullName: string)

  const InitialForm := AuthForm(true, "", "", "")

  /** The three text inputs. */
  datatype Field = Email | Password | FullName

  /** The form with one input changed; the mode and the other inputs kept. */
  function WithField(f: AuthForm, field: Field, value: string): (g: AuthForm)
    ensures g.isLogin == f.isLogin
    ensures g.email == (if field == Email then value else f.email)
    ensures g.password == (if field == Password then value else f.password)
    ensures g.fullName == (if field == FullName then value else f.fullName)
  {
    match field
    case Email => f.(email := value)
    case Password => f.(password := value)
    case FullName => f.(fullName := value)
  }

  /** The authentication calls. */
  datatype AuthCall =
    | SignIn(email: string, password: string)
    | SignUp(email: string, password: string, fullName: string)

  /** How the call ended: no error, an error with an optional message, or an
      exception. */
  datatype Outcome = Succeeded | Failed(message: Option<string>) | Threw

  /** A sign-up error saying the account exists: its lower-cased message
      mentions "already registered" or "already exists". */
  predicate AlreadyExists(message: Option<string>)
  {
    message.Some?
    && (Contains(Lower(message.value), "already registered") || Contains(Lower(message.value), "already exists"))
  }

  /** A sign-up with a blank full name is refused before any call. */
  predicate RefusedSignUp(f: AuthForm)
  {
    !f.isLogin && Blank(f.fullName)
  }

  /** The call a submit makes, if any. */
  function SubmitCalls(f: AuthForm): (calls: seq<AuthCall>)
    ensures |calls| <= 1
    ensures calls == [] <==> RefusedSignUp(f)
    ensures f.isLogin ==> calls == [SignIn(f.email, f.password)]
  {
    if f.isLogin then [SignIn(f.email, f.password)]
    else if Blank(f.fullName) then []
    else [SignUp(f.email, f.password, f.fullName)]
  }

  /** The form after a submit: a successful sign-up switches to sign-in and
      keeps only the address; an "exists" error switches to sign-in; every
      other path leaves the form as it was. */
  function AfterSubmit(f: AuthForm, outcome: Outcome): (g: AuthForm)
    ensures f.isLogin || RefusedSignUp(f) ==> g == f
    ensures g.email == f.email
    ensures g != f ==> !f.isLogin && g.isLogin
  {
    if f.isLogin || Blank(f.fullName) then f
    else match outcome
      case Succeeded => f.(isLogin := true, password := "", fullName := "")
      case Failed(m) => if AlreadyExists(m) then f.(isLogin := true) else f
      case Threw => f
  }

  /** A sign-up stays in sign-up mode exactly when it was refused, failed for
      another reason, or threw. */
  lemma SignUpMode(f: AuthForm, outcome: Outcome)
    requires !f.isLogin
    ensures !AfterSubmit(f, outcome).isLogin <==>
      RefusedSignUp(f) || outcome.Threw? || (outcome.Failed? && !AlreadyExists(outcome.message))
    ensures !RefusedSignUp(f) && outcome.Succeeded? ==>
      AfterSubmit(f, outcome) == AuthForm(true, f.email, "", "")
  {
  }

  /** The lower-cased message is searched, so any capitalisation of the
      phrase is recognised wherever it occurs. */
  lemma AlreadyExistsAnyCase(before: string, phrase: string, after: string)
    requires Lower(phrase) == "already registered" || Lower(phrase) == "already exists"
    ensures AlreadyExists(Some(before + phrase + after))
  {
    var l := Lower(before + phrase + after);
    LowerAppend(before + phrase, after);
    LowerAppend(before, phrase);
    assert l == Lower(before) + Lower(phrase) + Lower(after);
    assert l[|before|..|before| + |phrase|] == Lower(phrase);
    assert OccursAt(l, Lower(phrase), |before|);
  }

  /** For instance "User Already Registered" counts. */
  lemma CapitalisedPhrase()
    ensures Lower("Already Registered") == "already registered"
  {
  }

  /** The toggle: the other mode and an empty form. */
  function Toggled(f: AuthForm): (g: AuthForm)
    ensures g.isLogin == !f.isLogin
    ensures g.email == "" && g.password == "" && g.fullName == ""
  {
    AuthForm(!f.isLogin, "", "", "")
  }

  /** Toggling twice returns to the mode and clears the form. */
  lemma ToggleTwice(f: AuthForm)
    ensures Toggled(Toggled(f)) == f.(email := "", password := "", fullName := "")
  {
  }

  /** The page's state. */
  class Page {
    var form: AuthForm
    var loading: bool
    var calls: seq<AuthCall>
    /** Whether a sign-in led to the home page. */
    var navigatedHome: bool

    constructor ()
      ensures form == InitialForm && !loading && calls == [] && !navigatedHome
    {
      form := InitialForm;
      loading := false;
      calls := [];
      navigatedHome := false;
    }

    /** `handleSubmit`: at most one call; a successful sign-in goes home; the
        form follows AfterSubmit; loading ends off on every path. */
    method HandleSubmit(outcome: Outcome)
      modifies this
      ensures calls == old(calls) + SubmitCalls(old(form))
      ensures form == AfterSubmit(old(form), outcome)
      ensures navigatedHome == (old(navigatedHome) || (old(form).isLogin && outcome.Succeeded?))
      ensures !loading
    {
      loading := true;
      if form.isLogin {
        calls := calls + [SignIn(form.email, form.password)];
        if outcome.Succeeded? {
          navigatedHome := true;
        }
      } else {
        if Blank(form.fullName) {
          loading := false;
          return;
        }
        calls := calls + [SignUp(form.email, form.password, form.fullName)];
        match outcome {
          case Succeeded =>
            form := form.(isLogin := true);
            form := form.(password := "", fullName := "");
          case Failed(m) =>
            if AlreadyExists(m) {
              form := form.(isLogin := true);
            }
          case Threw =>
        }
      }
      loading := false;
    }

    /** `handleInputChange`: one field takes the typed value. */
    method HandleInputChange(field: Field, value: string)
      modifies this`form
      ensures form == WithField(old(form), field, value)
    {
      match field {
        case Email => form := form.(email := value);
        case Password => form := form.(password := value);
        case FullName => form := form.(fullName := value);
      }
    }

    /** The mode toggle. */
    method Toggle()
      modifies this`form
      ensures form == Toggled(old(form))
    {
      form := AuthForm(!form.isLogin, "", "", "");
    }
  }
}
