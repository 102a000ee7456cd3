/**
 * The sign-up/login page: a two-step sign-up (name, email and password;
 * then a bio), a one-step login, the links that switch between the two, the
 * back arrow, and which inputs each state shows.
 *
 * `Next` is the page's transition function; the page component is a class
 * whose handlers each perform one transition.
 */
module LoginPage {
  import opened Domain

  datatype Mode = SignUp | Login

  /** One call of the authentication context's `login(state, credentials)`. */
  datatype LoginCall = LoginCall(state: string, credentials: Credentials)

  /** The page's state variables, and the `login` calls made so far. */
  datatype FormState = FormState(currState: Mode, isDataSubmitted: bool, fields: Credentials, calls: seq<LoginCall>)

  datatype Event =
    | Submit                      // the form's submit
    | LoginHere                   // "Login here", rendered in Sign up mode
    | ClickHere                   // "Click here", rendered in Login mode
    | BackArrow                   // the arrow, rendered once data is submitted
    | EditFullName(value: string)
    | EditEmail(value: string)
    | EditPassword(value: string)
    | EditBio(value: string)

  /** The page as first rendered. */
  function Initial(): FormState
  {
    FormState(SignUp, false, Credentials("", "", "", ""), [])
  }

  /** Login mode never sits in the second sign-up step. */
  predicate LoginIsOneStep(s: FormState)
  {
    s.currState == Login ==> !s.isDataSubmitted
  }

  /**
   * What each handler does to the state. Only a submit calls `login`, at most
   * once and with the current fields; only an edit changes a field; only the
   * two links change the mode; and Login mode stays one-step.
   */
  function Next(s: FormState, e: Event): (r: FormState)
    ensures s.calls <= r.calls && |r.calls| <= |s.calls| + 1
    ensures r.calls != s.calls ==> e.Submit? && r.calls[|s.calls|].credentials == s.fields
    ensures r.fields != s.fields ==> e.EditFullName? || e.EditEmail? || e.EditPassword? || e.EditBio?
    ensures r.currState != s.currState ==> e.LoginHere? || e.ClickHere?
    ensures LoginIsOneStep(s) ==> LoginIsOneStep(r)
  {
    match e
    case Submit =>
      if s.currState == SignUp && !s.isDataSubmitted then s.(isDataSubmitted := true)
      else s.(calls := s.calls + [LoginCall(if s.currState == SignUp then "signup" else "login", s.fields)])
    case LoginHere => s.(currState := Login, isDataSubmitted := false)
    case ClickHere => s.(currState := SignUp)
    case BackArrow => s.(isDataSubmitted := false)
    case EditFullName(v) => s.(fields := s.fields.(fullName := v))
    case EditEmail(v) => s.(fields := s.fields.(email := v))
    case EditPassword(v) => s.(fields := s.fields.(password := v))
    case EditBio(v) => s.(fields := s.fields.(bio := v))
  }

  /** The state after handling `events` in order. */
  function Run(s: FormState, events: seq<Event>): FormState
    decreases events
  {
    if events == [] then s else Run(Next(s, events[0]), events[1..])
  }

  /** The Full Name input is rendered: only in Sign up mode, and always together with email and password. */
  predicate ShowsFullName(s: FormState): (r: bool)
    ensures r ==> s.currState == SignUp && ShowsEmailAndPassword(s)
  {
    s.currState == SignUp && !s.isDataSubmitted
  }

  /** The email and password inputs are rendered: always in Login mode, in Sign up mode until the first submit. */
  predicate ShowsEmailAndPassword(s: FormState): (r: bool)
    ensures LoginIsOneStep(s) && s.currState == Login ==> r
  {
    !s.isDataSubmitted
  }

  /** The bio textarea is rendered: only in the second sign-up step, and then alone. */
  predicate ShowsBio(s: FormState): (r: bool)
    ensures r ==> s.currState == SignUp && !ShowsEmailAndPassword(s) && !ShowsFullName(s)
  {
    s.currState == SignUp && s.isDataSubmitted
  }

  /** Any sequence of handlers keeps Login mode one-step. */
  lemma {:induction false} RunKeepsLoginOneStep(s: FormState, events: seq<Event>)
    requires LoginIsOneStep(s)
    ensures LoginIsOneStep(Run(s, events))
    decreases |events|
  {
    if events != [] {
      RunKeepsLoginOneStep(Next(s, events[0]), events[1..]);
    }
  }

  /** Every state the page can reach keeps Login mode one-step. */
  lemma ReachableIsLoginOneStep(events: seq<Event>)
    ensures LoginIsOneStep(Run(Initial(), events))
  {
    RunKeepsLoginOneStep(Initial(), events);
  }

  /** Handlers only ever add `login` calls, at most one each, and never retract one. */
  lemma {:induction false} RunExtendsCalls(s: FormState, events: seq<Event>)
    ensures |s.calls| <= |Run(s, events).calls| <= |s.calls| + |events|
    ensures Run(s, events).calls[..|s.calls|] == s.calls
    decreases |events|
  {
    if events != [] {
      var t := Next(s, events[0]);
      assert t.calls[..|s.calls|] == s.calls;
      RunExtendsCalls(t, events[1..]);
      assert Run(s, events).calls[..|s.calls|] == Run(t, events[1..]).calls[..|t.calls|][..|s.calls|];
    }
  }

  /**
   * Submitting the first sign-up step only advances to the bio step; any
   * other submit calls `login` once, with "signup" exactly in Sign up mode,
   * carrying all four fields.
   */
  lemma SubmitCallsLoginOnce(s: FormState)
    ensures s.currState == SignUp && !s.isDataSubmitted ==>
      Next(s, Submit) == s.(isDataSubmitted := true)
    ensures !(s.currState == SignUp && !s.isDataSubmitted) ==>
      exists state ::
        Next(s, Submit) == s.(calls := s.calls + [LoginCall(state, s.fields)]) &&
        (state == "signup" <==> s.currState == SignUp) &&
        (state == "login" <==> s.currState == Login)
  {
    if !(s.currState == SignUp && !s.isDataSubmitted) {
      var state := if s.currState == SignUp then "signup" else "login";
      assert Next(s, Submit) == s.(calls := s.calls + [LoginCall(state, s.fields)]);
    }
  }

  /**
   * In every reachable state the page shows exactly one step: the email and
   * password inputs (with the name in Sign up mode) or the bio alone.
   */
  lemma OneStepVisible(s: FormState)
    requires LoginIsOneStep(s)
    ensures ShowsEmailAndPassword(s) != ShowsBio(s)
    ensures ShowsFullName(s) ==> ShowsEmailAndPassword(s)
    ensures s.currState == Login ==> ShowsEmailAndPassword(s) && !ShowsFullName(s) && !ShowsBio(s)
  {
  }

  /** The page component: its state variables and handlers. */
  class LoginForm {
    var currState: Mode
    var fullName: string
    var email: string
    var password: string
    var bio: string
    var isDataSubmitted: bool
    /** The `login` calls made so far. */
    var calls: seq<LoginCall>

    function State(): FormState
      reads this
    {
      FormState(currState, isDataSubmitted, Credentials(fullName, email, password, bio), calls)
    }

    ghost predicate Valid()
      reads this
    {
      LoginIsOneStep(State())
    }

    constructor ()
      ensures Valid() && State() == Initial()
    {
      currState := SignUp;
      fullName, email, password, bio := "", "", "", "";
      isDataSubmitted := false;
      calls := [];
    }

    /** `onSubmitHandler`. */
    method OnSubmit()
      requires Valid()
      modifies this
      ensures Valid() && State() == Next(old(State()), Submit)
    {
      if currState == SignUp && !isDataSubmitted {
        isDataSubmitted := true;
        return;
      }
      var state := if currState == SignUp then "signup" else "login";
      calls := calls + [LoginCall(state, Credentials(fullName, email, password, bio))];
    }

    /** "Login here". */
    method OnLoginHere()
      requires Valid() && currState == SignUp
      modifies this
      ensures Valid() && State() == Next(old(State()), LoginHere)
    {
      currState := Login;
      isDataSubmitted := false;
    }

    /** "Click here". */
    method OnClickHere()
      requires Valid() && currState == Login
      modifies this
      ensures Valid() && State() == Next(old(State()), ClickHere)
    {
      currState := SignUp;
    }

    /** The back arrow. */
    method OnBackArrow()
      requires Valid() && isDataSubmitted
      modifies this
      ensures Valid() && State() == Next(old(State()), BackArrow)
    {
      isDataSubmitted := false;
    }

    method OnFullNameChange(value: string)
      requires Valid() && ShowsFullName(State())
      modifies this
      ensures Valid() && State() == Next(old(State()), EditFullName(value))
    {
      fullName := value;
    }

    method OnEmailChange(value: string)
      requires Valid() && ShowsEmailAndPassword(State())
      modifies this
      ensures Valid() && State() == Next(old(State()), EditEmail(value))
    {
      email := value;
    }

    method OnPasswordChange(value: string)
      requires Valid() && ShowsEmailAndPassword(State())
      modifies this
      ensures Valid() && State() == Next(old(State()), EditPassword(value))
    {
      password := value;
    }

    method OnBioChange(value: string)
      requires Valid() && ShowsBio(State())
      modifies this
      ensures Valid() && State() == Next(old(State()), EditBio(value))
    {
      bio := value;
    }
  }
}
