/** The sign-in / sign-up page: the mode switch, the form, and the check that sign-up
    has a name and a city before the session store is called. */
module Auth {
  import opened Wrappers
  import AuthContext

  datatype Mode = Login | Register

  /** The "Create one now" / "Sign in" link switches to the other mode. */
  function Toggled(m: Mode): (r: Mode)
    ensures r != m
  {
    if m == Login then Register else Login
  }

  datatype AuthForm = AuthForm(name: string, phone: string, password: string, location: string)

  datatype Field = Name | Phone | Password | Location

  function Get(f: AuthForm, field: Field): string {
    match field
    case Name => f.name
    case Phone => f.phone
    case Password => f.password
    case Location => f.location
  }

  /** `updateFormData`: the named field takes the value, the others are kept. */
  function UpdateFormData(f: AuthForm, field: Field, value: string): (r: AuthForm)
    ensures Get(r, field) == value
    ensures forall g :: g != field ==> Get(r, g) == Get(f, g)
  {
    match field
    case Name => f.(name := value)
    case Phone => f.(phone := value)
    case Password => f.(password := value)
    case Location => f.(location := value)
  }

  /** Whether submitting calls the session store: always when signing in, and when
      signing up only with a name and a city. */
  predicate CallsStore(mode: Mode, f: AuthForm) {
    mode == Login || (f.name != "" && f.location != "")
  }

  class AuthPage {
    var mode: Mode
    var form: AuthForm
    var isLoading: bool

    constructor ()
      ensures mode == Login && form == AuthForm("", "", "", "") && !isLoading
    {
      mode := Login;
      form := AuthForm("", "", "", "");
      isLoading := false;
    }

    method ToggleMode()
      modifies this
      ensures mode == Toggled(old(mode))
      ensures form == old(form) && isLoading == old(isLoading)
    {
      mode := if mode == Login then Register else Login;
    }

    method SetField(field: Field, value: string)
      modifies this
      ensures form == UpdateFormData(old(form), field, value)
      ensures mode == old(mode) && isLoading == old(isLoading)
    {
      form := UpdateFormData(form, field, value);
    }

    /** `handleSubmit`. `navigated` tells whether the page moves on to /home, which
        happens exactly when the store was called and reported success. */
    method HandleSubmit(session: AuthContext.Session, stamp: int, now: int) returns (navigated: bool)
      modifies this, session
      ensures mode == old(mode) && form == old(form) && !isLoading
      ensures navigated <==> CallsStore(mode, form)
      ensures !CallsStore(mode, form) ==>
        session.user == old(session.user) && session.stored == old(session.stored)
        && session.isLoading == old(session.isLoading)
      ensures mode == Login ==>
        session.user == Some(AuthContext.LoggedInUser(form.phone, session.loadedAt))
      ensures mode == Register && CallsStore(mode, form) ==>
        session.user == Some(AuthContext.RegisteredUser(form.name, form.phone, form.location, stamp, now))
      ensures CallsStore(mode, form) ==> session.InStep() && !session.isLoading
    {
      isLoading := true;
      var success := false;
      if mode == Login {
        success := session.Login(form.phone, form.password);
      } else {
        if form.name == "" || form.location == "" {
          isLoading := false;
          return false;
        }
        success := session.Register(form.name, form.phone, form.password, form.location, stamp, now);
      }
      navigated := success;
      isLoading := false;
    }
  }
}
