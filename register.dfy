/** The sign-up form: a password-confirmation check, the registration request,
    then an automatic token request with the same credentials. The async
    submit handler is split at its awaits into `Submit`,
    `ReceiveRegistration` and `ReceiveToken`. */
module Register {
  import opened Api
  import Storage
  import App

  const Mismatch := "Passwords do not match"
  const RegistrationFailed := "Registration failed"
  const AutoLoginFailed := "Auto-login failed"

  /** The inputs, by their `name` attributes. */
  datatype Field = Email | Password | ConfirmPassword

  /** The form's `formData`. */
  datatype RegisterData = RegisterData(email: string, password: string, confirmPassword: string)
  {
    function Get(name: Field): string
    {
      match name
      case Email => email
      case Password => password
      case ConfirmPassword => confirmPassword
    }
  }

  /** `{ ...prev, [name]: value }`: the named field takes the value, the
      others keep theirs. */
  function WithField(data: RegisterData, name: Field, value: string): (r: RegisterData)
    ensures r.Get(name) == value
    ensures forall other: Field :: other != name ==> r.Get(other) == data.Get(other)
  {
    match name
    case Email => data.(email := value)
    case Password => data.(password := value)
    case ConfirmPassword => data.(confirmPassword := value)
  }

  /** The JSON body of the registration request. */
  datatype Account = Account(email: string, password: string)

  /** Where the submit handler is suspended. */
  datatype Pending = Idle | Registering(account: Account) | SigningIn(request: TokenRequest)

  /** The automatic sign-in request that follows a registration: the
      registered email as `username`, and the same password. */
  function AutoLoginRequest(account: Account): (request: TokenRequest)
    ensures request.username == account.email && request.password == account.password
  {
    TokenRequest(account.email, account.password)
  }

  /** How a submission of `data` ends given the two answers: signed in with
      the returned `access_token` exactly when the passwords match and both
      requests succeed; a mismatch fails before anything else is looked at;
      a failure shows an empty message only if what was thrown had one. */
  function SubmitOutcome(data: RegisterData, registration: Reply<()>, login: Reply<string>): (o: Outcome)
    ensures o.SignedIn? <==> data.password == data.confirmPassword && registration.Ok? && login.Ok?
    ensures o.SignedIn? ==> o.token == login.body
    ensures data.password != data.confirmPassword ==> o == Failed(Mismatch)
    ensures o.Failed? && o.message == "" ==> registration.Thrown? || login.Thrown?
  {
    if data.password != data.confirmPassword then Failed(Mismatch)
    else if !registration.Ok? then Failed(FailureMessage(registration, RegistrationFailed))
    else if !login.Ok? then Failed(FailureMessage(login, AutoLoginFailed))
    else SignedIn(login.body)
  }

  /** The `Register` component's state. */
  class RegisterForm {
    var form: RegisterData
    var error: string
    var loading: bool
    var pending: Pending

    /** `loading` is on exactly while the handler is suspended, and no error
        shows while it is. */
    ghost predicate Valid()
      reads this
    {
      && (loading <==> !pending.Idle?)
      && (loading ==> error == "")
    }

    /** The `useState` initialisers. */
    constructor ()
      ensures Valid()
      ensures form == RegisterData("", "", "") && error == "" && !loading
    {
      form := RegisterData("", "", "");
      error := "";
      loading := false;
      pending := Idle;
    }

    /** `handleChange` for the input named `name`. */
    method HandleChange(name: Field, value: string)
      modifies this`form
      ensures form == WithField(old(form), name, value)
    {
      form := WithField(form, name, value);
    }

    /** `handleSubmit` up to its first await. Mismatching passwords stop it
        with an error, no request and `loading` untouched; otherwise loading
        starts and the registration request goes out with the email and
        password. The button is disabled while loading. */
    method Submit() returns (request: Option<Account>)
      requires Valid() && !loading
      modifies this`error, this`loading, this`pending
      ensures Valid()
      ensures form.password != form.confirmPassword ==> request == None && error == Mismatch
      ensures form.password != form.confirmPassword ==> !loading && pending == Idle
      ensures form.password == form.confirmPassword ==> request == Some(Account(form.email, form.password))
      ensures form.password == form.confirmPassword ==> error == "" && loading && pending == Registering(request.value)
    {
      error := "";
      if form.password != form.confirmPassword {
        error := Mismatch;
        return None;
      }
      loading := true;
      request := Some(Account(form.email, form.password));
      pending := Registering(request.value);
    }

    /** The continuation once registration settled. Success sends the
        automatic sign-in request for the same account; failure sets the
        error, ends loading and sends nothing. No token is written here. */
    method ReceiveRegistration(reply: Reply<()>) returns (request: Option<TokenRequest>)
      requires Valid() && pending.Registering?
      modifies this`error, this`loading, this`pending
      ensures Valid()
      ensures reply.Ok? ==> request == Some(AutoLoginRequest(old(pending).account))
      ensures reply.Ok? ==> pending == SigningIn(request.value) && loading && error == old(error)
      ensures !reply.Ok? ==> request == None && pending == Idle && !loading
      ensures !reply.Ok? ==> error == FailureMessage(reply, RegistrationFailed)
    {
      if reply.Ok? {
        request := Some(AutoLoginRequest(pending.account));
        pending := SigningIn(request.value);
      } else {
        error := FailureMessage(reply, RegistrationFailed);
        loading := false;
        pending := Idle;
        request := None;
      }
    }

    /** The continuation once the automatic sign-in settled: an ok answer
        stores its `access_token` and signs the user in; otherwise the error
        is set and neither the token nor the flag changes. Loading ends
        either way. */
    method ReceiveToken(reply: Reply<string>, slot: Storage.TokenSlot, root: App.Root)
      requires Valid() && pending.SigningIn?
      modifies this`error, this`loading, this`pending, slot, root`isAuthenticated
      ensures Valid()
      ensures !loading && pending == Idle
      ensures reply.Ok? ==> slot.token == Some(reply.body) && root.isAuthenticated && error == old(error)
      ensures !reply.Ok? ==> error == FailureMessage(reply, AutoLoginFailed)
      ensures !reply.Ok? ==> slot.token == old(slot.token) && root.isAuthenticated == old(root.isAuthenticated)
    {
      if reply.Ok? {
        slot.token := Some(reply.body);
        root.isAuthenticated := true;
      } else {
        error := FailureMessage(reply, AutoLoginFailed);
      }
      loading := false;
      pending := Idle;
    }

    /** One submission with nothing interleaved: the guarded steps in order.
        The sign-in request, when one is sent, is for the registered account;
        the submission ends in exactly the outcome `SubmitOutcome` gives. */
    method HandleSubmit(registration: Reply<()>, login: Reply<string>, slot: Storage.TokenSlot, root: App.Root)
      returns (account: Option<Account>, request: Option<TokenRequest>)
      requires Valid() && !loading
      modifies this`error, this`loading, this`pending, slot, root`isAuthenticated
      ensures Valid() && !loading
      ensures account.Some? <==> form.password == form.confirmPassword
      ensures account.Some? ==> account.value == Account(form.email, form.password)
      ensures request.Some? <==> account.Some? && registration.Ok?
      ensures request.Some? ==> request.value == AutoLoginRequest(account.value)
      ensures SubmitOutcome(form, registration, login).SignedIn? ==>
                slot.token == Some(SubmitOutcome(form, registration, login).token) && root.isAuthenticated
      ensures SubmitOutcome(form, registration, login).SignedIn? ==> error == ""
      ensures SubmitOutcome(form, registration, login).Failed? ==>
                error == SubmitOutcome(form, registration, login).message
      ensures SubmitOutcome(form, registration, login).Failed? ==>
                slot.token == old(slot.token) && root.isAuthenticated == old(root.isAuthenticated)
    {
      request := None;
      account := Submit();
      if account.None? {
        return;
      }
      request := ReceiveRegistration(registration);
      if request.None? {
        return;
      }
      ReceiveToken(login, slot, root);
    }
  }
}
