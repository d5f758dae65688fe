/** The sign-in form: one token request, then the token is stored and the
    shell is told the user is signed in. The async submit handler is split at
    its await into `Submit` and `ReceiveToken`. */
module Login {
  import opened Api
  import Storage
  import App

  /** The error shown when the server refuses without a detail. */
  const LoginFailed := "Login failed"

  /** The inputs, by their `name` attributes. */
  datatype Field = Email | Password

  /** The form's `formData`. */
  datatype LoginData = LoginData(email: string, password: string)
  {
    function Get(name: Field): string
    {
      match name
      case Email => email
      case Password => password
    }
  }

  /** `{ ...prev, [name]: value }`: the named field takes the value, the other
      keeps its own. */
  function WithField(data: LoginData, name: Field, value: string): (r: LoginData)
    ensures r.Get(name) == value
    ensures forall other: Field :: other != name ==> r.Get(other) == data.Get(other)
  {
    match name
    case Email => data.(email := value)
    case Password => data.(password := value)
  }

  /** How a submission ends given the token request's answer: signed in with
      the returned `access_token` exactly when the answer is ok, otherwise a
      failure whose message is empty only if what was thrown had an empty
      message. */
  function SubmitOutcome(reply: Reply<string>): (o: Outcome)
    ensures o.SignedIn? <==> reply.Ok?
    ensures o.SignedIn? ==> o.token == reply.body
    ensures o.Failed? && o.message == "" ==> reply.Thrown?
  {
    if reply.Ok? then SignedIn(reply.body) else Failed(FailureMessage(reply, LoginFailed))
  }

  /** The `Login` component's state; `pending` holds the request whose answer
      the suspended handler awaits. */
  class LoginForm {
    var form: LoginData
    var error: string
    var loading: bool
    var pending: Option<TokenRequest>

    /** `loading` is on exactly while the handler is suspended, and no error
        shows while it is. */
    ghost predicate Valid()
      reads this
    {
      && (loading <==> pending.Some?)
      && (loading ==> error == "")
    }

    /** The `useState` initialisers. */
    constructor ()
      ensures Valid()
      ensures form == LoginData("", "") && error == "" && !loading
    {
      form := LoginData("", "");
      error := "";
      loading := false;
      pending := None;
    }

    /** `handleChange` for the input named `name`. */
    method HandleChange(name: Field, value: string)
      modifies this`form
      ensures form == WithField(old(form), name, value)
    {
      form := WithField(form, name, value);
    }

    /** `handleSubmit` up to its await: the error is cleared and loading set
        before the request, whose body carries the email as `username` and
        the password. The button is disabled while loading. */
    method Submit() returns (request: TokenRequest)
      requires Valid() && !loading
      modifies this`error, this`loading, this`pending
      ensures Valid()
      ensures error == "" && loading
      ensures request == TokenRequest(form.email, form.password)
      ensures pending == Some(request)
    {
      error := "";
      loading := true;
      request := TokenRequest(form.email, form.password);
      pending := Some(request);
    }

    /** The continuation once the token request settled. An ok answer stores
        its `access_token` and signs the user in; any other outcome sets the
        error and touches neither the token nor the flag. Loading ends
        either way. */
    method ReceiveToken(reply: Reply<string>, slot: Storage.TokenSlot, root: App.Root)
      requires Valid() && pending.Some?
      modifies this`error, this`loading, this`pending, slot, root`isAuthenticated
      ensures Valid()
      ensures !loading
      ensures reply.Ok? ==> slot.token == Some(reply.body) && root.isAuthenticated && error == old(error)
      ensures !reply.Ok? ==> error == FailureMessage(reply, LoginFailed)
      ensures !reply.Ok? ==> slot.token == old(slot.token) && root.isAuthenticated == old(root.isAuthenticated)
    {
      if reply.Ok? {
        slot.token := Some(reply.body);
        root.isAuthenticated := true;
      } else {
        error := FailureMessage(reply, LoginFailed);
      }
      loading := false;
      pending := None;
    }

    /** One submission with nothing interleaved: the request carries the
        form's email and password, and the submission ends in exactly the
        outcome `SubmitOutcome` gives for the server's answer. */
    method HandleSubmit(reply: Reply<string>, slot: Storage.TokenSlot, root: App.Root) returns (request: TokenRequest)
      requires Valid() && !loading
      modifies this`error, this`loading, this`pending, slot, root`isAuthenticated
      ensures Valid() && !loading
      ensures request == TokenRequest(form.email, form.password)
      ensures SubmitOutcome(reply).SignedIn? ==>
                slot.token == Some(SubmitOutcome(reply).token) && root.isAuthenticated
      ensures SubmitOutcome(reply).SignedIn? ==> error == ""
      ensures SubmitOutcome(reply).Failed? ==> error == SubmitOutcome(reply).message
      ensures SubmitOutcome(reply).Failed? ==>
                slot.token == old(slot.token) && root.isAuthenticated == old(root.isAuthenticated)
    {
      request := Submit();
      ReceiveToken(reply, slot, root);
    }
  }
}
