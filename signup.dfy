/** The store's sign-up page: the form state, the validation chain run on
    submit, the registration request it posts and what it makes of the
    answer (an error to show, or a stored token and a move to the home page). */
module Signup {
  import opened Wrappers
  import opened JsObject
  import opened JsonValue
  import opened Fetch
  import Js

  datatype SignupForm = SignupForm(name: string, email: string, password: string, confirmPassword: string)

  const EmptyForm := SignupForm("", "", "", "")

  const Required := "Email and password are required"
  const Mismatch := "Passwords do not match"
  const TooShort := "Password must be at least 8 characters long"
  const MinPasswordLength := 8

  const DefaultApiBase := "http://localhost:8000"
  const RegistrationFailed := "Registration failed"
  const RegistrationError := "An error occurred during registration"

  // ---------------------------------------------------------------- validation

  /** The first failing check, in the page's order: both credentials present,
      the confirmation equal to the password, then the minimum length. */
  function Validate(f: SignupForm): (v: Option<string>)
    ensures v.None? <==> f.email != "" && f.password == f.confirmPassword && |f.password| >= MinPasswordLength
    ensures v.Some? ==> v.value == Required || v.value == Mismatch || v.value == TooShort
  {
    if f.email == "" || f.password == "" then Some(Required)
    else if f.password != f.confirmPassword then Some(Mismatch)
    else if |f.password| < MinPasswordLength then Some(TooShort)
    else None
  }

  /** Each message is reported exactly when its check is the first to fail. */
  lemma ValidateOrder(f: SignupForm)
    ensures Validate(f) == Some(Required) <==> f.email == "" || f.password == ""
    ensures Validate(f) == Some(Mismatch) <==>
      f.email != "" && f.password != "" && f.password != f.confirmPassword
    ensures Validate(f) == Some(TooShort) <==>
      f.email != "" && f.password != "" && f.password == f.confirmPassword && |f.password| < MinPasswordLength
  {
  }

  // ---------------------------------------------------------------- request

  /** What the page posts: the URL and the JSON body. */
  datatype Request = Request(url: string, body: Json)

  /** The register endpoint under the configured API base, or the local one. */
  function RegisterUrl(apiBase: Option<string>): (url: string)
    ensures apiBase.Some? && apiBase.value != "" ==> url == apiBase.value + "/api/auth/register"
    ensures apiBase.None? || apiBase.value == "" ==> url == "http://localhost:8000/api/auth/register"
  {
    Js.OrElse(apiBase, DefaultApiBase) + "/api/auth/register"
  }

  /** `{email, password, name: name || null}`. */
  function RegisterBody(f: SignupForm): Json {
    Obj([("email", Str(f.email)), ("password", Str(f.password)),
         ("name", if f.name != "" then Str(f.name) else Null)])
  }

  /** The body carries the email and the password as typed, and the name, or
      `null` when it was left empty; the confirmation is not sent. */
  lemma RegisterBodyFields(f: SignupForm)
    ensures Prop(RegisterBody(f), "email") == Some(Str(f.email))
    ensures Prop(RegisterBody(f), "password") == Some(Str(f.password))
    ensures Prop(RegisterBody(f), "name") == Some(if f.name == "" then Null else Str(f.name))
    ensures Prop(RegisterBody(f), "confirmPassword") == None
  {
    var e := RegisterBody(f).fields;
    GetAt(e, "password", 1);
    GetAt(e, "name", 2);
    GetAbsent(e, "confirmPassword");
  }

  // ---------------------------------------------------------------- response

  /** What a response leaves on the page: an error message, or a token to keep
      (possibly `undefined`) and a move to "/". */
  datatype Reaction = Stay(error: Message) | SignedIn(token: Value)

  /** A caught error shown as `err.message || RegistrationError`. */
  function Caught(m: string): Message {
    Text(if m != "" then m else RegistrationError)
  }

  /** `data.detail || RegistrationFailed`, kept as the value the server sent. */
  function DetailMessage(detail: Value): (m: Message)
    ensures !Truthy(detail) ==> m == Text(RegistrationFailed)
    ensures Truthy(detail) && detail.value.Str? ==> m == Text(detail.value.s)
  {
    if !Truthy(detail) then Text(RegistrationFailed)
    else if detail.value.Str? then Text(detail.value.s)
    else StringOf(detail.value)
  }

  /** The TypeError message for reading `k` off `null`. */
  function NullRead(k: string): string {
    "Cannot read properties of null (reading '" + k + "')"
  }

  /** The answer to one post. A network error or a body `response.json()`
      cannot parse is caught with its message; a `null` body throws on the
      first property read; otherwise a non-2xx status shows the server's
      `detail` and a 2xx one signs in with `access_token`. */
  function React(r: FetchResult, parse: string -> Result<Json, string>): (a: Reaction)
    ensures a.SignedIn? <==>
      r.Received? && IsOk(r.status) && parse(r.text).Ok? && !parse(r.text).value.Null?
    ensures a.SignedIn? ==> a.token == Prop(parse(r.text).value, "access_token")
    ensures r.Received? && !IsOk(r.status) && parse(r.text).Ok? && !parse(r.text).value.Null? ==>
      a == Stay(DetailMessage(Prop(parse(r.text).value, "detail")))
    ensures r.Threw? ==> a == Stay(Caught(r.message))
    ensures r.Received? && parse(r.text).Err? ==> a == Stay(Caught(parse(r.text).error))
  {
    match r
    case Threw(m) => Stay(Caught(m))
    case Received(status, text) =>
      match parse(text)
      case Err(m) => Stay(Caught(m))
      case Ok(data) =>
        if data.Null? then Stay(Text(NullRead(if IsOk(status) then "access_token" else "detail")))
        else if !IsOk(status) then Stay(DetailMessage(Prop(data, "detail")))
        else SignedIn(Prop(data, "access_token"))
  }

  /** Every error the page ends up showing is non-empty, so the error box is
      shown whenever the page stays. */
  lemma StayShowsError(r: FetchResult, parse: string -> Result<Json, string>)
    requires React(r, parse).Stay?
    ensures React(r, parse).error.Text? ==> React(r, parse).error.s != ""
    ensures React(r, parse).error.StringOf? ==> Truthy(Some(React(r, parse).error.v))
  {
  }

  // ---------------------------------------------------------------- page

  datatype FormField = Name | Email | Password | ConfirmPassword

  /** The sign-up page's state: the form, the shown error, the busy flag, the
      token handed to the auth context (None until one is set), the route it
      navigated to, and the requests it has posted. */
  class SignupPage {
    var formData: SignupForm
    var error: Message
    var loading: bool
    var token: Option<Value>
    var location: Option<string>
    var sent: seq<Request>

    constructor()
      ensures formData == EmptyForm && error == Text("") && !loading
      ensures token == None && location == None && sent == []
    {
      formData := EmptyForm;
      error := Text("");
      loading := false;
      token := None;
      location := None;
      sent := [];
    }

    /** An input's `onChange`: replaces one field of the form. */
    method Change(field: FormField, value: string)
      modifies this
      ensures formData == match field
        case Name => old(formData).(name := value)
        case Email => old(formData).(email := value)
        case Password => old(formData).(password := value)
        case ConfirmPassword => old(formData).(confirmPassword := value)
      ensures error == old(error) && loading == old(loading) && token == old(token)
      ensures location == old(location) && sent == old(sent)
    {
      match field
      case Name => formData := formData.(name := value);
      case Email => formData := formData.(email := value);
      case Password => formData := formData.(password := value);
      case ConfirmPassword => formData := formData.(confirmPassword := value);
    }

    /** `handleSubmit`: a failed check shows its message, clears the busy flag
        and posts nothing; otherwise the page posts the registration and
        either shows an error and clears the busy flag, or keeps the token and
        goes to "/" while still busy. `respond` stands for the server and the
        network, `parse` for `response.json()`. */
    method HandleSubmit(apiBase: Option<string>, respond: Request -> FetchResult,
                        parse: string -> Result<Json, string>)
      modifies this
      ensures formData == old(formData)
      ensures Validate(formData).Some? ==>
        && error == Text(Validate(formData).value) && !loading
        && sent == old(sent) && token == old(token) && location == old(location)
      ensures Validate(formData).None? ==>
        var req := Request(RegisterUrl(apiBase), RegisterBody(formData));
        && sent == old(sent) + [req]
        && match React(respond(req), parse)
           case Stay(m) => error == m && !loading && token == old(token) && location == old(location)
           case SignedIn(t) => error == Text("") && loading && token == Some(t) && location == Some("/")
    {
      error := Text("");
      loading := true;
      var problem := Validate(formData);
      if problem.Some? {
        error := Text(problem.value);
        loading := false;
        return;
      }
      var req := Request(RegisterUrl(apiBase), RegisterBody(formData));
      sent := sent + [req];
      var reaction := React(respond(req), parse);
      match reaction
      case Stay(m) =>
        error := m;
        loading := false;
      case SignedIn(t) =>
        token := Some(t);
        location := Some("/");
    }
  }
}
