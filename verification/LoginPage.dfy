/**
  The login form: a logged-in visitor is redirected home; a submission checks both fields,
  posts the credentials, and on success hands the returned session to the store's `login`.
 */
module LoginPage {
  import opened Js
  import opened Http
  import opened AuthSlice

  const HomePath := "/"
  const LoginEndpoint := "/auth/login"
  const RequiredFieldsMessage := "Por favor, preencha todos os campos."
  const AuthFailedMessage := "Falha na autenticação. Verifique suas credenciais."
  const UnexpectedMessage := "Ocorreu um erro inesperado."

  /** `response.data.user` of a successful login. */
  datatype LoginUser = LoginUser(id: string, username: string, name: string, imageUrl: Option<string>)
  /** `response.data` of a successful login. */
  datatype LoginResponse = LoginResponse(token: string, user: LoginUser)

  /** The page renders a redirect home instead of the form exactly when a session is logged in. */
  function Redirect(isLoggedIn: bool): (target: Option<string>)
    ensures target.Some? <==> isLoggedIn
    ensures target.Some? ==> target.value == HomePath
  {
    if isLoggedIn then Some(HomePath) else None
  }

  /** The session the store receives: the response's token and user, field for field. */
  function PayloadOf(r: LoginResponse): (p: LoginPayload)
    ensures p.token == r.token && p.id == r.user.id && p.username == r.user.username
    ensures p.name == r.user.name && p.imageUrl == r.user.imageUrl
  {
    LoginPayload(r.token, r.user.id, r.user.username, r.user.name, r.user.imageUrl)
  }

  /** The failure text: server message, else the credentials hint, for HTTP errors; then `Error.message`; then a generic text. */
  function LoginErrorMessage(e: Thrown): (msg: string)
    ensures e.HttpError? ==> Truthy(msg) && msg == ServerMessage(e).GetOr(AuthFailedMessage)
    ensures e.HttpError? && ServerMessage(e).Some? ==> msg == ServerMessage(e).value
    ensures e.HttpError? && ServerMessage(e).None? ==> msg == AuthFailedMessage
    ensures e.PlainError? ==> msg == e.message
    ensures e.OtherThrown? ==> msg == UnexpectedMessage
  {
    FormErrorMessage(e, AuthFailedMessage, UnexpectedMessage)
  }

  class LoginForm {
    var username: string
    var password: string
    var isLoading: bool
    var error: Option<string>

    constructor ()
      ensures username == "" && password == "" && !isLoading && error == None
    {
      username := "";
      password := "";
      isLoading := false;
      error := None;
    }

    method OnUsernameChange(text: string)
      modifies this
      ensures username == text && password == old(password)
      ensures isLoading == old(isLoading) && error == old(error)
    {
      username := text;
    }

    method OnPasswordChange(text: string)
      modifies this
      ensures password == text && username == old(username)
      ensures isLoading == old(isLoading) && error == old(error)
    {
      password := text;
    }

    /** The submit button is enabled exactly when nothing is in flight and both fields are non-empty. */
    function CanSubmit(): (enabled: bool)
      reads this
      ensures enabled ==> Truthy(username) && Truthy(password) && !isLoading
      ensures !enabled ==> isLoading || username == "" || password == ""
    {
      !(isLoading || !Truthy(username) || !Truthy(password))
    }

    /**
      `handleSubmit` up to its `await`: the previous error is cleared; an empty field sets the
      required-fields error and sends nothing; otherwise the credentials are posted.
     */
    method HandleSubmit() returns (request: Option<Request>)
      modifies this
      ensures username == old(username) && password == old(password)
      ensures request.None? <==> username == "" || password == ""
      ensures request.None? ==> error == Some(RequiredFieldsMessage) && isLoading == old(isLoading)
      ensures request.Some? ==>
        && request.value == Request(Post, LoginEndpoint, LoginBody(username, password))
        && error == None && isLoading
    {
      error := None;
      if !Truthy(username) || !Truthy(password) {
        error := Some(RequiredFieldsMessage);
        return None;
      }
      isLoading := true;
      request := Some(Request(Post, LoginEndpoint, LoginBody(username, password)));
    }

    /**
      The continuation: on success the store logs in with the returned session and the page
      navigates home; on failure the chosen message is shown. Loading ends either way.
     */
    method SubmitSettled(outcome: Outcome<LoginResponse>, store: AuthStore) returns (effects: seq<Effect>)
      modifies this, store
      ensures !isLoading && username == old(username) && password == old(password)
      ensures outcome.Success? ==>
        && store.State() == Reduce(old(store.State()), Login(PayloadOf(outcome.data)))
        && store.Valid() && store.isLoggedIn
        && effects == [Navigate(HomePath)] && error == old(error)
      ensures outcome.Failure? ==>
        && store.State() == old(store.State())
        && effects == [] && error == Some(LoginErrorMessage(outcome.error))
    {
      if outcome.Success? {
        var r := outcome.data;
        store.Login(LoginPayload(r.token, r.user.id, r.user.username, r.user.name, r.user.imageUrl));
        effects := [Navigate(HomePath)];
      } else {
        error := Some(LoginErrorMessage(outcome.error));
        effects := [];
      }
      isLoading := false;
    }
  }
}
