/**
  The registration form: a submission checks the three required fields, posts the new account
  with the image URL trimmed or left out, and on success opens a notice and schedules
  navigation to the login page.
 */
module RegisterPage {
  import opened Js
  import opened Http

  const LoginPath := "/login"
  const RegisterEndpoint := "/auth/register"
  const ClickawayReason := "clickaway"
  const RequiredFieldsMessage := "Por favor, preencha todos os campos obrigatórios."
  const RegisterFailedMessage := "Falha no cadastro. Verifique se o nome de usuário já existe."
  const UnexpectedMessage := "Ocorreu um erro inesperado ao tentar cadastrar."

  /** The account sent to the server: everything as typed, except the image URL, trimmed or left out when blank. */
  function RegisterPayload(name: string, username: string, password: string, imageUrl: string): (b: Body)
    ensures b.RegisterBody? && b.name == name && b.username == username && b.password == password
    ensures b.imageUrl.None? <==> forall i :: 0 <= i < |imageUrl| ==> IsSpace(imageUrl[i])
    ensures b.imageUrl.Some? ==> b.imageUrl.value == Trim(imageUrl)
  {
    RegisterBody(name, username, password, TrimmedOrAbsent(imageUrl))
  }

  /** The failure text: server message, else the duplicate-user hint, for HTTP errors; then `Error.message`; then a generic text. */
  function RegisterErrorMessage(e: Thrown): (msg: string)
    ensures e.HttpError? ==> Truthy(msg) && msg == ServerMessage(e).GetOr(RegisterFailedMessage)
    ensures e.HttpError? && ServerMessage(e).Some? ==> msg == ServerMessage(e).value
    ensures e.HttpError? && ServerMessage(e).None? ==> msg == RegisterFailedMessage
    ensures e.PlainError? ==> msg == e.message
    ensures e.OtherThrown? ==> msg == UnexpectedMessage
  {
    FormErrorMessage(e, RegisterFailedMessage, UnexpectedMessage)
  }

  class RegisterForm {
    var name: string
    var username: string
    var password: string
    var imageUrl: string
    var isLoading: bool
    var error: Option<string>
    var openSuccess: bool

    constructor ()
      ensures name == "" && username == "" && password == "" && imageUrl == ""
      ensures !isLoading && error == None && !openSuccess
    {
      name := "";
      username := "";
      password := "";
      imageUrl := "";
      isLoading := false;
      error := None;
      openSuccess := false;
    }

    method OnNameChange(text: string)
      modifies this
      ensures name == text && username == old(username) && password == old(password) && imageUrl == old(imageUrl)
      ensures isLoading == old(isLoading) && error == old(error) && openSuccess == old(openSuccess)
    {
      name := text;
    }

    method OnUsernameChange(text: string)
      modifies this
      ensures username == text && name == old(name) && password == old(password) && imageUrl == old(imageUrl)
      ensures isLoading == old(isLoading) && error == old(error) && openSuccess == old(openSuccess)
    {
      username := text;
    }

    method OnPasswordChange(text: string)
      modifies this
      ensures password == text && name == old(name) && username == old(username) && imageUrl == old(imageUrl)
      ensures isLoading == old(isLoading) && error == old(error) && openSuccess == old(openSuccess)
    {
      password := text;
    }

    method OnImageUrlChange(text: string)
      modifies this
      ensures imageUrl == text && name == old(name) && username == old(username) && password == old(password)
      ensures isLoading == old(isLoading) && error == old(error) && openSuccess == old(openSuccess)
    {
      imageUrl := text;
    }

    /** `handleClose`: a click away keeps the notice open; any other reason closes it. */
    method HandleClose(reason: Option<string>)
      modifies this
      ensures reason == Some(ClickawayReason) ==> openSuccess == old(openSuccess)
      ensures reason != Some(ClickawayReason) ==> !openSuccess
      ensures name == old(name) && username == old(username) && password == old(password) && imageUrl == old(imageUrl)
      ensures isLoading == old(isLoading) && error == old(error)
    {
      if reason == Some(ClickawayReason) {
        return;
      }
      openSuccess := false;
    }

    /** The submit button is enabled exactly when nothing is in flight and the required fields are non-empty. */
    function CanSubmit(): (enabled: bool)
      reads this
      ensures enabled ==> Truthy(name) && Truthy(username) && Truthy(password) && !isLoading
      ensures !enabled ==> isLoading || name == "" || username == "" || password == ""
    {
      !(isLoading || !Truthy(name) || !Truthy(username) || !Truthy(password))
    }

    /**
      `handleSubmit` up to its `await`: the previous error is cleared; an empty required field
      sets the required-fields error and sends nothing; otherwise the account is posted.
     */
    method HandleSubmit() returns (request: Option<Request>)
      modifies this
      ensures name == old(name) && username == old(username) && password == old(password) && imageUrl == old(imageUrl)
      ensures openSuccess == old(openSuccess)
      ensures request.None? <==> name == "" || username == "" || password == ""
      ensures request.None? ==> error == Some(RequiredFieldsMessage) && isLoading == old(isLoading)
      ensures request.Some? ==>
        && request.value == Request(Post, RegisterEndpoint, RegisterPayload(name, username, password, imageUrl))
        && error == None && isLoading
    {
      error := None;
      if !Truthy(name) || !Truthy(username) || !Truthy(password) {
        error := Some(RequiredFieldsMessage);
        return None;
      }
      isLoading := true;
      var userData := RegisterPayload(name, username, password, imageUrl);
      request := Some(Request(Post, RegisterEndpoint, userData));
    }

    /**
      The continuation: on success the notice opens and navigation to /login is scheduled; on
      failure the chosen message is shown. Loading ends either way.
     */
    method SubmitSettled(outcome: Outcome<()>) returns (effects: seq<Effect>)
      modifies this
      ensures !isLoading
      ensures name == old(name) && username == old(username) && password == old(password) && imageUrl == old(imageUrl)
      ensures outcome.Success? ==> openSuccess && error == old(error) && effects == [NavigateLater(LoginPath)]
      ensures outcome.Failure? ==>
        openSuccess == old(openSuccess) && error == Some(RegisterErrorMessage(outcome.error)) && effects == []
    {
      if outcome.Success? {
        openSuccess := true;
        effects := [NavigateLater(LoginPath)];
      } else {
        error := Some(RegisterErrorMessage(outcome.error));
        effects := [];
      }
      isLoading := false;
    }
  }
}
