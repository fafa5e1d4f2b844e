/**
  The profile editor: its fields are reset from the props whenever it opens; saving checks the
  name, sends the name as typed with a normalised image URL, and on success copies the values the
  server returns into the session store and to the parent.
 */
module EditProfileModal {
  import opened Js
  import opened Http
  import opened AuthSlice

  const UsersPath := "/users"
  const NameRequiredMessage := "O nome não pode ser vazio."
  const SavedMessage := "Seu perfil foi atualizado com sucesso."
  const DefaultSaveError := "Não foi possível atualizar o perfil."

  /** `response.data.data`: the user as the server stored it. */
  datatype UpdatedUser = UpdatedUser(name: string, imageUrl: Option<string>)

  /** The failure dialog's text: the server's message when the error carries a non-empty one, else a fixed text. */
  function SaveErrorMessage(e: Thrown): (msg: string)
    ensures Truthy(msg)
    ensures ServerMessage(e).Some? ==> msg == ServerMessage(e).value
    ensures ServerMessage(e).None? ==> msg == DefaultSaveError
  {
    match ServerMessage(e)
    case Some(m) => m
    case None => DefaultSaveError
  }

  /** A plain `Error` does not lend its message to the dialog, unlike on the login page. */
  lemma PlainErrorsGetDefault(m: string)
    ensures SaveErrorMessage(PlainError(m)) == DefaultSaveError
  {
  }

  class Editor {
    var name: string
    var imageUrl: string
    var isLoading: bool

    constructor ()
      ensures name == "" && imageUrl == "" && !isLoading
    {
      name := "";
      imageUrl := "";
      isLoading := false;
    }

    /** The effect on `open`: when the modal is open, both fields are reset from the props, null or empty becoming ''. */
    method OnOpenChange(open: bool, initialName: Option<string>, initialImageUrl: Option<string>)
      modifies this
      ensures open ==> name == OrEmpty(initialName) && imageUrl == OrEmpty(initialImageUrl)
      ensures !open ==> name == old(name) && imageUrl == old(imageUrl)
      ensures isLoading == old(isLoading)
    {
      if open {
        name := OrEmpty(initialName);
        imageUrl := OrEmpty(initialImageUrl);
      }
    }

    method OnNameChange(text: string)
      modifies this
      ensures name == text && imageUrl == old(imageUrl) && isLoading == old(isLoading)
    {
      name := text;
    }

    method OnImageUrlChange(text: string)
      modifies this
      ensures imageUrl == text && name == old(name) && isLoading == old(isLoading)
    {
      imageUrl := text;
    }

    /** Save is enabled exactly when nothing is in flight and the name has a character that is not white space. */
    function CanSave(): (enabled: bool)
      reads this
      ensures enabled <==> !isLoading && exists i :: 0 <= i < |name| && !IsSpace(name[i])
    {
      BlankIffAllSpace(name);
      !(isLoading || IsBlank(name))
    }

    /**
      `handleSave` up to its `await`: a blank name gets a warning and no request; otherwise the
      editor enters the loading state and sends the name as typed and the normalised image URL.
     */
    method HandleSave() returns (request: Option<Request>, effects: seq<Effect>)
      modifies this
      ensures name == old(name) && imageUrl == old(imageUrl)
      ensures request.None? <==> IsBlank(name)
      ensures request.None? ==> effects == [Alert(NameRequiredMessage)] && isLoading == old(isLoading)
      ensures request.Some? ==>
        && request.value == Request(Put, UsersPath, ProfileBody(name, TrimmedOrAbsent(imageUrl)))
        && effects == [] && isLoading
    {
      if IsBlank(name) {
        return None, [Alert(NameRequiredMessage)];
      }
      isLoading := true;
      request := Some(Request(Put, UsersPath, ProfileBody(name, TrimmedOrAbsent(imageUrl))));
      effects := [];
    }

    /**
      The continuation: on success the store's name and image become the server's values, the
      parent receives the same values, the modal closes and a notice follows; on failure a dialog
      shows the error. Loading ends either way.
     */
    method SaveSettled(outcome: Outcome<UpdatedUser>, store: AuthStore) returns (effects: seq<Effect>)
      modifies this, store
      ensures !isLoading && name == old(name) && imageUrl == old(imageUrl)
      ensures outcome.Success? ==>
        && store.State() == Reduce(old(store.State()), UpdateUserInfo(outcome.data.name, outcome.data.imageUrl))
        && effects == [ProfileSaved(outcome.data.name, outcome.data.imageUrl), Closed, Alert(SavedMessage)]
      ensures outcome.Failure? ==>
        && store.State() == old(store.State())
        && effects == [Alert(SaveErrorMessage(outcome.error))]
    {
      if outcome.Success? {
        var updated := outcome.data;
        store.UpdateUserInfo(updated.name, updated.imageUrl);
        effects := [ProfileSaved(updated.name, updated.imageUrl), Closed, Alert(SavedMessage)];
      } else {
        effects := [Alert(SaveErrorMessage(outcome.error))];
      }
      isLoading := false;
    }
  }
}
