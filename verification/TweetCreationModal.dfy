/**
  The tweet composer: a text field capped at 280 characters (JavaScript `length`, in UTF-16
  code units), a counter of the characters left, and the post handler.
 */
module TweetCreationModal {
  import opened Js
  import opened Http

  const MaxChars := 280
  const TweetsPath := "/tweets"
  const PostFailedMessage := "Não foi possível postar o tweet. Verifique sua conexão."

  class Composer {
    var content: string
    var isLoading: bool
    var error: Option<string>

    /** The content never exceeds the cap. */
    ghost predicate Valid()
      reads this
    {
      Utf16Length(content) <= MaxChars
    }

    constructor ()
      ensures Valid() && content == "" && !isLoading && error == None
    {
      content := "";
      isLoading := false;
      error := None;
    }

    /** The text field's `onChange`: an edit within the cap replaces the content, a longer one is dropped. */
    method OnChange(text: string)
      requires Valid()
      modifies this
      ensures Valid()
      ensures Utf16Length(text) <= MaxChars ==> content == text
      ensures Utf16Length(text) > MaxChars ==> content == old(content)
      ensures isLoading == old(isLoading) && error == old(error)
    {
      if Utf16Length(text) <= MaxChars {
        content := text;
      }
    }

    /** The counter shown beside the button: what is left of the cap, never below zero. */
    function CharsRemaining(): (r: int)
      requires Valid()
      reads this
      ensures 0 <= r <= MaxChars
      ensures r + Utf16Length(content) == MaxChars
    {
      MaxChars - Utf16Length(content)
    }

    /** The post button is enabled exactly when nothing is in flight and some character is not white space. */
    function CanPost(): (enabled: bool)
      reads this
      ensures enabled <==> !isLoading && exists i :: 0 <= i < |content| && !IsSpace(content[i])
    {
      BlankIffAllSpace(content);
      !(isLoading || IsBlank(content))
    }

    /**
      `handlePost` up to its `await`: blank content is ignored; otherwise the composer enters the
      loading state with the error cleared, and the content is posted as typed.
     */
    method HandlePost() returns (request: Option<Request>)
      modifies this
      ensures request.Some? <==> !IsBlank(old(content))
      ensures request.None? ==> content == old(content) && isLoading == old(isLoading) && error == old(error)
      ensures request.Some? ==>
        && request.value == Request(Post, TweetsPath, ContentBody(old(content)))
        && isLoading && error == None && content == old(content)
    {
      if IsBlank(content) {
        return None;
      }
      isLoading := true;
      error := None;
      request := Some(Request(Post, TweetsPath, ContentBody(content)));
    }

    /**
      The continuation: on success the content is emptied, then the parent hears of the new tweet
      and the modal closes; on failure an error is shown and the content kept. Loading ends either way.
     */
    method PostSettled(outcome: Outcome<()>) returns (effects: seq<Effect>)
      requires Valid()
      modifies this
      ensures Valid() && !isLoading
      ensures outcome.Success? ==> content == "" && error == old(error) && effects == [TweetPosted, Closed]
      ensures outcome.Failure? ==> content == old(content) && error == Some(PostFailedMessage) && effects == []
    {
      if outcome.Success? {
        content := "";
        effects := [TweetPosted, Closed];
      } else {
        error := Some(PostFailedMessage);
        effects := [];
      }
      isLoading := false;
    }
  }
}
