/** The reply composer: posts a comment on one tweet. */
module ReplyModal {
  import opened Js
  import opened Http

  const ReplyFailedMessage := "Erro ao enviar resposta."

  function CommentsPath(tweetId: string): string {
    "/tweets/" + tweetId + "/comments"
  }

  class ReplyComposer {
    /** The `tweetId` prop. */
    const tweetId: string
    var content: string
    var isLoading: bool

    constructor (tweetId: string)
      ensures this.tweetId == tweetId && content == "" && !isLoading
    {
      this.tweetId := tweetId;
      content := "";
      isLoading := false;
    }

    /** The text field's `onChange`: no cap on replies. */
    method OnChange(text: string)
      modifies this
      ensures content == text && isLoading == old(isLoading)
    {
      content := text;
    }

    /** The reply button is enabled exactly when some character is not white space and nothing is in flight. */
    function CanReply(): (enabled: bool)
      reads this
      ensures enabled <==> !isLoading && exists i :: 0 <= i < |content| && !IsSpace(content[i])
    {
      BlankIffAllSpace(content);
      !(IsBlank(content) || isLoading)
    }

    /** `handleReply` up to its `await`: blank content is ignored; otherwise the content is posted as typed. */
    method HandleReply() returns (request: Option<Request>)
      modifies this
      ensures request.Some? <==> !IsBlank(old(content))
      ensures request.None? ==> content == old(content) && isLoading == old(isLoading)
      ensures request.Some? ==>
        && request.value == Request(Post, CommentsPath(tweetId), ContentBody(old(content)))
        && isLoading && content == old(content)
    {
      if IsBlank(content) {
        return None;
      }
      isLoading := true;
      request := Some(Request(Post, CommentsPath(tweetId), ContentBody(content)));
    }

    /**
      The continuation: on success the content is cleared, then `onReplySuccess` and `onClose`
      run; on failure an alert is shown, the content kept and neither callback runs.
     */
    method ReplySettled(outcome: Outcome<()>) returns (effects: seq<Effect>)
      modifies this
      ensures !isLoading
      ensures outcome.Success? ==> content == "" && effects == [ReplySucceeded, Closed]
      ensures outcome.Failure? ==> content == old(content) && effects == [Alert(ReplyFailedMessage)]
    {
      if outcome.Success? {
        content := "";
        effects := [ReplySucceeded, Closed];
      } else {
        effects := [Alert(ReplyFailedMessage)];
      }
      isLoading := false;
    }
  }
}
