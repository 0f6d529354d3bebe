/**
 * The message composer (`MessageInput`): when a message may be sent, which key sends it, and
 * when the text box is cleared.
 */
module MessageInput {
  import opened Common

  /** The guard at the top of `handleSend`: something to send, and no send in flight. */
  predicate CanSend(content: string, sending: bool) {
    !IsBlank(content) && !sending
  }

  /** The send button's `isDisabled`. */
  predicate SendDisabled(content: string, sending: bool) {
    IsBlank(content) || sending
  }

  /** The button is disabled exactly when a click would send nothing. */
  lemma DisabledIffGuardRefuses(content: string, sending: bool)
    ensures SendDisabled(content, sending) <==> !CanSend(content, sending)
  {
  }

  /** `handleKeyDown`: Enter sends, Shift+Enter does not (it inserts a line break). */
  predicate SendsOnKey(key: string, shiftKey: bool) {
    key == "Enter" && !shiftKey
  }

  class Composer {
    var content: string
    /** The toast last shown, if any. */
    var toast: Option<Toast>

    constructor ()
      ensures content == "" && toast.None?
    {
      content := "";
      toast := None;
    }

    method Type(text: string)
      modifies this`content
      ensures content == text
    {
      content := text;
    }

    /** `handleSend` up to the call: the untrimmed text is handed to `onSend` when the guard
        lets it through. */
    method BeginSend(sending: bool) returns (sent: Option<string>)
      ensures CanSend(content, sending) ==> sent == Some(content)
      ensures !CanSend(content, sending) ==> sent.None?
    {
      if IsBlank(content) || sending {
        return None;
      }
      return Some(content);
    }

    /** A key press in the text box: it starts a send only for Enter without Shift. */
    method KeyDown(key: string, shiftKey: bool, sending: bool) returns (sent: Option<string>)
      ensures sent.Some? <==> SendsOnKey(key, shiftKey) && CanSend(content, sending)
      ensures sent.Some? ==> sent.value == content
    {
      if SendsOnKey(key, shiftKey) {
        sent := BeginSend(sending);
      } else {
        sent := None;
      }
    }

    /** The rest of `handleSend`: an error is shown and the text kept; otherwise the box is
        cleared. */
    method FinishSend(error: Option<string>)
      modifies this`content, this`toast
      ensures Truthy(error) ==> content == old(content) && toast == Some(ErrorToast("Error sending message", error.value))
      ensures !Truthy(error) ==> content == "" && toast == old(toast)
    {
      if Truthy(error) {
        toast := Some(ErrorToast("Error sending message", error.value));
      } else {
        content := "";
      }
    }
  }
}
