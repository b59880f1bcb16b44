/** The message input box: a draft of at most 1000 characters, sent on
    Enter (without Shift) or on submit when it is not blank and the box is
    enabled, and a debounced typing signal on every other key.

    The debounced callback is modelled by `pendingTyping`: the `disabled`
    value captured by the trailing call that is scheduled, if any. The
    500 ms quiet period itself is not represented; `TypingQuietElapsed` is
    the moment it ends. */
module Input {
  import opened Base
  import opened Text

  const MAX_MESSAGE_LENGTH := 1000

  /** The guard shared by Enter and submit: `message.trim() && !disabled`. */
  predicate CanSend(message: string, disabled: bool) {
    Trim(message) != [] && !disabled
  }

  /** The send button is enabled when `!(disabled || !message.trim())`. */
  predicate SubmitEnabled(message: string, disabled: bool) {
    !(disabled || Trim(message) == [])
  }

  /** A draft can be sent exactly when the box is enabled and the draft has
      a character that is not whitespace; the button is enabled in exactly
      the same states. */
  lemma CanSendIff(message: string, disabled: bool)
    ensures CanSend(message, disabled) <==> !disabled && !IsBlank(message)
    ensures SubmitEnabled(message, disabled) <==> CanSend(message, disabled)
  {
    TrimEmptyIffBlank(message);
  }

  /** What a key press does. */
  datatype KeyAction = Send(text: string) | Ignored | TypingScheduled

  /** Whether a key press is the send key: Enter without Shift. */
  predicate IsSendKey(key: string, shift: bool) {
    key == "Enter" && !shift
  }

  class ChatInput {
    var message: string
    var pendingTyping: Option<bool>

    ghost predicate Valid()
      reads this
    {
      |message| <= MAX_MESSAGE_LENGTH
    }

    constructor ()
      ensures Valid()
      ensures message == "" && pendingTyping == None
    {
      message := "";
      pendingTyping := None;
    }

    /** A change of the text area's value is taken only up to the length
        limit; a longer value leaves the draft as it was. */
    method HandleChange(value: string)
      requires Valid()
      modifies this`message
      ensures Valid()
      ensures message == if |value| <= MAX_MESSAGE_LENGTH then value else old(message)
    {
      if |value| <= MAX_MESSAGE_LENGTH {
        message := value;
      }
    }

    /** Enter without Shift sends the untrimmed draft and clears it when the
        guard holds, and otherwise does nothing; any other key (Shift+Enter
        included) schedules the debounced typing signal, capturing the
        current `disabled`. */
    method HandleKeyDown(key: string, shift: bool, disabled: bool) returns (action: KeyAction)
      requires Valid()
      modifies this`message, this`pendingTyping
      ensures Valid()
      ensures IsSendKey(key, shift) && CanSend(old(message), disabled) ==>
        action == Send(old(message)) && message == "" && pendingTyping == old(pendingTyping)
      ensures IsSendKey(key, shift) && !CanSend(old(message), disabled) ==>
        action == Ignored && message == old(message) && pendingTyping == old(pendingTyping)
      ensures !IsSendKey(key, shift) ==>
        action == TypingScheduled && message == old(message) && pendingTyping == Some(disabled)
      // what leaves the box is never blank and never over the limit
      ensures action.Send? ==> !IsBlank(action.text) && |action.text| <= MAX_MESSAGE_LENGTH
    {
      if IsSendKey(key, shift) {
        if CanSend(message, disabled) {
          CanSendIff(message, disabled);
          action := Send(message);
          message := "";
        } else {
          action := Ignored;
        }
      } else {
        pendingTyping := Some(disabled);
        action := TypingScheduled;
      }
    }

    /** Form submission: the same guard, without a key. */
    method HandleSubmit(disabled: bool) returns (sent: Option<string>)
      requires Valid()
      modifies this`message
      ensures Valid()
      ensures CanSend(old(message), disabled) ==> sent == Some(old(message)) && message == ""
      ensures !CanSend(old(message), disabled) ==> sent == None && message == old(message)
      ensures sent.Some? ==> !IsBlank(sent.value) && |sent.value| <= MAX_MESSAGE_LENGTH
    {
      if CanSend(message, disabled) {
        CanSendIff(message, disabled);
        sent := Some(message);
        message := "";
      } else {
        sent := None;
      }
    }

    /** The quiet period after the last scheduling key ends: the trailing
        call runs and signals typing unless the `disabled` it captured was
        true. */
    method TypingQuietElapsed() returns (signalled: bool)
      requires pendingTyping.Some?
      modifies this`pendingTyping
      ensures signalled == !old(pendingTyping).value
      ensures pendingTyping == None
    {
      signalled := !pendingTyping.value;
      pendingTyping := None;
    }
  }
}
