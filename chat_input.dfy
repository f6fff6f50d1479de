/** The chat's text box: the send guard behind the Enter key and the send
    button, and the button's disabled state. `onSend` is the parent's
    callback; what it is called with is returned. */
module ChatInputBox {
  import opened Wrappers
  import opened Text

  /** What `handleSend` passes to `onSend`: the trimmed text, unless it is
      empty or the input is disabled. */
  function Sent(value: string, disabled: bool): Option<string>
  {
    var trimmed := Trim(value);
    if trimmed == "" || disabled then None else Some(trimmed)
  }

  /** `disabled={!value.trim() || disabled}` on the send button. */
  predicate SendButtonDisabled(value: string, disabled: bool) {
    Trim(value) == "" || disabled
  }

  /** Enter without Shift sends; every other key, and Shift+Enter, types. */
  predicate SendsOnKey(key: string, shiftKey: bool) {
    key == "Enter" && !shiftKey
  }

  /** The button is enabled exactly when a click would call `onSend`. */
  lemma ButtonEnabledIffSends(value: string, disabled: bool)
    ensures !SendButtonDisabled(value, disabled) <==> Sent(value, disabled).Some?
  {
  }

  /** What is sent is never empty and carries no surrounding white space, so
      trimming it again changes nothing. */
  lemma SentIsTrimmed(value: string, disabled: bool)
    ensures var s := Sent(value, disabled);
            s.Some? ==> s.value == Trim(value) && s.value != "" && !IsSpace(s.value[0]) && !IsSpace(s.value[|s.value| - 1]) && Trim(s.value) == s.value
  {
    TrimEnds(value);
    TrimIdempotent(value);
  }

  /** White space only, or a disabled input, never sends. */
  lemma BlankOrDisabledNeverSends(value: string, disabled: bool)
    ensures AllSpace(value) || disabled ==> Sent(value, disabled).None?
  {
    TrimEmptyIffAllSpace(value);
  }

  /** The text box's own state. */
  class ChatInput {
    var value: string

    constructor ()
      ensures value == ""
    {
      value := "";
    }

    /** `onChange`. */
    method SetValue(v: string)
      modifies this
      ensures value == v
    {
      value := v;
    }

    /** `handleSend`: returns what `onSend` was called with, if anything;
        the box is cleared only after a send. */
    method HandleSend(disabled: bool) returns (sent: Option<string>)
      modifies this
      ensures sent == Sent(old(value), disabled)
      ensures value == if sent.Some? then "" else old(value)
    {
      var trimmed := Trim(value);
      if trimmed == "" {
        return None;
      }
      if disabled {
        return None;
      }
      sent := Some(trimmed);
      value := "";
    }

    /** `handleKeyDown`: Enter without Shift prevents the newline and sends. */
    method HandleKeyDown(key: string, shiftKey: bool, disabled: bool) returns (sent: Option<string>, preventDefault: bool)
      modifies this
      ensures preventDefault == SendsOnKey(key, shiftKey)
      ensures sent == if preventDefault then Sent(old(value), disabled) else None
      ensures value == if sent.Some? then "" else old(value)
    {
      preventDefault := false;
      sent := None;
      if key == "Enter" && !shiftKey {
        preventDefault := true;
        sent := HandleSend(disabled);
      }
    }
  }
}
