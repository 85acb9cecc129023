/** The chat input box: its text, the send rule shared by the button and the
    Enter key, and when the textarea and the button are disabled. */
module MessageInput {
  import opened Wrappers
  import opened JsText

  /** `!apiKey` for a key that may be `null`. */
  predicate KeyMissing(apiKey: Option<string>) {
    apiKey.None? || apiKey.value == ""
  }

  /** `input.trim() === ""` */
  predicate IsBlank(input: string) {
    Trim(input) == ""
  }

  /** What `handleSendMessage` hands to `onSendMessage`: the untrimmed input,
      unless it is blank or there is no key. */
  function Outgoing(input: string, apiKey: Option<string>): (sent: Option<string>)
    ensures sent.Some? <==> !AllWhitespace(input) && !KeyMissing(apiKey)
    ensures sent.Some? ==> sent.value == input
  {
    TrimEmptyIff(input);
    if IsBlank(input) || KeyMissing(apiKey) then None else Some(input)
  }

  /** The textarea's `disabled`. */
  predicate TextareaDisabled(apiKey: Option<string>, isResponding: bool): (b: bool)
    ensures b <==> apiKey == None || apiKey == Some("") || isResponding
  {
    KeyMissing(apiKey) || isResponding
  }

  /** The send button's `disabled`. */
  predicate SendButtonDisabled(input: string, apiKey: Option<string>, isResponding: bool): (b: bool)
    ensures b <==> AllWhitespace(input) || KeyMissing(apiKey) || isResponding
  {
    TrimEmptyIff(input);
    IsBlank(input) || KeyMissing(apiKey) || isResponding
  }

  /** The button is enabled exactly when a click would send and no reply is
      pending; the send rule itself ignores the pending reply. */
  lemma ButtonEnabledIffSends(input: string, apiKey: Option<string>, isResponding: bool)
    ensures !SendButtonDisabled(input, apiKey, isResponding) <==> Outgoing(input, apiKey).Some? && !isResponding
  {
    TrimEmptyIff(input);
  }

  /** A disabled textarea always comes with a disabled button. */
  lemma TextareaDisabledDisablesButton(input: string, apiKey: Option<string>, isResponding: bool)
    requires TextareaDisabled(apiKey, isResponding)
    ensures SendButtonDisabled(input, apiKey, isResponding)
  {
  }

  /** `e.key === "Enter" && !e.shiftKey` */
  predicate SubmitsOnKey(key: string, shiftKey: bool) {
    key == "Enter" && !shiftKey
  }

  class InputBox {
    var input: string

    constructor ()
      ensures input == ""
    {
      input := "";
    }

    /** The textarea's `onChange`. */
    method Change(value: string)
      modifies this
      ensures input == value
    {
      input := value;
    }

    /** `handleSendMessage`: `sent` is the argument `onSendMessage` is called
        with, `None` when it is not called. After a send the box is empty;
        otherwise it keeps its text. */
    method HandleSendMessage(apiKey: Option<string>) returns (sent: Option<string>)
      modifies this
      ensures sent == Outgoing(old(input), apiKey)
      ensures sent.Some? ==> input == ""
      ensures sent.None? ==> input == old(input)
    {
      if Trim(input) == "" || KeyMissing(apiKey) {
        return None;
      }
      sent := Some(input);
      input := "";
    }

    /** `handleKeyPress`: Enter without Shift prevents the default (a new line)
        and runs the send logic; any other key does nothing. */
    method HandleKeyPress(key: string, shiftKey: bool, apiKey: Option<string>)
      returns (preventDefault: bool, sent: Option<string>)
      modifies this
      ensures preventDefault <==> SubmitsOnKey(key, shiftKey)
      ensures !preventDefault ==> sent.None? && input == old(input)
      ensures preventDefault ==> sent == Outgoing(old(input), apiKey) &&
                                 input == (if sent.Some? then "" else old(input))
    {
      preventDefault := false;
      sent := None;
      if key == "Enter" && !shiftKey {
        preventDefault := true;
        sent := HandleSendMessage(apiKey);
      }
    }
  }
}
