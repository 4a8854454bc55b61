/**
 * The message composer (`ChatInput`): the draft text, the emotion picked
 * for the next message and whether the picker is open. A send hands the
 * trimmed draft and the picked emotion to the page and clears both.
 */
module Composer {
  import opened Wrappers
  import opened Text
  import opened Emotions

  /** What `onSendMessage` receives: the trimmed text and the emotion, if one is picked. */
  datatype Outgoing = Outgoing(text: string, emotion: Option<Emotion>)

  /**
   * The send button's test `!message.trim() || disabled`, negated: enabled
   * exactly when the draft holds some non-whitespace character and the
   * input is not disabled.
   */
  function SendEnabled(message: string, disabled: bool): (enabled: bool)
    ensures enabled <==> !disabled && exists i :: 0 <= i < |message| && !IsWhitespace(message[i])
  {
    Trim(message) != [] && !disabled
  }

  /**
   * What a send hands over for a draft: nothing when the draft is blank,
   * otherwise the draft without its surrounding whitespace, which is then
   * non-empty and neither starts nor ends with whitespace, and the
   * selected emotion as it is.
   */
  function Submission(message: string, selected: Option<Emotion>): (out: Option<Outgoing>)
    ensures out.None? <==> AllWhitespace(message)
    ensures out.Some? ==> out.value.emotion == selected
    ensures out.Some? ==> out.value.text != [] && out.value.text == Trim(message)
                          && !IsWhitespace(out.value.text[0]) && !IsWhitespace(out.value.text[|out.value.text| - 1])
    ensures out.Some? ==> forall i :: 0 <= i < |out.value.text| ==> out.value.text[i] == message[SkipLeading(message, 0) + i]
  {
    var text := Trim(message);
    if text == [] then None else Some(Outgoing(text, selected))
  }

  /** The picker's choice: picking the selected emotion unselects it, picking another selects that one. */
  function NextSelection(current: Option<Emotion>, picked: Emotion): (next: Option<Emotion>)
    ensures next.None? <==> current == Some(picked)
    ensures next.Some? ==> next.value == picked
  {
    if current == Some(picked) then None else Some(picked)
  }

  /** Picking the same emotion twice returns to where it started exactly when it started unselected or on that emotion. */
  lemma NextSelectionTwice(current: Option<Emotion>, picked: Emotion)
    ensures NextSelection(NextSelection(current, picked), picked) == current <==> current.None? || current == Some(picked)
  {
  }

  /** The banner above the input: shown only while an emotion is selected, carrying its picker label. */
  function EmotionBanner(selected: Option<Emotion>): (banner: Option<string>)
    ensures banner.None? <==> selected.None?
    ensures selected.Some? ==> banner.value == Initial(Key(selected.value)) + Key(selected.value)[1..]
  {
    match selected
    case None => None
    case Some(e) => ChoiceLabel(e)
  }

  class ChatInput {
    var message: string
    var selectedEmotion: Option<Emotion>
    var showEmotions: bool
    const disabled: bool

    /** An empty draft, nothing picked, the picker closed. */
    constructor (disabled: bool)
      ensures message == [] && selectedEmotion.None? && !showEmotions && this.disabled == disabled
    {
      message := [];
      selectedEmotion := None;
      showEmotions := false;
      this.disabled := disabled;
    }

    /** The textarea's `onChange`. */
    method SetMessage(text: string)
      modifies this
      ensures message == text
      ensures selectedEmotion == old(selectedEmotion) && showEmotions == old(showEmotions)
    {
      message := text;
    }

    /**
     * `handleSend`: a blank draft sends nothing and changes nothing;
     * otherwise the submission is handed over and the draft and the
     * selection are cleared.
     */
    method HandleSend() returns (sent: Option<Outgoing>)
      modifies this
      ensures sent == Submission(old(message), old(selectedEmotion))
      ensures sent.None? ==> message == old(message) && selectedEmotion == old(selectedEmotion)
      ensures sent.Some? ==> message == [] && selectedEmotion.None?
      ensures showEmotions == old(showEmotions)
    {
      sent := Submission(message, selectedEmotion);
      if sent.Some? {
        message := [];
        selectedEmotion := None;
      }
    }

    /** `handleKeyPress`: Enter without Shift sends; any other key, or Shift+Enter, does nothing here. */
    method HandleKeyPress(key: string, shiftKey: bool) returns (sent: Option<Outgoing>)
      modifies this
      ensures key == "Enter" && !shiftKey ==> sent == Submission(old(message), old(selectedEmotion))
                                              && (sent.Some? ==> message == [] && selectedEmotion.None?)
                                              && (sent.None? ==> message == old(message) && selectedEmotion == old(selectedEmotion))
      ensures !(key == "Enter" && !shiftKey) ==> sent.None? && message == old(message) && selectedEmotion == old(selectedEmotion)
      ensures showEmotions == old(showEmotions)
    {
      if key == "Enter" && !shiftKey {
        sent := HandleSend();
      } else {
        sent := None;
      }
    }

    /** `handleEmotionSelect`: toggles the picked emotion and closes the picker. */
    method HandleEmotionSelect(picked: Emotion)
      modifies this
      ensures selectedEmotion == NextSelection(old(selectedEmotion), picked)
      ensures !showEmotions && message == old(message)
    {
      selectedEmotion := NextSelection(selectedEmotion, picked);
      showEmotions := false;
    }

    /** The smiley button opens or closes the picker. */
    method ToggleEmotions()
      modifies this
      ensures showEmotions == !old(showEmotions)
      ensures message == old(message) && selectedEmotion == old(selectedEmotion)
    {
      showEmotions := !showEmotions;
    }

    /** The banner's close button drops the selection. */
    method ClearEmotion()
      modifies this
      ensures selectedEmotion.None?
      ensures message == old(message) && showEmotions == old(showEmotions)
    {
      selectedEmotion := None;
    }
  }
}
