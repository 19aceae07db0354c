/**
 The message composer of the chat window. It holds a draft. Submitting
 forwards the draft only when the trimmed draft is non-empty, and then
 forwards it untrimmed and clears it. The send button is disabled by the
 same test. The composer is only rendered while a contact is active.
 */
module Composer {
  import opened Wrappers
  import opened ChatTypes
  import JsString
  import Conversation

  /** What a submit produces: the text handed to the send handler, if any,
      and the draft left in the input. */
  datatype Submission = Submission(forwarded: Option<string>, draft: string)

  /** The truthiness test `draft.trim()` used by both the submit handler and the button. */
  predicate HasContent(draft: string) {
    JsString.Trim(draft) != ""
  }

  /** The form's submit handler. */
  function Submit(draft: string): (r: Submission)
    ensures JsString.AllWhitespace(draft) ==> r.forwarded == None && r.draft == draft
    ensures !JsString.AllWhitespace(draft) ==> r.forwarded == Some(draft) && r.draft == ""
  {
    if HasContent(draft) then Submission(Some(draft), "") else Submission(None, draft)
  }

  /** The send button's `disabled` attribute: set exactly when a submit
      would forward nothing. */
  function SendDisabled(draft: string): (disabled: bool)
    ensures disabled <==> Submit(draft).forwarded.None?
    ensures disabled <==> JsString.AllWhitespace(draft)
  {
    !HasContent(draft)
  }

  /** Whether the chat window renders the composer at all. */
  predicate ComposerShown(s: Conversation.Store) {
    s.active.Some?
  }

  /** A submit from the chat window at display time `time`, carried through
      to the conversation store: returns the new store and the new draft.
      With no active contact there is no composer, so nothing can be sent. */
  function SubmitDraft(s: Conversation.Store, draft: string, time: string): (r: (Conversation.Store, string))
    ensures !ComposerShown(s) || JsString.AllWhitespace(draft) ==> r == (s, draft)
    ensures ComposerShown(s) && !JsString.AllWhitespace(draft) ==>
      var c := s.active.value;
      && Conversation.History(r.0.messages, c) ==
         Conversation.History(s.messages, c) + [Message(Me, draft, time)]
      && r.0.pending == s.pending + [c]
      && (forall id :: id != c ==> Conversation.History(r.0.messages, id) == Conversation.History(s.messages, id))
      && r.0.contacts == s.contacts && r.0.active == s.active
      && r.1 == ""
  {
    if !ComposerShown(s) then (s, draft)
    else
      var sub := Submit(draft);
      match sub.forwarded
      case None => (s, sub.draft)
      case Some(text) => (Conversation.Send(s, text, time), sub.draft)
  }

  /** The text stored is the draft as typed, surrounding whitespace included:
      submitting " hi " records " hi ", not "hi". */
  lemma DraftNotTrimmed(s: Conversation.Store, time: string)
    requires ComposerShown(s)
    ensures var r := SubmitDraft(s, " hi ", time);
      var h := Conversation.History(r.0.messages, s.active.value);
      h[|h| - 1].text == " hi " && JsString.Trim(" hi ") == "hi"
  {
  }
}
