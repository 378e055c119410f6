/** One user interaction with the page: the framework stages the widget
    value, runs the script from the top, and `st.rerun()` runs it again. The
    transitions of the session module are applied in the script's order. */
module Cycle {
  import opened Options
  import opened PyStrip
  import opened Transcript
  import opened ChatSession

  /** A user interaction: the "Clear chat" button, or the "Send" button of
      the input form with the text the widget held and the model to call. */
  datatype Event =
    | ClearChatClicked
    | SendClicked(draft: Draft, invoke: string -> ModelOutcome)

  /** The top of the script, before any widget is drawn: initialise missing
      keys, then apply a pending clear of the draft. */
  function TopOfScript(s: Session): (r: Session)
    ensures !r.clearTextNext
    ensures r.messages == s.messages && r.userProfile == s.userProfile
    ensures s.clearTextNext ==> ShownDraft(r) == ""
    ensures !s.clearTextNext ==> r == s
  {
    InitOnInitialised(s, EmptyStore);
    ApplyPendingClear(Init(ToStore(s)))
  }

  /** One interaction, ending when the script finishes or calls `st.rerun()`
      (which runs the top of the script once more). A form submission first
      writes the widget's value into the draft. */
  function Step(s: Session, ev: Event): (r: Session)
    ensures !r.clearTextNext && r.userProfile == s.userProfile
    ensures ev.ClearChatClicked? ==> r.messages == []
    ensures ev.SendClicked? && !s.clearTextNext && Query(ev.draft) == [] ==>
      r.messages == s.messages && r.text == ev.draft
    ensures ev.SendClicked? && !s.clearTextNext && Query(ev.draft) != [] ==>
      && |r.messages| == |s.messages| + 2
      && r.messages[..|s.messages|] == s.messages
      && r.messages[|s.messages|] == Turn(User, Query(ev.draft))
      && ShownDraft(r) == ""
  {
    match ev
    case ClearChatClicked =>
      TopOfScript(ClearChat(TopOfScript(s)))
    case SendClicked(draft, invoke) =>
      var s1 := TopOfScript(s.(text := draft));
      if Query(s1.text) != [] then TopOfScript(Submit(s1, invoke)) else s1
  }

  /** A sequence of interactions, in order. The profile is never touched, and
      after at least one interaction no clear is pending. */
  function Run(s: Session, evs: seq<Event>): (r: Session)
    ensures r.userProfile == s.userProfile
    ensures evs != [] ==> !r.clearTextNext
    decreases |evs|
  {
    if evs == [] then s else Run(Step(s, evs[0]), evs[1..])
  }

  /** What holds between interactions: the transcript is well formed and no
      clear is pending. */
  predicate Settled(s: Session) {
    WellFormed(s.messages) && !s.clearTextNext
  }

  /** A fresh session is settled. */
  lemma FreshSettled()
    ensures Settled(Init(EmptyStore))
  {
  }

  /** "Clear chat" between interactions empties the transcript and leaves
      the draft, the flag and the profile as they were. */
  lemma StepClearChat(s: Session)
    requires Settled(s)
    ensures var r := Step(s, ClearChatClicked);
      r.messages == [] && r.text == s.text && !r.clearTextNext && r.userProfile == s.userProfile
  {
  }

  /** A blank "Send" keeps the typed draft in the box and changes nothing else. */
  lemma StepBlankSend(s: Session, draft: Draft, invoke: string -> ModelOutcome)
    requires Settled(s) && (draft.None? || AllSpace(draft.value))
    ensures var r := Step(s, SendClicked(draft, invoke));
      r.messages == s.messages && r.text == draft && !r.clearTextNext && r.userProfile == s.userProfile
  {
    BlankQueryIff(draft);
  }

  /** A non-blank "Send" appends exactly one exchange for the stripped draft
      and ends, after the rerun, with an empty input box and no pending clear. */
  lemma StepSend(s: Session, draft: Draft, invoke: string -> ModelOutcome)
    requires Settled(s) && Query(draft) != []
    ensures var r := Step(s, SendClicked(draft, invoke));
      && |r.messages| == |s.messages| + 2
      && r.messages[..|s.messages|] == s.messages
      && r.messages[|s.messages|] == Turn(User, Query(draft))
      && r.messages[|s.messages| + 1] == Turn(Assistant, AnswerText(invoke(Query(draft))))
      && ShownDraft(r) == "" && !r.clearTextNext && r.userProfile == s.userProfile
  {
    var s1 := s.(text := draft);
    assert TopOfScript(s1) == s1;
  }

  /** Every interaction keeps a session settled and its profile unchanged. */
  lemma StepSettled(s: Session, ev: Event)
    requires Settled(s)
    ensures Settled(Step(s, ev)) && Step(s, ev).userProfile == s.userProfile
  {
    match ev
    case ClearChatClicked =>
      StepClearChat(s);
    case SendClicked(draft, invoke) =>
      var s1 := s.(text := draft);
      assert TopOfScript(s1) == s1;
      SubmitKeepsWellFormed(s1, invoke);
  }

  /** Every run from a settled session stays settled and keeps the profile:
      the transcript always alternates user/assistant starting with a user
      turn, has even length, and holds only stripped non-empty queries. */
  lemma {:induction false} RunSettled(s: Session, evs: seq<Event>)
    requires Settled(s)
    ensures Settled(Run(s, evs))
    ensures Run(s, evs).userProfile == s.userProfile
    decreases |evs|
  {
    if evs != [] {
      StepSettled(s, evs[0]);
      RunSettled(Step(s, evs[0]), evs[1..]);
    }
  }
}
