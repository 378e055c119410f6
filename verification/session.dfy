/** The per-session state of the chat page (`st.session_state`) and the four
    transitions the page script applies to it: initialisation, the pending
    clear of the input draft, the "Clear chat" button, and message submission. */
module ChatSession {
  import opened Options
  import opened PyStrip
  import opened Transcript

  /** The user's profile record `{"name": ..., "email": ...}`. The model keeps
      it only as a field that the chat transitions must leave alone. */
  datatype Profile = Profile(name: string, email: string)

  /** A draft as the text input hands it over: a string, or Python's `None`. */
  type Draft = Option<string>

  /** The raw session store before initialisation: each of the four keys may
      be absent (`None`). */
  datatype Store = Store(
    messages: Option<seq<Turn>>,
    text: Option<Draft>,
    clearTextNext: Option<bool>,
    userProfile: Option<Profile>)

  /** A session store in which all four keys are present. */
  datatype Session = Session(
    messages: seq<Turn>,
    text: Draft,
    clearTextNext: bool,
    userProfile: Profile)

  const GuestProfile := Profile("Guest", "Not provided")

  /** The store of a brand-new browser session: no key set yet. */
  const EmptyStore: Store := Store(None, None, None, None)

  /** The same session seen as a store in which every key is present. */
  function ToStore(s: Session): (st: Store)
    ensures st.messages.Some? && st.text.Some? && st.clearTextNext.Some? && st.userProfile.Some?
  {
    Store(Some(s.messages), Some(s.text), Some(s.clearTextNext), Some(s.userProfile))
  }

  /** The guarded assignments at the top of the script: every key that is
      missing gets its default, every key already present keeps its value. */
  function Init(st: Store): (s: Session)
    ensures st.messages.Some? ==> s.messages == st.messages.value
    ensures st.messages.None? ==> s.messages == []
    ensures st.text.Some? ==> s.text == st.text.value
    ensures st.text.None? ==> s.text == Some("")
    ensures st.clearTextNext.Some? ==> s.clearTextNext == st.clearTextNext.value
    ensures st.clearTextNext.None? ==> !s.clearTextNext
    ensures st.userProfile.Some? ==> s.userProfile == st.userProfile.value
    ensures st.userProfile.None? ==> s.userProfile == GuestProfile
  {
    Session(
      st.messages.GetOr([]),
      st.text.GetOr(Some("")),
      st.clearTextNext.GetOr(false),
      st.userProfile.GetOr(GuestProfile))
  }

  /** A fresh session: empty transcript, empty draft, no pending clear, guest profile. */
  lemma FreshSession()
    ensures Init(EmptyStore) == Session([], Some(""), false, GuestProfile)
  {
  }

  /** Initialising an already initialised session changes nothing, and
      initialisation is idempotent on any store. */
  lemma InitOnInitialised(s: Session, st: Store)
    ensures Init(ToStore(s)) == s
    ensures Init(ToStore(Init(st))) == Init(st)
  {
  }

  /** The pending-clear step, run before the text input is drawn: a set flag
      empties the draft and resets itself; an unset flag changes nothing. */
  function ApplyPendingClear(s: Session): (r: Session)
    ensures !r.clearTextNext
    ensures s.clearTextNext ==> r.text == Some("")
    ensures !s.clearTextNext ==> r == s
    ensures r.messages == s.messages && r.userProfile == s.userProfile
  {
    if s.clearTextNext then s.(text := Some(""), clearTextNext := false) else s
  }

  /** Applying the pending-clear step twice is applying it once. */
  lemma ApplyPendingClearIdempotent(s: Session)
    ensures ApplyPendingClear(ApplyPendingClear(s)) == ApplyPendingClear(s)
  {
  }

  /** The "Clear chat" button: empties the transcript and nothing else. */
  function ClearChat(s: Session): (r: Session)
    ensures r.messages == []
    ensures r.text == s.text && r.clearTextNext == s.clearTextNext && r.userProfile == s.userProfile
  {
    s.(messages := [])
  }

  /** The text the input widget shows when drawn: the draft, with `None`
      shown as an empty box. */
  function ShownDraft(s: Session): string {
    s.text.GetOr("")
  }

  /** What the model call produced: a reply (its `content`), or an exception
      whose `str()` is `detail`. */
  datatype ModelOutcome = Replied(content: string) | Raised(detail: string)

  const ErrorPrefix := "(Error calling model: "
  const ErrorSuffix := ")"

  /** The assistant turn's text: the reply's content, or the error message
      synthesised from the exception. */
  function AnswerText(o: ModelOutcome): (a: string)
    ensures o.Replied? ==> a == o.content
    ensures o.Raised? ==> |a| == |ErrorPrefix| + |o.detail| + |ErrorSuffix|
    ensures o.Raised? ==> a[..|ErrorPrefix|] == ErrorPrefix && a[|a| - |ErrorSuffix|..] == ErrorSuffix
    ensures o.Raised? ==> ErrorDetail(a) == Some(o.detail)
  {
    match o
    case Replied(c) => c
    case Raised(d) => ErrorPrefix + d + ErrorSuffix
  }

  /** Reads the failure detail back out of a synthesised error message. */
  function ErrorDetail(a: string): (d: Option<string>)
    ensures d.Some? ==> a == ErrorPrefix + d.value + ErrorSuffix
    ensures d.None? ==> forall e :: a != ErrorPrefix + e + ErrorSuffix
  {
    if |a| >= |ErrorPrefix| + |ErrorSuffix| && a[..|ErrorPrefix|] == ErrorPrefix
       && a[|a| - |ErrorSuffix|..] == ErrorSuffix
    then
      var d := a[|ErrorPrefix|..|a| - |ErrorSuffix|];
      assert a == ErrorPrefix + d + ErrorSuffix;
      Some(d)
    else
      None
  }

  /** The query that a submission sends: `(text or "").strip()`. */
  function Query(draft: Draft): (q: string)
    ensures draft.None? ==> q == []
    ensures draft.Some? ==> IsStripOf(draft.value, q)
    ensures Trimmed(q)
  {
    StripTrimmed(draft.GetOr(""));
    Strip(draft.GetOr(""))
  }

  /** Pressing "Send". A blank query (empty, all whitespace, or `None`) is
      ignored and the model is not asked. Otherwise the query is appended as
      a user turn, the model is asked with that query alone, its answer (or
      the error it raised, as text) is appended as an assistant turn, and the
      draft is marked to be cleared on the next run. */
  function Submit(s: Session, invoke: string -> ModelOutcome): (r: Session)
    ensures r.text == s.text && r.userProfile == s.userProfile
    ensures Query(s.text) == [] ==> r == s
    ensures Query(s.text) != [] ==>
      && r.clearTextNext
      && |r.messages| == |s.messages| + 2
      && r.messages[..|s.messages|] == s.messages
      && r.messages[|s.messages|] == Turn(User, Query(s.text))
      && r.messages[|s.messages| + 1] == Turn(Assistant, AnswerText(invoke(Query(s.text))))
  {
    var query := Query(s.text);
    if query == [] then
      s
    else
      var answer := AnswerText(invoke(query));
      s.(messages := s.messages + Exchange(query, answer), clearTextNext := true)
  }

  /** A blank submission consumes no model outcome: whatever the model would
      have said, the session is the same. */
  lemma BlankSubmitIgnoresModel(s: Session, f: string -> ModelOutcome, g: string -> ModelOutcome)
    requires s.text.None? || AllSpace(s.text.value)
    ensures Submit(s, f) == Submit(s, g) == s
  {
    BlankQueryIff(s.text);
  }

  /** The draft is blank exactly when it is `None` or all whitespace. */
  lemma BlankQueryIff(draft: Draft)
    ensures Query(draft) == [] <==> draft.None? || AllSpace(draft.value)
  {
    if draft.Some? {
      StripEmptyIffAllSpace(draft.value);
    }
  }

  /** The model is asked with the latest query only, never with the earlier
      transcript: changing what the model would answer to any other prompt
      leaves the session the same. */
  lemma SubmitAsksOnlyQuery(s: Session, f: string -> ModelOutcome, other: string -> ModelOutcome)
    ensures Submit(s, f) == Submit(s, q => if q == Query(s.text) then f(q) else other(q))
  {
  }

  /** The stored user turn is the stripped draft: non-empty, no leading or
      trailing whitespace, and stripping it again changes nothing. */
  lemma SubmittedQueryStripped(s: Session, invoke: string -> ModelOutcome)
    requires Query(s.text) != []
    ensures var u := Submit(s, invoke).messages[|s.messages|];
      u.role == User && u.content != [] && Trimmed(u.content) && Strip(u.content) == u.content
  {
    StripOfTrimmed(Query(s.text));
  }

  /** A model failure with detail `d` is swallowed into the transcript: the
      submission completes, the answer reads "(Error calling model: d)", and
      the draft is still marked to be cleared. */
  lemma SubmitRecordsFailure(s: Session, invoke: string -> ModelOutcome, d: string)
    requires Query(s.text) != [] && invoke(Query(s.text)) == Raised(d)
    ensures var r := Submit(s, invoke);
      && r.clearTextNext
      && r.messages[|r.messages| - 1] == Turn(Assistant, "(Error calling model: " + d + ")")
      && ErrorDetail(r.messages[|r.messages| - 1].content) == Some(d)
  {
  }

  /** A submission keeps the transcript well formed. */
  lemma SubmitKeepsWellFormed(s: Session, invoke: string -> ModelOutcome)
    requires WellFormed(s.messages)
    ensures WellFormed(Submit(s, invoke).messages)
  {
    var query := Query(s.text);
    if query != [] {
      AppendExchangeWellFormed(s.messages, query, AnswerText(invoke(query)));
    }
  }

  /** After a non-blank submission the next pending-clear step empties the
      input, whatever the draft held. */
  lemma SubmitThenClearEmptiesInput(s: Session, invoke: string -> ModelOutcome)
    requires Query(s.text) != []
    ensures ShownDraft(ApplyPendingClear(Submit(s, invoke))) == ""
    ensures !ApplyPendingClear(Submit(s, invoke)).clearTextNext
  {
  }

  /** Clearing the chat empties the transcript, which is then well formed. */
  lemma ClearChatWellFormed(s: Session)
    ensures WellFormed(ClearChat(s).messages)
    ensures ClearChat(ClearChat(s)) == ClearChat(s)
  {
  }
}
