/**
 * The waitlist form of the landing page (`Home` in app/page.tsx): four
 * pieces of local state, the keystroke binding of the email input, and the
 * submit handler that inserts the email into the remote `waitlist` table.
 *
 * The remote insert is not modelled; what it reports back is an `Outcome`
 * that the caller supplies. The handler is split at its one `await`:
 * `Begin` is the synchronous part before it, `Complete` the part after it
 * (the `try` tail, the `catch` and the `finally`).
 */
module Waitlist {

  datatype Option<T> = None | Some(value: T)

  /** One row of the remote `waitlist` table. */
  datatype Entry = Entry(email: string)

  /** What the remote insert reports: acknowledged, or an error whose `message` may be missing. */
  datatype Outcome = Ok | Err(message: Option<string>)

  /** The message shown when the error carries no (or an empty) message. */
  const Fallback: string := "Failed to join waitlist. Please try again."

  /** The paragraph shown once an insert has been acknowledged. */
  const ThankYou: string := "Thank you for joining our waitlist!"

  /** The four `useState` fields of `Home`; `error == None` is JavaScript's `null`. */
  datatype State = State(email: string, isSubmitted: bool, isSubmitting: bool, error: Option<string>)

  /** Every field at its `useState` initial value. */
  const Initial: State := State("", false, false, None)

  /** JavaScript truthiness of an optional string: present and non-empty. */
  predicate Truthy(m: Option<string>)
  {
    m.Some? && m.value != ""
  }

  /**
   * The invariant every reachable state keeps: while an insert is in
   * flight the email is non-empty and no error is shown, and an error,
   * once shown, is never the empty string.
   */
  predicate Consistent(s: State)
  {
    && (s.isSubmitting ==> s.email != "" && s.error == None)
    && (s.error.Some? ==> s.error.value != "")
  }

  /** The email input and the submit button are enabled exactly when no insert is in flight. */
  predicate ControlsEnabled(s: State)
  {
    !s.isSubmitting
  }

  /** `err.message || Fallback`: the error's own message unless it is missing or empty. */
  function FailureMessage(message: Option<string>): (r: string)
    ensures r != ""
    ensures Truthy(message) ==> r == message.value
    ensures !Truthy(message) ==> r == Fallback
  {
    if Truthy(message) then message.value else Fallback
  }

  /** The input's `onChange`: the field takes the typed text and nothing else changes. */
  function OnChange(s: State, text: string): (r: State)
    requires ControlsEnabled(s)
    ensures r.email == text
    ensures r.isSubmitted == s.isSubmitted && r.isSubmitting == s.isSubmitting && r.error == s.error
    ensures Consistent(s) ==> Consistent(r)
  {
    s.(email := text)
  }

  /**
   * The handler up to its `await`: with an empty email nothing changes and
   * no insert is issued; otherwise the attempt starts, the previous error
   * is cleared and an insert of the current email is issued.
   */
  function StartAttempt(s: State): (r: (State, Option<Entry>))
    requires ControlsEnabled(s)
    ensures s.email == "" ==> r.0 == s && r.1 == None
    ensures s.email != "" ==> r.1 == Some(Entry(s.email))
    ensures s.email != "" ==> r.0.isSubmitting && r.0.error == None
    ensures r.0.email == s.email && r.0.isSubmitted == s.isSubmitted
    ensures Consistent(s) ==> Consistent(r.0)
  {
    if s.email == "" then (s, None)
    else (s.(isSubmitting := true).(error := None), Some(Entry(s.email)))
  }

  /**
   * The handler after its `await`: an acknowledged insert marks the form
   * submitted and clears the input; a failed one keeps the input and shows
   * a non-empty message; either way the attempt is over.
   */
  function FinishAttempt(s: State, outcome: Outcome): (r: State)
    requires s.isSubmitting
    ensures !r.isSubmitting
    ensures r.isSubmitted == (s.isSubmitted || outcome.Ok?)
    ensures outcome.Ok? ==> r.email == "" && r.error == s.error
    ensures outcome.Err? ==> r.email == s.email && r.error == Some(FailureMessage(outcome.message))
    ensures outcome.Err? ==> Truthy(r.error)
    ensures Consistent(s) ==> Consistent(r)
  {
    match outcome
    case Ok => s.(isSubmitted := true).(email := "").(isSubmitting := false)
    case Err(message) => s.(error := Some(FailureMessage(message))).(isSubmitting := false)
  }

  /**
   * The whole handler for one click, given what the insert reports: the
   * guard, the start of the attempt and its end composed.
   */
  function HandleSubmit(s: State, outcome: Outcome): (r: State)
    requires ControlsEnabled(s)
    ensures s.email == "" ==> r == s
    ensures s.email != "" && outcome.Ok? ==> r == State("", true, false, None)
    ensures s.email != "" && outcome.Err? ==>
      && r.email == s.email && r.isSubmitted == s.isSubmitted && !r.isSubmitting
      && r.error == Some(FailureMessage(outcome.message))
    ensures s.email != "" && outcome.Err? && Truthy(outcome.message) ==> r.error == outcome.message
    ensures s.email != "" && outcome.Err? && !Truthy(outcome.message) ==> r.error == Some(Fallback)
    ensures s.isSubmitted ==> r.isSubmitted
    ensures Consistent(s) ==> Consistent(r)
  {
    var (started, entry) := StartAttempt(s);
    if entry == None then started else FinishAttempt(started, outcome)
  }

  /**
   * The feedback paragraphs under the form: the thank-you line while
   * `isSubmitted`, then the error while it is truthy; both may show.
   */
  function Messages(s: State): (r: seq<string>)
    ensures |r| == (if s.isSubmitted then 1 else 0) + (if Truthy(s.error) then 1 else 0)
    ensures s.isSubmitted ==> r[0] == ThankYou
    ensures Truthy(s.error) ==> r[|r| - 1] == s.error.value
    ensures !s.isSubmitted && !Truthy(s.error) ==> r == []
  {
    (if s.isSubmitted then [ThankYou] else []) + (if Truthy(s.error) then [s.error.value] else [])
  }

  /** The form component: its four state fields, updated in place by its handlers. */
  class Home {
    var email: string
    var isSubmitted: bool
    var isSubmitting: bool
    var error: Option<string>

    /** The current value of the four fields. */
    function Snapshot(): State
      reads this
    {
      State(email, isSubmitted, isSubmitting, error)
    }

    ghost predicate Valid()
      reads this
    {
      Consistent(Snapshot())
    }

    constructor ()
      ensures Valid() && Snapshot() == Initial
    {
      email := "";
      isSubmitted := false;
      isSubmitting := false;
      error := None;
    }

    /** A keystroke in the (enabled) email input. */
    method Edit(text: string)
      requires Valid() && ControlsEnabled(Snapshot())
      modifies this
      ensures Valid() && Snapshot() == OnChange(old(Snapshot()), text)
    {
      email := text;
    }

    /**
     * A click on the (enabled) submit button, up to the `await`; returns
     * the row the insert is issued for, or `None` when nothing is sent.
     */
    method Begin() returns (entry: Option<Entry>)
      requires Valid() && ControlsEnabled(Snapshot())
      modifies this
      ensures Valid() && (Snapshot(), entry) == StartAttempt(old(Snapshot()))
    {
      if email == "" {
        return None;
      }
      isSubmitting := true;
      error := None;
      entry := Some(Entry(email));
    }

    /** The insert has reported back: the `try` tail or the `catch`, then the `finally`. */
    method Complete(outcome: Outcome)
      requires Valid() && isSubmitting
      modifies this
      ensures Valid() && Snapshot() == FinishAttempt(old(Snapshot()), outcome)
    {
      if outcome.Ok? {
        isSubmitted := true;
        email := "";
      } else {
        error := Some(FailureMessage(outcome.message));
      }
      isSubmitting := false;
    }
  }

  /** The user types "a@b.com", submits, and the store acknowledges. */
  method AcknowledgedScenario() returns (sent: Option<Entry>, shown: seq<string>, field: string)
    ensures sent == Some(Entry("a@b.com"))
    ensures shown == [ThankYou] && field == ""
  {
    var home := new Home();
    home.Edit("a@b.com");
    sent := home.Begin();
    home.Complete(Ok);
    shown := Messages(home.Snapshot());
    field := home.email;
  }

  /** The user types "bad", submits, and the store rejects it with "duplicate email". */
  method RejectedScenario() returns (sent: Option<Entry>, shown: seq<string>, field: string, busy: bool)
    ensures sent == Some(Entry("bad"))
    ensures shown == ["duplicate email"] && field == "bad" && !busy
  {
    var home := new Home();
    home.Edit("bad");
    sent := home.Begin();
    home.Complete(Err(Some("duplicate email")));
    shown := Messages(home.Snapshot());
    field := home.email;
    busy := home.isSubmitting;
  }

  /** Submitting with the field still empty sends nothing and changes nothing. */
  method EmptyScenario() returns (sent: Option<Entry>, after: State)
    ensures sent == None && after == Initial
  {
    var home := new Home();
    sent := home.Begin();
    after := home.Snapshot();
  }

  // ---------------------------------------------------------------------
  // A page session as a sequence of user and network events.
  // ---------------------------------------------------------------------

  /** A keystroke, a click on the submit button, or the insert reporting back. */
  datatype Event = Type(text: string) | Click | Reply(outcome: Outcome)

  /** The form state, every insert issued so far, and how many of them have reported back. */
  datatype Session = Session(state: State, inserts: seq<Entry>, replies: nat)

  const Fresh: Session := Session(Initial, [], 0)

  /**
   * One event. A disabled control delivers nothing, and a reply can only
   * arrive for the insert in flight.
   */
  function Step(ss: Session, e: Event): (r: Session)
    ensures !e.Reply? && !ControlsEnabled(ss.state) ==> r == ss
    ensures e.Reply? && !ss.state.isSubmitting ==> r == ss
    ensures e.Reply? && ss.state.isSubmitting ==> r.replies == ss.replies + 1 && !r.state.isSubmitting
    ensures e.Click? && ControlsEnabled(ss.state) && ss.state.email != "" ==>
      r.inserts == ss.inserts + [Entry(ss.state.email)]
    ensures !(e.Click? && ControlsEnabled(ss.state) && ss.state.email != "") ==> r.inserts == ss.inserts
    ensures ss.replies <= r.replies <= ss.replies + 1
  {
    match e
    case Type(text) =>
      if ControlsEnabled(ss.state) then ss.(state := OnChange(ss.state, text)) else ss
    case Click =>
      if ControlsEnabled(ss.state) then
        var (started, entry) := StartAttempt(ss.state);
        if entry.Some? then Session(started, ss.inserts + [entry.value], ss.replies)
        else ss.(state := started)
      else ss
    case Reply(outcome) =>
      if ss.state.isSubmitting then Session(FinishAttempt(ss.state, outcome), ss.inserts, ss.replies + 1)
      else ss
  }

  /** The session after the events, the last one applied last. */
  function Run(ss: Session, events: seq<Event>): Session
    decreases |events|
  {
    if events == [] then ss else Step(Run(ss, events[..|events| - 1]), events[|events| - 1])
  }

  /**
   * The single-flight property and its companions: the form state is
   * consistent, at most one insert is unanswered and that happens exactly
   * while `isSubmitting`, the unanswered insert carries the email still in
   * the field, and no insert was ever issued for an empty email.
   */
  predicate SessionInvariant(ss: Session)
  {
    && Consistent(ss.state)
    && |ss.inserts| == ss.replies + (if ss.state.isSubmitting then 1 else 0)
    && (ss.state.isSubmitting ==> ss.inserts[|ss.inserts| - 1] == Entry(ss.state.email))
    && (forall k :: 0 <= k < |ss.inserts| ==> ss.inserts[k].email != "")
  }

  lemma StepKeepsInvariant(ss: Session, e: Event)
    requires SessionInvariant(ss)
    ensures SessionInvariant(Step(ss, e))
  {
    match e
    case Type(text) =>
    case Click =>
      if ControlsEnabled(ss.state) && ss.state.email != "" {
        var next := Step(ss, e);
        assert next.inserts == ss.inserts + [Entry(ss.state.email)];
        assert forall k :: 0 <= k < |next.inserts| ==> next.inserts[k].email != "" by {
          forall k | 0 <= k < |next.inserts|
            ensures next.inserts[k].email != ""
          {
            if k < |ss.inserts| { assert next.inserts[k] == ss.inserts[k]; }
          }
        }
      }
    case Reply(outcome) =>
  }

  /** Every session reachable from a fresh page keeps `SessionInvariant`. */
  lemma {:induction false} RunKeepsInvariant(ss: Session, events: seq<Event>)
    requires SessionInvariant(ss)
    ensures SessionInvariant(Run(ss, events))
    decreases |events|
  {
    if events != [] {
      RunKeepsInvariant(ss, events[..|events| - 1]);
      StepKeepsInvariant(Run(ss, events[..|events| - 1]), events[|events| - 1]);
    }
  }

  /** From a fresh page, never more than one insert is awaiting its reply. */
  lemma SingleFlight(events: seq<Event>)
    ensures Run(Fresh, events).replies <= |Run(Fresh, events).inserts| <= Run(Fresh, events).replies + 1
    ensures Run(Fresh, events).state.isSubmitting <==> |Run(Fresh, events).inserts| == Run(Fresh, events).replies + 1
  {
    RunKeepsInvariant(Fresh, events);
  }

  /** Once `isSubmitted` is true, no sequence of events resets it. */
  lemma {:induction false} SubmittedNeverReset(ss: Session, events: seq<Event>)
    requires ss.state.isSubmitted
    ensures Run(ss, events).state.isSubmitted
    decreases |events|
  {
    if events != [] {
      SubmittedNeverReset(ss, events[..|events| - 1]);
    }
  }

  /**
   * `isSubmitted` becomes true only through an acknowledgement that answers
   * an insert in flight: some `Reply(Ok)` arrives while `isSubmitting`, and
   * at that moment exactly one insert is awaiting its reply.
   */
  lemma {:induction false} SubmittedOnlyAfterAck(ss: Session, events: seq<Event>)
    requires SessionInvariant(ss)
    requires !ss.state.isSubmitted && Run(ss, events).state.isSubmitted
    ensures exists k :: (0 <= k < |events| && events[k] == Reply(Ok) && Run(ss, events[..k]).state.isSubmitting
                         && |Run(ss, events[..k]).inserts| == Run(ss, events[..k]).replies + 1)
    decreases |events|
  {
    var init := events[..|events| - 1];
    var last := events[|events| - 1];
    RunKeepsInvariant(ss, init);
    if Run(ss, init).state.isSubmitted {
      SubmittedOnlyAfterAck(ss, init);
      var k :| (0 <= k < |init| && init[k] == Reply(Ok) && Run(ss, init[..k]).state.isSubmitting
                && |Run(ss, init[..k]).inserts| == Run(ss, init[..k]).replies + 1);
      assert init[..k] == events[..k];
      assert events[k] == Reply(Ok);
    } else {
      assert last == Reply(Ok) && Run(ss, init).state.isSubmitting;
      assert events[..|events| - 1] == init;
    }
  }

  /** After any reply, whatever came before and whatever it reports, no attempt is in flight. */
  lemma SettledAfterReply(ss: Session, events: seq<Event>, outcome: Outcome)
    ensures !Run(ss, events + [Reply(outcome)]).state.isSubmitting
  {
    var all := events + [Reply(outcome)];
    assert all[..|all| - 1] == events;
  }

  /**
   * A click after a failed attempt clears the old error at once, before
   * its own insert reports back.
   */
  lemma RetryClearsError(ss: Session, events: seq<Event>)
    requires SessionInvariant(ss)
    requires Run(ss, events).state.error.Some? && Run(ss, events).state.email != ""
    ensures Run(ss, events + [Click]).state.error == None
    ensures Run(ss, events + [Click]).state.isSubmitting
  {
    RunKeepsInvariant(ss, events);
    var all := events + [Click];
    assert all[..|all| - 1] == events;
  }
}
