/**
 * The contact page's form: four controlled fields, a submitting flag and a
 * status. Submitting is simulated: a two-second timer reports success and
 * clears the fields, and a five-second timer after that hides the banner.
 * The timers are explicit pending events; any pending timer may fire next.
 */
module ContactForm {

  datatype Field = Name | Email | Subject | Message

  datatype FormData = FormData(name: string, email: string, subject: string, message: string)

  const EmptyForm := FormData("", "", "", "")

  /** The value shown in one field. */
  function Get(data: FormData, field: Field): string {
    match field
    case Name => data.name
    case Email => data.email
    case Subject => data.subject
    case Message => data.message
  }

  /** `{...formData, [field]: value}`: one field replaced, the others kept. */
  function Set(data: FormData, field: Field, value: string): (r: FormData)
    ensures Get(r, field) == value
    ensures forall other :: other != field ==> Get(r, other) == Get(data, other)
  {
    match field
    case Name => data.(name := value)
    case Email => data.(email := value)
    case Subject => data.(subject := value)
    case Message => data.(message := value)
  }

  /** `'error'` is part of the declared status type. */
  datatype Status = Idle | Success | Error

  /** The two callbacks the submission schedules: after 2 s, and then after 5 s more. */
  datatype Timer = ShowResult | ResetStatus

  datatype FormState = FormState(data: FormData, submitting: bool, status: Status, pending: seq<Timer>)

  function Initial(): (s: FormState)
    ensures s.data == EmptyForm && !s.submitting && s.status == Idle && s.pending == []
  {
    FormState(EmptyForm, false, Idle, [])
  }

  /**
   * Every spinner ends and every banner goes away: while submitting a result
   * timer is pending, and while the banner shows a reset timer is pending.
   */
  predicate Valid(s: FormState) {
    && (s.submitting ==> ShowResult in s.pending)
    && (s.status == Success ==> ResetStatus in s.pending)
  }

  // ---------------------------------------------------------------------------
  // Handlers
  // ---------------------------------------------------------------------------

  /** `handleChange`: only the named field takes the new value. */
  function Changed(s: FormState, field: Field, value: string): (r: FormState)
    ensures Get(r.data, field) == value
    ensures forall other :: other != field ==> Get(r.data, other) == Get(s.data, other)
    ensures r.submitting == s.submitting && r.status == s.status && r.pending == s.pending
  {
    s.(data := Set(s.data, field, value))
  }

  /** `handleSubmit`: the flag goes up and the result timer is scheduled; fields and status stay. */
  function Submitted(s: FormState): (r: FormState)
    ensures r.submitting && r.data == s.data && r.status == s.status
    ensures multiset(r.pending) == multiset(s.pending) + multiset{ShowResult}
  {
    s.(submitting := true, pending := s.pending + [ShowResult])
  }

  /** `pending` without its `k`-th entry. */
  function Without(pending: seq<Timer>, k: nat): (r: seq<Timer>)
    requires k < |pending|
    ensures multiset(r) == multiset(pending) - multiset{pending[k]}
  {
    assert pending == pending[..k] + [pending[k]] + pending[k + 1..];
    pending[..k] + pending[k + 1..]
  }

  /**
   * The `k`-th pending timer fires. The result timer lowers the flag, shows
   * success, empties the fields and schedules the reset; the reset timer
   * puts the status back to idle.
   */
  function Fired(s: FormState, k: nat): (r: FormState)
    requires k < |s.pending|
    ensures s.pending[k] == ShowResult ==>
      && !r.submitting && r.status == Success && r.data == EmptyForm
      && multiset(r.pending) == multiset(s.pending) - multiset{ShowResult} + multiset{ResetStatus}
    ensures s.pending[k] == ResetStatus ==>
      && r.submitting == s.submitting && r.status == Idle && r.data == s.data
      && multiset(r.pending) == multiset(s.pending) - multiset{ResetStatus}
  {
    var rest := Without(s.pending, k);
    match s.pending[k]
    case ShowResult => s.(submitting := false, status := Success, data := EmptyForm, pending := rest + [ResetStatus])
    case ResetStatus => s.(status := Idle, pending := rest)
  }

  // ---------------------------------------------------------------------------
  // What the page shows
  // ---------------------------------------------------------------------------

  /** `disabled={isSubmitting}`. */
  predicate ButtonDisabled(s: FormState) {
    s.submitting
  }

  /** `submitStatus === 'success' && ...`. */
  predicate BannerShown(s: FormState) {
    s.status == Success
  }

  // ---------------------------------------------------------------------------
  // Runs of events
  // ---------------------------------------------------------------------------

  /** Typing into a field, pressing the submit button, or a pending timer firing. */
  datatype Event = Change(field: Field, value: string) | Submit | Fire(k: nat)

  /** One event. A disabled button sends no submit, and a timer that is not pending does not fire. */
  function Step(s: FormState, e: Event): (r: FormState)
    requires Valid(s)
    ensures Valid(r)
    ensures r.status != Error || s.status == Error
  {
    match e
    case Change(field, value) => Changed(s, field, value)
    case Submit => if ButtonDisabled(s) then s else Submitted(s)
    case Fire(k) =>
      if k < |s.pending| then
        var r := Fired(s, k);
        assert ShowResult in multiset(r.pending) || !r.submitting;
        assert ResetStatus in multiset(r.pending) || r.status != Success;
        r
      else s
  }

  function Replay(s: FormState, events: seq<Event>): (r: FormState)
    requires Valid(s)
    ensures Valid(r)
    decreases |events|
  {
    if events == [] then s else Replay(Step(s, events[0]), events[1..])
  }

  /** No run of events ever sets the status to `'error'`. */
  lemma {:induction false} NeverError(s: FormState, events: seq<Event>)
    requires Valid(s) && s.status != Error
    ensures Replay(s, events).status != Error
    decreases |events|
  {
    if events != [] {
      NeverError(Step(s, events[0]), events[1..]);
    }
  }

  /** Nor does any run from the page's first render. */
  lemma ErrorUnreachable(events: seq<Event>)
    ensures Replay(Initial(), events).status != Error
  {
    NeverError(Initial(), events);
  }

  /** While submitting, another press of the button does nothing. */
  lemma NoDoubleSubmit(s: FormState)
    requires Valid(s) && s.submitting
    ensures Step(s, Submit) == s
  {
  }

  /**
   * The full cycle: from a settled form, a submit, then its result timer,
   * then the reset timer give back an idle, empty, settled form.
   */
  lemma SubmitCycle(s: FormState)
    requires s.pending == [] && !s.submitting && s.status != Success
    ensures var submitted := Step(s, Submit);
            var shown := Step(submitted, Fire(0));
            var reset := Step(shown, Fire(0));
            && ButtonDisabled(submitted) && !BannerShown(submitted) && submitted.data == s.data
            && !ButtonDisabled(shown) && BannerShown(shown) && shown.data == EmptyForm
            && reset == FormState(EmptyForm, false, Idle, [])
  {
    var submitted := Step(s, Submit);
    assert submitted.pending == [ShowResult];
    var shown := Step(submitted, Fire(0));
    assert shown.pending == [ResetStatus];
  }

  /** Whether `e` fires a pending result timer. */
  predicate FiresResult(s: FormState, e: Event) {
    e.Fire? && e.k < |s.pending| && s.pending[e.k] == ShowResult
  }

  /** Whether a result timer fires somewhere along the run. */
  predicate ResultFires(s: FormState, events: seq<Event>)
    requires Valid(s)
    decreases |events|
  {
    events != [] && (FiresResult(s, events[0]) || ResultFires(Step(s, events[0]), events[1..]))
  }

  /** Only a result timer lowers the flag: typing, a disabled press and a reset timer keep it up. */
  lemma StaysDisabled(s: FormState, e: Event)
    requires Valid(s) && s.submitting && !FiresResult(s, e)
    ensures ButtonDisabled(Step(s, e))
  {
  }

  /**
   * The button stays disabled until a result timer fires, even when a reset
   * timer left over from an earlier submission fires in between.
   */
  lemma {:induction false} DisabledUntilResult(s: FormState, events: seq<Event>)
    requires Valid(s) && s.submitting && !ResultFires(s, events)
    ensures ButtonDisabled(Replay(s, events))
    decreases |events|
  {
    if events != [] {
      StaysDisabled(s, events[0]);
      DisabledUntilResult(Step(s, events[0]), events[1..]);
    }
  }

  /** A reset timer from the previous submission may fire while the next one is running. */
  lemma ResetDuringSubmission(s: FormState)
    requires s.pending == [] && !s.submitting && s.status != Success
    ensures var shown := Step(Step(s, Submit), Fire(0));
            var again := Step(shown, Submit);
            var reset := Step(again, Fire(0));
            && again.pending == [ResetStatus, ShowResult]
            && ButtonDisabled(reset) && reset.status == Idle && reset.pending == [ShowResult]
  {
    var submitted := Step(s, Submit);
    assert submitted.pending == [ShowResult];
    var shown := Step(submitted, Fire(0));
    assert shown.pending == [ResetStatus];
    var again := Step(shown, Submit);
    assert again.pending == [ResetStatus, ShowResult];
    var reset := Step(again, Fire(0));
    assert reset.pending == [ShowResult];
  }

  // ---------------------------------------------------------------------------
  // The component's state, updated in place
  // ---------------------------------------------------------------------------

  class ContactPage {
    var formData: FormData
    var isSubmitting: bool
    var submitStatus: Status
    var pending: seq<Timer>

    function Snapshot(): FormState
      reads this
    {
      FormState(formData, isSubmitting, submitStatus, pending)
    }

    constructor()
      ensures Snapshot() == Initial()
    {
      formData, isSubmitting, submitStatus, pending := EmptyForm, false, Idle, [];
    }

    method HandleChange(field: Field, value: string)
      modifies this
      ensures Snapshot() == Changed(old(Snapshot()), field, value)
    {
      formData := Set(formData, field, value);
    }

    method HandleSubmit()
      modifies this
      ensures Snapshot() == Submitted(old(Snapshot()))
    {
      isSubmitting := true;
      pending := pending + [ShowResult];
    }

    /** Runs the `k`-th pending timer's callback. */
    method FireTimer(k: nat)
      requires k < |pending|
      modifies this
      ensures Snapshot() == Fired(old(Snapshot()), k)
    {
      var timer := pending[k];
      pending := Without(pending, k);
      match timer
      case ShowResult =>
        isSubmitting := false;
        submitStatus := Success;
        formData := EmptyForm;
        pending := pending + [ResetStatus];
      case ResetStatus =>
        submitStatus := Idle;
    }
  }
}
