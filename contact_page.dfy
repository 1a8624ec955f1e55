/** The contact-form controller of src/app/contact/page.tsx.

    The page holds one record, `data`: five text fields bound to the form's
    inputs and three display fields (`sent`, `buttonText`, `err`). It is
    replaced as a whole by `handleChange`, by the `setData` calls of
    `formSubmit`, and by `resetForm`. The record is a datatype; the held state
    is the field `data` of the class `ContactForm`. The awaited gateway call is
    one atomic step whose outcome is a parameter. */
module ContactPage {
  import opened Wrappers
  import opened ContactApi

  /** The five text fields; the form's inputs are named after them. */
  datatype FieldName = FName | LName | Tel | Email | Message

  datatype FormData = FormData(
    fname: string,
    lname: string,
    tel: string,
    email: string,
    message: string,
    sent: bool,
    buttonText: string,
    err: string)

  const SubmitLabel: string := "Submit"
  const SendingLabel: string := "Sending..."
  const SentLabel: string := "Sent"
  const FailedLabel: string := "Failed to send"
  const SuccessFlag: string := "success"
  const FailFlag: string := "fail"

  /** The `name` attribute of the input bound to a field. */
  function InputName(f: FieldName): string {
    match f
    case FName => "fname"
    case LName => "lname"
    case Tel => "tel"
    case Email => "email"
    case Message => "message"
  }

  /** The field an input event names, if it is one of the five. */
  function FieldNamed(name: string): (r: Option<FieldName>)
    ensures r.Some? ==> InputName(r.value) == name
    ensures r.None? ==> forall f :: InputName(f) != name
  {
    if name == "fname" then Some(FName)
    else if name == "lname" then Some(LName)
    else if name == "tel" then Some(Tel)
    else if name == "email" then Some(Email)
    else if name == "message" then Some(Message)
    else None
  }

  /** Every input's name selects the field it is bound to. */
  lemma NameRoundTrip(f: FieldName)
    ensures FieldNamed(InputName(f)) == Some(f)
  {
  }

  /** The value of one text field. */
  function Get(d: FormData, f: FieldName): string {
    match f
    case FName => d.fname
    case LName => d.lname
    case Tel => d.tel
    case Email => d.email
    case Message => d.message
  }

  /** Two records agree on all five text fields. */
  predicate SameFields(a: FormData, b: FormData) {
    forall f :: Get(a, f) == Get(b, f)
  }

  /** Two records agree on the three display fields. */
  predicate SameDisplay(a: FormData, b: FormData) {
    a.sent == b.sent && a.buttonText == b.buttonText && a.err == b.err
  }

  /** A record is determined by its text fields and its display fields. */
  lemma Extensionality(a: FormData, b: FormData)
    requires SameFields(a, b) && SameDisplay(a, b)
    ensures a == b
  {
    assert Get(a, FName) == Get(b, FName);
    assert Get(a, LName) == Get(b, LName);
    assert Get(a, Tel) == Get(b, Tel);
    assert Get(a, Email) == Get(b, Email);
    assert Get(a, Message) == Get(b, Message);
  }

  /** The record `useState` starts from, and the one `resetForm` restores. */
  function Initial(): (d: FormData)
    ensures forall f :: Get(d, f) == ""
    ensures !d.sent && d.buttonText == SubmitLabel && d.err == ""
  {
    FormData("", "", "", "", "", false, SubmitLabel, "")
  }

  /** `{...data, [name]: value}`: the record with one text field replaced. */
  function Edit(d: FormData, f: FieldName, value: string): (r: FormData)
    ensures Get(r, f) == value
    ensures forall g :: g != f ==> Get(r, g) == Get(d, g)
    ensures SameDisplay(r, d)
  {
    match f
    case FName => d.(fname := value)
    case LName => d.(lname := value)
    case Tel => d.(tel := value)
    case Email => d.(email := value)
    case Message => d.(message := value)
  }

  /** `Edit`'s contract fixes the record: any record that has the new value in
      the named field and agrees with `d` everywhere else is the edited one. */
  lemma EditUnique(d: FormData, f: FieldName, value: string, r: FormData)
    requires Get(r, f) == value
    requires forall g :: g != f ==> Get(r, g) == Get(d, g)
    requires SameDisplay(r, d)
    ensures r == Edit(d, f, value)
  {
    Extensionality(r, Edit(d, f, value));
  }

  /** The first update of `formSubmit`: the snapshot relabelled "Sending...". */
  function Sending(d: FormData): (r: FormData)
    ensures SameFields(r, d) && r.sent == d.sent && r.err == d.err
    ensures r.buttonText == SendingLabel
  {
    d.(buttonText := SendingLabel)
  }

  /** The update made when the gateway resolves; `resetForm` replaces it at once. */
  function Delivered(d: FormData): (r: FormData)
    ensures SameFields(r, d)
    ensures r.sent && r.buttonText == SentLabel && r.err == SuccessFlag
  {
    d.(sent := true, buttonText := SentLabel, err := SuccessFlag)
  }

  /** The update made when the gateway rejects, rebuilt from the snapshot. */
  function Rejected(d: FormData): (r: FormData)
    ensures SameFields(r, d) && r.sent == d.sent
    ensures r.buttonText == FailedLabel && r.err == FailFlag
  {
    d.(buttonText := FailedLabel, err := FailFlag)
  }

  /** The record `formSubmit` leaves behind, from the snapshot `d`. On success
      the `Delivered` update is overwritten by `resetForm` (see `SubmitUpdates`). */
  function Submitted(d: FormData, outcome: Outcome): (r: FormData)
    ensures outcome == Success ==> r == Initial()
    ensures outcome == Failure ==> SameFields(r, d) && r.sent == d.sent
    ensures outcome == Failure ==> r.buttonText == FailedLabel && r.err == FailFlag
  {
    if outcome == Success then Initial() else Rejected(d)
  }

  /** The records passed to `setData` by one `formSubmit`, in order. */
  function SubmitUpdates(d: FormData, outcome: Outcome): (us: seq<FormData>)
    ensures |us| >= 2 && us[0] == Sending(d) && us[|us| - 1] == Submitted(d, outcome)
    ensures outcome == Success ==> |us| == 3 && us[1] == Delivered(d) && us[1].buttonText == SentLabel
    ensures outcome == Failure ==> |us| == 2
  {
    if outcome == Success then [Sending(d), Delivered(d), Initial()]
    else [Sending(d), Rejected(d)]
  }

  /** What the page shows after a run of `setData` calls. */
  function Shown(updates: seq<FormData>): FormData {
    if updates == [] then Initial() else updates[|updates| - 1]
  }

  /** The page's state holder. `updates` records every record passed to
      `setData`, in order, so that updates overwritten later stay visible. */
  class ContactForm {
    var data: FormData
    ghost var updates: seq<FormData>
    const gateway: Client<FormData>

    ghost predicate Valid()
      reads this
    {
      data == Shown(updates)
    }

    constructor (gateway: Client<FormData>)
      ensures Valid() && this.gateway == gateway
      ensures data == Initial() && updates == []
    {
      data := Initial();
      updates := [];
      this.gateway := gateway;
    }

    /** React's `setData`: replace the held record. */
    method SetData(d: FormData)
      modifies this
      ensures data == d && updates == old(updates) + [d]
    {
      data := d;
      updates := updates + [d];
    }

    /** `handleChange`: the input named after `field` now holds `value`. */
    method HandleChange(field: FieldName, value: string)
      modifies this
      ensures Valid()
      ensures data == Edit(old(data), field, value)
      ensures updates == old(updates) + [data]
    {
      SetData(Edit(data, field, value));
    }

    /** `handleChange` as the input event delivers it: the changed input's
        `name` and its new `value`. Only the five inputs call it. */
    method HandleInput(name: string, value: string)
      requires FieldNamed(name).Some?
      modifies this
      ensures Valid()
      ensures Get(data, FieldNamed(name).value) == value && InputName(FieldNamed(name).value) == name
      ensures data == Edit(old(data), FieldNamed(name).value, value)
      ensures updates == old(updates) + [data]
    {
      HandleChange(FieldNamed(name).value, value);
    }

    /** `formSubmit`: no guard on the current state; the record is captured
        once, shown as "Sending...", posted in full, and then either reset
        (success) or rebuilt from the capture with the failure label. */
    method FormSubmit(outcome: Outcome)
      modifies this, gateway
      ensures Valid()
      ensures gateway.requests == old(gateway.requests) + [Post(WorkInquiryUrl, old(data))]
      ensures gateway.errorLog ==
        if outcome == Success then old(gateway.errorLog)
        else old(gateway.errorLog) + [FailureLogMessage]
      ensures data == Submitted(old(data), outcome)
      ensures updates == old(updates) + SubmitUpdates(old(data), outcome)
    {
      var snapshot := data;
      SetData(Sending(snapshot));
      var ok := gateway.Contact(snapshot, outcome);
      if ok {
        SetData(Delivered(snapshot));
        ResetForm();
      } else {
        SetData(Rejected(snapshot));
      }
    }

    /** `resetForm`: back to the initial record, whatever the state was. */
    method ResetForm()
      modifies this
      ensures Valid()
      ensures data == Initial()
      ensures updates == old(updates) + [Initial()]
    {
      SetData(Initial());
    }
  }

  /** The retry of a failed submission as a client sees it: after a failed
      attempt the same five field values are posted again, and after the
      successful second attempt the form is back at its initial record. */
  method RetryAfterFailure() returns (first: FormData, second: FormData, final: FormData)
    ensures Get(first, FName) == "A" && Get(first, LName) == "B"
    ensures Get(first, Email) == "a@b.com" && Get(first, Tel) == ""
    ensures Get(first, Message) == "hi"
    ensures SameFields(first, second)
    ensures second.buttonText == FailedLabel && second.err == FailFlag
    ensures final == Initial()
  {
    var client := new Client<FormData>();
    var form := new ContactForm(client);
    form.HandleChange(FName, "A");
    assert form.data == FormData("A", "", "", "", "", false, SubmitLabel, "");
    form.HandleChange(LName, "B");
    assert form.data == FormData("A", "B", "", "", "", false, SubmitLabel, "");
    form.HandleChange(Email, "a@b.com");
    assert form.data == FormData("A", "B", "", "a@b.com", "", false, SubmitLabel, "");
    form.HandleChange(Message, "hi");
    ghost var typed := form.data;
    assert typed == FormData("A", "B", "", "a@b.com", "hi", false, SubmitLabel, "");
    assert client.requests == [];
    form.FormSubmit(Failure);
    ghost var failed := form.data;
    assert failed == FormData("A", "B", "", "a@b.com", "hi", false, FailedLabel, FailFlag);
    assert client.requests == [Post(WorkInquiryUrl, typed)];
    form.FormSubmit(Success);
    assert client.requests == [Post(WorkInquiryUrl, typed), Post(WorkInquiryUrl, failed)];
    first := client.requests[0].body;
    second := client.requests[1].body;
    final := form.data;
  }

  // A session as a sequence of user events, and what it does to the record
  // and to the gateway. `Replay` proves that the class's handlers follow it.

  datatype Event = Change(field: FieldName, value: string) | Submit(outcome: Outcome)

  function Step(d: FormData, e: Event): FormData {
    match e
    case Change(f, v) => Edit(d, f, v)
    case Submit(o) => Submitted(d, o)
  }

  /** The record after a session starting from `d`. */
  function Run(d: FormData, events: seq<Event>): FormData
    decreases |events|
  {
    if events == [] then d else Run(Step(d, events[0]), events[1..])
  }

  /** Drives `form` through a session, one event at a time, through the
      page's own handlers: the held record and the gateway's requests are
      what the session semantics says. */
  method Replay(form: ContactForm, events: seq<Event>)
    modifies form, form.gateway
    ensures form.Valid()
    ensures form.data == Run(old(form.data), events)
    ensures Bodies(form.gateway.requests) == Bodies(old(form.gateway.requests)) + Posted(old(form.data), events)
    ensures |form.gateway.requests| == |old(form.gateway.requests)| + SubmitCount(events)
    ensures events != [] && events[|events| - 1] == Submit(Success) ==> form.data == Initial()
    decreases |events|
  {
    if events == [] {
      form.SetData(form.data);
      return;
    }
    ghost var d := form.data;
    ghost var before := form.gateway.requests;
    if events[0].Change? {
      form.HandleChange(events[0].field, events[0].value);
    } else {
      form.FormSubmit(events[0].outcome);
      BodiesSnoc(before, Post(WorkInquiryUrl, d));
    }
    ghost var mid := form.gateway.requests;
    Replay(form, events[1..]);
    BodiesLength(before);
    BodiesLength(form.gateway.requests);
    ReplayBodies(Bodies(before), Bodies(mid), Bodies(form.gateway.requests), d, events);
    SessionFacts(d, events);
  }

  /** The bodies posted by a first step and by the rest of a session add up
      to the bodies posted by the whole session. */
  lemma ReplayBodies(before: seq<FormData>, mid: seq<FormData>, after: seq<FormData>,
                     d: FormData, events: seq<Event>)
    requires events != []
    requires mid == before + (if events[0].Submit? then [d] else [])
    requires after == mid + Posted(Step(d, events[0]), events[1..])
    ensures after == before + Posted(d, events)
    ensures |after| == |before| + SubmitCount(events)
  {
    OnePostPerSubmit(d, events);
  }

  /** A non-empty session ending in a successful submit ends at the initial record. */
  lemma SessionFacts(d: FormData, events: seq<Event>)
    requires events != []
    ensures events[|events| - 1] == Submit(Success) ==> Run(d, events) == Initial()
  {
    if events[|events| - 1] == Submit(Success) {
      assert events == events[..|events| - 1] + [Submit(Success)];
      SuccessEndsAtInitial(d, events[..|events| - 1]);
    }
  }

  /** The bodies posted to the gateway during a session starting from `d`. */
  function Posted(d: FormData, events: seq<Event>): seq<FormData>
    decreases |events|
  {
    if events == [] then []
    else (if events[0].Submit? then [d] else []) + Posted(Step(d, events[0]), events[1..])
  }

  function SubmitCount(events: seq<Event>): nat {
    if events == [] then 0 else (if events[0].Submit? then 1 else 0) + SubmitCount(events[1..])
  }

  /** The value a field holds after a session without a successful submit:
      the last value an edit gave it, or `current` if none did. */
  function LastValue(events: seq<Event>, f: FieldName, current: string): string
    decreases |events|
  {
    if events == [] then current
    else LastValue(events[1..], f, if events[0].Change? && events[0].field == f then events[0].value else current)
  }

  predicate NoSuccessfulSubmit(events: seq<Event>) {
    forall i :: 0 <= i < |events| ==> events[i] != Submit(Success)
  }

  /** Every submit calls the gateway exactly once, whatever the record shows
      (there is no in-flight guard). */
  lemma {:induction false} OnePostPerSubmit(d: FormData, events: seq<Event>)
    ensures |Posted(d, events)| == SubmitCount(events)
    decreases |events|
  {
    if events != [] {
      OnePostPerSubmit(Step(d, events[0]), events[1..]);
    }
  }

  /** Appending one event to a session is one more step. */
  lemma {:induction false} RunSnoc(d: FormData, events: seq<Event>, e: Event)
    ensures Run(d, events + [e]) == Step(Run(d, events), e)
    decreases |events|
  {
    if events == [] {
      assert [e][1..] == [];
    } else {
      assert (events + [e])[1..] == events[1..] + [e];
      RunSnoc(Step(d, events[0]), events[1..], e);
    }
  }

  /** A session that ends with a successful submit ends at the initial
      record, whatever came before. */
  lemma SuccessEndsAtInitial(d: FormData, events: seq<Event>)
    ensures Run(d, events + [Submit(Success)]) == Initial()
  {
    RunSnoc(d, events, Submit(Success));
  }

  /** Until a submit succeeds, each text field holds the last value an edit
      gave it (failed submits keep the values), and `sent` never changes. */
  lemma {:induction false} FieldsAreLastEdits(d: FormData, events: seq<Event>, f: FieldName)
    requires NoSuccessfulSubmit(events)
    ensures Get(Run(d, events), f) == LastValue(events, f, Get(d, f))
    ensures Run(d, events).sent == d.sent
    decreases |events|
  {
    if events != [] {
      assert events[0] != Submit(Success);
      var d' := Step(d, events[0]);
      assert Get(d', f) == if events[0].Change? && events[0].field == f then events[0].value else Get(d, f);
      FieldsAreLastEdits(d', events[1..], f);
    }
  }

  /** Edits alone never touch the display fields. */
  lemma {:induction false} EditsKeepDisplay(d: FormData, events: seq<Event>)
    requires forall i :: 0 <= i < |events| ==> events[i].Change?
    ensures SameDisplay(Run(d, events), d)
    decreases |events|
  {
    if events != [] {
      EditsKeepDisplay(Step(d, events[0]), events[1..]);
    }
  }

  /** A retry after a failed submit posts the same five field values. */
  lemma RetryPostsSameFields(d: FormData, o: Outcome)
    ensures |Posted(d, [Submit(Failure), Submit(o)])| == 2
    ensures Posted(d, [Submit(Failure), Submit(o)])[0] == d
    ensures SameFields(Posted(d, [Submit(Failure), Submit(o)])[1], d)
  {
    var evs := [Submit(Failure), Submit(o)];
    var d1 := Step(d, evs[0]);
    assert evs[1..] == [Submit(o)];
    assert [Submit(o)][1..] == [];
    assert Posted(d1, [Submit(o)]) == [d1];
    assert Posted(d, evs) == [d] + [d1];
  }
}
