/**
 * The create-event screen (components/events/CreateEventPage.tsx): its form,
 * the ordered checks run when the user confirms, the image upload and the
 * hand-over to the store. Today's date (`YYYY-MM-DD`, UTC), the upload's
 * answer and the server's answer are parameters.
 */
module CreateEvent {
  import opened Wrappers
  import opened JsStrings
  import opened Events
  import opened CategoryText
  import opened Store

  /** The form a new screen starts with. */
  const EmptyForm := Event("", "", "", "", "", "", "", "", Num(0), Num(0), [])

  /** The checks, in the order they run; each names the error it reports. */
  datatype CreateError =
    | MissingFields       // title, date, start, end or location empty
    | StartNotBeforeEnd   // startTime >= endTime
    | DateInPast          // date < today
    | StartOutOfRange     // startTime outside '00:00'..'23:59'
    | EndOutOfRange       // endTime outside '00:00'..'23:59'
    | MissingImage        // no image picked

  function Rank(check: CreateError): nat {
    match check
    case MissingFields => 0
    case StartNotBeforeEnd => 1
    case DateInPast => 2
    case StartOutOfRange => 3
    case EndOutOfRange => 4
    case MissingImage => 5
  }

  /** A time between '00:00' and '23:59' in string order. */
  predicate TimeInRange(t: string) {
    !(Less(t, "00:00") || Less("23:59", t))
  }

  /** Whether `form` gets past `check`, the check taken on its own. */
  predicate Passes(form: Event, today: string, check: CreateError) {
    match check
    case MissingFields =>
      form.title != "" && form.date != "" && form.startTime != "" && form.endTime != "" && form.location != ""
    case StartNotBeforeEnd => Less(form.startTime, form.endTime)
    case DateInPast => !Less(form.date, today)
    case StartOutOfRange => TimeInRange(form.startTime)
    case EndOutOfRange => TimeInRange(form.endTime)
    case MissingImage => form.imageUrl != ""
  }

  /** The checks before the payload is built, as the handler writes them:
    * every check but the image's, and the first one failed is reported. */
  function CheckFields(form: Event, today: string): (r: Outcome<CreateError>)
    ensures r.Pass? <==> forall c :: c != MissingImage ==> Passes(form, today, c)
    ensures r.Fail? ==> r.error != MissingImage && !Passes(form, today, r.error)
    ensures r.Fail? ==> forall c :: Rank(c) < Rank(r.error) ==> Passes(form, today, c)
  {
    if form.title == "" || form.date == "" || form.startTime == "" || form.endTime == "" || form.location == "" then
      assert !Passes(form, today, MissingFields);
      Fail(MissingFields)
    else if !Less(form.startTime, form.endTime) then
      assert !Passes(form, today, StartNotBeforeEnd);
      Fail(StartNotBeforeEnd)
    else if Less(form.date, today) then
      assert !Passes(form, today, DateInPast);
      Fail(DateInPast)
    else if Less(form.startTime, "00:00") || Less("23:59", form.startTime) then
      assert !Passes(form, today, StartOutOfRange);
      Fail(StartOutOfRange)
    else if Less(form.endTime, "00:00") || Less("23:59", form.endTime) then
      assert !Passes(form, today, EndOutOfRange);
      Fail(EndOutOfRange)
    else
      assert Passes(form, today, MissingFields) && Passes(form, today, StartNotBeforeEnd)
        && Passes(form, today, DateInPast) && Passes(form, today, StartOutOfRange)
        && Passes(form, today, EndOutOfRange);
      Pass
  }

  /** The whole validation: the field checks, then the image check. The
    * first check the form fails is the one reported; the form is accepted
    * exactly when it passes them all. */
  function ValidateCreate(form: Event, today: string): (r: Outcome<CreateError>)
    ensures r.Pass? <==> forall c :: Passes(form, today, c)
    ensures r.Fail? ==> !Passes(form, today, r.error)
    ensures r.Fail? ==> forall c :: Rank(c) < Rank(r.error) ==> Passes(form, today, c)
  {
    match CheckFields(form, today)
    case Fail(e) => Fail(e)
    case Pass =>
      if form.imageUrl == "" then
        assert !Passes(form, today, MissingImage);
        Fail(MissingImage)
      else
        Pass
  }

  /** Whatever else the form holds, an empty required field is what is reported. */
  lemma EmptyRequiredFieldReported(form: Event, today: string)
    requires form.title == "" || form.date == "" || form.startTime == "" || form.endTime == "" || form.location == ""
    ensures ValidateCreate(form, today) == Fail(MissingFields)
  {
  }

  /** An accepted form ends strictly after it starts, is not dated before
    * today, keeps both times in range and has an image. */
  lemma AcceptedFormIsWellFormed(form: Event, today: string)
    requires ValidateCreate(form, today).Pass?
    ensures Less(form.startTime, form.endTime)
    ensures !Less(form.date, today)
    ensures TimeInRange(form.startTime) && TimeInRange(form.endTime)
    ensures form.imageUrl != ""
  {
    assert Passes(form, today, StartNotBeforeEnd) && Passes(form, today, DateInPast);
    assert Passes(form, today, StartOutOfRange) && Passes(form, today, EndOutOfRange);
    assert Passes(form, today, MissingImage);
  }

  /** A start equal to or after the end is refused: for strings `a >= b`
    * means `a == b` or `b < a`. */
  lemma NoEmptyOrBackwardsEvent(form: Event, today: string)
    requires Passes(form, today, MissingFields)
    requires form.startTime == form.endTime || Less(form.endTime, form.startTime)
    ensures ValidateCreate(form, today) == Fail(StartNotBeforeEnd)
  {
    LessIrreflexive(form.startTime);
    LessTrichotomy(form.startTime, form.endTime);
  }

  /** A form dated today is never refused as being in the past. */
  lemma TodayIsNotPast(form: Event, today: string)
    requires form.date == today
    ensures ValidateCreate(form, today) != Fail(DateInPast)
  {
    LessIrreflexive(today);
  }

  /** String order, not clock order: a 9:00 to 10:00 event typed without the
    * leading zero is refused, because "9:00" sorts after "10:00". */
  lemma UnpaddedMorningRefused(form: Event, today: string)
    requires Passes(form, today, MissingFields)
    requires form.startTime == "9:00" && form.endTime == "10:00"
    ensures ValidateCreate(form, today) == Fail(StartNotBeforeEnd)
  {
  }

  /** The two-digit `HH:MM` text of a clock reading. */
  function Hhmm(h: nat, m: nat): (t: string)
    requires h < 100 && m < 100
    ensures |t| == 5 && t[2] == ':'
  {
    [Digit(h / 10), Digit(h % 10), ':', Digit(m / 10), Digit(m % 10)]
  }

  function Digit(d: nat): char
    requires d < 10
  {
    (48 + d) as char
  }

  /** For two-digit `HH:MM` text, the range check compares hours first and
    * minutes only at 23: so "22:75" is accepted and "23:60" is not. */
  lemma PaddedTimeInRange(h: nat, m: nat)
    requires h < 100 && m < 100
    ensures TimeInRange(Hhmm(h, m)) <==> h < 23 || (h == 23 && m <= 59)
  {
    var t, zero, top := Hhmm(h, m), "00:00", "23:59";
    // Nothing two-digit sorts below "00:00".
    if t == zero {
      LessIrreflexive(t);
    } else {
      var k :| 0 <= k < 5 && t[k] != zero[k] && forall i :: 0 <= i < k ==> t[i] == zero[i] by {
        var k := if t[0] != '0' then 0 else if t[1] != '0' then 1 else if t[3] != '0' then 3 else 4;
        assert t[k] != zero[k] && forall i :: 0 <= i < k ==> t[i] == zero[i];
      }
      assert t[..k] == zero[..k];
      LessAtFirstDifference(zero, t, k);
      LessTrichotomy(t, zero);
    }
    // Against "23:59" the first differing digit decides.
    if t == top {
      LessIrreflexive(t);
    } else {
      var k :| 0 <= k < 5 && t[k] != top[k] && forall i :: 0 <= i < k ==> t[i] == top[i] by {
        var k := if t[0] != '2' then 0 else if t[1] != '3' then 1 else if t[3] != '5' then 3 else 4;
        assert t[k] != top[k] && forall i :: 0 <= i < k ==> t[i] == top[i];
      }
      assert t[..k] == top[..k];
      if t[k] < top[k] {
        LessAtFirstDifference(t, top, k);
        LessTrichotomy(t, top);
      } else {
        LessAtFirstDifference(top, t, k);
      }
    }
  }

  /** What confirming the form leads to, given the upload's answer. */
  datatype CreatePlan =
    | Refused(error: CreateError)     // an alert names the failed check
    | UploadFailed(message: string)   // caught: "could not create"
    | Submit(payload: Event)          // handed to the store

  /** The confirm handler up to the store call, in its own order: the field
    * checks; a copy of the form whose local image is replaced by the uploaded
    * one; the image check; submission. It refuses exactly what the validator
    * refuses, with the validator's error; it hands the store a payload exactly
    * when the form is valid and a local image uploaded, and that payload is
    * the form with the uploaded image's address in place of a local one. */
  function PlanCreate(form: Event, today: string, upload: Result<string, string>): (p: CreatePlan)
    ensures p.Refused? <==> ValidateCreate(form, today).Fail?
    ensures p.Refused? ==> p.error == ValidateCreate(form, today).error
    ensures p.UploadFailed? <==>
      ValidateCreate(form, today).Pass? && IsLocalFile(form.imageUrl) && upload.Err?
    ensures p.Submit? <==>
      ValidateCreate(form, today).Pass? && (IsLocalFile(form.imageUrl) ==> upload.Ok?)
    ensures p.Submit? ==>
      p.payload == form.(imageUrl := if IsLocalFile(form.imageUrl) then upload.value else form.imageUrl)
  {
    match CheckFields(form, today)
    case Fail(e) => Refused(e)
    case Pass =>
      if form.imageUrl != "" && IsLocalFile(form.imageUrl) && upload.Err? then
        UploadFailed(upload.error)
      else
        var payload :=
          if form.imageUrl != "" && IsLocalFile(form.imageUrl) then form.(imageUrl := upload.value) else form;
        if form.imageUrl == "" then Refused(MissingImage) else Submit(payload)
  }

  /** How a confirmed save ends. */
  datatype SaveResult = Invalid(error: CreateError) | Failed(message: string) | Created

  /** The screen: its form is a state cell the inputs replace. */
  class CreateEventScreen {
    var form: Event

    constructor ()
      ensures form == EmptyForm
    {
      form := EmptyForm;
    }

    /** `handleChange(field, value)` */
    method HandleChange(field: Field, value: Value)
      requires Fits(field, value)
      modifies this
      ensures form == WithField(old(form), field, value)
    {
      form := WithField(form, field, value);
    }

    /** The categories input: the typed text is split and trimmed. */
    method HandleCategoriesText(text: string)
      modifies this
      ensures form == old(form).(categories := ParseCategories(text))
      ensures |form.categories| == Occurrences(text, ',') + 1
    {
      HandleChange(CategoryList, Tags(ParseCategories(text)));
    }

    /** The confirm branch of `handleSave`: the store is called only with a
      * planned payload, and only then can its state change. */
    method Save(store: EventStore, today: string, upload: Result<string, string>, created: Result<Event, string>)
      returns (r: SaveResult)
      modifies store
      ensures r.Invalid? <==> PlanCreate(form, today, upload).Refused?
      ensures r.Invalid? ==> r.error == PlanCreate(form, today, upload).error
      ensures r == Created <==> PlanCreate(form, today, upload).Submit? && created.Ok?
      ensures store.State() ==
        if PlanCreate(form, today, upload).Submit? && created.Ok? then Append(old(store.State()), created.value)
        else old(store.State())
    {
      var plan := PlanCreate(form, today, upload);
      match plan {
        case Refused(e) =>
          r := Invalid(e);
        case UploadFailed(message) =>
          r := Failed(message);
        case Submit(payload) =>
          var outcome := store.CreateEvent(payload, created);
          r := if outcome.Pass? then Created else Failed(outcome.error);
      }
    }
  }
}
