/**
 * The edit-event screen (components/events/EditEventModal.tsx): a form opened
 * on an existing event, the record it was opened on, change detection, the
 * stricter required-field check, the image re-upload rule and the hand-over
 * to the store. The upload's and the server's answers are parameters.
 */
module EditEvent {
  import opened Wrappers
  import opened Events
  import opened CategoryText
  import opened Store

  /** `JSON.stringify(form) !== JSON.stringify(original)`: both come from the
    * same record with the same key order, and a number and a string print
    * differently, so the texts differ exactly when the records do: when
    * some field holds a different value. */
  predicate IsChanged(form: Event, original: Event)
    ensures IsChanged(form, original) <==> exists f :: Get(form, f) != Get(original, f)
  {
    FieldsDecideEquality(form, original);
    form != original
  }

  /** The required check of the edit screen: every text field but the id and
    * the image, and capacity and spots left truthy, so a count that is the
    * number 0 fails while a typed "0" passes. */
  predicate RequiredFilled(form: Event)
    ensures RequiredFilled(form) <==>
      forall f :: f != Id && f != ImageUrl && f != CategoryList ==> Truthy(Get(form, f))
  {
    var filled := form.title != "" && form.description != "" && form.date != ""
      && form.startTime != "" && form.endTime != "" && form.location != ""
      && Truthy(CountValue(form.capacity)) && Truthy(CountValue(form.spotsLeft));
    assert filled ==> forall f :: f != Id && f != ImageUrl && f != CategoryList ==> Truthy(Get(form, f));
    assert !filled ==> exists f :: f != Id && f != ImageUrl && f != CategoryList && !Truthy(Get(form, f)) by {
      if !filled {
        if form.title == "" { assert !Truthy(Get(form, Title)); }
        else if form.description == "" { assert !Truthy(Get(form, Description)); }
        else if form.date == "" { assert !Truthy(Get(form, Date)); }
        else if form.startTime == "" { assert !Truthy(Get(form, StartTime)); }
        else if form.endTime == "" { assert !Truthy(Get(form, EndTime)); }
        else if form.location == "" { assert !Truthy(Get(form, Location)); }
        else if !Truthy(CountValue(form.capacity)) { assert !Truthy(Get(form, Capacity)); }
        else { assert !Truthy(Get(form, SpotsLeft)); }
      }
    }
    filled
  }

  /** A new image, picked on the device, is uploaded before saving. */
  predicate NeedsReupload(form: Event, original: Event)
    ensures NeedsReupload(form, original) ==> IsChanged(form, original) && form.imageUrl != ""
  {
    assert Get(form, ImageUrl) == Text(form.imageUrl);
    form.imageUrl != original.imageUrl && IsLocalFile(form.imageUrl)
  }

  /** What pressing save leads to, given the upload's answer. */
  datatype EditPlan =
    | Close                          // nothing changed: just go back
    | Incomplete                     // an alert asks for the required fields
    | UploadFailed(message: string)  // caught: "could not save"
    | Submit(record: Event)          // handed to the store

  /** `handleSave` on the confirm path, up to the store call. */
  function PlanEdit(form: Event, original: Event, upload: Result<string, string>): (p: EditPlan)
    ensures p == Close <==> !IsChanged(form, original)
    ensures p == Incomplete <==> IsChanged(form, original) && !RequiredFilled(form)
    ensures p.UploadFailed? <==>
      IsChanged(form, original) && RequiredFilled(form) && NeedsReupload(form, original) && upload.Err?
    ensures p.Submit? <==>
      IsChanged(form, original) && RequiredFilled(form) && (NeedsReupload(form, original) ==> upload.Ok?)
    ensures p.Submit? ==> p.record == form.(imageUrl := p.record.imageUrl)
  {
    if !IsChanged(form, original) then Close
    else if !RequiredFilled(form) then Incomplete
    else if NeedsReupload(form, original) && upload.Err? then UploadFailed(upload.error)
    else
      var updated := if NeedsReupload(form, original) then form.(imageUrl := upload.value) else form;
      Submit(updated)
  }

  /** The image is replaced only when it changed to a local file; otherwise
    * the record sent is the form itself. */
  lemma SubmittedImage(form: Event, original: Event, upload: Result<string, string>)
    requires PlanEdit(form, original, upload).Submit?
    ensures NeedsReupload(form, original) ==> PlanEdit(form, original, upload).record.imageUrl == upload.value
    ensures !NeedsReupload(form, original) ==> PlanEdit(form, original, upload).record == form
  {
  }

  /** A changed event whose spots left is still the number 0 (a fully booked
    * event as the server sent it) cannot be saved from this screen. */
  lemma FullyBookedCannotBeSaved(form: Event, original: Event, upload: Result<string, string>)
    requires form.spotsLeft == Num(0)
    requires IsChanged(form, original)
    ensures PlanEdit(form, original, upload) == Incomplete
  {
  }

  /** A "0" typed into spots left is text, so it is truthy and, unlike the
    * number 0, does not block the save. */
  lemma TypedZeroPasses(form: Event, original: Event, upload: Result<string, string>)
    requires form.spotsLeft == Entered("0")
    requires form.title != "" && form.description != "" && form.date != ""
    requires form.startTime != "" && form.endTime != "" && form.location != ""
    requires Truthy(CountValue(form.capacity))
    requires IsChanged(form, original) && !NeedsReupload(form, original)
    ensures PlanEdit(form, original, upload) == Submit(form)
  {
  }

  /** Editing a field changes the form exactly when the new value differs
    * from the original's, and a form opened on a record is unchanged. */
  lemma ChangedIffFieldDiffers(original: Event, f: Field, v: Value)
    requires Fits(f, v)
    ensures !IsChanged(original, original)
    ensures IsChanged(WithField(original, f, v), original) <==> Get(original, f) != v
  {
    WithFieldChangesIffNewValue(original, f, v);
  }

  /** Editing a field back to its original value undoes the change. */
  lemma EditBackIsUnchanged(original: Event, f: Field, v: Value)
    requires Fits(f, v) && Fits(f, Get(original, f))
    ensures !IsChanged(WithField(WithField(original, f, v), f, Get(original, f)), original)
  {
    var back := WithField(WithField(original, f, v), f, Get(original, f));
    forall g ensures Get(back, g) == Get(original, g) {
    }
    SameFieldsSameEvent(back, original);
  }

  /** How pressing save ends. */
  datatype SaveResult = Unchanged | Invalid | Failed(message: string) | Saved

  /** The screen: `form` and `original` are state cells. */
  class EditEventScreen {
    var form: Event
    var original: Event

    /** Opening the screen on `event` (and the effect that re-runs when the
      * route's event changes). */
    constructor (event: Event)
      ensures form == event && original == event
      ensures SaveDisabled()
    {
      form, original := event, event;
    }

    /** The effect on a new route event: both cells are reset to it. */
    method Reopen(event: Event)
      modifies this
      ensures form == event && original == event
      ensures SaveDisabled()
    {
      form, original := event, event;
    }

    /** The save button is disabled exactly when nothing changed, which is
      * when pressing save could only close the screen. */
    predicate SaveDisabled()
      reads this
      ensures SaveDisabled() <==> forall u :: PlanEdit(form, original, u) == Close
    {
      assert PlanEdit(form, original, Err("")) == Close ==> !IsChanged(form, original);
      !IsChanged(form, original)
    }

    /** `handleChange(field, value)`: the original record is untouched. */
    method HandleChange(field: Field, value: Value)
      requires Fits(field, value)
      modifies this
      ensures form == WithField(old(form), field, value) && original == old(original)
      ensures !SaveDisabled() <==> WithField(old(form), field, value) != original
    {
      form := WithField(form, field, value);
    }

    /** The categories input shows the list joined by ", "; a non-empty
      * list of plain tags reads back from what is shown. */
    function CategoriesShown(): (shown: string)
      reads this
      ensures |form.categories| > 0 && (forall i :: 0 <= i < |form.categories| ==> IsPlainTag(form.categories[i]))
        ==> ParseCategories(shown) == form.categories
    {
      if |form.categories| > 0 && (forall i :: 0 <= i < |form.categories| ==> IsPlainTag(form.categories[i])) then
        ParseJoinRoundTrip(form.categories);
        JoinCategories(form.categories)
      else
        JoinCategories(form.categories)
    }

    method HandleCategoriesText(text: string)
      modifies this
      ensures form == old(form).(categories := ParseCategories(text)) && original == old(original)
    {
      HandleChange(CategoryList, Tags(ParseCategories(text)));
    }

    /** `handleSave`, on the confirm path: the store is called only with a
      * planned record, and only a successful update reloads it. */
    method Save(store: EventStore, upload: Result<string, string>,
                updated: Result<Event, string>, fetched: Result<seq<Event>, string>)
      returns (r: SaveResult)
      modifies store
      ensures r == Unchanged <==> !IsChanged(form, original)
      ensures r == Invalid <==> PlanEdit(form, original, upload) == Incomplete
      ensures r == Saved <==> PlanEdit(form, original, upload).Submit? && updated.Ok?
      ensures store.State() ==
        if PlanEdit(form, original, upload).Submit? && updated.Ok? then Load(old(store.State()), fetched)
        else old(store.State())
    {
      var plan := PlanEdit(form, original, upload);
      match plan {
        case Close =>
          r := Unchanged;
        case Incomplete =>
          r := Invalid;
        case UploadFailed(message) =>
          r := Failed(message);
        case Submit(record) =>
          var outcome := store.UpdateEvent(record, updated, fetched);
          r := if outcome.Pass? then Saved else Failed(outcome.error);
      }
    }
  }
}
