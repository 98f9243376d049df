# Event administration client: form checks, rating display and event store

This project models, in Dafny, the decision logic of a mobile client that
lists, creates, edits and deletes conference events and shows their reviews.
The client is a React Native application; its logic lives inside screen
handlers and a small global store. The model lifts that logic out:

- **Event record** (`Events`): the `IEvent` record, the field update that both
  form screens perform on every keystroke, and JavaScript truthiness of the
  two counts (which the forms store as typed text).
- **String semantics** (`JsStrings`, `CategoryText`): JavaScript's relational
  order on strings (every date and time check compares strings), `trim`,
  `split` on a comma, `join`, and the categories input built from them.
- **Create screen** (`CreateEvent`): the ordered chain of checks run when the
  user confirms, the image upload decision and the hand-over to the store.
  Today's date is a parameter instead of a clock read.
- **Edit screen** (`EditEvent`): change detection against the record the screen
  was opened on, the stricter required-field check, when the image is
  re-uploaded, and the hand-over to the store.
- **Detail screen** (`EventDetail`): occupancy counts, the average rating
  (exact, in `real`) and its full/half/empty star split, a review card's star
  row, the five-review preview, the "view all" link and the count label.
- **Event store** (`Store`): a class with the `events`, `loading` and `error`
  fields and the `loadEvents`, `deleteEvent`, `updateEvent` and `createEvent`
  actions, proved against pure state-transition functions.

Everything the app waits on (the event fetch, the server's answer to a
create, update or delete, the image upload) is a parameter of the operation
that waits on it: a `Result`/`Outcome` value holding the answer or the
error message. Each store action runs as one atomic step.

Notable consequences of the source, proved here:

- Date and time checks compare strings, not clock values. A 9:00 to 10:00
  event typed without the leading zero is refused as "start not before end"
  (`CreateEvent.UnpaddedMorningRefused`). For two-digit `HH:MM` text the range
  check accepts minutes 60 to 99 below hour 23, e.g. "22:75"
  (`CreateEvent.PaddedTimeInRange`).
- Empty category text reads as one empty category `[""]`, so an empty list
  does not survive being shown and read back (`CategoryText.EmptyListDoesNotRoundTrip`).
- The edit screen treats a count that is still the number 0 as missing, so a
  fully booked event, as the server sent it, cannot be saved from it
  (`EditEvent.FullyBookedCannotBeSaved`); a "0" typed into the input is text
  and passes (`EditEvent.TypedZeroPasses`).
- A successful reload never clears an error recorded earlier
  (`Store.LoadNeverClearsError`).

## Model

| member | source | states |
|---|---|---|
| `JsStrings.Less` | components/events/CreateEventPage.tsx:54-69 | JavaScript's `<` on strings: a proper prefix sorts first, and nothing sorts before the empty string |
| `JsStrings.LessIrreflexive` | components/events/CreateEventPage.tsx:58-61 | no string sorts before itself, so a value equal to the bound passes a `<` check |
| `JsStrings.LessTrichotomy` | components/events/CreateEventPage.tsx:54-57 | string order is total and asymmetric: `a >= b` means `a == b` or `b < a` |
| `JsStrings.LessTransitive` | components/events/CreateEventPage.tsx:62-69 | string order is transitive |
| `JsStrings.LessAtFirstDifference` | components/events/CreateEventPage.tsx:62-69 | strings are ordered by their first differing character |
| `JsStrings.Split` | components/events/CreateEventPage.tsx:129 | `split(',')` gives one more piece than there are commas, and no piece holds a comma |
| `JsStrings.Join` | components/events/EditEventModal.tsx:153 | `join(sep)` starts with the first part and ends with the last |
| `JsStrings.SplitJoin` | components/events/EditEventModal.tsx:153-155 | splitting the join of non-empty, separator-free parts gives the parts back |
| `JsStrings.JoinSplit` | components/events/EditEventModal.tsx:153-155 | joining the pieces of a split with the separator restores the text |
| `JsStrings.Trim` | components/events/CreateEventPage.tsx:129 | `trim` leaves no whitespace at either end of its result, and text with none at either end is left as it is |
| `JsStrings.TrimKeepsMiddle` | components/events/CreateEventPage.tsx:129 | `trim` removes only whitespace, and only at the two ends: the result is a slice of the input, and everything before and after that slice is whitespace |
| `JsStrings.TrimStart` | components/events/CreateEventPage.tsx:129 | only leading whitespace is removed, and all of it |
| `JsStrings.TrimEnd` | components/events/CreateEventPage.tsx:129 | only trailing whitespace is removed, and all of it |
| `Events.Truthy` | components/events/EditEventModal.tsx:54 | `!value` is false for every form value but "" and the number 0; a list is always truthy |
| `Events.FieldsDecideEquality` | types/event.ts:1-13 | two events are equal iff they agree on every field |
| `Events.WithField` | components/events/EditEventModal.tsx:36-38 | `handleChange(field, value)` sets exactly `field` to `value`; every other field keeps its value |
| `Events.SameFieldsSameEvent` | types/event.ts:1-13 | an event record is determined by its eleven fields |
| `Events.WithFieldChangesIffNewValue` | components/events/EditEventModal.tsx:36-40 | a field update changes the record exactly when the new value differs from the old one |
| `CategoryText.ParseCategories` | components/events/CreateEventPage.tsx:129 | the typed text gives one category per comma plus one, each trimmed and comma-free |
| `CategoryText.JoinCategories` | components/events/EditEventModal.tsx:153 | comma-free categories are shown with exactly one comma between neighbours |
| `CategoryText.ParseWithoutComma` | components/events/EditEventModal.tsx:155 | text without a comma reads as the single category it holds, trimmed |
| `CategoryText.ParseShownHead` | components/events/EditEventModal.tsx:153-155 | a plain category shown before ", " reads back as itself, followed by what the rest reads as |
| `CategoryText.EmptyTextIsOneEmptyTag` | components/events/CreateEventPage.tsx:129 | empty text gives `[""]`, not `[]` |
| `CategoryText.ParseJoinRoundTrip` | components/events/EditEventModal.tsx:153-155 | a non-empty list of trimmed, comma-free categories is read back exactly as it is displayed |
| `CategoryText.EmptyListDoesNotRoundTrip` | components/events/EditEventModal.tsx:153-155 | the empty list is displayed as "" and read back as `[""]` |
| `CategoryText.ParseSkipsLeadingSpace` | components/events/EditEventModal.tsx:153-155 | the space after each ", " is dropped when the text is read |
| `CategoryText.ParseAfterPiece` | components/events/EditEventModal.tsx:155 | a comma-free piece before a comma reads as one trimmed category |
| `Store.Initial` | store/eventStore.ts:15-18 | the store starts with no events, not loading, no error |
| `Store.StartLoad` | store/eventStore.ts:21 | starting a load sets `loading` and changes nothing else |
| `Store.FinishLoad` | store/eventStore.ts:22-27 | a fetched list replaces `events` and leaves `error`; a failure keeps `events` and records the message; `loading` ends false |
| `Store.LoadNeverClearsError` | store/eventStore.ts:23-26 | once an error is recorded, no load clears it, and a successful load keeps it as it was |
| `Store.LoadForgetsOldEvents` | store/eventStore.ts:23-24 | after a successful load the cache is the fetched list whatever it held before |
| `Store.Append` | store/eventStore.ts:40-43 | the created event goes at the end, earlier events keep their order, `loading` and `error` unchanged |
| `Store.EventStore.constructor` | store/eventStore.ts:15-18 | a new store is in the initial state |
| `Store.EventStore.StartLoading` | store/eventStore.ts:21 | the store moves to `StartLoad` of its old state |
| `Store.EventStore.FinishLoading` | store/eventStore.ts:22-27 | the store moves to `FinishLoad` of its old state and the fetch's answer |
| `Store.EventStore.LoadEvents` | store/eventStore.ts:20-28 | a whole `loadEvents` is `FinishLoad` after `StartLoad`, and it never fails |
| `Store.EventStore.DeleteEvent` | store/eventStore.ts:30-33 | the list is reloaded only after a successful delete; a failed delete is handed back and the state is unchanged |
| `Store.EventStore.UpdateEvent` | store/eventStore.ts:35-38 | the list is reloaded only after a successful update; a failed update is handed back and the state is unchanged |
| `Store.EventStore.CreateEvent` | store/eventStore.ts:40-43 | a created event is appended as the server returned it; a failure is handed back and the state is unchanged |
| `CreateEvent.CheckFields` | components/events/CreateEventPage.tsx:50-69 | the five field checks: passing means passing every check but the image's; a failure names a failed check, never the image, with every earlier check passed |
| `CreateEvent.ValidateCreate` | components/events/CreateEventPage.tsx:50-79 | the form is accepted iff it passes all six checks; otherwise the error reported is the first check, in source order, that it fails |
| `CreateEvent.EmptyRequiredFieldReported` | components/events/CreateEventPage.tsx:50-53 | an empty title, date, start, end or location is reported as missing fields whatever the other fields hold |
| `CreateEvent.AcceptedFormIsWellFormed` | components/events/CreateEventPage.tsx:54-79 | an accepted form has start strictly before end, a date not before today, both times in range and an image |
| `CreateEvent.NoEmptyOrBackwardsEvent` | components/events/CreateEventPage.tsx:54-57 | a start equal to or after the end is refused with the time-order error |
| `CreateEvent.TodayIsNotPast` | components/events/CreateEventPage.tsx:58-61 | a form dated today is never refused as past |
| `CreateEvent.UnpaddedMorningRefused` | components/events/CreateEventPage.tsx:54-57 | "9:00" to "10:00" is refused as start not before end |
| `CreateEvent.PaddedTimeInRange` | components/events/CreateEventPage.tsx:62-69 | a two-digit `HH:MM` time passes the range check iff hour < 23, or hour 23 and minutes <= 59 |
| `CreateEvent.PlanCreate` | components/events/CreateEventPage.tsx:50-80 | the handler refuses iff the validator does, with the validator's error; the upload fails the save iff the form is valid with a `file://` image whose upload failed; the store is called iff the form is valid and a local image uploaded, with the form carrying the uploaded address in place of a `file://` one |
| `CreateEvent.CreateEventScreen.constructor` | components/events/CreateEventPage.tsx:25-37 | a new screen holds the empty form |
| `CreateEvent.CreateEventScreen.HandleChange` | components/events/CreateEventPage.tsx:39-41 | the form becomes `WithField` of the old form |
| `CreateEvent.CreateEventScreen.HandleCategoriesText` | components/events/CreateEventPage.tsx:129 | the categories become the parsed text, one more than the commas typed |
| `CreateEvent.CreateEventScreen.Save` | components/events/CreateEventPage.tsx:43-90 | the result follows the plan; the store changes (by `Append`) only when the plan submits and the server creates the event |
| `EditEvent.IsChanged` | components/events/EditEventModal.tsx:40 | the form counts as changed iff some field holds a different value from the original's |
| `EditEvent.RequiredFilled` | components/events/EditEventModal.tsx:54 | the required check passes iff every field but the id, the image and the categories is truthy |
| `EditEvent.NeedsReupload` | components/events/EditEventModal.tsx:59 | a re-upload is needed only for a changed form with a non-empty image address |
| `EditEvent.PlanEdit` | components/events/EditEventModal.tsx:42-64 | it closes iff the form is unchanged; asks for the required fields iff changed but incomplete; fails on the upload iff changed, complete, needing a re-upload and the upload failed; submits iff changed, complete and any needed upload succeeded; a submitted record differs from the form at most in the image |
| `EditEvent.SubmittedImage` | components/events/EditEventModal.tsx:58-62 | the image is replaced by the upload exactly when it changed to a `file://` address; otherwise the record sent is the form |
| `EditEvent.FullyBookedCannotBeSaved` | components/events/EditEventModal.tsx:54 | a changed form whose spots left is still the number 0 fails the required check |
| `EditEvent.TypedZeroPasses` | components/events/EditEventModal.tsx:54-64 | a typed "0" for spots left is text and passes: a changed, otherwise complete form is submitted as it is |
| `EditEvent.ChangedIffFieldDiffers` | components/events/EditEventModal.tsx:28-40 | a freshly opened form is unchanged, and one edit makes it changed iff the new value differs from the original's |
| `EditEvent.EditBackIsUnchanged` | components/events/EditEventModal.tsx:36-40 | editing a field back to its original value leaves the form unchanged |
| `EditEvent.EditEventScreen.constructor` | components/events/EditEventModal.tsx:28-29 | form and original both start as the route's event, so save is disabled |
| `EditEvent.EditEventScreen.Reopen` | components/events/EditEventModal.tsx:31-34 | a new route event resets both cells, disabling save |
| `EditEvent.EditEventScreen.SaveDisabled` | components/events/EditEventModal.tsx:219-222 | the save button is disabled iff pressing save could only close the screen, whatever the upload's answer |
| `EditEvent.EditEventScreen.CategoriesShown` | components/events/EditEventModal.tsx:153-155 | a non-empty list of plain categories reads back from what the input shows |
| `EditEvent.EditEventScreen.HandleChange` | components/events/EditEventModal.tsx:36-38 | the form becomes `WithField` of the old form, the original is untouched, and save is enabled iff the result differs from the original |
| `EditEvent.EditEventScreen.HandleCategoriesText` | components/events/EditEventModal.tsx:154-155 | the categories become the parsed text; the original is untouched |
| `EditEvent.EditEventScreen.Save` | components/events/EditEventModal.tsx:42-74 | an unchanged form ends without calling the store; the store is reloaded only when the plan submits and the update succeeds |
| `EventDetail.OccupancyOf` | components/events/EventDetailScreen.tsx:43-45 | occupied + available = capacity, available = spots left, and both lie in 0..capacity when spots left does |
| `EventDetail.RatingSumFromFront` | components/events/EventDetailScreen.tsx:64 | the left-to-right `reduce` gives the same total as adding from the front |
| `EventDetail.RatingSumBounds` | components/events/EventDetailScreen.tsx:63-64 | ratings in 0..5 sum to between 0 and 5 per review |
| `EventDetail.RatingAverage` | components/events/EventDetailScreen.tsx:63-64 | the average is 0 without reviews, and otherwise times the count gives the rating sum |
| `EventDetail.AverageOnScale` | components/events/EventDetailScreen.tsx:63-64 | ratings in 0..5 give an average in 0..5 |
| `EventDetail.Stars` | components/events/EventDetailScreen.tsx:66-68 | the full stars are the floor of the average, the three counts add up to 5, none negative for an average in 0..5 |
| `EventDetail.StarsForRatedEvent` | components/events/EventDetailScreen.tsx:63-68 | with ratings in 0..5 the row has five stars, no count negative |
| `EventDetail.NoReviewsAllEmpty` | components/events/EventDetailScreen.tsx:63-68 | no reviews gives 0 full stars, no half star and 5 empty |
| `EventDetail.StarsByCrossMultiplication` | components/events/EventDetailScreen.tsx:63-67 | full stars are sum div count; a half star shows iff the fraction is in [0.25, 0.75), i.e. count <= 4 * (sum mod count) < 3 * count |
| `EventDetail.ReviewStars` | components/events/EventDetailScreen.tsx:74-77 | a card's first `rating` stars (clamped to 0..5) are filled and the rest are outlines |
| `EventDetail.Preview` | components/events/EventDetailScreen.tsx:157-169 | carousel and dots show the first min(5, n) reviews in their original order |
| `EventDetail.ShowViewAll` | components/events/EventDetailScreen.tsx:177 | the "view all" link appears iff the preview leaves a review out (more than 5 reviews) |
| `EventDetail.CountNoun` | components/events/EventDetailScreen.tsx:147 | the singular noun is used iff there is exactly one review |

## Left out

- The grouped, filtered, collapsible event-list view is not in the code: the list screen (app/events/EventListScreen.tsx:59-73) renders the store's list as it is, so there is nothing of it to model.
- Network and storage I/O (the HTTP calls in services/eventService.ts, the image upload in services/uploadImageFirebase.ts, the review fetch of the detail screen, the all-reviews screen): their answers are parameters. The service's own second `file://` upload inside `createEvent` is not part of this model.
- The occupancy percentage (components/events/EventDetailScreen.tsx:46): it divides and multiplies in floating point before rounding, which no exact model reproduces, and gives NaN for capacity 0.
- The clock: today's date is a parameter (`today`), standing for the UTC date of `new Date().toISOString()`.
- Confirmation dialogs: only the confirm path of each `Alert` is modelled; cancelling does nothing. Alerts, navigation, the image picker, animations, styles and rendering are left out.
- The carousel's active-dot highlighting (`activeIndex`) is UI state and is left out.
- Async interleaving of store actions: each action is one atomic step.
- JsStrings.Trim: removes ASCII whitespace only (space, tab, line feed, carriage return, vertical tab, form feed), not the Unicode spaces and line separators JavaScript's `trim` also removes.
- JsStrings.Less: compares Unicode code points, where JavaScript compares UTF-16 code units; the two agree outside surrogate pairs.
- Events.WithField: requires the value to have the kind `IEvent` declares for the field (text, count or list); TypeScript's `handleChange` would accept any of the three for any key, but every input on both screens passes the declared kind. The two `HandleChange` methods carry the same requirement.
- EventDetail.OccupancyOf: takes the two counts as integers, as the server sends them; JavaScript's coercion of text-valued counts and its NaN results are not modelled.
- EventDetail.RatingAverage: exact rational arithmetic; JavaScript's floating-point average gives the same star split unless the review count is in the trillions.
- EventDetail.Stars: an average above 5 (a rating above 5) makes the empty-star count negative, where the screen would throw on `Array(negative)`; the model only computes the counts.
- Store.EventStore.LoadEvents: a thrown error's `message` is modelled as a string; a missing message (`undefined`) is not distinguished.
