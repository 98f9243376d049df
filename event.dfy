/**
 * The event record (`IEvent` in types/event.ts) and the form-field update
 * that both the create and the edit screen use.
 */
module Events {
  import opened JsStrings

  /** capacity and spotsLeft: numbers from the server, but the forms store
    * the raw text typed into their inputs, so either may hold a string. */
  datatype Count = Num(n: int) | Entered(text: string)

  datatype Event = Event(
    id: string,
    title: string,
    description: string,
    date: string,        // YYYY-MM-DD
    startTime: string,   // HH:MM
    endTime: string,     // HH:MM
    location: string,
    imageUrl: string,
    capacity: Count,
    spotsLeft: Count,
    categories: seq<string>)

  /** The keys of an event (`keyof IEvent`). */
  datatype Field =
    | Id | Title | Description | Date | StartTime | EndTime | Location
    | ImageUrl | Capacity | SpotsLeft | CategoryList

  /** What a form input hands to `handleChange`: `string | number | string[]`. */
  datatype Value = Text(s: string) | Number(n: int) | Tags(tags: seq<string>)

  /** JavaScript truthiness of a form value: of these kinds, only "" and 0
    * are falsy, and an array is always truthy. */
  predicate Truthy(v: Value)
    ensures Truthy(v) <==> v != Text("") && v != Number(0)
  {
    match v
    case Text(s) => s != ""
    case Number(n) => n != 0
    case Tags(_) => true
  }

  function CountValue(c: Count): Value {
    match c
    case Num(n) => Number(n)
    case Entered(t) => Text(t)
  }

  /** `e[field]` */
  function Get(e: Event, f: Field): Value {
    match f
    case Id => Text(e.id)
    case Title => Text(e.title)
    case Description => Text(e.description)
    case Date => Text(e.date)
    case StartTime => Text(e.startTime)
    case EndTime => Text(e.endTime)
    case Location => Text(e.location)
    case ImageUrl => Text(e.imageUrl)
    case Capacity => CountValue(e.capacity)
    case SpotsLeft => CountValue(e.spotsLeft)
    case CategoryList => Tags(e.categories)
  }

  /** The values `IEvent` declares for each field. */
  predicate Fits(f: Field, v: Value) {
    match f
    case Capacity | SpotsLeft => !v.Tags?
    case CategoryList => v.Tags?
    case _ => v.Text?
  }

  function ToCount(v: Value): Count
    requires !v.Tags?
  {
    if v.Number? then Num(v.n) else Entered(v.s)
  }

  /** `{ ...form, [field]: value }`, as `handleChange` builds it on both form
    * screens: `field` takes `value` and every other field keeps its value. */
  function WithField(e: Event, f: Field, v: Value): (r: Event)
    requires Fits(f, v)
    ensures Get(r, f) == v
    ensures forall g :: g != f ==> Get(r, g) == Get(e, g)
  {
    match f
    case Id => e.(id := v.s)
    case Title => e.(title := v.s)
    case Description => e.(description := v.s)
    case Date => e.(date := v.s)
    case StartTime => e.(startTime := v.s)
    case EndTime => e.(endTime := v.s)
    case Location => e.(location := v.s)
    case ImageUrl => e.(imageUrl := v.s)
    case Capacity => e.(capacity := ToCount(v))
    case SpotsLeft => e.(spotsLeft := ToCount(v))
    case CategoryList => e.(categories := v.tags)
  }

  /** Two events that agree on every field are the same event. */
  lemma SameFieldsSameEvent(a: Event, b: Event)
    requires forall f :: Get(a, f) == Get(b, f)
    ensures a == b
  {
    assert Get(a, Id) == Get(b, Id);
    assert Get(a, Title) == Get(b, Title);
    assert Get(a, Description) == Get(b, Description);
    assert Get(a, Date) == Get(b, Date);
    assert Get(a, StartTime) == Get(b, StartTime);
    assert Get(a, EndTime) == Get(b, EndTime);
    assert Get(a, Location) == Get(b, Location);
    assert Get(a, ImageUrl) == Get(b, ImageUrl);
    assert Get(a, Capacity) == Get(b, Capacity);
    assert Get(a, SpotsLeft) == Get(b, SpotsLeft);
    assert Get(a, CategoryList) == Get(b, CategoryList);
  }

  /** Events are equal exactly when they agree field by field. */
  lemma FieldsDecideEquality(a: Event, b: Event)
    ensures a == b <==> forall f :: Get(a, f) == Get(b, f)
  {
    if forall f :: Get(a, f) == Get(b, f) {
      SameFieldsSameEvent(a, b);
    }
  }

  /** Setting a field to the value it already holds gives back the same event;
    * setting it to anything else gives a different one. */
  lemma WithFieldChangesIffNewValue(e: Event, f: Field, v: Value)
    requires Fits(f, v)
    ensures WithField(e, f, v) == e <==> Get(e, f) == v
  {
    if Get(e, f) == v {
      SameFieldsSameEvent(WithField(e, f, v), e);
    }
  }

  /** An image the user picked on the device, which must be uploaded first. */
  predicate IsLocalFile(url: string) {
    StartsWith(url, "file://")
  }
}
