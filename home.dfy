/**
 * The state of the home page: the search inputs, the "host an event" modal
 * and the draft of the event being hosted, with the handlers that change them.
 */
module HomePage {
  import opened Wrappers
  import opened Events

  /** The fields of the draft, one per input of the host-event form plus the image. */
  datatype Field = Title | Date | Time | Location | Tags | Description | Image

  /** The `name` attribute that identifies a field in the form. */
  function FieldName(f: Field): (r: string)
    ensures r != []
    ensures forall i :: 0 <= i < |r| ==> 'a' <= r[i] <= 'z'
  {
    match f
    case Title => "title"
    case Date => "date"
    case Time => "time"
    case Location => "location"
    case Tags => "tags"
    case Description => "description"
    case Image => "image"
  }

  /** The field an input `name` refers to, if any; names are matched exactly. */
  function FieldNamed(name: string): (r: Option<Field>)
    ensures r.Some? ==> FieldName(r.value) == name
    ensures r.None? ==> forall f: Field :: FieldName(f) != name
  {
    if name == "title" then Some(Title)
    else if name == "date" then Some(Date)
    else if name == "time" then Some(Time)
    else if name == "location" then Some(Location)
    else if name == "tags" then Some(Tags)
    else if name == "description" then Some(Description)
    else if name == "image" then Some(Image)
    else None
  }

  /** Every field is found again from its own name. */
  lemma FieldNameRoundTrip(f: Field)
    ensures FieldNamed(FieldName(f)) == Some(f)
  {
  }

  /** The event being drafted in the host-event form. */
  datatype NewEvent = NewEvent(
    title: string,
    date: string,
    time: string,
    location: string,
    tags: string,
    description: string,
    image: string)
  {
    /** The value of one field. */
    function Get(f: Field): string {
      match f
      case Title => title
      case Date => date
      case Time => time
      case Location => location
      case Tags => tags
      case Description => description
      case Image => image
    }

    /** `{ ...this, [name]: value }` for the field `f`. */
    function With(f: Field, value: string): (d: NewEvent)
      ensures d.Get(f) == value
      ensures forall g :: g != f ==> d.Get(g) == Get(g)
    {
      match f
      case Title => this.(title := value)
      case Date => this.(date := value)
      case Time => this.(time := value)
      case Location => this.(location := value)
      case Tags => this.(tags := value)
      case Description => this.(description := value)
      case Image => this.(image := value)
    }
  }

  /** The image a new draft starts with. */
  const DefaultImage := "https://images.unsplash.com/photo-1511795409834-ef04bbd61622?w=800&h=600&fit=crop"

  /** The draft the page starts with and returns to after a submit. */
  const InitialDraft := NewEvent("", "", "", "", "", "", DefaultImage)

  /** The initial draft is six empty text fields and the default image. */
  lemma InitialDraftFields(f: Field)
    ensures InitialDraft.Get(f) == if f == Image then DefaultImage else ""
  {
  }

  /** The home page's state over a fixed event catalogue. */
  class Home {
    const events: seq<Event>
    var searchTerm: string
    var selectedCategory: string
    var isHostModalOpen: bool
    var newEvent: NewEvent

    /** The page as first rendered: no search, category "all", modal closed. */
    constructor (events: seq<Event>)
      ensures this.events == events
      ensures searchTerm == "" && selectedCategory == AllCategory
      ensures !isHostModalOpen && newEvent == InitialDraft
      ensures FilteredEvents() == events
    {
      this.events := events;
      searchTerm := "";
      selectedCategory := AllCategory;
      isHostModalOpen := false;
      newEvent := InitialDraft;
      FilterShowsEverything(events);
    }

    /** The events listed on the page. */
    function FilteredEvents(): (r: seq<Event>)
      reads this
      ensures IsSubsequence(r, events)
      ensures forall e :: e in r <==> e in events && Shown(e, searchTerm, selectedCategory)
      ensures forall e :: multiset(r)[e] == if Shown(e, searchTerm, selectedCategory) then multiset(events)[e] else 0
      ensures r == Filter(events, searchTerm, selectedCategory)
    {
      FilterIsSubsequence(events, searchTerm, selectedCategory);
      forall e ensures e in Filter(events, searchTerm, selectedCategory) <==>
                       e in events && Shown(e, searchTerm, selectedCategory) {
        FilterMembership(events, searchTerm, selectedCategory, e);
      }
      forall e ensures multiset(Filter(events, searchTerm, selectedCategory))[e] ==
                       if Shown(e, searchTerm, selectedCategory) then multiset(events)[e] else 0 {
        FilterCount(events, searchTerm, selectedCategory, e);
      }
      Filter(events, searchTerm, selectedCategory)
    }

    /** The options of the category selector. */
    function CategoryOptions(): (r: seq<string>)
      reads this
      ensures |r| > 0 && r[0] == AllCategory
      ensures forall t :: t in r[1..] <==> t in AllTags(events)
      ensures NoDuplicates(r[1..])
      ensures InFirstSeenOrder(r[1..], AllTags(events))
      ensures r == Categories(events)
    {
      Categories(events)
    }

    /** Typing in the search box. */
    method SetSearchTerm(term: string)
      modifies this
      ensures searchTerm == term
      ensures selectedCategory == old(selectedCategory)
      ensures isHostModalOpen == old(isHostModalOpen) && newEvent == old(newEvent)
    {
      searchTerm := term;
    }

    /** Choosing an option of the category selector. */
    method SetSelectedCategory(category: string)
      modifies this
      ensures selectedCategory == category
      ensures searchTerm == old(searchTerm)
      ensures isHostModalOpen == old(isHostModalOpen) && newEvent == old(newEvent)
    {
      selectedCategory := category;
    }

    /**
     * "Host an event": opens the modal for a signed-in user. For a visitor
     * who is not signed in nothing changes here (the page asks the sign-in
     * flow to start instead). The draft is kept either way.
     */
    method HandleHostEvent(isSignedIn: bool)
      modifies this
      ensures isSignedIn ==> isHostModalOpen
      ensures !isSignedIn ==> isHostModalOpen == old(isHostModalOpen)
      ensures newEvent == old(newEvent)
      ensures searchTerm == old(searchTerm) && selectedCategory == old(selectedCategory)
    {
      if !isSignedIn {
        return;
      }
      isHostModalOpen := true;
    }

    /**
     * An input of the form changed: the field with that input's `name` takes
     * the new value and every other field keeps its value. A name that is
     * not one of the draft's fields leaves all of them as they were.
     */
    method HandleInputChange(name: string, value: string)
      modifies this
      ensures FieldNamed(name).Some? ==> newEvent.Get(FieldNamed(name).value) == value
      ensures forall f :: FieldName(f) != name ==> newEvent.Get(f) == old(newEvent).Get(f)
      ensures isHostModalOpen == old(isHostModalOpen)
      ensures searchTerm == old(searchTerm) && selectedCategory == old(selectedCategory)
    {
      var field := FieldNamed(name);
      if field.Some? {
        newEvent := newEvent.With(field.value, value);
      }
    }

    /** Submitting the form: the modal closes and the draft starts over. */
    method HandleSubmitEvent()
      modifies this
      ensures !isHostModalOpen
      ensures newEvent == InitialDraft
      ensures searchTerm == old(searchTerm) && selectedCategory == old(selectedCategory)
    {
      isHostModalOpen := false;
      newEvent := InitialDraft;
    }

    /** The Cancel button: the modal closes and the draft is kept as it is. */
    method Cancel()
      modifies this
      ensures !isHostModalOpen
      ensures newEvent == old(newEvent)
      ensures searchTerm == old(searchTerm) && selectedCategory == old(selectedCategory)
    {
      isHostModalOpen := false;
    }
  }

  /**
   * A draft survives Cancel: reopening the modal shows the values typed
   * before, while a submit starts the next draft from the initial one.
   */
  method CancelKeepsDraft(h: Home, value: string)
    modifies h
    ensures h.isHostModalOpen && h.newEvent.title == value
  {
    h.HandleHostEvent(true);
    h.HandleInputChange("title", value);
    h.Cancel();
    h.HandleHostEvent(true);
  }
}
