/** The top-level directory component (App.tsx): its seed data and its
    state, with the handlers that update that state. */
module App {
  import opened Wrappers
  import opened Types
  import opened Lists
  import opened Directory
  import opened AddForm

  /** Every stored record could have come from the add form. */
  ghost predicate AllWellFormed(records: seq<Business>) {
    forall b :: b in records ==> WellFormed(Payload(b))
  }

  /** Payloads given consecutive ids from `first`, in order: the shape of
      the seed list, whose records are numbered 1 to 6. */
  function Number(ps: seq<NewBusiness>, first: int): (r: seq<Business>)
    ensures |r| == |ps|
    ensures forall k :: 0 <= k < |r| ==> r[k].id == first + k && Payload(r[k]) == ps[k]
    decreases |ps|
  {
    if ps == [] then [] else [WithId(first, ps[0])] + Number(ps[1..], first + 1)
  }

  /** Numbered records have distinct ids, all in `first .. first + |ps| - 1`. */
  lemma NumberIds(ps: seq<NewBusiness>, first: int)
    ensures UniqueIds(Number(ps, first))
    ensures forall b :: b in Number(ps, first) ==> first <= b.id < first + |ps|
  {
  }

  /** Numbering well-formed payloads gives well-formed records. */
  lemma NumberWellFormed(ps: seq<NewBusiness>, first: int)
    requires forall k :: 0 <= k < |ps| ==> WellFormed(ps[k])
    ensures AllWellFormed(Number(ps, first))
  {
  }

  /** The six sample payloads, in the order the page lists them. */
  function SeedPayloads(): seq<NewBusiness> {
    [GourmetGrove(), ArtisanShelf(), InnovateSolutions(), SunriseCafe(), CityThreads(), QuickFixAuto()]
  }

  /** `initialBusinesses`: the sample businesses the page starts with. */
  function InitialBusinesses(): (r: seq<Business>)
    ensures UniqueIds(r)
  {
    NumberIds(SeedPayloads(), 1);
    Number(SeedPayloads(), 1)
  }

  /** The sample list holds the six payloads in order, numbered 1 to 6. */
  lemma InitialBusinessesShape()
    ensures |InitialBusinesses()| == 6
    ensures forall k :: 0 <= k < 6 ==>
      InitialBusinesses()[k].id == k + 1 && Payload(InitialBusinesses()[k]) == SeedPayloads()[k]
  {
  }

  function GourmetGrove(): NewBusiness {
    NewBusiness("Gourmet Grove", Restaurant, "123 Culinary Lane, Foodville, FV 54321",
      "A modern eatery offering the best farm-to-table dishes in a cozy atmosphere.",
      Some("555-0101"), Some("https://gourmetgrove.example.com"))
  }

  function ArtisanShelf(): NewBusiness {
    NewBusiness("The Artisan Shelf", Retail, "456 Market St, Shopsville, SV 67890",
      "Curated collection of handcrafted goods and unique gifts from local artisans.",
      None, Some("https://artisanshelf.example.com"))
  }

  function InnovateSolutions(): NewBusiness {
    NewBusiness("Innovate Solutions", Service, "789 Tech Park, Silicon City, SC 10111",
      "Cutting-edge software development and IT consulting services for businesses.",
      Some("555-0103"), Some("https://innovatesolutions.example.com"))
  }

  function SunriseCafe(): NewBusiness {
    NewBusiness("Sunrise Cafe", Restaurant, "101 Morning Ave, Dawn City, DC 12131",
      "The perfect spot for breakfast and brunch, serving classic dishes with a twist.",
      Some("555-0104"), None)
  }

  function CityThreads(): NewBusiness {
    NewBusiness("City Threads", Retail, "212 Fashion Blvd, Metroburg, MB 14151",
      "Trendy apparel and accessories for the modern urbanite. Style that speaks.",
      None, None)
  }

  function QuickFixAuto(): NewBusiness {
    NewBusiness("QuickFix Auto", Service, "313 Mechanic Rd, Gear Town, GT 16171",
      "Reliable and efficient auto repair services. We get you back on the road fast.",
      Some("555-0106"), Some("https://quickfixauto.example.com"))
  }

  /** Deleting keeps only records that were already stored. */
  lemma RemoveKeepsWellFormed(records: seq<Business>, id: int)
    requires AllWellFormed(records)
    ensures AllWellFormed(RemoveById(records, id))
  {
  }

  /** The component's state: the ordered list of businesses, the active
      filter, the business awaiting confirmation of its deletion and whether
      the add dialog is open. `nextId` replaces the clock as the source of
      ids: it is above every id in use. */
  class Store {
    var businesses: seq<Business>
    var activeCategory: Filter
    var businessToDelete: Option<Business>
    var isAddModalOpen: bool
    var nextId: int

    /** Ids are unique and below the next id to hand out. */
    ghost predicate Valid()
      reads this
    {
      && UniqueIds(businesses)
      && forall b :: b in businesses ==> b.id < nextId
    }

    /** The page's initial state, as `useState` receives it: the given list
        (the page passes `InitialBusinesses()`), filter `'all'`, nothing
        pending and the add dialog closed. */
    constructor (initial: seq<Business>)
      requires UniqueIds(initial)
      ensures Valid()
      ensures businesses == initial
      ensures activeCategory == All && businessToDelete == None && !isAddModalOpen
    {
      businesses := initial;
      activeCategory := All;
      businessToDelete := None;
      isAddModalOpen := false;
      nextId := MaxId(initial) + 1;
    }

    /** The `filteredBusinesses` list the page renders: reads the state, changes nothing. */
    function VisibleBusinesses(): (r: seq<Business>)
      reads this
      ensures forall b :: b in r <==> b in businesses && Matches(activeCategory, b)
      ensures IsSubsequence(r, businesses)
      ensures activeCategory == All ==> r == businesses
    {
      Visible(businesses, activeCategory)
    }

    /** `handleDeleteRequest`: remember the business to delete. */
    method RequestDelete(b: Business)
      modifies this
      ensures businessToDelete == Some(b)
      ensures businesses == old(businesses) && activeCategory == old(activeCategory)
      ensures isAddModalOpen == old(isAddModalOpen) && nextId == old(nextId)
    {
      businessToDelete := Some(b);
    }

    /** `handleConfirmDelete`: drop every record with the pending id, then
        clear the pending business; with nothing pending, nothing happens. */
    method ConfirmDelete()
      requires Valid()
      modifies this
      ensures Valid()
      ensures businessToDelete == None
      ensures old(businessToDelete).None? ==> businesses == old(businesses)
      ensures old(businessToDelete).Some? ==>
        businesses == RemoveById(old(businesses), old(businessToDelete).value.id)
      ensures old(businessToDelete).Some? && old(businessToDelete).value.id in Ids(old(businesses)) ==>
        |businesses| == |old(businesses)| - 1
      ensures AllWellFormed(old(businesses)) ==> AllWellFormed(businesses)
      ensures activeCategory == old(activeCategory) && isAddModalOpen == old(isAddModalOpen) && nextId == old(nextId)
    {
      if businessToDelete.Some? {
        var id := businessToDelete.value.id;
        if id in Ids(businesses) {
          RemovePresentDropsOne(businesses, id);
        }
        if AllWellFormed(businesses) {
          RemoveKeepsWellFormed(businesses, id);
        }
        businesses := RemoveById(businesses, id);
        businessToDelete := None;
      }
    }

    /** `handleCancelDelete`: clear the pending business and nothing else. */
    method CancelDelete()
      modifies this
      ensures businessToDelete == None
      ensures businesses == old(businesses) && activeCategory == old(activeCategory)
      ensures isAddModalOpen == old(isAddModalOpen) && nextId == old(nextId)
    {
      businessToDelete := None;
    }

    /** `handleAddBusiness`: give the payload a fresh id and put the new
        record in front of the list. */
    method Add(d: NewBusiness) returns (id: int)
      requires Valid()
      modifies this
      ensures Valid()
      ensures id == old(nextId) && id !in Ids(old(businesses))
      ensures businesses == Prepend(WithId(id, d), old(businesses))
      ensures nextId == old(nextId) + 1
      ensures AllWellFormed(old(businesses)) && WellFormed(d) ==> AllWellFormed(businesses)
      ensures activeCategory == old(activeCategory) && businessToDelete == old(businessToDelete)
      ensures isAddModalOpen == old(isAddModalOpen)
    {
      id := nextId;
      businesses := Prepend(WithId(id, d), businesses);
      nextId := nextId + 1;
    }

    /** `setActiveCategory`: choose the filter; the list is untouched. */
    method SetFilter(f: Filter)
      modifies this
      ensures activeCategory == f
      ensures businesses == old(businesses) && businessToDelete == old(businessToDelete)
      ensures isAddModalOpen == old(isAddModalOpen) && nextId == old(nextId)
    {
      activeCategory := f;
    }

    /** The "Add Business" button: open the add dialog. */
    method OpenAddModal()
      modifies this
      ensures isAddModalOpen
      ensures businesses == old(businesses) && activeCategory == old(activeCategory)
      ensures businessToDelete == old(businessToDelete) && nextId == old(nextId)
    {
      isAddModalOpen := true;
    }

    /** The add dialog's `onClose`: close it. */
    method CloseAddModal()
      modifies this
      ensures !isAddModalOpen
      ensures businesses == old(businesses) && activeCategory == old(activeCategory)
      ensures businessToDelete == old(businessToDelete) && nextId == old(nextId)
    {
      isAddModalOpen := false;
    }

    /** Submitting the add form: a blank required field leaves everything as
        it was and yields the error message; otherwise the normalised payload
        is added and the dialog closes. */
    method SubmitAddForm(input: FormInput) returns (r: Result<int, string>)
      requires Valid()
      modifies this
      ensures Valid()
      ensures r.Failure? <==>
        AllWhitespace(input.name) || AllWhitespace(input.location) || AllWhitespace(input.description)
      ensures r.Failure? ==>
        && r.error == RequiredFieldsMessage
        && businesses == old(businesses)
        && isAddModalOpen == old(isAddModalOpen)
        && nextId == old(nextId)
      ensures r.Success? ==>
        && Validate(input).Success?
        && businesses == Prepend(WithId(r.value, Validate(input).value), old(businesses))
        && r.value == old(nextId)
        && r.value !in Ids(old(businesses))
        && nextId == old(nextId) + 1
        && !isAddModalOpen
      ensures AllWellFormed(old(businesses)) ==> AllWellFormed(businesses)
      ensures activeCategory == old(activeCategory) && businessToDelete == old(businessToDelete)
    {
      var v := Validate(input);
      if v.Failure? {
        r := Failure(v.error);
        return;
      }
      var id := Add(v.value);
      CloseAddModal();
      r := Success(id);
    }
  }
}
