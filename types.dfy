/** The data model of the directory (types.ts). */
module Types {
  import opened Wrappers

  /** The closed set of business categories. */
  datatype Category = Restaurant | Retail | Service

  /** The string value each enum member carries at run time. */
  function CategoryValue(c: Category): string {
    match c
    case Restaurant => "Restaurant"
    case Retail => "Retail"
    case Service => "Service"
  }

  /** `Object.values(Category)`, in declaration order: the options of the
      add form's category selector. */
  function AllCategories(): (cs: seq<Category>)
    ensures |cs| == 3
    ensures forall i, j :: 0 <= i < j < |cs| ==> cs[i] != cs[j]
  {
    [Restaurant, Retail, Service]
  }

  /** The enumeration is closed: every category is one of its three members. */
  lemma AllCategoriesComplete(c: Category)
    ensures c in AllCategories()
  {
    match c
    case Restaurant => assert AllCategories()[0] == c;
    case Retail => assert AllCategories()[1] == c;
    case Service => assert AllCategories()[2] == c;
  }

  /** Distinct members carry distinct string values, so comparing the
      strings (as the filter does) is comparing the categories. */
  lemma CategoryValueInjective(a: Category, b: Category)
    ensures CategoryValue(a) == CategoryValue(b) <==> a == b
  {
  }

  /** The directory's category filter, `Category | 'all'`. */
  datatype Filter = All | Only(category: Category)

  /** The string a filter stands for at run time. */
  function FilterValue(f: Filter): string {
    match f
    case All => "all"
    case Only(c) => CategoryValue(c)
  }

  /** The sentinel `'all'` collides with no category value. */
  lemma FilterValueInjective(f: Filter, g: Filter)
    ensures FilterValue(f) == FilterValue(g) <==> f == g
  {
    if f.Only? && g.Only? {
      CategoryValueInjective(f.category, g.category);
    } else if f != g {
      assert FilterValue(f)[0] != FilterValue(g)[0];
    }
  }

  /** One directory entry. JavaScript numbers are modelled as integers. */
  datatype Business = Business(
    id: int,
    name: string,
    category: Category,
    location: string,
    description: string,
    phone: Option<string>,
    website: Option<string>)

  /** A business without its id, `Omit<Business, 'id'>`: what the add form submits. */
  datatype NewBusiness = NewBusiness(
    name: string,
    category: Category,
    location: string,
    description: string,
    phone: Option<string>,
    website: Option<string>)

  /** The submitted fields of a record. */
  function Payload(b: Business): NewBusiness {
    NewBusiness(b.name, b.category, b.location, b.description, b.phone, b.website)
  }

  /** `{ id, ...payload }`: the record carries exactly the payload's fields and the given id. */
  function WithId(id: int, d: NewBusiness): (b: Business)
    ensures b.id == id && Payload(b) == d
  {
    Business(id, d.name, d.category, d.location, d.description, d.phone, d.website)
  }

  /** A record is determined by its id and its payload. */
  lemma WithIdPayload(b: Business)
    ensures WithId(b.id, Payload(b)) == b
  {
  }
}
