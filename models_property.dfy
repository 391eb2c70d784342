/** The property request models and literals (app/models/property.py):
    property types and statuses, and the field bounds that Pydantic enforces
    on creation, update and search. */
module PropertyModels {
  import opened Common

  /** `PropertyType = Literal["apartment", "house", "duplex", "studio", "penthouse"]`. */
  datatype PropertyType = Apartment | House | Duplex | Studio | Penthouse

  function PropertyTypeName(t: PropertyType): string
  {
    match t
    case Apartment => "apartment"
    case House => "house"
    case Duplex => "duplex"
    case Studio => "studio"
    case Penthouse => "penthouse"
  }

  function ParsePropertyType(s: string): (r: Option<PropertyType>)
    ensures r.Some? <==> s in ["apartment", "house", "duplex", "studio", "penthouse"]
    ensures r.Some? ==> PropertyTypeName(r.value) == s
  {
    if s == "apartment" then Some(Apartment)
    else if s == "house" then Some(House)
    else if s == "duplex" then Some(Duplex)
    else if s == "studio" then Some(Studio)
    else if s == "penthouse" then Some(Penthouse)
    else None
  }

  /** `PropertyStatus = Literal["draft", "active", "rented", "inactive"]`. */
  datatype PropertyStatus = Draft | Active | Rented | Inactive

  function PropertyStatusName(s: PropertyStatus): string
  {
    match s
    case Draft => "draft"
    case Active => "active"
    case Rented => "rented"
    case Inactive => "inactive"
  }

  function ParsePropertyStatus(s: string): (r: Option<PropertyStatus>)
    ensures r.Some? <==> s in ["draft", "active", "rented", "inactive"]
    ensures r.Some? ==> PropertyStatusName(r.value) == s
  {
    if s == "draft" then Some(Draft)
    else if s == "active" then Some(Active)
    else if s == "rented" then Some(Rented)
    else if s == "inactive" then Some(Inactive)
    else None
  }

  /** The `sort` literal of a search. */
  datatype SortOrder = Newest | PriceLow | PriceHigh

  function ParseSortOrder(s: string): (r: Option<SortOrder>)
    ensures r.Some? <==> s in ["newest", "price_low", "price_high"]
  {
    if s == "newest" then Some(Newest)
    else if s == "price_low" then Some(PriceLow)
    else if s == "price_high" then Some(PriceHigh)
    else None
  }

  /** The listing fields of `PropertyCreate`; a stored property row carries
      the same fields. Money is in whole naira. */
  datatype PropertyCreate = PropertyCreate(
    title: string,
    description: Option<string>,
    rentAmount: int,
    securityDeposit: Option<int>,
    location: string,
    address: Option<string>,
    city: string,
    state: string,
    country: string,
    bedrooms: int,
    bathrooms: int,
    squareFeet: Option<int>,
    propertyType: PropertyType,
    amenities: seq<string>,
    photos: seq<string>,
    status: PropertyStatus)

  const MinTitleLength: nat := 10
  const MaxTitleLength: nat := 200
  const MinLocationLength: nat := 3
  const MaxBedrooms: int := 20
  const MinBathrooms: int := 1
  const MaxBathrooms: int := 10

  predicate ValidTitle(t: string) { MinTitleLength <= |t| <= MaxTitleLength }
  predicate ValidRent(r: int) { r > 0 }
  predicate ValidDeposit(d: Option<int>) { d.Some? ==> d.value >= 0 }
  predicate ValidBedrooms(b: int) { 0 <= b <= MaxBedrooms }
  predicate ValidBathrooms(b: int) { MinBathrooms <= b <= MaxBathrooms }
  predicate ValidSquareFeet(f: Option<int>) { f.Some? ==> f.value > 0 }

  /** The `Field(...)` bounds of `PropertyCreate`. */
  predicate ValidPropertyCreate(p: PropertyCreate)
  {
    ValidTitle(p.title) && ValidRent(p.rentAmount) && ValidDeposit(p.securityDeposit)
    && |p.location| >= MinLocationLength && ValidBedrooms(p.bedrooms)
    && ValidBathrooms(p.bathrooms) && ValidSquareFeet(p.squareFeet)
  }

  /** A creation request with only the required fields given; every other
      field takes its declared default. */
  function PropertyCreateWithDefaults(title: string, rentAmount: int, location: string, bedrooms: int): PropertyCreate
  {
    PropertyCreate(title, None, rentAmount, None, location, None, "Lagos", "Lagos", "Nigeria",
                   bedrooms, 1, None, Apartment, [], [], Draft)
  }

  /** The defaults are within the bounds: a request is valid as soon as its
      required fields are, and it creates a draft apartment with one bathroom. */
  lemma DefaultsRespectBounds(title: string, rentAmount: int, location: string, bedrooms: int)
    ensures ValidPropertyCreate(PropertyCreateWithDefaults(title, rentAmount, location, bedrooms))
        <==> ValidTitle(title) && ValidRent(rentAmount) && |location| >= MinLocationLength
             && ValidBedrooms(bedrooms)
    ensures PropertyCreateWithDefaults(title, rentAmount, location, bedrooms).status == Draft
    ensures PropertyCreateWithDefaults(title, rentAmount, location, bedrooms).bathrooms == 1
  {
  }

  /** A field of a partial update: left out of the body, or sent. */
  datatype Patch<+T> = Unset | Put(value: T)

  function Patched<T>(current: T, p: Patch<T>): T
  {
    match p
    case Unset => current
    case Put(v) => v
  }

  /** `PropertyUpdate`: every field optional; those sent replace the stored
      ones (`dict(exclude_unset=True)`). A nullable column may be sent as `None`. */
  datatype PropertyUpdate = PropertyUpdate(
    title: Patch<string>,
    description: Patch<Option<string>>,
    rentAmount: Patch<int>,
    securityDeposit: Patch<Option<int>>,
    location: Patch<string>,
    address: Patch<Option<string>>,
    bedrooms: Patch<int>,
    bathrooms: Patch<int>,
    squareFeet: Patch<Option<int>>,
    propertyType: Patch<PropertyType>,
    amenities: Patch<seq<string>>,
    photos: Patch<seq<string>>,
    status: Patch<PropertyStatus>)

  /** The bounds of `PropertyUpdate`: the same as on creation for the fields
      sent, except that `location` has no minimum length. */
  predicate ValidPropertyUpdate(u: PropertyUpdate)
  {
    (u.title.Put? ==> ValidTitle(u.title.value))
    && (u.rentAmount.Put? ==> ValidRent(u.rentAmount.value))
    && (u.securityDeposit.Put? ==> ValidDeposit(u.securityDeposit.value))
    && (u.bedrooms.Put? ==> ValidBedrooms(u.bedrooms.value))
    && (u.bathrooms.Put? ==> ValidBathrooms(u.bathrooms.value))
    && (u.squareFeet.Put? ==> ValidSquareFeet(u.squareFeet.value))
  }

  /** `after` is what a patch makes of `before`: kept when the field was left
      out, the sent value otherwise. */
  predicate Follows<T(==)>(before: T, patch: Patch<T>, after: T)
  {
    (patch.Unset? ==> after == before) && (patch.Put? ==> after == patch.value)
  }

  /** The listing after an update: sent fields replaced, the rest kept; the
      columns `PropertyUpdate` has no field for are never touched. */
  function ApplyUpdate(p: PropertyCreate, u: PropertyUpdate): (q: PropertyCreate)
    ensures Follows(p.title, u.title, q.title)
    ensures Follows(p.description, u.description, q.description)
    ensures Follows(p.rentAmount, u.rentAmount, q.rentAmount)
    ensures Follows(p.securityDeposit, u.securityDeposit, q.securityDeposit)
    ensures Follows(p.location, u.location, q.location)
    ensures Follows(p.address, u.address, q.address)
    ensures Follows(p.bedrooms, u.bedrooms, q.bedrooms)
    ensures Follows(p.bathrooms, u.bathrooms, q.bathrooms)
    ensures Follows(p.squareFeet, u.squareFeet, q.squareFeet)
    ensures Follows(p.propertyType, u.propertyType, q.propertyType)
    ensures Follows(p.amenities, u.amenities, q.amenities)
    ensures Follows(p.photos, u.photos, q.photos)
    ensures Follows(p.status, u.status, q.status)
    ensures q.city == p.city && q.state == p.state && q.country == p.country
  {
    PropertyCreate(
      Patched(p.title, u.title), Patched(p.description, u.description),
      Patched(p.rentAmount, u.rentAmount), Patched(p.securityDeposit, u.securityDeposit),
      Patched(p.location, u.location), Patched(p.address, u.address),
      p.city, p.state, p.country,
      Patched(p.bedrooms, u.bedrooms), Patched(p.bathrooms, u.bathrooms),
      Patched(p.squareFeet, u.squareFeet), Patched(p.propertyType, u.propertyType),
      Patched(p.amenities, u.amenities), Patched(p.photos, u.photos),
      Patched(p.status, u.status))
  }

  /** A valid update of a valid listing keeps it within the creation bounds,
      except possibly for the location length, which updates do not check. */
  lemma ValidUpdateKeepsBounds(p: PropertyCreate, u: PropertyUpdate)
    requires ValidPropertyCreate(p) && ValidPropertyUpdate(u)
    requires u.location.Unset?
    ensures ValidPropertyCreate(ApplyUpdate(p, u))
  {
  }

  /** The paging fields of `PropertySearch`. */
  const DefaultPage: int := 1
  const DefaultLimit: int := 20
  const MaxLimit: int := 100

  datatype PropertySearch = PropertySearch(
    location: Option<string>,
    minBudget: Option<int>,
    maxBudget: Option<int>,
    bedrooms: Option<int>,
    bathrooms: Option<int>,
    propertyType: Option<PropertyType>,
    sort: SortOrder,
    page: int,
    limit: int)

  /** The bounds of `PropertySearch`. */
  predicate ValidPropertySearch(q: PropertySearch)
  {
    q.page >= 1 && 1 <= q.limit <= MaxLimit
    && (q.minBudget.Some? ==> q.minBudget.value >= 0)
    && (q.maxBudget.Some? ==> q.maxBudget.value >= 0)
    && (q.bedrooms.Some? ==> q.bedrooms.value >= 0)
    && (q.bathrooms.Some? ==> q.bathrooms.value >= 1)
  }

  /** A search with no parameters: newest first, first page of 20. */
  const DefaultSearch: PropertySearch := PropertySearch(None, None, None, None, None, None, Newest, DefaultPage, DefaultLimit)

  lemma DefaultSearchValid()
    ensures ValidPropertySearch(DefaultSearch)
    ensures DefaultSearch.limit == 20 && DefaultSearch.page == 1 && DefaultSearch.sort == Newest
  {
  }
}
