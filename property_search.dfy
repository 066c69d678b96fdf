/**
 * The property search page of src/components/search/PropertySearch.tsx:
 * the filter over the loaded properties, the category / type table and the
 * reset of the type when the category changes.
 *
 * The price selection is one of the fixed options, so it is held already
 * parsed: `None` for "Any Price", else the limit.
 */
module PropertySearch {
  import opened Wrappers
  import opened Seqs
  import opened Text
  import opened PropertyTypes

  /** `PROPERTY_TYPES`. */
  function TypesOf(category: PropertyCategory): (r: seq<string>)
    ensures |r| == 4
  {
    match category
    case Residential => ["house", "condo", "townhouse", "apartment"]
    case Commercial => ["office", "retail", "industrial", "warehouse"]
  }

  /** The price options other than "Any Price". */
  const PriceLimits: seq<int> := [500000, 750000, 1000000, 1500000]

  /** The current selections of the page. */
  datatype Criteria = Criteria(
    query: string,
    area: string,
    category: PropertyCategory,
    propertyType: string,
    priceLimit: Option<int>)

  predicate MatchesQuery(p: Property, query: string) {
    ContainsIgnoringCase(p.title, query) || ContainsIgnoringCase(p.address, query)
  }

  predicate MatchesArea(p: Property, area: string) {
    area == "" || p.city == area
  }

  predicate MatchesType(p: Property, propertyType: string) {
    propertyType == "" || p.propertyType == propertyType
  }

  predicate MatchesPrice(p: Property, limit: Option<int>) {
    limit.None? || p.price <= limit.value
  }

  /** The `filter` predicate: all five selections hold. The category select always has a value. */
  predicate Matches(p: Property, c: Criteria) {
    MatchesQuery(p, c.query) && MatchesArea(p, c.area) && p.category == c.category &&
    MatchesType(p, c.propertyType) && MatchesPrice(p, c.priceLimit)
  }

  /** `filteredProperties`: the properties meeting every selection, in their order. */
  function FilteredProperties(properties: seq<Property>, c: Criteria): (r: seq<Property>)
    ensures IsSubsequence(r, properties)
    ensures forall p :: p in r <==> p in properties && Matches(p, c)
    ensures forall p :: multiset(r)[p] == if Matches(p, c) then multiset(properties)[p] else 0
  {
    FilterIsSubsequence(properties, (p: Property) => Matches(p, c));
    FilterMembers(properties, (p: Property) => Matches(p, c));
    FilterCounts(properties, (p: Property) => Matches(p, c));
    Filter(properties, (p: Property) => Matches(p, c))
  }

  /** With an empty query, no area, no type and any price, only the category decides. */
  lemma EmptySelectionsKeepCategory(properties: seq<Property>, c: Criteria)
    requires c.query == "" && c.area == "" && c.propertyType == "" && c.priceLimit.None?
    ensures forall p :: p in properties ==> (p in FilteredProperties(properties, c) <==> p.category == c.category)
  {
    forall p | p in properties ensures Matches(p, c) <==> p.category == c.category {
      EmptyQueryMatches(p.title);
    }
  }

  /** The bound is inclusive: a price equal to the limit passes, one above it does not. */
  lemma PriceBoundInclusive(p: Property, limit: int)
    ensures MatchesPrice(p, Some(limit)) <==> p.price <= limit
    ensures p.price == limit ==> MatchesPrice(p, Some(limit))
  {
  }

  /** The page's selection state. */
  class SearchForm {
    var searchQuery: string
    var selectedArea: string
    var selectedCategory: PropertyCategory
    var selectedType: string
    var priceRange: Option<int>

    constructor ()
      ensures searchQuery == "" && selectedArea == "" && selectedCategory == Residential
      ensures selectedType == "" && priceRange == None
    {
      searchQuery := "";
      selectedArea := "";
      selectedCategory := Residential;
      selectedType := "";
      priceRange := None;
    }

    function Selection(): Criteria
      reads this
    {
      Criteria(searchQuery, selectedArea, selectedCategory, selectedType, priceRange)
    }

    /** The category select: a new category clears the type. */
    method ChangeCategory(category: PropertyCategory)
      modifies this
      ensures selectedCategory == category && selectedType == ""
      ensures searchQuery == old(searchQuery) && selectedArea == old(selectedArea) && priceRange == old(priceRange)
    {
      selectedCategory := category;
      selectedType := "";
    }

    method ChangeType(propertyType: string)
      modifies this
      ensures selectedType == propertyType
      ensures searchQuery == old(searchQuery) && selectedArea == old(selectedArea)
      ensures selectedCategory == old(selectedCategory) && priceRange == old(priceRange)
    {
      selectedType := propertyType;
    }

    /** The search box. */
    method ChangeQuery(query: string)
      modifies this
      ensures searchQuery == query
      ensures selectedArea == old(selectedArea) && selectedCategory == old(selectedCategory)
      ensures selectedType == old(selectedType) && priceRange == old(priceRange)
    {
      searchQuery := query;
    }

    /** The area selector; the empty area is "all areas". */
    method ChangeArea(area: string)
      modifies this
      ensures selectedArea == area
      ensures searchQuery == old(searchQuery) && selectedCategory == old(selectedCategory)
      ensures selectedType == old(selectedType) && priceRange == old(priceRange)
    {
      selectedArea := area;
    }

    /** The price select: "Any Price" is `None`, every other option one of the listed limits. */
    method ChangePrice(limit: Option<int>)
      requires limit.None? || limit.value in PriceLimits
      modifies this
      ensures priceRange == limit
      ensures searchQuery == old(searchQuery) && selectedArea == old(selectedArea)
      ensures selectedCategory == old(selectedCategory) && selectedType == old(selectedType)
    {
      priceRange := limit;
    }

    /** The type options shown: "All Types" (the empty type) and the category's row of the table. */
    function OfferedTypes(): seq<string>
      reads this
    {
      [""] + TypesOf(selectedCategory)
    }
  }

  /** No type of one category is offered for the other. */
  lemma TypeTablesDisjoint(t: string)
    ensures !(t in TypesOf(Residential) && t in TypesOf(Commercial))
  {
  }
}
