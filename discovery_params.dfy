/**
 * The discovery descriptor: fourteen independently optional filter and
 * pagination fields, the sort-token codec, the layered merge, paging and
 * the choice of a filter label.
 */
module DiscoveryParams {
  import opened Wrappers

  /** The entities a descriptor refers to, reduced to an id and a name. */
  datatype Category = Category(id: int, name: string)
  datatype Location = Location(id: int, displayableName: string)
  datatype Project = Project(id: int, name: string)

  datatype Sort = Magic | Popular | EndingSoon | Newest | MostFunded

  /** Every field may be absent (`None`), just as every getter may return null. */
  datatype Params = Params(
    backed: Option<int>,
    category: Option<Category>,
    categoryParam: Option<string>,
    location: Option<Location>,
    locationParam: Option<string>,
    page: Option<int>,
    perPage: Option<int>,
    staffPicks: Option<bool>,
    starred: Option<int>,
    social: Option<int>,
    sort: Option<Sort>,
    recommended: Option<bool>,
    similarTo: Option<Project>,
    term: Option<string>)

  /** The descriptor with no field set. */
  const Unset: Params :=
    Params(None, None, None, None, None, None, None, None, None, None, None, None, None, None)

  /** The state `builder()` seeds: page 1, 15 per page, magic sort. */
  const Defaults: Params := Unset.(page := Some(1), perPage := Some(15), sort := Some(Magic))

  // ---------------------------------------------------------------------
  // Sort codec

  /** The five wire tokens, and nothing else, name a sort. */
  const SortTokens: set<string> := {"magic", "popularity", "end_date", "newest", "most_funded"}

  /** `Sort.toString`: the wire token of a sort, which `Sort.fromString` reads back. */
  function SortToken(s: Sort): (r: string)
    ensures r in SortTokens
    ensures SortFromToken(r) == Some(s)
  {
    match s
    case Magic => "magic"
    case Popular => "popularity"
    case EndingSoon => "end_date"
    case Newest => "newest"
    case MostFunded => "most_funded"
  }

  /** `Sort.fromString`; `None` is the `AssertionError` thrown for any other token. */
  function SortFromToken(t: string): (r: Option<Sort>)
    ensures r.Some? <==> t in SortTokens
  {
    match t
    case "magic" => Some(Magic)
    case "popularity" => Some(Popular)
    case "end_date" => Some(EndingSoon)
    case "newest" => Some(Newest)
    case "most_funded" => Some(MostFunded)
    case _ => None
  }

  /** `Sort.fromString` yields a sort exactly for that sort's own token. */
  lemma SortFromTokenInvertsSortToken(t: string)
    ensures forall s :: SortFromToken(t) == Some(s) <==> SortToken(s) == t
  {
  }

  // ---------------------------------------------------------------------
  // Merge

  /**
   * `Builder.mergeWith`, on the builders' snapshots: each field present on
   * `other` replaces the base's; `locationParam` is the one field never copied.
   */
  function Merge(base: Params, other: Params): (r: Params)
    ensures LayeredOver(r.backed, other.backed, base.backed)
    ensures LayeredOver(r.category, other.category, base.category)
    ensures LayeredOver(r.categoryParam, other.categoryParam, base.categoryParam)
    ensures LayeredOver(r.location, other.location, base.location)
    ensures r.locationParam == base.locationParam
    ensures LayeredOver(r.page, other.page, base.page)
    ensures LayeredOver(r.perPage, other.perPage, base.perPage)
    ensures LayeredOver(r.social, other.social, base.social)
    ensures LayeredOver(r.staffPicks, other.staffPicks, base.staffPicks)
    ensures LayeredOver(r.starred, other.starred, base.starred)
    ensures LayeredOver(r.sort, other.sort, base.sort)
    ensures LayeredOver(r.recommended, other.recommended, base.recommended)
    ensures LayeredOver(r.similarTo, other.similarTo, base.similarTo)
    ensures LayeredOver(r.term, other.term, base.term)
  {
    base.(
      backed := Overlay(other.backed, base.backed),
      category := Overlay(other.category, base.category),
      categoryParam := Overlay(other.categoryParam, base.categoryParam),
      location := Overlay(other.location, base.location),
      page := Overlay(other.page, base.page),
      perPage := Overlay(other.perPage, base.perPage),
      social := Overlay(other.social, base.social),
      staffPicks := Overlay(other.staffPicks, base.staffPicks),
      starred := Overlay(other.starred, base.starred),
      sort := Overlay(other.sort, base.sort),
      recommended := Overlay(other.recommended, base.recommended),
      similarTo := Overlay(other.similarTo, base.similarTo),
      term := Overlay(other.term, base.term))
  }

  /** Merging an override with nothing set leaves the base as it was. */
  lemma MergeUnsetIsIdentity(base: Params)
    ensures Merge(base, Unset) == base
  {
  }

  /** Merging a descriptor with itself changes nothing. */
  lemma MergeIdempotent(p: Params)
    ensures Merge(p, p) == p
  {
  }

  /** Layering two overrides one after the other equals layering their merge. */
  lemma MergeAssociative(a: Params, b: Params, c: Params)
    ensures Merge(Merge(a, b), c) == Merge(a, Merge(b, c))
  {
  }

  /** The override's `locationParam` is lost: the merge keeps the base's even when only the override has one. */
  lemma MergeDropsOverrideLocationParam(base: Params, other: Params)
    requires base.locationParam.None? && other.locationParam.Some?
    ensures Merge(base, other).locationParam.None?
  {
  }

  // ---------------------------------------------------------------------
  // Paging

  /**
   * `nextPage`: with a page, the next one and every other field equal;
   * without a page, the descriptor itself.
   */
  function NextPage(p: Params): (r: Params)
    ensures p.page.None? ==> r == p
    ensures p.page.Some? ==> r.page == Some(p.page.value + 1)
    ensures r.(page := p.page) == p
  {
    match p.page
    case None => p
    case Some(n) => p.(page := Some(n + 1))
  }

  // ---------------------------------------------------------------------
  // Display helpers

  /** The localised strings `filterString` may choose; their text is not modelled. */
  datatype LabelResource = DiscoveryRecommended | DiscoverySaved | DiscoveryBacking
                         | DiscoveryFriendsBacked | DiscoveryEverything

  /** A label is either a localised resource or a name taken from an entity. */
  datatype FilterLabel = Localized(resource: LabelResource) | Literal(text: string)

  /** True when one of the four toggles that outrank entity names is on. */
  predicate ToggleChosen(p: Params)
  {
    p.staffPicks == Some(true) || p.starred == Some(1) || p.backed == Some(1) || p.social == Some(1)
  }

  /**
   * `filterString`: staff picks, then starred, then backed, then social,
   * then the category's name, then the location's name, then "everything".
   */
  function FilterString(p: Params): (r: FilterLabel)
    ensures r == Localized(DiscoveryRecommended) <==> p.staffPicks == Some(true)
    ensures r == Localized(DiscoverySaved) <==> p.staffPicks != Some(true) && p.starred == Some(1)
    ensures r == Localized(DiscoveryBacking) <==>
              p.staffPicks != Some(true) && p.starred != Some(1) && p.backed == Some(1)
    ensures r == Localized(DiscoveryFriendsBacked) <==>
              p.staffPicks != Some(true) && p.starred != Some(1) && p.backed != Some(1) && p.social == Some(1)
    ensures r.Literal? <==> !ToggleChosen(p) && (p.category.Some? || p.location.Some?)
    ensures !ToggleChosen(p) && p.category.Some? ==> r == Literal(p.category.value.name)
    ensures !ToggleChosen(p) && p.category.None? && p.location.Some? ==>
              r == Literal(p.location.value.displayableName)
    ensures r == Localized(DiscoveryEverything) <==>
              !ToggleChosen(p) && p.category.None? && p.location.None?
  {
    if p.staffPicks.Some? && p.staffPicks.value then Localized(DiscoveryRecommended)
    else if p.starred.Some? && p.starred.value == 1 then Localized(DiscoverySaved)
    else if p.backed.Some? && p.backed.value == 1 then Localized(DiscoveryBacking)
    else if p.social.Some? && p.social.value == 1 then Localized(DiscoveryFriendsBacked)
    else if p.category.Some? then Literal(p.category.value.name)
    else if p.location.Some? then Literal(p.location.value.displayableName)
    else Localized(DiscoveryEverything)
  }

  /** `isCategorySet`: only the category entity counts, not the raw `categoryParam`. */
  predicate IsCategorySet(p: Params)
  {
    p.category.Some?
  }

  /**
   * A raw `categoryParam` neither sets nor clears the category, and a merge
   * has a category exactly when one of its two sides does.
   */
  lemma IsCategorySetIgnoresCategoryParam(p: Params, param: Option<string>, other: Params)
    ensures IsCategorySet(p.(categoryParam := param)) <==> IsCategorySet(p)
    ensures IsCategorySet(Merge(p, other)) <==> IsCategorySet(p) || IsCategorySet(other)
  {
  }
}
