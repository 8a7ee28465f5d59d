/**
 * `queryParams`: the descriptor as a map from query parameter to value.
 * `Entry` is the declarative table (which field feeds which key, which field
 * wins a shared key, which flags are derived) and `Encode` the map it
 * describes. `SourceOrderPuts` performs the source's sixteen conditional
 * puts in the source's order, and the method `QueryParams` does the same on
 * a local map. The lemmas prove that the puts produce the table and state
 * the encoder's rules; `Wire` names the keys as the request spells them.
 */
module QueryEncoding {
  import opened Wrappers
  import opened Decimal
  import opened DiscoveryParams

  /** `String.valueOf(boolean)`. */
  function BoolString(b: bool): string
  {
    if b then "true" else "false"
  }

  function IntEntry(v: Option<int>): Option<string>
  {
    match v
    case None => None
    case Some(n) => Some(DecimalString(n))
  }

  function BoolEntry(v: Option<bool>): Option<string>
  {
    match v
    case None => None
    case Some(b) => Some(BoolString(b))
  }

  /** The fourteen query parameters the encoder can write. */
  datatype QueryKey =
    | Backed | CategoryId | WoeId | Page | PerPage | Recommended | SimilarTo
    | Starred | Social | SortKey | StaffPicks | Q | IncludePotd | IncludeFeatured

  /** The parameter's name on the wire. */
  function KeyName(k: QueryKey): string
  {
    match k
    case Backed => "backed"
    case CategoryId => "category_id"
    case WoeId => "woe_id"
    case Page => "page"
    case PerPage => "per_page"
    case Recommended => "recommended"
    case SimilarTo => "similar_to"
    case Starred => "starred"
    case Social => "social"
    case SortKey => "sort"
    case StaffPicks => "staff_picks"
    case Q => "q"
    case IncludePotd => "include_potd"
    case IncludeFeatured => "include_featured"
  }

  /** The key a wire name denotes, if any; every key has exactly one name. */
  function KeyNamed(name: string): (r: Option<QueryKey>)
    ensures forall k :: r == Some(k) <==> KeyName(k) == name
  {
    match name
    case "backed" => Some(Backed)
    case "category_id" => Some(CategoryId)
    case "woe_id" => Some(WoeId)
    case "page" => Some(Page)
    case "per_page" => Some(PerPage)
    case "recommended" => Some(Recommended)
    case "similar_to" => Some(SimilarTo)
    case "starred" => Some(Starred)
    case "social" => Some(Social)
    case "sort" => Some(SortKey)
    case "staff_picks" => Some(StaffPicks)
    case "q" => Some(Q)
    case "include_potd" => Some(IncludePotd)
    case "include_featured" => Some(IncludeFeatured)
    case _ => None
  }

  /** True exactly on the first page. */
  predicate OnFirstPage(p: Params)
  {
    p.page == Some(1)
  }

  /** The category entity's id, the first candidate for `category_id`. */
  function CategoryIdOf(p: Params): Option<string>
  {
    if p.category.Some? then Some(DecimalString(p.category.value.id)) else None
  }

  /** The location entity's id, the first candidate for `woe_id`. */
  function WoeIdOf(p: Params): Option<string>
  {
    if p.location.Some? then Some(DecimalString(p.location.value.id)) else None
  }

  function SimilarToOf(p: Params): Option<string>
  {
    if p.similarTo.Some? then Some(DecimalString(p.similarTo.value.id)) else None
  }

  function SortOf(p: Params): Option<string>
  {
    if p.sort.Some? then Some(SortToken(p.sort.value)) else None
  }

  /** `include_potd`: staff picks on the first page. */
  function PotdFlag(p: Params): Option<string>
  {
    if p.staffPicks == Some(true) && OnFirstPage(p) then Some("true") else None
  }

  /** `include_featured`: a category entity on the first page. */
  function FeaturedFlag(p: Params): Option<string>
  {
    if p.category.Some? && OnFirstPage(p) then Some("true") else None
  }

  /**
   * The table: the value the encoded map should hold for `key`, or `None`
   * when the key should be missing. `categoryParam` outranks `category`,
   * `locationParam` outranks `location`, and two flags are derived on the
   * first page.
   */
  function Entry(p: Params, key: QueryKey): Option<string>
  {
    match key
    case Backed => IntEntry(p.backed)
    case CategoryId => Overlay(p.categoryParam, CategoryIdOf(p))
    case WoeId => Overlay(p.locationParam, WoeIdOf(p))
    case Page => IntEntry(p.page)
    case PerPage => IntEntry(p.perPage)
    case Recommended => BoolEntry(p.recommended)
    case SimilarTo => SimilarToOf(p)
    case Starred => IntEntry(p.starred)
    case Social => IntEntry(p.social)
    case SortKey => SortOf(p)
    case StaffPicks => BoolEntry(p.staffPicks)
    case Q => p.term
    case IncludePotd => PotdFlag(p)
    case IncludeFeatured => FeaturedFlag(p)
  }

  /** The value `m` holds for `key`, or `None` when the key is missing. */
  function Lookup(m: map<QueryKey, string>, key: QueryKey): Option<string>
  {
    if key in m then Some(m[key]) else None
  }

  /**
   * `if (v != null) put(key, v)`: writes `key` when `v` is present, so a
   * later put to a key overwrites an earlier one; other keys are untouched.
   */
  function PutIfPresent(m: map<QueryKey, string>, key: QueryKey, v: Option<string>): (r: map<QueryKey, string>)
    ensures forall k {:trigger Lookup(r, k)} :: Lookup(r, k) == if k == key then Overlay(v, Lookup(m, k)) else Lookup(m, k)
  {
    if v.Some? then m[key := v.value] else m
  }

  /** Every key. */
  const AllKeys: set<QueryKey> :=
    {Backed, CategoryId, WoeId, Page, PerPage, Recommended, SimilarTo,
     Starred, Social, SortKey, StaffPicks, Q, IncludePotd, IncludeFeatured}

  /** The encoded descriptor: each key the table fills, with the table's value. */
  function Encode(p: Params): (r: map<QueryKey, string>)
    ensures forall k :: Lookup(r, k) == Entry(p, k)
  {
    map k | k in AllKeys && Entry(p, k).Some? :: Entry(p, k).value
  }

  /** The sixteen conditional puts of `queryParams` as one expression, in the source's order. */
  function SourceOrderPuts(p: Params): map<QueryKey, string>
  {
    var m := PutIfPresent(map[], Backed, IntEntry(p.backed));
    var m := PutIfPresent(m, CategoryId, CategoryIdOf(p));
    var m := PutIfPresent(m, CategoryId, p.categoryParam);
    var m := PutIfPresent(m, WoeId, WoeIdOf(p));
    var m := PutIfPresent(m, WoeId, p.locationParam);
    var m := PutIfPresent(m, Page, IntEntry(p.page));
    var m := PutIfPresent(m, PerPage, IntEntry(p.perPage));
    var m := PutIfPresent(m, Recommended, BoolEntry(p.recommended));
    var m := PutIfPresent(m, SimilarTo, SimilarToOf(p));
    var m := PutIfPresent(m, Starred, IntEntry(p.starred));
    var m := PutIfPresent(m, Social, IntEntry(p.social));
    var m := PutIfPresent(m, SortKey, SortOf(p));
    var m := PutIfPresent(m, StaffPicks, BoolEntry(p.staffPicks));
    var m := PutIfPresent(m, Q, p.term);
    var m := PutIfPresent(m, IncludePotd, PotdFlag(p));
    PutIfPresent(m, IncludeFeatured, FeaturedFlag(p))
  }

  /** The puts, taken in the source's order, leave at each key what the table prescribes. */
  lemma SourceOrderPutsMatchTable(p: Params, k: QueryKey)
    ensures Lookup(SourceOrderPuts(p), k) == Entry(p, k)
  {
    match k
    case Backed =>
    case CategoryId =>
    case WoeId =>
    case Page =>
    case PerPage =>
    case Recommended =>
    case SimilarTo =>
    case Starred =>
    case Social =>
    case SortKey =>
    case StaffPicks =>
    case Q =>
    case IncludePotd =>
    case IncludeFeatured =>
  }

  /** Distinct keys have distinct wire names. */
  lemma KeyNameInjective()
    ensures forall a, b :: KeyName(a) == KeyName(b) ==> a == b
  {
  }

  /** The map as the request sees it: keys by their wire names. */
  function Wire(m: map<QueryKey, string>): (r: map<string, string>)
    ensures forall k :: KeyName(k) in r <==> k in m
    ensures forall k :: k in m ==> r[KeyName(k)] == m[k]
    ensures forall name :: KeyNamed(name).None? ==> name !in r
  {
    KeyNameInjective();
    map k | k in m :: KeyName(k) := m[k]
  }

  /** Two maps with the same lookups are the same map. */
  lemma LookupExtensional(m1: map<QueryKey, string>, m2: map<QueryKey, string>)
    requires forall k :: Lookup(m1, k) == Lookup(m2, k)
    ensures m1 == m2
  {
    assert m1.Keys == m2.Keys by {
      forall k ensures k in m1 <==> k in m2 {
        assert Lookup(m1, k) == Lookup(m2, k);
      }
    }
    forall k | k in m1 ensures m1[k] == m2[k] {
      assert Lookup(m1, k) == Lookup(m2, k);
    }
  }

  /** Later puts overwrite earlier ones exactly so that the source's order yields the table. */
  lemma SourceOrderPutsIsEncode(p: Params)
    ensures SourceOrderPuts(p) == Encode(p)
  {
    forall k ensures Lookup(SourceOrderPuts(p), k) == Lookup(Encode(p), k) {
      SourceOrderPutsMatchTable(p, k);
    }
    LookupExtensional(SourceOrderPuts(p), Encode(p));
  }

  /**
   * `queryParams`: fills an empty map with the sixteen conditional puts.
   * The result holds exactly what the table prescribes for every key.
   */
  method QueryParams(p: Params) returns (m: map<QueryKey, string>)
    ensures forall k :: Lookup(m, k) == Entry(p, k)
    ensures m == Encode(p)
  {
    m := map[];
    m := PutIfPresent(m, Backed, IntEntry(p.backed));
    m := PutIfPresent(m, CategoryId, CategoryIdOf(p));
    m := PutIfPresent(m, CategoryId, p.categoryParam);
    m := PutIfPresent(m, WoeId, WoeIdOf(p));
    m := PutIfPresent(m, WoeId, p.locationParam);
    m := PutIfPresent(m, Page, IntEntry(p.page));
    m := PutIfPresent(m, PerPage, IntEntry(p.perPage));
    m := PutIfPresent(m, Recommended, BoolEntry(p.recommended));
    m := PutIfPresent(m, SimilarTo, SimilarToOf(p));
    m := PutIfPresent(m, Starred, IntEntry(p.starred));
    m := PutIfPresent(m, Social, IntEntry(p.social));
    m := PutIfPresent(m, SortKey, SortOf(p));
    m := PutIfPresent(m, StaffPicks, BoolEntry(p.staffPicks));
    m := PutIfPresent(m, Q, p.term);
    m := PutIfPresent(m, IncludePotd, PotdFlag(p));
    m := PutIfPresent(m, IncludeFeatured, FeaturedFlag(p));
    assert m == SourceOrderPuts(p);
    SourceOrderPutsIsEncode(p);
  }


  // ---------------------------------------------------------------------
  // The encoder's rules, stated on `Encode`

  /** An integer field contributes its key exactly when it is present. */
  lemma AbsentIntFieldsContributeNoKey(p: Params)
    ensures Backed in Encode(p) <==> p.backed.Some?
    ensures Page in Encode(p) <==> p.page.Some?
    ensures PerPage in Encode(p) <==> p.perPage.Some?
    ensures Starred in Encode(p) <==> p.starred.Some?
    ensures Social in Encode(p) <==> p.social.Some?
  {
  }

  /** Every other field with a key of its own contributes that key exactly when it is present. */
  lemma AbsentOtherFieldsContributeNoKey(p: Params)
    ensures Recommended in Encode(p) <==> p.recommended.Some?
    ensures SimilarTo in Encode(p) <==> p.similarTo.Some?
    ensures SortKey in Encode(p) <==> p.sort.Some?
    ensures StaffPicks in Encode(p) <==> p.staffPicks.Some?
    ensures Q in Encode(p) <==> p.term.Some?
  {
  }

  /** `categoryParam` wins `category_id` over the category entity's id. */
  lemma CategoryParamWinsCategoryId(p: Params)
    ensures CategoryId in Encode(p) <==> p.category.Some? || p.categoryParam.Some?
    ensures p.categoryParam.Some? ==> Encode(p)[CategoryId] == p.categoryParam.value
    ensures p.categoryParam.None? && p.category.Some? ==>
              Encode(p)[CategoryId] == DecimalString(p.category.value.id)
  {
  }

  /** `locationParam` wins `woe_id` over the location entity's id. */
  lemma LocationParamWinsWoeId(p: Params)
    ensures WoeId in Encode(p) <==> p.location.Some? || p.locationParam.Some?
    ensures p.locationParam.Some? ==> Encode(p)[WoeId] == p.locationParam.value
    ensures p.locationParam.None? && p.location.Some? ==>
              Encode(p)[WoeId] == DecimalString(p.location.value.id)
  {
  }

  /** The search term goes out verbatim under `q`; no parameter is named `term` or `location_id`. */
  lemma TermEncodedAsQ(p: Params)
    ensures p.term.Some? ==> "q" in Wire(Encode(p)) && Wire(Encode(p))["q"] == p.term.value
    ensures "term" !in Wire(Encode(p)) && "location_id" !in Wire(Encode(p))
  {
    assert Lookup(Encode(p), Q) == Entry(p, Q);
    assert KeyName(Q) == "q";
    assert KeyNamed("term").None? && KeyNamed("location_id").None?;
  }

  /** `include_potd` is requested exactly for staff picks on the first page. */
  lemma IncludePotdIffStaffPicksOnFirstPage(p: Params)
    ensures IncludePotd in Encode(p) <==> p.staffPicks == Some(true) && p.page == Some(1)
    ensures IncludePotd in Encode(p) ==> Encode(p)[IncludePotd] == "true"
  {
  }

  /** `include_featured` is requested exactly when a category entity is set and the page is the first. */
  lemma IncludeFeaturedIffCategorySetOnFirstPage(p: Params)
    ensures IncludeFeatured in Encode(p) <==> IsCategorySet(p) && p.page == Some(1)
    ensures IncludeFeatured in Encode(p) ==> Encode(p)[IncludeFeatured] == "true"
  {
  }

  lemma IntEntryInjective(a: Option<int>, b: Option<int>)
    requires IntEntry(a) == IntEntry(b)
    ensures a == b
  {
    if a.Some? && b.Some? {
      DecimalStringInjective(a.value, b.value);
    }
  }

  lemma BoolEntryInjective(a: Option<bool>, b: Option<bool>)
    requires BoolEntry(a) == BoolEntry(b)
    ensures a == b
  {
    if a.Some? && b.Some? {
      assert BoolString(a.value) == BoolString(b.value);
      assert |BoolString(a.value)| == |BoolString(b.value)|;
    }
  }

  lemma EncodeDeterminesIntFields(p: Params, q: Params)
    requires Encode(p) == Encode(q)
    ensures p.backed == q.backed && p.page == q.page && p.perPage == q.perPage
    ensures p.starred == q.starred && p.social == q.social
  {
    assert Entry(p, Backed) == Lookup(Encode(p), Backed) == Lookup(Encode(q), Backed) == Entry(q, Backed);
    assert Entry(p, Page) == Lookup(Encode(p), Page) == Lookup(Encode(q), Page) == Entry(q, Page);
    assert Entry(p, PerPage) == Lookup(Encode(p), PerPage) == Lookup(Encode(q), PerPage) == Entry(q, PerPage);
    assert Entry(p, Starred) == Lookup(Encode(p), Starred) == Lookup(Encode(q), Starred) == Entry(q, Starred);
    assert Entry(p, Social) == Lookup(Encode(p), Social) == Lookup(Encode(q), Social) == Entry(q, Social);
    IntEntryInjective(p.backed, q.backed);
    IntEntryInjective(p.page, q.page);
    IntEntryInjective(p.perPage, q.perPage);
    IntEntryInjective(p.starred, q.starred);
    IntEntryInjective(p.social, q.social);
  }

  lemma EncodeDeterminesFlagFields(p: Params, q: Params)
    requires Encode(p) == Encode(q)
    ensures p.sort == q.sort && p.staffPicks == q.staffPicks && p.recommended == q.recommended
    ensures p.term == q.term
  {
    assert Entry(p, SortKey) == Lookup(Encode(p), SortKey) == Lookup(Encode(q), SortKey) == Entry(q, SortKey);
    assert Entry(p, StaffPicks) == Lookup(Encode(p), StaffPicks) == Lookup(Encode(q), StaffPicks) == Entry(q, StaffPicks);
    assert Entry(p, Recommended) == Lookup(Encode(p), Recommended) == Lookup(Encode(q), Recommended) == Entry(q, Recommended);
    assert Entry(p, Q) == Lookup(Encode(p), Q) == Lookup(Encode(q), Q) == Entry(q, Q);
    BoolEntryInjective(p.staffPicks, q.staffPicks);
    BoolEntryInjective(p.recommended, q.recommended);
  }

  /**
   * The encoded map pins down every field that has a key of its own: two
   * descriptors with the same map agree on them, except that of
   * `similarTo` the map keeps only presence and id.
   */
  lemma EncodeDeterminesOwnKeyFields(p: Params, q: Params)
    requires Encode(p) == Encode(q)
    ensures p.backed == q.backed && p.page == q.page && p.perPage == q.perPage
    ensures p.starred == q.starred && p.social == q.social
    ensures p.sort == q.sort && p.staffPicks == q.staffPicks && p.recommended == q.recommended
    ensures p.term == q.term
    ensures p.similarTo.Some? <==> q.similarTo.Some?
    ensures p.similarTo.Some? ==> p.similarTo.value.id == q.similarTo.value.id
  {
    EncodeDeterminesIntFields(p, q);
    EncodeDeterminesFlagFields(p, q);
    assert Entry(p, SimilarTo) == Lookup(Encode(p), SimilarTo) == Lookup(Encode(q), SimilarTo) == Entry(q, SimilarTo);
    if p.similarTo.Some? && q.similarTo.Some? {
      DecimalStringInjective(p.similarTo.value.id, q.similarTo.value.id);
    }
  }

  /**
   * `categoryParam` and `category` share `category_id`: on a descriptor with
   * neither set and not on the first page (where the entity would add
   * `include_featured`), a raw parameter that spells the entity's id
   * encodes exactly like the entity.
   */
  lemma CategoryNotDeterminedByEncoding(p: Params, c: Category)
    requires p.category.None? && p.categoryParam.None? && p.page != Some(1)
    ensures Encode(p.(categoryParam := Some(DecimalString(c.id))))
         == Encode(p.(category := Some(c)))
  {
  }

  /** Between a page and the next, only `page` and the two first-page flags can change. */
  lemma NextPageChangesOnlyPageKeys(p: Params, k: QueryKey)
    requires k != Page && k != IncludePotd && k != IncludeFeatured
    ensures Lookup(Encode(NextPage(p)), k) == Lookup(Encode(p), k)
  {
  }

  /** The page after the first asks for page 2 and drops both first-page flags. */
  lemma NextPageDropsFirstPageFlags(p: Params)
    requires p.page == Some(1)
    ensures Lookup(Encode(NextPage(p)), Page) == Some(DecimalString(2))
    ensures IncludePotd !in Encode(NextPage(p)) && IncludeFeatured !in Encode(NextPage(p))
  {
  }
}
