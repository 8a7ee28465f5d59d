/**
 * `fromUri`: reading a discovery descriptor back from a deep link. Each
 * recognised query parameter that parses overwrites its slot of the
 * initial builder, in a fixed order; a categories or places path seeds
 * `categoryParam` or `locationParam` from the last path segment before the
 * `category_id` or `location_id` parameter gets its turn.
 */
module UriDecoding {
  import opened Wrappers
  import opened Decimal
  import opened DiscoveryParams
  import opened QueryEncoding
  import opened Builders

  /** The parts of a link the decoder reads: the path, its last segment, and one value per query parameter name. */
  datatype Uri = Uri(path: string, lastPathSegment: Option<string>, query: map<string, string>)

  /** `getQueryParameter`: the value of the named parameter, or `None` when the link has none. */
  function QueryParameter(uri: Uri, name: string): Option<string>
  {
    if name in uri.query then Some(uri.query[name]) else None
  }

  /**
   * The helpers the decoder calls but does not define: the lenient parsers
   * (which are also handed a missing parameter) and the two path tests.
   */
  datatype Collaborators = Collaborators(
    toInteger: Option<string> -> Option<int>,
    toBoolean: Option<string> -> Option<bool>,
    isDiscoverCategoriesPath: string -> bool,
    isDiscoverPlacesPath: string -> bool)

  function ParsedInt(env: Collaborators, uri: Uri, name: string): Option<int>
  {
    env.toInteger(QueryParameter(uri, name))
  }

  function ParsedBool(env: Collaborators, uri: Uri, name: string): Option<bool>
  {
    env.toBoolean(QueryParameter(uri, name))
  }

  /**
   * The sort a `sort` parameter names. A missing parameter, and a token
   * `Sort.fromString` rejects (its `AssertionError` is caught), give `None`.
   */
  function ParsedSort(uri: Uri): (r: Option<Sort>)
    ensures r.Some? <==> QueryParameter(uri, "sort").Some? && QueryParameter(uri, "sort").value in SortTokens
    ensures forall s :: r == Some(s) ==> QueryParameter(uri, "sort") == Some(SortToken(s))
  {
    match QueryParameter(uri, "sort")
    case None => None
    case Some(token) => SortFromToken(token)
  }

  /** What a categories path leaves in `categoryParam` before the query parameter is read. */
  function PathCategory(env: Collaborators, uri: Uri, prior: Option<string>): Option<string>
  {
    if env.isDiscoverCategoriesPath(uri.path) then uri.lastPathSegment else prior
  }

  /** What a places path leaves in `locationParam` before the query parameter is read. */
  function PathLocation(env: Collaborators, uri: Uri, prior: Option<string>): Option<string>
  {
    if env.isDiscoverPlacesPath(uri.path) then uri.lastPathSegment else prior
  }

  /**
   * `fromUri(uri, initialBuilder)` on values: the guarded setter calls in
   * the source's order, applied to the descriptor `init` the builder holds.
   */
  function Decode(env: Collaborators, uri: Uri, init: Params): (r: Params)
    ensures r.category == init.category && r.location == init.location && r.similarTo == init.similarTo
    ensures LayeredOver(r.backed, ParsedInt(env, uri, "backed"), init.backed)
    ensures LayeredOver(r.categoryParam, QueryParameter(uri, "category_id"), PathCategory(env, uri, init.categoryParam))
    ensures LayeredOver(r.locationParam, QueryParameter(uri, "location_id"), PathLocation(env, uri, init.locationParam))
    ensures LayeredOver(r.page, ParsedInt(env, uri, "page"), init.page)
    ensures LayeredOver(r.perPage, ParsedInt(env, uri, "per_page"), init.perPage)
    ensures LayeredOver(r.recommended, ParsedBool(env, uri, "recommended"), init.recommended)
    ensures LayeredOver(r.social, ParsedInt(env, uri, "social"), init.social)
    ensures LayeredOver(r.staffPicks, ParsedBool(env, uri, "staff_picks"), init.staffPicks)
    ensures LayeredOver(r.sort, ParsedSort(uri), init.sort)
    ensures LayeredOver(r.starred, ParsedInt(env, uri, "starred"), init.starred)
    ensures LayeredOver(r.term, QueryParameter(uri, "term"), init.term)
  {
    var b := init.(backed := Overlay(ParsedInt(env, uri, "backed"), init.backed));
    var b := b.(categoryParam := PathCategory(env, uri, b.categoryParam));
    var b := b.(categoryParam := Overlay(QueryParameter(uri, "category_id"), b.categoryParam));
    var b := b.(locationParam := PathLocation(env, uri, b.locationParam));
    var b := b.(locationParam := Overlay(QueryParameter(uri, "location_id"), b.locationParam));
    var b := b.(page := Overlay(ParsedInt(env, uri, "page"), b.page));
    var b := b.(perPage := Overlay(ParsedInt(env, uri, "per_page"), b.perPage));
    var b := b.(recommended := Overlay(ParsedBool(env, uri, "recommended"), b.recommended));
    var b := b.(social := Overlay(ParsedInt(env, uri, "social"), b.social));
    var b := b.(staffPicks := Overlay(ParsedBool(env, uri, "staff_picks"), b.staffPicks));
    var b := b.(sort := Overlay(ParsedSort(uri), b.sort));
    var b := b.(starred := Overlay(ParsedInt(env, uri, "starred"), b.starred));
    b.(term := Overlay(QueryParameter(uri, "term"), b.term))
  }

  /**
   * `fromUri(uri, initialBuilder)`: runs the setters on the builder it is
   * handed (which is therefore changed too) and builds the result. Each
   * guarded `if (x != null) builder.x(x)` is a setter call with the
   * overlaid value.
   */
  method FromUriOnto(env: Collaborators, uri: Uri, initialBuilder: Builder) returns (p: Params)
    modifies initialBuilder
    ensures p == Decode(env, uri, old(initialBuilder.Build()))
    ensures initialBuilder.Build() == p
  {
    var builder := initialBuilder;
    builder := builder.SetBacked(Overlay(ParsedInt(env, uri, "backed"), builder.backed));
    if env.isDiscoverCategoriesPath(uri.path) {
      builder := builder.SetCategoryParam(uri.lastPathSegment);
    }
    builder := builder.SetCategoryParam(Overlay(QueryParameter(uri, "category_id"), builder.categoryParam));
    if env.isDiscoverPlacesPath(uri.path) {
      builder := builder.SetLocationParam(uri.lastPathSegment);
    }
    builder := builder.SetLocationParam(Overlay(QueryParameter(uri, "location_id"), builder.locationParam));
    builder := builder.SetPage(Overlay(ParsedInt(env, uri, "page"), builder.page));
    builder := builder.SetPerPage(Overlay(ParsedInt(env, uri, "per_page"), builder.perPage));
    builder := builder.SetRecommended(Overlay(ParsedBool(env, uri, "recommended"), builder.recommended));
    builder := builder.SetSocial(Overlay(ParsedInt(env, uri, "social"), builder.social));
    builder := builder.SetStaffPicks(Overlay(ParsedBool(env, uri, "staff_picks"), builder.staffPicks));
    builder := builder.SetSort(Overlay(ParsedSort(uri), builder.sort));
    builder := builder.SetStarred(Overlay(ParsedInt(env, uri, "starred"), builder.starred));
    builder := builder.SetTerm(Overlay(QueryParameter(uri, "term"), builder.term));
    p := builder.Build();
  }

  /**
   * `fromUri(uri)`: decodes onto a fresh `builder()`, so a link that is
   * silent about paging or sort gets page 1, 15 per page and magic sort, and
   * the three entity fields stay unset.
   */
  method FromUri(env: Collaborators, uri: Uri) returns (p: Params)
    ensures p == Decode(env, uri, Defaults)
    ensures ParsedInt(env, uri, "page").None? ==> p.page == Some(1)
    ensures ParsedInt(env, uri, "per_page").None? ==> p.perPage == Some(15)
    ensures ParsedSort(uri).None? ==> p.sort == Some(Magic)
    ensures p.category.None? && p.location.None? && p.similarTo.None?
  {
    var builder := NewBuilder();
    p := FromUriOnto(env, uri, builder);
  }

  // ---------------------------------------------------------------------
  // Decoding what the encoder wrote

  /**
   * The five `Integer` fields hold values a Java `Integer` can hold, as
   * every descriptor the program builds does.
   */
  predicate IntegerFieldsFit(p: Params)
  {
    && (p.backed.Some? ==> IsJavaInt(p.backed.value))
    && (p.page.Some? ==> IsJavaInt(p.page.value))
    && (p.perPage.Some? ==> IsJavaInt(p.perPage.value))
    && (p.social.Some? ==> IsJavaInt(p.social.value))
    && (p.starred.Some? ==> IsJavaInt(p.starred.value))
  }

  /**
   * `toInteger` gives nothing for a missing parameter and reads back the
   * decimal rendering of every value a Java `Integer` can hold.
   */
  ghost predicate IntegerParserInvertsDecimal(env: Collaborators)
  {
    && env.toInteger(None) == None
    && (forall n | IsJavaInt(n) :: env.toInteger(Some(DecimalString(n))) == Some(n))
  }

  /** `toBoolean` gives nothing for a missing parameter and reads back "true" and "false". */
  ghost predicate BooleanParserInvertsBoolString(env: Collaborators)
  {
    && env.toBoolean(None) == None
    && (forall b :: env.toBoolean(Some(BoolString(b))) == Some(b))
  }

  /** The hypothesis under which the lenient parsers read back what the encoder writes. */
  ghost predicate ParsersInvertFormatters(env: Collaborators)
  {
    IntegerParserInvertsDecimal(env) && BooleanParserInvertsBoolString(env)
  }

  /**
   * A reference `toInteger`: a decimal that `ParseDecimal` reads and that
   * fits a Java `Integer`; anything else, a missing parameter included, is
   * nothing.
   */
  function ReferenceToInteger(s: Option<string>): (r: Option<int>)
    ensures r.Some? ==> IsJavaInt(r.value)
    ensures r.Some? ==> s.Some? && ParseDecimal(s.value) == r
  {
    match s
    case None => None
    case Some(t) =>
      var n := ParseDecimal(t);
      if n.Some? && IsJavaInt(n.value) then n else None
  }

  function ReferenceToBoolean(s: Option<string>): Option<bool>
  {
    match s
    case None => None
    case Some(t) => if t == "true" then Some(true) else if t == "false" then Some(false) else None
  }

  /** Reference parsers built on `ParseDecimal`, with no path recognised. */
  const ReferenceCollaborators: Collaborators :=
    Collaborators(ReferenceToInteger, ReferenceToBoolean, path => false, path => false)

  /**
   * The round-trip hypothesis can be met by parsers whose results all fit a
   * Java `Integer`: the reference parsers meet it.
   */
  lemma ReferenceCollaboratorsInvertFormatters()
    ensures ParsersInvertFormatters(ReferenceCollaborators)
    ensures forall s :: ReferenceCollaborators.toInteger(s).Some? ==> IsJavaInt(ReferenceCollaborators.toInteger(s).value)
  {
    forall n | IsJavaInt(n) ensures ReferenceToInteger(Some(DecimalString(n))) == Some(n) {
      ParseDecimalInvertsDecimalString(n);
    }
  }

  /**
   * The link's query carries exactly what the encoder writes for `p`: each
   * key's wire name holds the table's value, and no other name is present.
   */
  predicate CarriesEncoding(uri: Uri, p: Params)
  {
    CarriesKeys(uri, p) && OnlyKeyNames(uri)
  }

  /** Each key's wire name holds the table's value for `p`. */
  predicate CarriesKeys(uri: Uri, p: Params)
  {
    forall k :: QueryParameter(uri, KeyName(k)) == Entry(p, k)
  }

  /** Every parameter the link has is named after a key. */
  predicate OnlyKeyNames(uri: Uri)
  {
    forall name | name in uri.query :: KeyNamed(name).Some?
  }

  /** A link whose query is the encoded map carries the encoding, whatever its path. */
  lemma WireCarriesEncoding(p: Params, path: string, segment: Option<string>)
    ensures CarriesEncoding(Uri(path, segment, Wire(Encode(p))), p)
  {
  }

  lemma IntParsesBack(env: Collaborators, v: Option<int>)
    requires IntegerParserInvertsDecimal(env)
    requires v.Some? ==> IsJavaInt(v.value)
    ensures env.toInteger(IntEntry(v)) == v
  {
  }

  lemma BoolParsesBack(env: Collaborators, v: Option<bool>)
    requires BooleanParserInvertsBoolString(env)
    ensures env.toBoolean(BoolEntry(v)) == v
  {
  }

  lemma IntParameterParsesBack(env: Collaborators, p: Params, uri: Uri, k: QueryKey, v: Option<int>)
    requires IntegerParserInvertsDecimal(env)
    requires CarriesKeys(uri, p)
    requires v.Some? ==> IsJavaInt(v.value)
    requires Entry(p, k) == IntEntry(v)
    ensures env.toInteger(QueryParameter(uri, KeyName(k))) == v
  {
    IntParsesBack(env, v);
  }

  lemma BoolParameterParsesBack(env: Collaborators, p: Params, uri: Uri, k: QueryKey, v: Option<bool>)
    requires BooleanParserInvertsBoolString(env)
    requires CarriesKeys(uri, p)
    requires Entry(p, k) == BoolEntry(v)
    ensures env.toBoolean(QueryParameter(uri, KeyName(k))) == v
  {
    BoolParsesBack(env, v);
  }

  /** Each integer parameter the encoder wrote parses back to its field. */
  lemma IntParametersParseBack(env: Collaborators, p: Params, uri: Uri)
    requires IntegerParserInvertsDecimal(env)
    requires IntegerFieldsFit(p)
    requires CarriesKeys(uri, p)
    ensures ParsedInt(env, uri, "backed") == p.backed
    ensures ParsedInt(env, uri, "page") == p.page
    ensures ParsedInt(env, uri, "per_page") == p.perPage
    ensures ParsedInt(env, uri, "social") == p.social
    ensures ParsedInt(env, uri, "starred") == p.starred
  {
    IntParameterParsesBack(env, p, uri, Backed, p.backed);
    IntParameterParsesBack(env, p, uri, Page, p.page);
    IntParameterParsesBack(env, p, uri, PerPage, p.perPage);
    IntParameterParsesBack(env, p, uri, Social, p.social);
    IntParameterParsesBack(env, p, uri, Starred, p.starred);
  }

  /** The boolean and sort parameters parse back to their fields. */
  lemma FlagParametersParseBack(env: Collaborators, p: Params, uri: Uri)
    requires BooleanParserInvertsBoolString(env)
    requires CarriesKeys(uri, p)
    ensures ParsedBool(env, uri, "staff_picks") == p.staffPicks
    ensures ParsedBool(env, uri, "recommended") == p.recommended
    ensures ParsedSort(uri) == p.sort
  {
    BoolParameterParsesBack(env, p, uri, StaffPicks, p.staffPicks);
    BoolParameterParsesBack(env, p, uri, Recommended, p.recommended);
    assert QueryParameter(uri, KeyName(SortKey)) == Entry(p, SortKey);
  }

  /** `location_id` and `term` name no key: the encoder writes `woe_id` and `q` instead. */
  lemma DecoderOnlyNamesAreNotKeyNames()
    ensures KeyNamed("location_id").None? && KeyNamed("term").None?
  {
  }

  /**
   * `category_id` reads back as the table's value; `location_id` and `term`
   * are missing.
   */
  lemma IdParametersReadBack(p: Params, uri: Uri)
    requires CarriesEncoding(uri, p)
    ensures QueryParameter(uri, "category_id") == Entry(p, CategoryId)
    ensures QueryParameter(uri, "location_id").None? && QueryParameter(uri, "term").None?
  {
    assert QueryParameter(uri, KeyName(CategoryId)) == Entry(p, CategoryId);
    DecoderOnlyNamesAreNotKeyNames();
    assert "location_id" !in uri.query && "term" !in uri.query;
  }

  /**
   * Decoding a link that carries the encoded descriptor `p` (whose integer
   * fields fit a Java `Integer`), on any path, restores `backed`, `page`,
   * `perPage`, `social`, `starred`, `staffPicks`, `recommended` and `sort`,
   * leaving `init`'s value where `p` has none. `category_id` (the raw
   * parameter, or else the category's id) comes back as `categoryParam`,
   * over what a categories path seeds, never as the category entity. The
   * location and the search term do not come back: the encoder writes
   * `woe_id` and `q`, the decoder reads `location_id` and `term`, so
   * `locationParam` holds only what a places path seeds. The decoder never
   * reads `similar_to`.
   */
  lemma DecodeEncodeRoundTrip(env: Collaborators, p: Params, init: Params, uri: Uri)
    requires ParsersInvertFormatters(env)
    requires IntegerFieldsFit(p)
    requires CarriesEncoding(uri, p)
    ensures var r := Decode(env, uri, init);
      && r.backed == Overlay(p.backed, init.backed)
      && r.page == Overlay(p.page, init.page)
      && r.perPage == Overlay(p.perPage, init.perPage)
      && r.social == Overlay(p.social, init.social)
      && r.starred == Overlay(p.starred, init.starred)
      && r.staffPicks == Overlay(p.staffPicks, init.staffPicks)
      && r.recommended == Overlay(p.recommended, init.recommended)
      && r.sort == Overlay(p.sort, init.sort)
      && r.categoryParam == Overlay(Entry(p, CategoryId), PathCategory(env, uri, init.categoryParam))
      && r.locationParam == PathLocation(env, uri, init.locationParam)
      && r.term == init.term
      && r.category == init.category && r.location == init.location && r.similarTo == init.similarTo
  {
    IntParametersParseBack(env, p, uri);
    FlagParametersParseBack(env, p, uri);
    IdParametersReadBack(p, uri);
  }

  /** Applying the same link twice gives what applying it once gives. */
  lemma DecodeIdempotent(env: Collaborators, uri: Uri, init: Params)
    ensures Decode(env, uri, Decode(env, uri, init)) == Decode(env, uri, init)
  {
  }
}
