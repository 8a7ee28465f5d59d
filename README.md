# DiscoveryParams, modelled in Dafny

`DiscoveryParams` is the filter and pagination descriptor behind the
Kickstarter Android app's discovery screens. It is a record of fourteen
independently optional fields: the backed/starred/social filters, a category
and a raw category parameter, a location and a raw location parameter,
paging, staff picks, sort, recommended, "similar to" and a search term.
Around that record the class offers:

- a sort enum with a wire token per value;
- a generated builder whose setters change a slot and return the builder,
  with `mergeWith` layering one builder over another;
- `builder()`, which seeds page 1, 15 per page and the magic sort;
- `fromUri`, which reads a descriptor back from a deep link;
- `nextPage`;
- `queryParams`, which turns the descriptor into the request's query map;
- `filterString` and `isCategorySet`, which choose the screen's label.

The project is split into six modules:

- `wrappers.dfy` (`Wrappers`): `Option`, which stands in for Java's null, and
  `Overlay`/`LayeredOver`, meaning "a present value wins, an absent one
  leaves what was there".
- `decimal.dfy` (`Decimal`): `String.valueOf(int)` as `DecimalString`, and a
  reference parser `ParseDecimal` proved to invert it.
- `discovery_params.dfy` (`DiscoveryParams`): the record, the defaults, the
  sort codec, the merge on values, `NextPage`, `FilterString` and
  `IsCategorySet`.
- `builders.dfy` (`Builders`): the builder as a class with one mutable slot per
  field. Its setters change the slot in place and return the same object.
  `MergeWith` mutates the receiver, and `NewBuilder` is `builder()`.
- `query_encoding.dfy` (`QueryEncoding`): the table `Entry` says, key by key,
  what the query map must hold, and `Encode` is that map.
  - `SourceOrderPuts` performs the sixteen conditional puts in the source's
    order, and `QueryParams` does the same on a local map. Both are proved
    equal to the table.
  - The encoder's rules are lemmas.
  - Keys are the enum `QueryKey`. `Wire` renames them to their wire names.
- `uri_decoding.dfy` (`UriDecoding`): a link is a record.
  - `Decode` is `fromUri` on values. `FromUriOnto` runs it imperatively on
    the caller's builder, and `FromUri` runs it on a fresh `builder()`.
  - The lemmas relate decoding to encoding.

The functions the decoder calls that are defined outside `DiscoveryParams`, in `ObjectUtils` and `KSUri`, are parameters of type
`Collaborators`: `ObjectUtils.toInteger`, `ObjectUtils.toBoolean`,
`KSUri.isDiscoverCategoriesPath` and `KSUri.isDiscoverPlacesPath`. The
decode/encode round trip is proved under the hypothesis
`ParsersInvertFormatters`: a missing parameter parses to nothing,
`toInteger` reads back the decimal rendering of every value a Java
`Integer` can hold, and `toBoolean` reads back "true" and "false". The
round trip is stated for descriptors whose five `Integer` fields lie in
Java's `Integer` range (`IntegerFieldsFit`). Reference parsers built on
`ParseDecimal`, whose integer results all fit an `Integer`, meet the
hypothesis.

The one-argument `fromUri(uri)` decodes onto `builder()` (line 151), so page
1, 15 per page and the magic sort are already set before the link is read:
see `UriDecoding.FromUri`.

The code also has four asymmetries, which the model keeps:

- `mergeWith` never copies `locationParam`.
- The decoder reads `location_id` and `term`, but the encoder writes `woe_id`
  and `q`. So a location and a search term do not survive an
  encode-then-decode trip.
- `category_id` does come back, but as the raw `categoryParam`, never as the
  category entity.
- The decoder never sets `category`, `location` or `similarTo`.

## Model

All source paths are `app/src/main/java/com/kickstarter/services/DiscoveryParams.java`.

| member | source | states |
|---|---|---|
| DiscoveryParams.SortToken | app/src/main/java/com/kickstarter/services/DiscoveryParams.java:43-57 | `toString` gives each sort one of the five tokens, and `fromString` reads that token back as the same sort |
| DiscoveryParams.SortFromToken | app/src/main/java/com/kickstarter/services/DiscoveryParams.java:59-73 | `fromString` succeeds exactly on the five tokens magic, popularity, end_date, newest and most_funded; every other string is the `AssertionError` (`None`) |
| DiscoveryParams.SortFromTokenInvertsSortToken | app/src/main/java/com/kickstarter/services/DiscoveryParams.java:43-73 | `fromString` yields sort `s` exactly when the input is `s`'s token, so the two switches are inverse to each other |
| DiscoveryParams.Merge | app/src/main/java/com/kickstarter/services/DiscoveryParams.java:172-217 | for each of the thirteen copied fields the override's value wins when present and the base's stays when the override's is null; `locationParam` is always the base's |
| DiscoveryParams.MergeUnsetIsIdentity | app/src/main/java/com/kickstarter/services/DiscoveryParams.java:172-217 | merging an override with no field set leaves the base unchanged |
| DiscoveryParams.MergeIdempotent | app/src/main/java/com/kickstarter/services/DiscoveryParams.java:172-217 | merging a descriptor with itself changes nothing |
| DiscoveryParams.MergeAssociative | app/src/main/java/com/kickstarter/services/DiscoveryParams.java:172-217 | merging `b` then `c` onto `a` equals merging the merge of `b` and `c` onto `a` |
| DiscoveryParams.MergeDropsOverrideLocationParam | app/src/main/java/com/kickstarter/services/DiscoveryParams.java:176-213 | an override's `locationParam` is lost even when the base has none |
| DiscoveryParams.NextPage | app/src/main/java/com/kickstarter/services/DiscoveryParams.java:229-232 | with a page: page plus one, every other field equal; without a page: the descriptor itself |
| DiscoveryParams.FilterString | app/src/main/java/com/kickstarter/services/DiscoveryParams.java:307-323 | each label is chosen exactly when its condition holds and no higher-priority one does: staff picks, then starred == 1, then backed == 1, then social == 1, then the category's name, then the location's display name, else "everything" |
| DiscoveryParams.IsCategorySetIgnoresCategoryParam | app/src/main/java/com/kickstarter/services/DiscoveryParams.java:325-327 | `isCategorySet` looks only at the category entity: a raw `categoryParam` neither sets nor clears it, and after `mergeWith` a category is set exactly when one side had one |
| Builders.Builder.Build | app/src/main/java/com/kickstarter/services/DiscoveryParams.java:170 | `build()` gives a descriptor whose fourteen fields are what the builder's slots hold at that moment |
| Builders.Builder.constructor | app/src/main/java/com/kickstarter/services/DiscoveryParams.java:221 | a new generated builder has every slot empty |
| Builders.Builder.OfParams | app/src/main/java/com/kickstarter/services/DiscoveryParams.java:227 | `toBuilder()`: a fresh builder that builds exactly the descriptor it came from |
| Builders.Builder.SetBacked | app/src/main/java/com/kickstarter/services/DiscoveryParams.java:156 | returns the same builder; the built descriptor changes in `backed` only |
| Builders.Builder.SetCategory | app/src/main/java/com/kickstarter/services/DiscoveryParams.java:157 | returns the same builder; the built descriptor changes in `category` only |
| Builders.Builder.SetCategoryParam | app/src/main/java/com/kickstarter/services/DiscoveryParams.java:158 | returns the same builder; the built descriptor changes in `categoryParam` only |
| Builders.Builder.SetLocation | app/src/main/java/com/kickstarter/services/DiscoveryParams.java:159 | returns the same builder; the built descriptor changes in `location` only |
| Builders.Builder.SetLocationParam | app/src/main/java/com/kickstarter/services/DiscoveryParams.java:160 | returns the same builder; the built descriptor changes in `locationParam` only |
| Builders.Builder.SetPage | app/src/main/java/com/kickstarter/services/DiscoveryParams.java:161 | returns the same builder; the built descriptor changes in `page` only |
| Builders.Builder.SetPerPage | app/src/main/java/com/kickstarter/services/DiscoveryParams.java:162 | returns the same builder; the built descriptor changes in `perPage` only |
| Builders.Builder.SetSort | app/src/main/java/com/kickstarter/services/DiscoveryParams.java:163 | returns the same builder; the built descriptor changes in `sort` only |
| Builders.Builder.SetStaffPicks | app/src/main/java/com/kickstarter/services/DiscoveryParams.java:164 | returns the same builder; the built descriptor changes in `staffPicks` only |
| Builders.Builder.SetStarred | app/src/main/java/com/kickstarter/services/DiscoveryParams.java:165 | returns the same builder; the built descriptor changes in `starred` only |
| Builders.Builder.SetSocial | app/src/main/java/com/kickstarter/services/DiscoveryParams.java:166 | returns the same builder; the built descriptor changes in `social` only |
| Builders.Builder.SetRecommended | app/src/main/java/com/kickstarter/services/DiscoveryParams.java:167 | returns the same builder; the built descriptor changes in `recommended` only |
| Builders.Builder.SetSimilarTo | app/src/main/java/com/kickstarter/services/DiscoveryParams.java:168 | returns the same builder; the built descriptor changes in `similarTo` only |
| Builders.Builder.SetTerm | app/src/main/java/com/kickstarter/services/DiscoveryParams.java:169 | returns the same builder; the built descriptor changes in `term` only |
| Builders.Builder.MergeWith | app/src/main/java/com/kickstarter/services/DiscoveryParams.java:172-217 | mutates and returns the receiver, which afterwards builds `Merge` of its old descriptor and the other builder's |
| Builders.NewBuilder | app/src/main/java/com/kickstarter/services/DiscoveryParams.java:220-225 | `builder()`: a fresh builder holding page 1, 15 per page, the magic sort and nothing else |
| Decimal.DecimalString | app/src/main/java/com/kickstarter/services/DiscoveryParams.java:237 | `String.valueOf(int)`: a minus sign exactly for negative numbers, then at least one digit and nothing else, with a leading zero only for zero |
| Decimal.ParseDecimalInvertsDecimalString | app/src/main/java/com/kickstarter/services/DiscoveryParams.java:79 | the reference integer parser reads back every integer `String.valueOf` renders |
| Decimal.DecimalStringInjective | app/src/main/java/com/kickstarter/services/DiscoveryParams.java:237 | distinct integers render to distinct strings |
| QueryEncoding.KeyNamed | app/src/main/java/com/kickstarter/services/DiscoveryParams.java:236-298 | a name denotes key `k` exactly when it is `k`'s wire name; any other name denotes no key |
| QueryEncoding.KeyNameInjective | app/src/main/java/com/kickstarter/services/DiscoveryParams.java:236-298 | distinct keys have distinct wire names |
| QueryEncoding.PutIfPresent | app/src/main/java/com/kickstarter/services/DiscoveryParams.java:236-238 | one guarded put: the key takes the value when it is non-null and keeps what it held otherwise; every other key is untouched |
| QueryEncoding.Encode | app/src/main/java/com/kickstarter/services/DiscoveryParams.java:234-300 | the map holds at each key exactly the table's value, and misses each key the table leaves empty |
| QueryEncoding.SourceOrderPutsMatchTable | app/src/main/java/com/kickstarter/services/DiscoveryParams.java:236-298 | the sixteen puts, in the source's order with later puts overwriting earlier ones, leave at each key the table's value |
| QueryEncoding.SourceOrderPutsIsEncode | app/src/main/java/com/kickstarter/services/DiscoveryParams.java:234-300 | the puts in the source's order produce exactly the encoded map |
| QueryEncoding.Wire | app/src/main/java/com/kickstarter/services/DiscoveryParams.java:234-300 | the map under wire names: a key's name is present exactly when the key is, with the same value; no other name is present |
| QueryEncoding.QueryParams | app/src/main/java/com/kickstarter/services/DiscoveryParams.java:234-300 | `queryParams` on a local map: the result holds the table's value at each key and is the encoded map |
| QueryEncoding.AbsentIntFieldsContributeNoKey | app/src/main/java/com/kickstarter/services/DiscoveryParams.java:236-278 | `backed`, `page`, `per_page`, `starred` and `social` are in the map exactly when their fields are present |
| QueryEncoding.AbsentOtherFieldsContributeNoKey | app/src/main/java/com/kickstarter/services/DiscoveryParams.java:264-290 | `recommended`, `similar_to`, `sort`, `staff_picks` and `q` are in the map exactly when their fields are present |
| QueryEncoding.CategoryParamWinsCategoryId | app/src/main/java/com/kickstarter/services/DiscoveryParams.java:240-246 | `category_id` is present exactly when the category or the raw parameter is; the raw parameter wins; otherwise it is the category's id in decimal |
| QueryEncoding.LocationParamWinsWoeId | app/src/main/java/com/kickstarter/services/DiscoveryParams.java:248-254 | `woe_id` is present exactly when the location or the raw parameter is; the raw parameter wins; otherwise it is the location's id in decimal |
| QueryEncoding.TermEncodedAsQ | app/src/main/java/com/kickstarter/services/DiscoveryParams.java:288-290 | a term goes out verbatim under `q`; the map never has a `term` or `location_id` entry |
| QueryEncoding.IncludePotdIffStaffPicksOnFirstPage | app/src/main/java/com/kickstarter/services/DiscoveryParams.java:292-294 | `include_potd` is present exactly when staff picks is true and the page is 1, and then holds "true" |
| QueryEncoding.IncludeFeaturedIffCategorySetOnFirstPage | app/src/main/java/com/kickstarter/services/DiscoveryParams.java:296-298 | `include_featured` is present exactly when `isCategorySet()` holds and the page is 1, and then holds "true" |
| QueryEncoding.EncodeDeterminesIntFields | app/src/main/java/com/kickstarter/services/DiscoveryParams.java:236-278 | two descriptors with the same map agree on `backed`, `page`, `perPage`, `starred` and `social` |
| QueryEncoding.EncodeDeterminesFlagFields | app/src/main/java/com/kickstarter/services/DiscoveryParams.java:264-290 | two descriptors with the same map agree on `sort`, `staffPicks`, `recommended` and `term` |
| QueryEncoding.EncodeDeterminesOwnKeyFields | app/src/main/java/com/kickstarter/services/DiscoveryParams.java:234-300 | two descriptors with the same map agree on every field with a key of its own; of `similarTo` the map keeps only presence and id |
| QueryEncoding.CategoryNotDeterminedByEncoding | app/src/main/java/com/kickstarter/services/DiscoveryParams.java:240-246 | on any descriptor with neither a category nor a raw category parameter and not on page 1, setting the raw parameter to a category's id encodes exactly like setting that category entity; on page 1 the entity would also add `include_featured` |
| QueryEncoding.NextPageChangesOnlyPageKeys | app/src/main/java/com/kickstarter/services/DiscoveryParams.java:229-232 | moving to the next page changes no key of the map except `page`, `include_potd` and `include_featured` |
| QueryEncoding.NextPageDropsFirstPageFlags | app/src/main/java/com/kickstarter/services/DiscoveryParams.java:292-298 | the page after page 1 asks for page 2 and has neither first-page flag |
| UriDecoding.ParsedSort | app/src/main/java/com/kickstarter/services/DiscoveryParams.java:127-135 | a sort is read exactly when the `sort` parameter is present and is one of the five tokens, and it is the sort that token names; a rejected token is swallowed |
| UriDecoding.Decode | app/src/main/java/com/kickstarter/services/DiscoveryParams.java:76-147 | each field is the parsed parameter when it parses and the initial value otherwise. A categories or places path seeds the raw category or location parameter from the last segment, and `category_id` or `location_id` then overrides it. `category`, `location` and `similarTo` are never touched |
| UriDecoding.FromUriOnto | app/src/main/java/com/kickstarter/services/DiscoveryParams.java:76-148 | the result is `Decode` applied to what the caller's builder held, and the caller's builder ends up holding the result |
| UriDecoding.FromUri | app/src/main/java/com/kickstarter/services/DiscoveryParams.java:150-152 | decodes onto `builder()`: a link without a usable page, per_page or sort gets 1, 15 or magic, and the three entity fields are unset |
| UriDecoding.ReferenceCollaboratorsInvertFormatters | app/src/main/java/com/kickstarter/services/DiscoveryParams.java:79-139 | the round-trip hypothesis can be met by parsers whose integer results all fit Java's `Integer`, as `toInteger`'s do |
| UriDecoding.WireCarriesEncoding | app/src/main/java/com/kickstarter/services/DiscoveryParams.java:234-300 | a link whose query is the encoded map under wire names carries exactly the encoding, whatever its path |
| UriDecoding.IntParametersParseBack | app/src/main/java/com/kickstarter/services/DiscoveryParams.java:79-139 | when `toInteger` inverts the decimal rendering of every `Integer` and the five fields fit an `Integer`, `backed`, `page`, `per_page`, `social` and `starred` parse back to their fields |
| UriDecoding.FlagParametersParseBack | app/src/main/java/com/kickstarter/services/DiscoveryParams.java:112-135 | when `toBoolean` reads back "true" and "false", `staff_picks`, `recommended` and `sort` parse back to their fields |
| UriDecoding.IdParametersReadBack | app/src/main/java/com/kickstarter/services/DiscoveryParams.java:88-145 | an encoded link gives `category_id` the table's value and has no `location_id` or `term` |
| UriDecoding.DecodeEncodeRoundTrip | app/src/main/java/com/kickstarter/services/DiscoveryParams.java:76-147 | decoding an encoded descriptor whose `Integer` fields fit an `Integer`, on any path, restores `backed`, `page`, `per_page`, `social`, `starred`, `staff_picks`, `recommended` and `sort`, and brings `category_id` back as `categoryParam` over what a categories path seeds. `locationParam` holds only what a places path seeds; term, `similarTo` and the entities stay as the initial builder had them |
| UriDecoding.DecodeIdempotent | app/src/main/java/com/kickstarter/services/DiscoveryParams.java:76-147 | applying the same link twice gives what applying it once gives |

## Left out

- Parsing of `android.net.Uri` is not modelled. A link is a record holding a path, an optional last segment and one value per query name. Repeated parameters, percent-decoding and a null path are not modelled.
- `ObjectUtils.toInteger`, `ObjectUtils.toBoolean`, `KSUri.isDiscoverCategoriesPath` and `KSUri.isDiscoverPlacesPath` are not part of this model. They are parameters (`Collaborators`). Their behaviour enters only through the hypothesis `ParsersInvertFormatters`, which the round-trip lemmas assume. It asks `toInteger` to read back only values in Java's `Integer` range.
- `String.valueOf(int)` is modelled by `DecimalString`, which is sign and digits. `String.valueOf(boolean)` is modelled by `BoolString`.
- Parcelable, `@AutoGson`, `@AutoParcel` and the generated `AutoParcel_DiscoveryParams` class are serialisation and code-generation plumbing. Only their builder behaviour is modelled: a setter stores a value and returns the same builder.
- `filterString`'s `Context.getString` localisation is left out. `FilterString` returns a label, either a string resource or an entity's name, not the resolved text.
- `toString()` prints a `HashMap`, whose iteration order is unspecified, so it is left out.
- `Category`, `Location` and `Project` are reduced to an id and a name. Nothing else about them is used here.
- The `Integer` fields `backed`, `page`, `perPage`, `starred` and `social`, and the entities' ids, are unbounded `int`s. The encoder and decoder contracts hold for every integer. The round-trip lemmas ask the descriptor's five `Integer` fields to lie in Java's `Integer` range (`IntegerFieldsFit`), as every descriptor the program can build does.
- DiscoveryParams.NextPage: does not model Java's 32-bit wrap-around of `page + 1` at `Integer.MAX_VALUE`, because integers are unbounded here.
- QueryEncoding.QueryParams: the Java `HashMap<String, String>` is a map keyed by the enum `QueryKey`. `Wire` gives the same map keyed by wire names, and the `Collections.unmodifiableMap` wrapper is not modelled.
- Builders.Builder.MergeWith: each guarded `if (x != null) retVal = retVal.x(x)` is an unconditional setter call with the overlaid value. The resulting builder is the same, but the setter also runs when the value is null.
- UriDecoding.FromUriOnto: the guarded setter calls on parsed parameters are written the same way. The two path tests stay real conditionals.
- UriDecoding.FromUriOnto: `getQueryParameter("sort")` is read twice in the source (lines 127 and 130) and once here. Both reads see the same link.
- UriDecoding.DecodeEncodeRoundTrip: holds only under `ParsersInvertFormatters`. The location and the term are not restored, because the encoder and the decoder use different names for them.
