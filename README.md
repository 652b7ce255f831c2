# auctionflipper lookup core, modelled in Dafny

The lookup service answers HTTP requests about game-market data: the houses
of a realm, and price summaries of an item in those houses. Its logic lives in
`index.js`. This project models and proves four parts of it:

- **The condition builder**: `mapField`, `mapParam` and `buildQuery`. A
  field-to-column mapping and the request parameters become a parameterised
  SQL statement and its positional parameter list. A mapping descriptor is a
  tagged datatype (`Mapping.Descriptor`): a plain column, an object with an
  optional `type` tag, or `Bad` for anything else, including the `undefined`
  read for an unmapped key. An IN parameter is normalised: nulls are dropped,
  then duplicates collapse in first-occurrence order (`Mapping.Normalize`).
  `Builder.BuildQuery` is the source's loop over the keys. It is proved equal
  to the specification function `Builder.Built`, and the lemmas say what
  `Built` means.
- **The rolling hash** `simpleHash`. `Hash.SimpleHash` is the source's loop
  over UTF-16 code units. It keeps the source's int32 wrap-around
  (`(hash << 5) - hash + c`, then `hash & hash`). It is proved equal to a left
  fold of `ToInt32(31 * h + c)` and to the int32 reduction of the polynomial
  hash.
- **The memoising house lookup** `getHouses` (`Cache.HouseCache.GetHouses`).
  It builds the realm query and fingerprints it as
  `simpleHash(stripWS(sql) + ":" + params.join(","))`. It then answers from
  `entries` on a hit, or asks the store on a miss and stores a successful
  answer under that key only. The table is keyed on the 32-bit hash, so
  colliding queries share a slot, as in the source. The store (`asyncQuery`
  over a MySQL pool) is the class `Cache.Store`. Its answers come from a
  function of the query and of the number of earlier calls, and it logs every
  query it receives.
- **The price tree** `priceToXml` (`PriceXml.PriceToXml`). Price rows become
  the object tree handed to the `xml` library: an item node, then one price
  node per row. `PriceXml.ReadItem` reads the tree back. When every row is for
  the same item, as the price query's `item = ?` condition makes them, the
  round-trip lemma shows that no row is lost or reordered. The tree keeps
  only the first row's `item`, so the other rows' items cannot be read back
  when they differ.

The two mapping constants `TBL_REALM_QUERY_MAPPING` and
`TBL_ITEM_SUMMARY_QUERY_MAPPING` are `Mapping.RealmMapping` and
`Mapping.ItemSummaryMapping`. The `/price` handler builds its item-summary
query from the resolved houses and the item id. That composition is stated in
`Routes.PriceQuery`.

Modelling choices:

- Values are `Scalar` (null, undefined, integer, string) or a `List` of
  scalars.
- Request parameters are a sequence of entries in `Object.keys` order.
- Strings are `seq<char>`. `Strings.Utf16` gives the code units that
  `charCodeAt` reads.
- Whitespace is the set of characters JavaScript's `\s` matches.
- JavaScript exceptions are `Err` values of `Values.Result`:
  - "Bad field mapping" is `BadFieldMapping`;
  - "Bad param mapping" is `BadParamMapping`;
  - `.filter` on a non-array is `NotAnArray`;
  - a rejected store query is whatever `Err` the store returns, normally
    `StoreError`;
  - `result[0].item` on an empty result is `NoRows`.

Two properties of the code determine its behaviour at the edges:

- `(hash << 5) - hash + c` is `31 * hash + c`, wrapped to int32 (`Hash.JsStep`).
- When the first of two identical sequential lookups succeeds, the second
  is a hit, so the pair reaches the store at most once (`Cache.LookupTwice`).
  When a store query fails, nothing is stored, and the next call asks the
  store again (`Cache.HouseCache.GetHouses`).

## Model

| member | source | states |
|---|---|---|
| `Strings.StripWhitespace` | index.js:113 | `sql.replace(/\s+/g, '')` leaves no whitespace character and is no longer than its input |
| `Strings.StripKeeps` | index.js:113 | a character survives stripping exactly when it was in the input and is not whitespace |
| `Strings.StripConcat` | index.js:113 | stripping the concatenation of two texts is the concatenation of their stripped forms |
| `Strings.StripIgnoresWhitespace` | index.js:113 | inserting a whitespace character anywhere leaves the stripped text unchanged |
| `Strings.StripIdempotent` | index.js:113 | stripping twice is stripping once |
| `Strings.Join` | index.js:95 | `join` puts exactly one separator between neighbouring parts: the length is the parts' total plus one separator per gap, and the first part comes first |
| `Strings.JoinAppend` | index.js:95 | joining one more part appends the separator and that part |
| `Strings.IntToString` | index.js:113 | a number is written as a minus sign exactly when it is negative, then decimal digits with no leading zero (only zero itself is written `0`), and the text reads back as the number |
| `Strings.Utf16` | index.js:38-39 | the code units that `charCodeAt` reads all lie in 0..65535, and there is at least one per character |
| `Strings.Utf16RoundTrip` | index.js:38-39 | the code units of every string are well-formed UTF-16 and decode back into that string |
| `Strings.Utf16Concat` | index.js:38-39 | the code units of a concatenation are the two strings' code units concatenated |
| `Strings.Utf16Bmp` | index.js:38-39 | for characters below U+10000, `charCodeAt(i)` is the i-th character's code point |
| `Values.RenderScalar` | index.js:113 | `join` writes null and undefined as the empty text, a number as `String(n)` (`Strings.IntToString`: no leading zero, reads back as the number), and a string as itself |
| `Values.Render` | index.js:113 | a scalar parameter is written as its scalar text, and a one-element array as its element's text |
| `Values.RenderAll` | index.js:113 | one text per parameter, the i-th for the i-th parameter |
| `Values.RenderParams` | index.js:113 | `params.join(',')` is empty for no parameters, and otherwise the parameters' texts plus one comma per gap |
| `Values.RenderParamsAppend` | index.js:113 | one more parameter appends a comma and its text |
| `Values.RenderListFlattens` | index.js:113 | an array parameter is written exactly as its elements would be written as separate parameters, so the fingerprint cannot tell `[[a, b]]` from `[a, b]` |
| `Strings.CountJoin` | index.js:95 | joining parts that each hold one placeholder, with a separator that holds none, gives one placeholder per part |
| `Mapping.Lookup` | index.js:87 | `mapping[k]` is malformed exactly when the key has no entry or its entry is malformed; otherwise it is the key's descriptor |
| `Mapping.TablesWellFormed` | index.js:19-32 | the realm table maps `realmId`, `region`, `realm` and `house` to plain columns (`region`, `slug`, ...); the item-summary table maps `house` to a membership test on `house` and `id` to column `item`; no column name holds a placeholder |
| `Mapping.MapField` | index.js:46-64 | fails with "Bad field mapping" exactly on a descriptor that is neither a string nor an object; otherwise the clause is the column followed by ` = ?` (string, EQUALS, any other or absent tag), ` IN(?)` (IN) or ` LIKE ?` (LIKE) |
| `Mapping.MapFieldParses` | index.js:46-64 | a generated clause parses back into its column and its match kind, and holds exactly one more `?` than its column |
| `Mapping.OperatorPlaceholder` | index.js:57-62 | each comparison's text holds exactly one placeholder |
| `Mapping.ShorthandIsEquals` | index.js:46-64 | a plain column string, an explicit EQUALS object and an object with any other tag produce the same clause `column = ?` |
| `Mapping.MapParam` | index.js:66-80 | fails exactly on a malformed descriptor, or on an IN descriptor whose value is not an array; a string descriptor or an object without the IN tag passes the value through unchanged; an IN descriptor yields a list with no null, no duplicate, and exactly the non-null input elements |
| `Mapping.NonNull` | index.js:79 | `filter(v => v != null)` keeps exactly the elements that are neither null nor undefined |
| `Mapping.Dedup` | index.js:79 | `[...new Set(s)]` has no duplicates and the same elements as `s` |
| `Mapping.Normalize` | index.js:79 | the IN normaliser's result has no null and no duplicate, and holds exactly the non-null input elements |
| `Mapping.DedupOrder` | index.js:79 | set insertion keeps elements in the order of their first occurrence |
| `Mapping.NonNullOrder` | index.js:79 | filtering keeps the relative order of the first occurrences of kept elements |
| `Mapping.NonNullSingle` | index.js:79 | the filter keeps a single element exactly when it is neither null nor undefined |
| `Mapping.NonNullConcat` | index.js:79 | filtering a concatenation is concatenating the filtered parts, so every non-null occurrence is kept, repeats included, in order |
| `Mapping.NormalizeOrder` | index.js:79 | the normalised list lists elements in the order of their first occurrence in the input |
| `Mapping.NormalizeIdempotent` | index.js:79 | normalising an already normalised list changes nothing |
| `Mapping.NormalizeExample` | index.js:79 | `[3, null, 3, 5, null]` normalises to `[3, 5]` |
| `Mapping.NormalizeDistinctThenRepeat` | index.js:79 | `[x, y, x]` with distinct non-null `x`, `y` normalises to `[x, y]` |
| `Builder.ConditionFor` | index.js:86-91 | one key's condition fails exactly when its descriptor is malformed or missing ("Bad field mapping", raised first) or when an IN value is not an array; otherwise its clause is `mapField` of the descriptor and its parameter is `mapParam` of the value |
| `Builder.Built` | index.js:82-102 | without keys the statement comes back unchanged with no parameters; the build succeeds exactly when every key's condition does; the base statement always begins the built one |
| `Builder.BuildQuery` | index.js:82-102 | the loop over the keys returns exactly what `Built` specifies: the first failing key's error, or the statement and the parameter list |
| `Builder.ConditionsAligned` | index.js:86-92 | a successful build has one condition per key, and the i-th condition comes from the i-th key |
| `Builder.BuiltAligned` | index.js:82-101 | a successful build has one parameter per key in key order, the i-th being `mapParam` of the i-th value; the statement is returned unchanged without keys, and otherwise gets ` WHERE ` followed by the keys' `mapField` clauses joined by ` AND ` |
| `Builder.BuiltFails` | index.js:86-92 | the build fails exactly when some key fails, with the error of the first failing key and no partial result |
| `Builder.BuiltPlaceholders` | index.js:90-96 | with `?`-free column names, the built statement holds one more `?` per parameter than the base statement |
| `Builder.BuiltWithoutData` | index.js:94-101 | without keys the base statement comes back unchanged, with no parameters |
| `Builder.BuiltTwo` | index.js:82-101 | two good keys build `sql WHERE c1 AND c2` with parameters `[p1, p2]` |
| `Builder.ColumnCondition` | index.js:86-91 | a key mapped to a plain column gives `column = ?` with the value unchanged |
| `Builder.MembershipCondition` | index.js:86-91 | a key mapped to an IN descriptor with an array value gives `column IN(?)` with the normalised list |
| `Hash.ToInt32` | index.js:41 | the result is an int32 congruent to its input modulo 2^32 |
| `Hash.Hash` | index.js:36-44 | the hash is an int32, and the empty string hashes to 0 |
| `Hash.JsStep` | index.js:40-41 | the source's `((hash << 5) - hash) + c` followed by `hash & hash` is `ToInt32(31 * hash + c)` |
| `Hash.HashConcat` | index.js:38-42 | hashing `a + b` is hashing `b` starting from the hash of `a` |
| `Hash.HashAppend` | index.js:38-42 | hashing `s + [c]` is `ToInt32(31 * Hash(s) + c)` |
| `Hash.HashIsHorner` | index.js:36-44 | the rolling hash is the int32 reduction of the unbounded polynomial `sum of s[i] * 31^(n-1-i)` |
| `Hash.SimpleHash` | index.js:36-44 | the loop over the string's UTF-16 code units returns the int32 hash of those units |
| `Cache.FingerprintText` | index.js:113 | the hashed text is exactly `StripWhitespace(sql)` (no whitespace left), then `:`, then `params.join(',')` |
| `Cache.Fingerprint` | index.js:113 | the cache key of a built query is an int32 |
| `Cache.FingerprintIgnoresWhitespace` | index.js:113 | inserting whitespace into the statement does not change its cache key |
| `Cache.ParamsTextAmbiguous` | index.js:113 | the parameter lists `["eu,x", "y"]` and `["eu", "x,y"]` give the same fingerprint text, so they share a slot whatever the hash |
| `Cache.Store.Execute` | index.js:104-109 | one store query: it is logged, and the answer is the store's answer for that query and that call count |
| `Cache.HouseCache.constructor` | index.js:34 | the cache starts empty |
| `Cache.HouseCache.GetHouses` | index.js:111-123 | a build error returns that error and changes nothing; a hit returns the stored rows without calling the store; a miss calls the store exactly once with the built query and returns its answer; only a successful answer is stored, under the fingerprint alone; no existing entry ever changes |
| `Cache.LookupTwice` | index.js:113-122 | after a successful lookup, the same lookup again returns the same rows, and the two together reach the store at most once |
| `Cache.RealmQuery` | index.js:112 | region `r` and realm `s` build `SELECT house FROM tblRealm WHERE region = ? AND slug = ?` with `[r, s]` |
| `Cache.ResolveSilvermoonTwice` | index.js:111-123 | resolving eu/silvermoon twice on a fresh cache, with a store that answers the next query successfully, sends exactly one more query to the store and returns the same rows twice |
| `PriceXml.PriceNode` | index.js:138-148 | a row's price node reads back into that row: the house, lastseen and level attributes, `quantity`, and `value` from `price` |
| `PriceXml.PriceNodes` | index.js:137-149 | one price node per row, the i-th for the i-th row |
| `PriceXml.ItemTree` | index.js:151-156 | the item node holds the `id` attribute from the first row's `item`, then one price node per row, in row order |
| `PriceXml.PriceToXml` | index.js:135-157 | fails exactly on an empty result; otherwise returns an item node whose first child is the `id` attribute from row 0's `item`, followed by one price node per row in row order (house/lastseen/level attributes, then quantity, then value from `price`), so it has row count + 1 children |
| `PriceXml.ItemTreeRoundTrip` | index.js:135-157 | when every row is for the same item, reading the tree back gives the rows in their order |
| `Routes.HouseIds` | index.js:166 | `houses.map(h => h.house)` has one id per house row, in order |
| `Routes.PriceFilter` | index.js:166 | the filter has the key `house` with one id per house row in order, then the key `id` with the item id |
| `Routes.PriceQuery` | index.js:164-167 | the `/price` query is `SELECT * FROM tblItemSummary WHERE house IN(?) AND item = ?` with the normalised house ids, then the item id |
| `Routes.ItemSummaryExample` | index.js:26-32 | houses `[101, 205, 101]` and id `"775"` give `... WHERE house IN(?) AND item = ?` with `[[101, 205], "775"]` |

## Left out

- The Express application, its routes (including `/items` and `/item/:id`, which only pass fixed queries to the store), `send`, the `xml` serialiser and `app.listen` (index.js:125-133, 159-184): these are HTTP plumbing and an unseen library. Only the query built by `/price` is modelled (`Routes.PriceQuery`).
- The MySQL pool and `asyncQuery` (index.js:5-11, 104-109): a foreign database client. `Cache.Store` stands in for it: the answer is a function of the query and the call count, and a failure is an `Err`.
- `console.log` (index.js:116, 120): output with no effect on behaviour.
- Interleaving of concurrent requests across the `await` at index.js:121: `GetHouses` is one sequential call. Two concurrent misses on one key, each querying and overwriting the slot, are not modelled.
- A `null` descriptor (JavaScript's `typeof null` is `'object'`, so reading `mapping.type` throws a TypeError): not modelled. Neither are object descriptors without a `name`, or keys inherited from `Object.prototype` (such as `toString`), which the source reads through `mapping[k]`. The model admits only the three descriptor shapes of `Mapping.Descriptor`.
- Parameter values other than integers, strings, null, undefined and arrays of these (floating-point numbers, booleans, nested arrays or objects): not modelled. So `Set` identity for objects and `Array.join` flattening of nested arrays are outside the model. Price-row columns are not narrowed: `PriceXml` is generic over the column type, because `priceToXml` only copies the values.
- `Strings.Utf16`: Dafny strings hold Unicode scalar values, so an unpaired surrogate code unit, which a JavaScript string can hold, cannot be represented. Request values arrive through URL decoding, so no behaviour of the core depends on this.
- `Values.Scalar`: `Num` is an unbounded integer, while JavaScript numbers are doubles. Above 2^53, `Set` would merge distinct integers, and `String(n)` switches to exponent notation from 1e21 on. House ids and item ids are small, so no behaviour of the core depends on this.
- `Object.keys` puts integer-like keys first in ascending order. The model takes the entries already in key order.
- The truthiness test `houseCache[hash]` (index.js:115) is modelled as map membership. Stored results are arrays, and arrays are truthy even when empty.
- `Mapping.MapParam`'s "Bad param mapping" error cannot come out of `buildQuery`, because `mapField` raises "Bad field mapping" first for the same descriptor. It is modelled, and `Builder.BuiltFails` shows which error wins.
