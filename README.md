# Docker Hub crawler decoders

A Dafny model of the decoding core of the Docker Hub crawler
(`docker_hub_crawler.py`). Docker Hub pages embed a flattened JSON array:
records are not nested objects. Each record is a *marker* dict (one with
a key starting with `_`) followed by loose slots. Two functions of the
crawler read this array, and two small pieces of the crawl complete the
model:

- **Categories** (`CategoryDecoder`, `categories.dfy`):
  `extract_categories_from_data`. From the first `"categories"` anchor,
  and only when a list follows it, a cursor walks marker-led records. A
  record has five slots (`marker, "name", s, "slug", s`) or three
  (`marker, s, s`). The walk emits `{name, slug, url}` and stops at the
  first mismatch or empty field.
- **Search results** (`SearchDecoder`, `search_results.dfy`):
  `extract_images_from_data`. It reads the six-slot layout after
  `"searchResults"`. The first result and the later ones resolve their ids
  by different rules. The paging block falls back to 25 and 1, and the
  page count is a ceiling division.
- **Duplicate removal** (`Dedup`, `dedup.dfy`): `remove_duplicates`, on the
  crawl's results dict rather than the array. Images are deduplicated
  across categories, and each image stays at its first occurrence, in
  category order.
- **Page URLs** (`PageLinks`, `page_links.dfy`): the `page` query
  parameter appended to a category URL when the crawler requests page n.

`FlatJson` (`flat_json.dfy`) holds the shared pieces:
- the decoded JSON value;
- the marker test;
- the first-occurrence scans that both decoders use.

It also fixes two Python semantics as definitions:
- `PyIntValue`: `isinstance(v, int)` holds for a bool, and True and False
  count as 1 and 0 in comparisons and arithmetic.
- `PyIndex`: `seq[n]` with a negative n counts from the end, for
  n in [-len, len).

The source's loops are methods whose postconditions tie their result to a
specification function:
- `ExtractCategories`, `ReadRecords`, `ExtractImages`, `WalkRefs`,
  `ScanIdWindow`, `ReadPaging`, `RemoveDuplicates` and `FindFirst` are
  loops;
- `ResolveItem` is the body of the loop over the result references.

Lemmas prove the decoders' properties about those functions.

The base URL (`https://hub.docker.com` in the source) is a parameter.

Behaviour of the source worth knowing:

- **`extract_images_from_data` can raise IndexError.** A result reference
  is checked only against `< len`. A reference below `-len` therefore
  makes `data_array[ref]` raise `IndexError`, and the model returns
  `Outcome.IndexError` there (`LowRefRaises`, `WalkRaisesOnlyOnLowRef`).
- **A later result needs no marker.** Three cases decide it:
  - a non-int reference, or one at or beyond the length, ends the walk;
  - so does a reference of exactly -1 when the last element is not a
    marker;
  - any other reference in [-len, len) is read one slot after it, with
    Python's negative indexing, whether or not it points at a marker. A -1
    onto a marker reads position 0 (`LaterIdAfterRef`, `LaterBadRefStops`).
- **The first result ignores its reference.** Apart from the IndexError
  its reference may raise, the first result is read as follows
  (`FirstRefIgnored`, `FirstWithoutMarkerSkipped`,
  `FirstWithoutIdEmptiesPage`, `FirstIdFromWindow`):
  - its marker is looked for at searchResults + 6;
  - without a marker there, the first result is skipped and the walk goes
    on;
  - with the marker, its id is the string after the first `"id"` in the
    ten slots after the marker;
  - the walk stops, with no images, when that window holds no id pair or
    its first id is the empty string.

## Model

| member | source | states |
|---|---|---|
| FlatJson.IsMarker | docker_hub_crawler.py:86-87 | a dict with a key starting with '_'; such a dict is non-empty, so the `not img_obj_marker` tests of lines 213-218 see a matched marker as present |
| FlatJson.MarkerDependsOnKeysOnly | docker_hub_crawler.py:199-200 | two dicts with the same keys are both markers or neither, whatever their values |
| FlatJson.IndexOf | docker_hub_crawler.py:173-176 | the first position from `from` holding the key, and None exactly when no later position holds it |
| FlatJson.FindFirst | docker_hub_crawler.py:173-179 | the enumerate scan returns the first index of the string, or -1 exactly when the string is absent |
| CategoryDecoder.RecordAt | docker_hub_crawler.py:89-124 | a record needs a marker at the cursor; the five-slot form is chosen exactly when it matches and takes name and slug from slots 2 and 4; otherwise the three-slot form takes slots 1 and 2; the width is 5 or 3 and stays inside the array; the category is well formed |
| CategoryDecoder.CategoriesFrom | docker_hub_crawler.py:84-140 | every category read from a cursor is well formed, and there are at most a third as many as the slots remaining |
| CategoryDecoder.CursorAlignment | docker_hub_crawler.py:94-136 | record k is read at cursor k; each step moves the cursor by exactly 5 (five-slot form) or 3 (three-slot fallback); no cursor passes the array length; the walk stops at the first cursor holding no record |
| CategoryDecoder.RecordStops | docker_hub_crawler.py:123-140 | the walk stops exactly when the cursor is off the array or not on a marker, when neither form matches, or when the chosen form's name or slug is empty; an empty field in a five-slot match stops it even if the three-slot reading would succeed |
| CategoryDecoder.NoAnchorNoCategories | docker_hub_crawler.py:75-81 | with no "categories" string, no categories |
| CategoryDecoder.FirstAnchorOnly | docker_hub_crawler.py:75-146 | only the first "categories" anchor is used: no categories when a non-list follows it, otherwise the records read from two slots after it |
| CategoryDecoder.Categories | docker_hub_crawler.py:63-148 | every category returned has a non-empty name and slug and url = base + "/search?categories=" + slug, and there are at most len/3 of them |
| CategoryDecoder.OneFiveSlotRecord | docker_hub_crawler.py:63-148 | an anchor, a reference list and one five-slot record decode to that single category with its URL |
| CategoryDecoder.ReadRecords | docker_hub_crawler.py:84-140 | the inner while loop returns the records read contiguously from its start cursor and stops at a cursor holding no record |
| CategoryDecoder.ExtractCategories | docker_hub_crawler.py:63-148 | the outer scan with its found flag returns exactly the categories the specification function gives |
| SearchDecoder.TotalPages | docker_hub_crawler.py:260-261 | for a positive page size the result r is the ceiling: (r-1)*size < total <= r*size; 0 otherwise, with no division by zero |
| SearchDecoder.IdPairIn | docker_hub_crawler.py:223-230 | the first "id" followed by a string whose pair lies inside the window, and None exactly when the window holds no such pair |
| SearchDecoder.PagingSource | docker_hub_crawler.py:245-258 | Paging gives either the defaults 25 and 1, or the ints at +5 and +3 of some "paging" string whose layout is intact |
| SearchDecoder.FirstItem | docker_hub_crawler.py:196-243 | the first result raises exactly when its reference is below minus the length, is skipped exactly when no marker sits at sr + 6, and emits only a non-empty string of the array |
| SearchDecoder.LaterItem | docker_hub_crawler.py:196-240 | a later result raises exactly on a reference below minus the length; it stops the walk exactly when its reference is not an int, not below the length, or -1 with a non-marker last element; it emits only an id-like string of the array |
| SearchDecoder.StepAt | docker_hub_crawler.py:193-243 | result i raises exactly on a low reference, emits only non-empty strings of the array, and emits only id-like strings when i > 0 |
| SearchDecoder.Walk | docker_hub_crawler.py:192-243 | the walk keeps the ids found so far as a prefix, adds at most one id per remaining reference, and every id it adds is non-empty |
| SearchDecoder.Decode | docker_hub_crawler.py:150-263 | an empty array gives ([], 0, 0, 0), and every image returned is a non-empty string |
| SearchDecoder.IdFilterAccepts | docker_hub_crawler.py:235-237 | the later-result filter IsIdLike accepts a path even with whitespace in it, and a word without whitespace |
| SearchDecoder.IdFilterRejects | docker_hub_crawler.py:235-237 | IsIdLike rejects "" and prose with whitespace in it, whitespace including U+3000 as Python's isspace counts it |
| SearchDecoder.IsSpaceCodePoints | docker_hub_crawler.py:235-236 | IsSpace follows Python's isspace: U+0085 is whitespace, the zero-width space U+200B is not |
| SearchDecoder.Resolved | docker_hub_crawler.py:192-243 | the ids the references resolve to are at most one per reference and non-empty, and later results' ids are id-like |
| SearchDecoder.WalkIsPrefixOfResolved | docker_hub_crawler.py:192-243 | the walk appends in reference order and only stops early: its ids are a prefix of the resolved ids |
| SearchDecoder.WalkRaisesOnlyOnLowRef | docker_hub_crawler.py:196-201 | IndexError arises only from a reference below minus the array length |
| SearchDecoder.FirstRefIgnored | docker_hub_crawler.py:196-211 | apart from an IndexError, the first result's own reference has no effect |
| SearchDecoder.FirstWithoutMarkerSkipped | docker_hub_crawler.py:203-211 | without a marker at searchResults + 6 the first result is skipped and the walk goes on |
| SearchDecoder.FirstWithoutIdEmptiesPage | docker_hub_crawler.py:223-243 | with that marker but no "id" pair in the window, or an empty id, the walk stops with no images |
| SearchDecoder.FirstIdFromWindow | docker_hub_crawler.py:223-230 | the first result's id is the string after the first "id" whose pair lies in [sr + 7, min(len, sr + 17)) |
| SearchDecoder.LaterIdAfterRef | docker_hub_crawler.py:196-237 | a later result whose int (or bool) reference n lies in [-len, len), other than -1 onto a non-marker, emits the string at n + 1 under Python's negative indexing when it is id-like, and is skipped otherwise; no marker at n is needed |
| SearchDecoder.LaterBadRefStops | docker_hub_crawler.py:196-217 | a later reference that is not an int or not below the length ends the walk, keeping the ids found so far |
| SearchDecoder.PagingWithoutAnchor | docker_hub_crawler.py:245-258 | without a "paging" string, page size 25 and current page 1 |
| SearchDecoder.PagingAtFirstAnchor | docker_hub_crawler.py:245-258 | at the first "paging" anchor, page size and current page are the ints at +5 and +3 when its layout holds, and 25 and 1 otherwise |
| SearchDecoder.DecodeNoPage | docker_hub_crawler.py:162-187 | an empty array, no "searchResults", or a broken six-slot layout after the first one give ([], 0, 0, 0) |
| SearchDecoder.DecodeIntactLayout | docker_hub_crawler.py:189-263 | with the layout intact: the total is the int at +3, the paging values are Paging's, the page count is the ceiling, the images are a prefix of the resolved ids with at most one per reference, all non-empty; IndexError needs a reference below minus the length |
| SearchDecoder.DecodeAtFirstAnchor | docker_hub_crawler.py:189-263 | with the layout intact, the result is the walk's outcome with the total, the paging values and the page count around it |
| SearchDecoder.DecodeNoRefs | docker_hub_crawler.py:189-263 | an intact layout with an empty reference list gives no images, the payload's total and the page count |
| SearchDecoder.OneResultWalk | docker_hub_crawler.py:203-240 | one result whose marker sits at sr + 6 with "id" after it resolves to that id |
| SearchDecoder.OneResultPaging | docker_hub_crawler.py:245-258 | a paging block with page 2 and size 25 is read as such |
| SearchDecoder.OneResultPage | docker_hub_crawler.py:150-263 | that page of one result and 47 items decodes to (["library/nginx"], 47, 2, 2) |
| SearchDecoder.LowRefRaises | docker_hub_crawler.py:196-201 | a first reference of -100 in a six-element array raises IndexError |
| SearchDecoder.ScanIdWindow | docker_hub_crawler.py:223-230 | the window loop returns the string of the first id pair in the window, or "" without one |
| SearchDecoder.ResolveItem | docker_hub_crawler.py:193-243 | the loop body for result i does what the specification step says: raise, skip, stop or emit |
| SearchDecoder.WalkRefs | docker_hub_crawler.py:192-243 | the loop over the references returns the specification walk's outcome |
| SearchDecoder.ReadPaging | docker_hub_crawler.py:245-258 | the paging scan returns Paging's page size and current page |
| SearchDecoder.ExtractImages | docker_hub_crawler.py:150-263 | the whole decoder returns exactly the specification's outcome |
| Dedup.DedupGroups | docker_hub_crawler.py:335-344 | the output has the same categories, with the same keys, in the same order |
| Dedup.KeepFirst | docker_hub_crawler.py:338-343 | the images kept for one category are at most as many as the input's, each in the input list and none already seen |
| Dedup.KeepFirstPositions | docker_hub_crawler.py:338-343 | the kept images are the subsequence of the list at exactly the positions that are first occurrences |
| Dedup.KeepFirstIsSubsequence | docker_hub_crawler.py:338-343 | each kept list is an in-order subsequence of its input list |
| Dedup.KeepFirstElems | docker_hub_crawler.py:338-343 | an image is kept exactly when it is in the list and not already seen |
| Dedup.KeepFirstNoDuplicates | docker_hub_crawler.py:338-343 | no image is kept twice |
| Dedup.KeepFirstAppend | docker_hub_crawler.py:335-344 | deduplicating a concatenation deduplicates the second part with the first part's images counted as seen |
| Dedup.DedupFlatten | docker_hub_crawler.py:335-344 | read category after category, the output is the whole input with each image at its first occurrence only |
| Dedup.DedupUniqueAndComplete | docker_hub_crawler.py:335-344 | no image occupies two output positions across all lists, and every input image is in the output |
| Dedup.DedupGroupAt | docker_hub_crawler.py:337-343 | category k keeps its key and the in-order subsequence of its images met neither earlier in its list nor in an earlier category |
| Dedup.RemoveDuplicates | docker_hub_crawler.py:327-344 | the nested loops with one shared seen set return exactly DedupGroups |
| PageLinks.Decimal | docker_hub_crawler.py:284-286 | the page number is written as a non-empty string of decimal digits |
| PageLinks.DecimalRoundTrip | docker_hub_crawler.py:284-286 | reading those digits back gives the page number |
| PageLinks.PageUrl | docker_hub_crawler.py:283-286 | the page URL starts with the category URL and is longer than it by a separator, "page=" and at least one digit |
| PageLinks.PageUrlShape | docker_hub_crawler.py:283-286 | the page URL is the category URL, then '&' exactly when it already has a '?' (else '?'), then "page=" and the page number's digits |

## Left out

- `extract_json_from_html`: its regular-expression search, the
  `unicode_escape` decoding and `json.loads` are library calls. The
  decoders take the already parsed array.
- `get_images_for_category` and `crawl_categories`: HTTP requests,
  timeouts, `time.sleep`, exception handling and printing. Only their page
  URL formula is modelled, in `PageLinks`.
- `save_results_to_file`: `random.shuffle`, directory creation and file
  writes.
- `__init__` and `main`: reading environment variables and printing. The
  base URL is a parameter.
- `extract_images_from_data`'s `category_name` parameter is unused by the
  source, so the model does not take it.
- Floats are carried as an opaque `Float` value. No decoder inspects them
  beyond `isinstance` tests, which a float fails.
- Python's `str.isspace` is modelled by the fixed list of code points for
  which it is true (`SearchDecoder.IsSpace`).
- SearchDecoder.Decode: a bool that passes as the total or the current
  page is returned as 1 or 0, where Python returns the bool itself.
- Python strings may hold lone surrogates, which `json.loads` produces
  from escapes such as `\ud800`. A Dafny `char` cannot, so payloads with
  them fall outside the model.
- Dedup.DedupGroups: the results dict is an association list in insertion
  order. A dict cannot hold a key twice; if the list repeats a key, the
  model keeps both entries, where Python would keep the last.
- Data flow between the three decoders (for example, which category URLs
  are crawled) belongs to the orchestration above, which is not modelled.
