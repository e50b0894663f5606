# vim-awesome plugin store, in Dafny

This project models the plugin-table logic of vim-awesome (`db/plugins.py`),
the directory of Vim plugins fed by scrapers of vim.org, the vim-scripts
GitHub mirror and authors' own GitHub repositories. It covers:

- **Reconciling documents** (`Merge`). `is_more_authoritative` decides which
  of two documents comes from the more authoritative GitHub repository.
  `_merge_dict_except_none` and `update_plugin` merge two documents about one
  plugin without losing fields, keeping the later `updated_at` and the
  earlier `created_at`.
- **Permalinks** (`Slugs`). `_generate_unique_slug` derives a slug from the
  highest-priority name field, falling back to suffixed slugs drawn from a
  shuffled pool of eighteen suffixes.
- **Writing plugins** (`Ingest`). `insert` assigns slugs, fills the
  normalized-name placeholder and applies the row schema's defaults, then
  writes the batch. `_find_matching_vimorg_plugins` and `add_scraped_data`
  insert, upsert or refuse scraped data by its number of matches. The
  table is a class whose `rows` map slugs to documents.
- **The search index** (`Ranking`, `Text`, `Search`). `get_search_index`
  plucks the displayed fields, sorts stably by popularity and attaches each
  plugin's keywords. The keywords come from `_get_search_tokens_for_plugin`,
  built on Python's `split()` and `lower()`.
- **Tags** (`Tags`). `update_tags` computes the added and removed tags and
  replaces the tag list.

Field values are `None`, integers, strings and lists of strings (`Values.Val`).
Python 2 truthiness and Python 2's ordering of mixed types (None < numbers <
lists < strings) are written out, because `>`, `max` and `min` act on
whatever the scrapers stored. Operations that can raise return
`Result`. The errors are `assert name` (`InvalidInput`), the exhausted
suffix pool, an untokenizable field, a sort key that cannot be negated, a
missing key and a value `set()` cannot iterate.

External inputs become parameters:

- the `slugify` library is a function parameter;
- `random.shuffle` is a permutation `order` of the suffix pool;
- the "is this slug taken" query is the set of slugs stored in the table.

The model follows the code where it and its comments part ways. The
comment at db/plugins.py:267 says `# Keep the latest updated date.`, but
the code keeps it only when both sides carry a truthy `updated_at`, and
copies any non-None value from the winning side first. So new data with an
explicit `updated_at` of 0 overwrites an older, non-zero timestamp
(`Merge.ZeroUpdatedAtOverwrites`).

## Model

| member | source | states |
|---|---|---|
| Values.CompareAntisymmetric | db/plugins.py:239-242 | swapping the operands of Python 2's comparison negates it, so `a > b` and `b > a` never both hold |
| Values.CompareZeroIffEqual | db/plugins.py:241 | the comparison reports "equal" exactly when the two values are equal, so `==` and ordering agree |
| Values.MaxIsUpperBound | db/plugins.py:269-270 | `max` returns one of its two arguments and neither argument is greater than it |
| Values.MinIsLowerBound | db/plugins.py:274-275 | `min` returns one of its two arguments and neither argument is smaller than it |
| Values.Compare | db/plugins.py:239-242 | Python 2's `cmp` on field values answers -1, 0 or 1 (its antisymmetry and its agreement with `==` are the two lemmas above) |
| Values.Max | db/plugins.py:268-270 | `max` returns one of its arguments, and the second whenever it is greater |
| Values.Min | db/plugins.py:273-275 | `min` returns one of its arguments, and the second whenever it is smaller |
| Values.Collect | db/plugins.py:127-137 | a loop that stops at the first failure: it succeeds exactly when every step does, with the steps' values in order; otherwise it fails with the error of the first failing step |
| Values.CollectStopsAt | db/plugins.py:127-131 | when step `i` is the first to fail, the whole loop fails with that step's error |
| Values.CollectOk | db/plugins.py:127-137 | when every step succeeds, the loop succeeds with exactly the steps' values |
| Merge.MergeExceptNone | db/plugins.py:280-287 | the keys are `a`'s plus `b`'s non-None keys; `b`'s non-None values win; `a`'s values stay where `b` has none |
| Merge.IsMoreAuthoritative | db/plugins.py:227-246 | a document is more authoritative only with two truthy, different GitHub URLs, an `updated_at` no earlier than the other's and, on equal timestamps, no fewer stars |
| Merge.UpdatePlugin | db/plugins.py:249-277 | whichever side wins, the merged keys include every key either document holds with a non-None value and come from the two documents only |
| Merge.AuthorityNeedsTwoUrls | db/plugins.py:237-246 | without two truthy, different `github_url`s neither document is more authoritative |
| Merge.AuthorityOnIntegers | db/plugins.py:237-246 | with integer or missing counts, authority holds exactly when the URLs are truthy and different and (`updated_at` is later, or equal with more `github_stars`) |
| Merge.AuthorityAsymmetric | db/plugins.py:227-246 | two documents are never each more authoritative than the other |
| Merge.AuthorityTie | db/plugins.py:239-242 | equal timestamps and equal star counts leave neither document more authoritative |
| Merge.UpdatePluginKeys | db/plugins.py:262-265 | the merged keys are the base document's keys plus the overlay's non-None keys; the overlay is the old document exactly when it is more authoritative |
| Merge.UpdatePluginFieldWinner | db/plugins.py:259-275 | for every field except a timestamp that both documents carry as truthy, the overlay's non-None value wins and the base value stays otherwise |
| Merge.UpdatePluginNonDestructive | db/plugins.py:249-277 | every merged value comes from one of the inputs, and a field that is present and not None in either input is present and not None in the result |
| Merge.UpdatePluginTimestamps | db/plugins.py:267-275 | with truthy timestamps on both sides, the result's `updated_at` is `max` of the two and its `created_at` is `min` of the two, so no input `updated_at` is greater and no input `created_at` is smaller |
| Merge.UpdatePluginIdempotent | db/plugins.py:249-277 | merging a document with itself gives it back unchanged |
| Merge.ZeroUpdatedAtOverwrites | db/plugins.py:265-270 | an explicit `updated_at` of 0 in the new data replaces an older, positive timestamp |
| Slugs.SlugName | db/plugins.py:149-151 | the name is a non-empty string held by the first truthy name field in priority order; with no truthy name field the assertion fails |
| Slugs.SlugNamePriority | db/plugins.py:149-150 | vim.org name first, then GitHub repository name, then vim-scripts mirror name |
| Slugs.FirstFree | db/plugins.py:183-190 | the result is the first suffixed candidate in shuffled order that is not taken; it fails exactly when every candidate is taken |
| Slugs.UniqueSlug | db/plugins.py:143-190 | a generated slug is never taken and is either the plain slug of the name or one of the suffixed candidates; without a name the assertion fails |
| Slugs.GenerateUniqueSlug | db/plugins.py:143-190 | the loop returns the plain slug when free, else the first free suffixed slug in shuffled order, and never a taken slug |
| Slugs.UniqueSlugIsFresh | db/plugins.py:153-187 | a generated slug is never already taken |
| Slugs.UniqueSlugPrefersPlain | db/plugins.py:153-155 | the plain slug of the name is chosen whenever it is free |
| Slugs.UniqueSlugExhausted | db/plugins.py:161-190 | generation fails exactly when the plain slug and all eighteen suffixed slugs are taken, whatever the shuffle |
| Slugs.FirstFreeExhausted | db/plugins.py:181-190 | over any permutation of the pool, the search fails exactly when every candidate of the pool is taken |
| Ingest.TakenSlugs | db/plugins.py:193-195 | models the `_slug_taken` primary-key query: a slug is taken exactly when a document is stored under it |
| Ingest.AssignSlug | db/plugins.py:129-131 | a truthy slug is kept; otherwise the generated slug is stored, and generation's failure is the step's failure |
| Ingest.NameDefault | db/plugins.py:133-135 | a truthy normalized name is kept, a falsy or missing one becomes the placeholder; no other field changes |
| Ingest.ApplyDefaults | db/plugins.py:137 | the plugin's own fields keep their values; every schema field it lacks is added with its default |
| Ingest.ApplySchema | db/plugins.py:18-100 | every field of the row schema is present, the plugin's values win, and every added field holds its schema default |
| Ingest.Prepare | db/plugins.py:127-137 | building a row fails exactly when the plugin has no truthy slug and generation fails, with generation's error |
| Ingest.PrepareFields | db/plugins.py:127-137 | a built row has every schema field, a slug and a normalized name; the plugin's other fields are unchanged; the slug is the plugin's own or a fresh generated one; the name is the plugin's own or the placeholder |
| Ingest.PrepareAll | db/plugins.py:116-137 | a batch builds exactly when every plugin's row builds, and then holds each plugin's row in order |
| Ingest.WriteRow | db/plugins.py:139-140 | writing adds the row's slug as a key; an upsert replaces the stored document, a plain insert leaves an existing one alone; no other document changes |
| Ingest.Write | db/plugins.py:139-140 | writing a batch leaves the table keyed by the old keys plus the slugs of the batch's rows |
| Ingest.WriteKeeps | db/plugins.py:139-140 | writing a batch keeps every document under its own slug, drops no key, and a plain insert changes no stored document |
| Ingest.Matches | db/plugins.py:308-316 | with a truthy `vimorg_id`, exactly the stored documents with that `vimorg_id`; without one, nothing |
| Ingest.Ingested | db/plugins.py:319-344 | ingestion keeps every key; it is ambiguous exactly when several documents match and then writes nothing, as on failure; an insert follows no match and an upsert one match, each adding only the reported slug as a key |
| Ingest.IngestPreserves | db/plugins.py:333-344 | ingestion keeps every key and every slug binding; an ambiguous match or a failure writes nothing; an insert changes no stored document; an upsert changes only the document it reports |
| Ingest.IngestNewPluginIsFresh | db/plugins.py:335-336 | unmatched data without a slug is stored, as the row `insert` builds from it, under a new, freshly generated slug beside every existing document |
| Ingest.IngestMatchUpdatesInPlace | db/plugins.py:337-339 | with exactly one match and scraped data that has no slug or a None slug, the merge of the match and the data replaces the match under its own slug, and no key is added |
| Ingest.IngestMatchWithFalsySlugDuplicates | db/plugins.py:319-344 | with one match, the new data winning the merge and a slug that is falsy but not None (such as `""`), the upsert stores the merge under a fresh slug beside the match, which stays unchanged |
| Ingest.BatchSharesSlug | db/plugins.py:127-140 | in one batch, two new plugins with the same free name get the same slug, and a plain insert stores only the first |
| Ingest.PrepareFreshName | db/plugins.py:129-131 | a plugin without a slug whose plain slug is free is given exactly that slug |
| Ingest.PrepareAllPair | db/plugins.py:127-137 | a batch of two plugins whose rows both build succeeds with those two rows in order |
| Ingest.BuildRow | db/plugins.py:128-137 | the imperative face of `Prepare`, step by step as the loop body updates the plugin: it builds the row `Prepare` specifies, or fails as it does |
| Ingest.PluginTable.Insert | db/plugins.py:116-140 | the result is every plugin's row in order, or the first failure; the table becomes the batch written over the old table, or stays unchanged on failure; documents stay keyed by slug |
| Ingest.PluginTable.AddScrapedData | db/plugins.py:319-344 | the outcome and new table are those of inserting on no match, upserting the merge on one match, and writing nothing on several |
| Text.Word | db/plugins.py:405 | the leading word is a whitespace-free prefix, maximal, and non-empty when the text starts with a non-space |
| Text.Split | db/plugins.py:405 | every word of `split()` is non-empty and free of whitespace |
| Text.SplitKeepsText | db/plugins.py:405 | the words laid end to end are exactly the non-whitespace characters of the input |
| Text.SplitJoin | db/plugins.py:405 | splitting words joined by single spaces gives the words back |
| Text.SplitOfWord | db/plugins.py:405 | a non-empty word followed by nothing or by whitespace splits into that word and the split of the rest |
| Text.SplitTwoWords | db/plugins.py:405 | two space-free words joined by one space split into exactly those two words |
| Text.SplitAtVowelSeparator | db/plugins.py:405 | U+180E separates words, as in Python 2.7's Unicode 5.2 tables |
| Text.Lower | db/plugins.py:414 | every character is lower-cased in place and the length is kept |
| Text.LowerIdempotent | db/plugins.py:414 | lower-casing twice is lower-casing once |
| Ranking.Negated | db/plugins.py:380-381 | a missing count reads as 0 and is negated; a present non-integer cannot be negated |
| Ranking.KeyOf | db/plugins.py:380-381 | the sort key is the three negated counts, and it fails when any of them fails |
| Ranking.KeyLeTotal | db/plugins.py:380-381 | any two keys are comparable, and keys that are each at most the other are equal |
| Ranking.KeyLeTransitive | db/plugins.py:380-381 | the key order is transitive |
| Ranking.KeyOrderIsPopularity | db/plugins.py:380-381 | ascending on negated keys is exactly descending on (users, stars, rating) |
| Ranking.InsertRanked | db/plugins.py:380 | insertion lengthens the list by one (what it adds is stated by InsertPermutes) |
| Ranking.InsertPermutes | db/plugins.py:380 | insertion adds exactly the one element to the multiset of pairs |
| Ranking.SortedCons | db/plugins.py:380 | a pair whose key is at most every key of a sorted list can lead it |
| Ranking.InsertBounded | db/plugins.py:380 | a lower bound on the new key and on every old key bounds every key after insertion |
| Ranking.InsertSorted | db/plugins.py:380 | inserting into a sorted list keeps it sorted |
| Ranking.SortRanked | db/plugins.py:380-381 | the sort keeps the length (that it permutes and orders is stated by SortPermutes and SortSorted) |
| Ranking.SortPermutes | db/plugins.py:380-381 | the sort is a permutation of its input |
| Ranking.SortSorted | db/plugins.py:380-381 | the sort's output is in ascending key order |
| Ranking.WithKeyInsert | db/plugins.py:380 | insertion places the new element after none of the elements sharing its key |
| Ranking.SortStable | db/plugins.py:380-381 | the elements sharing any one key keep their relative order |
| Ranking.InsertPlugins | db/plugins.py:380 | insertion adds the new plugin to the plugins once |
| Ranking.SortPlugins | db/plugins.py:380-381 | sorting rearranges the plugins without losing or duplicating any |
| Ranking.SortWellKeyed | db/plugins.py:380-381 | after sorting, each pair still carries its own plugin's key |
| Ranking.RecordsWithKeyOfPairs | db/plugins.py:380-381 | the plugins with key `k` are the plugins of the pairs with key `k`, in order |
| Search.FieldTokens | db/plugins.py:403-412 | a field fails to tokenize exactly when it is an integer |
| Search.Tokens | db/plugins.py:398-412 | the keywords fail, as untokenizable, exactly when a present search field holds an integer |
| Search.SearchTokens | db/plugins.py:390-416 | the loop yields the lower-cased tokens of every present search field, or fails at an untokenizable one |
| Search.TokensAreLower | db/plugins.py:391-392 | every keyword is already lower-case |
| Search.LowerAll | db/plugins.py:414 | models lower-casing each word into the keyword set: a token is in the result exactly when it is the lower-case form of one of the words |
| Search.TokensOfNameAndTagsFields | db/plugins.py:398-416 | a plugin with only a name and tags has as keywords exactly the lower-cased words of the two fields |
| Search.TokensWithoutSearchFields | db/plugins.py:398-412 | a plugin with none of the searched fields has no keywords and does not fail |
| Search.TokensOfNameAndTags | db/plugins.py:394-416 | a two-word name and two tags give exactly those four lower-cased keywords |
| Search.TokensExample | db/plugins.py:394-416 | "Foo Bar" tagged autocomplete and C/C++ gives foo, bar, autocomplete and c/c++ |
| Search.Pluck | db/plugins.py:368-371 | models RethinkDB's `pluck` primitive: exactly the listed fields the document has, with their values |
| Search.PluckKeeps | db/plugins.py:368-371 | a document holding only displayed fields is plucked unchanged |
| Search.PluckAll | db/plugins.py:368-373 | models `pluck` over the table scan: every document plucked, in order |
| Search.SearchIndex | db/plugins.py:351-387 | the index has one entry per plugin, and fails only as unsortable or untokenizable |
| Search.GetSearchIndex | db/plugins.py:351-387 | the sort-then-walk loop produces the index the stage functions specify |
| Search.SortedPairs | db/plugins.py:380-381 | the sorted pairs carry their plugins' keys, are in key order, permute the plucked plugins and keep equal keys in order |
| Search.SearchIndexOrdered | db/plugins.py:380-381 | each plugin of the index ranks at least as high as every later one: more users, then more stars, then at least the rating |
| Search.SearchIndexPermutation | db/plugins.py:373-381 | the index holds every plucked plugin exactly as often as the table does |
| Search.SearchIndexStable | db/plugins.py:380-381 | plugins tying on all three counts keep the table's order |
| Search.SearchIndexKeywords | db/plugins.py:383-385 | every entry's keywords are its plugin's tokens |
| Search.KeysFail | db/plugins.py:380-381 | computing the sort keys fails, as unsortable, exactly when some plucked plugin cannot be keyed |
| Search.TokensFailPermuted | db/plugins.py:383-385 | tokenizing a rearrangement of the plugins fails exactly when tokenizing the plugins does |
| Search.SearchIndexErrors | db/plugins.py:380-385 | the index fails exactly when some plugin cannot be keyed or tokenized; an unkeyable plugin makes it fail as unsortable |
| Search.IndexOfThree | db/plugins.py:380-381 | three plugins whose keys put the second first and the third last are listed second, first, third |
| Search.RankingExample | db/plugins.py:380-381 | (5 users, 2 stars), (5, 9), (1, 100) are listed as (5, 9), (5, 2), (1, 100) |
| Tags.TagSet | db/plugins.py:206-208 | `set()` of a list is its items, of a string its characters; None and integers cannot be iterated |
| Tags.TagUpdate | db/plugins.py:202-216 | a tag is added exactly when it is new and removed exactly when it is dropped; the two are disjoint; old less removed plus added is the new set; only the tags field changes, to the given list; a missing field is a key error |
| Tags.UpdateTags | db/plugins.py:202-216 | the imperative face of `TagUpdate`, statement by statement as the source runs: it computes what `TagUpdate` specifies |
| Tags.NoChangeIffSameTags | db/plugins.py:207-208 | nothing is added or removed exactly when the new tags equal the old as sets |
| Tags.TagUpdateIdempotent | db/plugins.py:202-216 | updating again with the same tags changes nothing |
| Tags.TagUpdateUndo | db/plugins.py:207-216 | putting the old list back swaps added and removed and restores the plugin |

## Left out

- RethinkDB I/O is modelled as values. The `plugins` table is a map from slug to document. `_slug_taken` is the set of stored slugs. The secondary-index lookup is a set comprehension. Index and table creation (`ensure_table`) and `get_for_name` are not part of this model.
- Ingest.WriteRow: models a plain insert of an existing key as "keep the stored document". The store reports the conflict in its result, and that result is not modelled.
- Ingest.Matches: returns the set of matching slugs, not a list of documents. `add_scraped_data` only uses its size and its single element.
- Ingest.Matches: data without a truthy `vimorg_id` matches nothing. The heuristic the repository leaves unimplemented returns None, which the caller treats as no match.
- Ingest.PluginTable.Insert: returns the built rows or the first error. The source returns RethinkDB's write summary (counts of inserted, replaced and erroring documents), which is not modelled.
- Ingest.PluginTable.Insert: takes a sequence; wrapping a single plugin in a list is the caller's job (`AddScrapedData` does it). The `*args`/`**kwargs` pass-through is reduced to the `upsert` flag.
- Ingest.Write: applies a batch row by row in list order. That a plain insert of two rows with the same new slug keeps the first (`Ingest.BatchSharesSlug`) assumes RethinkDB processes a batch in list order, which neither the repository nor this model establishes.
- Ingest.BuildRow: builds a new record rather than writing `slug` and `normalized_name` into the caller's dict. So the model does not capture that the caller sees those writes, including the slug written before a later plugin of the batch fails.
- Ingest.ApplySchema: the schema's `slug` placeholder is not listed, because every row receives a slug first. Defaults are stated as "the pair is a schema entry".
- Slugs.SlugName: a truthy name that is not a string is reported as `InvalidInput`. The model does not pass a non-string to the slugging library.
- `slugify` is an uninterpreted function parameter and `random.shuffle` a permutation parameter. Slugging rules and randomness are not modelled.
- `logging.error` in the ambiguous branch of `add_scraped_data` is not modelled. That branch writes nothing, as modelled.
- `db.tags.add_tag` and `remove_tag` are external counters. The model returns the added and removed sets instead.
- Tags.UpdateTags: returns the updated plugin rather than mutating the caller's dict. The `r.table('plugins').update(plugin)` write that follows is not modelled.
- Text.Lower: lower-cases ASCII letters only. Unicode case mapping is not modelled.
- Search.GetSearchIndex: keywords are a set of strings, not the `' '.join` string, whose word order depends on set iteration order. The plucked documents are returned as separate `SearchEntry` values instead of gaining a `keywords` field.
- Ranking.SortRanked: `list.sort` is modelled as a stable insertion sort on sequences, not an in-place sort of a Python list.
- Floats, booleans and nested documents are not modelled as field values. Counts and timestamps are integers.
- Thread safety is not modelled; the source itself warns that slug generation and tag counting are not thread-safe.
