# WikiToolkit request planning and result merging, in Dafny

WikiToolkit wraps the MediaWiki Action API, the Wikimedia pageviews API, the Lift Wing
scoring service and the Wikimedia dump servers. This project models the logic that
sits between those services and the caller. It covers six things:

- how references are cut into batches and turned into query parameter maps (`chunks`,
  `querylister`, the revision-id batching);
- how continued queries are followed and filtered (`query_static`, `parse_static`,
  `iterate_query`, `query_async`, `iterate_async_query`);
- how the pages a query returns are folded into redirect, normalisation, id, link and
  revision dictionaries (`parse_redirects`, `parse_fetched_redirects`, `parse_links`,
  `parse_revision`, `parse_revisions`, `parse_revisions_data`,
  `parse_revisions_content`);
- how the `page_maps` store canonicalises references and grows its seven maps
  (`fix_redirects`, `get_redirects`, `return_maps`/`load_maps`);
- how `get_links` walks references with a batch size that shrinks on failure and grows on
  success;
- how page views are summed per redirect target (`api_article_views`), how quality scores
  are dispatched per model family and attached to revisions (`get_revisions_quality`,
  `get_articles_quality`), and how `dumps.py` retries downloads, reshapes article date
  ranges into hourly tables and filters work already done (`download_table`,
  `get_datelangartdict`, `check_rows`, the reverse redirect map).

Every network answer is an argument of the model: a finite sequence of response
records, a function from query to answer, a status-code oracle, or a script of
`Attempt`s for the batches of `get_links`. Decoded JSON is the `Json` datatype of
`json.dfy`. A Python dict whose iteration order matters is kept as its list of items,
and `Collections.FromPairs` reads it as a map. `asyncio.gather` is an order-preserving
map over the queries.

Files, one module each:

- `wrappers.dfy`: `Option`, `Result` and the Python exceptions as `Error`.
- `json.dfy`: `Json` and total accessors.
- `collections.dfy`: dict-building folds and list helpers.
- `ints.dfy`: Python's `int()` on decoded values and strings.
- `tools.dfy`, `wikitools.dfy`: the two copies of `chunks`.
- `api.dfy`: `querylister`, the continuation loops and the portion filters.
- `redirects.dfy`: the redirect reducers and the reverse alias map.
- `pagemaps.dfy`: the `page_maps` class, over a pure reading of each method.
- `links.dfy`, `revisions.dfy`, `pageviews.dfy`, `quality.dfy`, `dumps.dfy`: the remaining
  modules, one per source file.

Where a source loop changes state step by step, the model is a `method` with loop
invariants. The method is proved equal to a function, and the lemmas about that
function carry the properties. Where the source is a comprehension, the model is a
function. `page_maps` is a `class` whose methods update its seven map fields.

## Model

| member | source | states |
|---|---|---|
| Tools.ChunkCountIsCeiling | src/wikitools/tools.py:37 | There are ceil(len(l)/n) slices: n of them cover the list, one fewer would not, and an empty list yields none. |
| Tools.ChunkSizes | src/wikitools/tools.py:37-39 | Every slice has between 1 and n items, and every slice but the last has exactly n. |
| Tools.ChunkAt | src/wikitools/tools.py:37-39 | Slice k is `l[k*n : min(k*n+n, len(l))]` and starts inside the list. |
| Tools.ChunksConcat | src/wikitools/tools.py:37-39 | Concatenating the slices gives back the list exactly. |
| Tools.ChunksChecked | src/wikitools/tools.py:37 | For any int step, `range` raises ValueError exactly on 0, a negative step yields nothing, and a positive one reconstructs the list. |
| Tools.CollectChunks | src/wikitools/tools.py:19-39 | The generator's loop collects exactly the slices of `Chunks`, whose concatenation is the list. |
| Wikitools.SameAsTools | src/wikitools/wikitools.py:2-22 | The duplicate `chunks` yields the same slices as the one in tools.py, for every list and positive size. |
| Wikitools.ChunksConcat | src/wikitools/wikitools.py:20-22 | Concatenating its slices reconstructs the list. |
| Wikitools.ChunkShape | src/wikitools/wikitools.py:20-22 | It yields ceil(len(l)/n) slices, each of 1 to n items, all but the last of exactly n. |
| Ints.ParseInt | wikitoolkit/quality.py:116 | `int(s)` on a string reads a run of decimal digits as their value, and fails only with ValueError. |
| Ints.DigitsOfNat | wikitoolkit/quality.py:116 | Reading back the digits `str` writes gives the number. |
| Ints.ParseIntOfString | wikitoolkit/quality.py:116 | `int(str(i)) == i` for every integer. |
| Ints.ParseNatString | wikitoolkit/quality.py:116 | The same for natural numbers. |
| Ints.ParseNegative | wikitoolkit/quality.py:116 | The same for a minus sign before the digits. |
| Ints.IntOf | wikitoolkit/quality.py:109 | `int(x)` keeps ints, parses strings, raises TypeError on None, lists and dicts, and raises nothing but ValueError or TypeError. |
| Api.Strs | src/wikitools/api.py:265 | `[str(x) for x in ids]`: one decimal string per id, in order. |
| Api.QueryArgs | src/wikitools/api.py:275-276 | The query map holds the pipe-joined batch under the key plus every parameter, and a parameter of the same name overrides the batch. |
| Api.QueryLister | src/wikitools/api.py:225-278 | ValueError exactly when the three-way XOR of "given" fails, so all three given pass and use titles. Otherwise there is one query per batch of the distinct references, after `process_articles` ran over titles with `norm_map` and `titles_redirect_map`, or over page ids with `pageids_redirect_map`. key/ix are titles/1, pageids/0 or revids/-1. |
| Api.BatchesCoverOnce | src/wikitools/api.py:250-276 | Each batch holds between one and the batch size of references (one for generator queries, fifty otherwise), and together the batches hold each distinct reference exactly once. |
| Api.RevidsExactlyOnce | src/wikitools/api.py:268-270 | In the revids path every given revid appears in exactly one batch, as its decimal string, with no repeats and nothing else. |
| Api.IntToStringInjective | src/wikitools/api.py:265-270 | Distinct ids give distinct strings, so deduplicating ids deduplicates the batch. |
| Api.RefsOf | src/wikitools/links.py:68-69 | Once exactly one of titles and pageids is a non-empty list, the call walks the titles exactly when they were the non-empty one. |
| Api.FollowContinuations | src/wikitools/api.py:144-166 | The shared continuation loop. The base request gets action and format. Request i+1 is the base overwritten by answer i's `continue`. The loop raises ValueError on `error`, yields the section when present, and stops at the first answer without `continue`. |
| Api.QueryStatic | src/wikitools/api.py:130-166 | `query_static` is that loop for the `query` action and section. |
| Api.ParseStatic | src/wikitools/api.py:169-205 | `parse_static` is that loop for the `parse` action and section. |
| Api.RunDetermined | src/wikitools/api.py:147-166 | The answers alone decide how many requests are sent, which ones, what is yielded and how the run ends. |
| Api.RunLengthIs | src/wikitools/api.py:164-165 | The number of requests is up to and including the first answer that does not continue. |
| Api.IterateQuery | src/wikitools/api.py:18-40 | `iterate_query` raises (as ValueError) exactly when the stream raises APIError, and yields at most one item per portion. In debug mode, when nothing raises, it yields exactly one per portion. |
| Api.EmptyPortionContributesNothing | src/wikitools/api.py:35-38 | A portion without `query` leaves the yielded pages unchanged wherever it occurs. |
| Api.QueryAsync | src/wikitools/api.py:56-102 | Without continuation it returns the filtered single response, or None when that yields nothing, and an APIError escapes unconverted. With continuation it returns the pages of all portions in order, or the converted error. |
| Api.ContinuedStep | src/wikitools/api.py:86-100 | The first portion of a continued stream contributes itself (debug), its pages (`query`) or nothing, in front of the rest. An APIError first ends the call with ValueError. |
| Api.IterateAsyncQuery | src/wikitools/api.py:104-128 | Result i is what query i's coroutine returns: `gather` is positional. |
| Api.Gathered | src/wikitools/api.py:126 | Gathering succeeds exactly when every task does, with the results in query order. Otherwise it fails with the error one of the tasks raised. |
| Redirects.FromToPairs | src/wikitools/redirects.py:36-37 | One `from` to `to` pair per redirect entry, in order. |
| Redirects.ParseRedirects | src/wikitools/redirects.py:17-47 | `parse_redirects` folds every portion's redirect, missing-page, normalisation and id updates into the three dicts, later portions overwriting earlier ones. |
| Redirects.ParsedRedirectKeys | src/wikitools/redirects.py:36-40 | The redirect map's keys are exactly the `from` titles of redirect entries and the titles of missing pages. |
| Redirects.ParsedRedirectKey | src/wikitools/redirects.py:36-40 | The same, for one title. |
| Redirects.ParsedRedirectValues | src/wikitools/redirects.py:36-40 | Each redirect maps to None or to a `to` that some redirect entry gives for it. |
| Redirects.ParsedIdsMeaning | src/wikitools/redirects.py:43-45 | The id map holds exactly the titles of pages that are not missing, each with such a page's `pageid`, or -1 when it has none. |
| Redirects.RedirectPairOrigin | src/wikitools/redirects.py:36-40 | Every redirect update comes from a redirect entry or from a missing page, mapped to None. |
| Redirects.RedirectEntryPair | src/wikitools/redirects.py:36-37 | Every redirect entry yields its update. |
| Redirects.MissingPagePair | src/wikitools/redirects.py:38-40 | Every missing page yields a redirect of its title to None. |
| Redirects.IdPairOrigin | src/wikitools/redirects.py:43-45 | Every id update comes from a page that is not missing. |
| Redirects.FoundPagePair | src/wikitools/redirects.py:43-45 | Every page that is not missing yields its id update. |
| Redirects.RedirectTitles | src/wikitools/redirects.py:101 | One title per redirect listed for the page. |
| Redirects.FetchedMap | src/wikitools/redirects.py:96-106 | The fetched map is keyed by exactly the titles of pages that exist, and each list starts with its own title. |
| Redirects.FetchedStep | src/wikitools/redirects.py:98-106 | A missing page changes nothing. A page seen before extends its title's list, and a new one starts a list with its title followed by its redirects. |
| Redirects.NoAliasesWithoutPage | src/wikitools/redirects.py:99-106 | A title no existing page has collects no redirect titles. |
| Redirects.ParseFetchedRedirects | src/wikitools/redirects.py:82-110 | `parse_fetched_redirects` builds `FetchedMap` and the redirects' ids. |
| Redirects.ReversePairsMember | src/wikitools/redirects.py:141 | `(x, k)` is generated exactly when k is a key and x is in k's list. |
| Redirects.ReverseMeaning | src/wikitools/redirects.py:235 | The reverse map holds every alias of every key and nothing else. Each alias maps to a key whose list holds it, and an alias listed under one key only maps to that key. |
| Redirects.ReverseLast | src/wikitools/redirects.py:235 | An alias listed under several keys maps to the last of them in the dict's iteration order. |
| RedirectMaps.PendingTitles | src/wikitools/redirects.py:163-167 | The titles still to fetch: normalised then redirected, truthy, each once, and not already known. |
| RedirectMaps.AsInts | src/wikitools/redirects.py:171 | The list comprehension succeeds exactly when every `int` does, value by value. |
| RedirectMaps.RedirectedIds | src/wikitools/redirects.py:171 | The ids through the page-id redirect map are exactly `m.get(x, x)` of the given ids. |
| RedirectMaps.PendingIds | src/wikitools/redirects.py:170-175 | The page ids still to fetch: redirected, not None, each once and not already known. It raises exactly when `int` rejects an id. |
| RedirectMaps.Requested | src/wikitools/redirects.py:162-175 | Only a non-empty titles list is filtered, else a non-empty page-id list. The method returns early exactly when the filter leaves nothing. |
| RedirectMaps.Lookup | src/wikitools/redirects.py:199 | `id_map[x]` succeeds exactly when x has an id, or is None under the None guard. Otherwise it raises KeyError(x). |
| RedirectMaps.RelabelPairs | src/wikitools/redirects.py:199-200 | The relabelled dict succeeds exactly when every key and value has an id. It then pairs each key's id with its target's id, in order. |
| RedirectMaps.LookupAll | src/wikitools/redirects.py:244 | `[id_map[x] for x in xs]` succeeds exactly when all have ids, element by element. |
| RedirectMaps.RelabelLists | src/wikitools/redirects.py:244-245 | The relabelled list dict succeeds exactly when every key and every alias has an id. |
| RedirectMaps.IdOf | src/wikitools/redirects.py:199 | When the lookup succeeds this is the id it finds. |
| RedirectMaps.IdsOf | src/wikitools/redirects.py:244 | One id per element, in order. |
| RedirectMaps.RelabelledLast | src/wikitools/redirects.py:199-200 | In the relabelled dict, a key's id maps to its value's id when no later key has the same id. |
| RedirectMaps.RelabelledListLast | src/wikitools/redirects.py:244-245 | In the relabelled list dict, a key's id maps to the ids of its list when no later key has the same id. |
| RedirectMaps.MissingIds | src/wikitools/redirects.py:188-193 | Every redirect key without an id gets one, and -1 when the follow-up query found none. |
| RedirectMaps.MergedFetched | src/wikitools/redirects.py:234 | The merged fetched lists are keyed by the titles of existing pages, each list starting with its key. |
| RedirectMaps.FetchedOrder | src/wikitools/redirects.py:234 | The merged dict's keys, each once. |
| RedirectMaps.FixedIds | src/wikitools/redirects.py:192-198 | After `fix_redirects` every redirect key and every old key has an id, -1 when no source gave one. |
| RedirectMaps.FixedOrder | src/wikitools/redirects.py:185 | The redirect keys in iteration order are exactly the fetched redirect keys. |
| RedirectMaps.RecordRedirects | src/wikitools/redirects.py:185-200 | The title redirect, norm and id maps take the fetched entries. The page-id redirect map gains the relabelled redirects (`RelabelPairs`) when every lookup succeeds and is unchanged when one raises KeyError, the call then ending with that error. The other maps are unchanged and every map keeps its keys. |
| RedirectMaps.FixRaisesIff | src/wikitools/redirects.py:199-200 | KeyError exactly when some non-None redirect target has no id, and then the page-id redirect map is unchanged. |
| RedirectMaps.FixRelabelled | src/wikitools/redirects.py:199-200 | The dict comprehension over the fetched redirects can only fail with a KeyError for a key that has no id. |
| RedirectMaps.FixRelabelsAll | src/wikitools/redirects.py:199-200 | On success every redirect key's id (None for None) keys the page-id redirect map. |
| RedirectMaps.FixStoresTargetIds | src/wikitools/redirects.py:199-200 | On success a redirect key's id (None for None) maps, in the page-id redirect map, to the id of the redirect's target (None for None), when it is the last redirect key in iteration order with that id. |
| RedirectMaps.RelabelledKeys | src/wikitools/redirects.py:199-200 | Every key the relabelled dict was built from has its id among its keys. |
| RedirectMaps.FixRedirectsOn | src/wikitools/redirects.py:162-200 | `fix_redirects` returns early with nothing changed exactly when the filter leaves nothing. It changes nothing on a non-KeyError error. Otherwise it records what its queries returned. Maps only grow. |
| RedirectMaps.FixStopsEarly | src/wikitools/redirects.py:162-182 | The ways `fix_redirects` ends before its queries: nothing to fetch, or an error other than KeyError. |
| RedirectMaps.FixRedirectsAsWritten | src/wikitools/redirects.py:5-13 | As written, `fix_redirects` never changes a map. It returns early when the filter leaves nothing, and otherwise raises, TypeError at the latest, because `basic_info` passes `args=` to `iterate_async_query`. |
| RedirectMaps.FixRaisesAsWritten | src/wikitools/redirects.py:189-191 | As written, asking for one new title on empty maps raises TypeError and records nothing. |
| RedirectMaps.OneNewTitleFetched | src/wikitools/redirects.py:163-178 | On empty maps one non-empty title leaves something to fetch, so `fix_redirects` does not return early. |
| RedirectMaps.AliasOrder | src/wikitools/redirects.py:235 | The reverse map's keys, in iteration order. |
| RedirectMaps.RecordFetched | src/wikitools/redirects.py:234-245 | The collected lists take the fetched lists, every alias is redirected to its page, and the aliases' ids are recorded. The page-id redirect map then gains the relabelled aliases, and the collected page-id lists gain the relabelled lists. A KeyError in either step ends the call and leaves that map, and the ones after it, as they were. The norm and revid maps are unchanged. |
| RedirectMaps.FetchedRelabelsAll | src/wikitools/redirects.py:242-245 | On success every alias and every collected page has an id, and that id keys the page-id redirect map and the collected page-id lists respectively. |
| RedirectMaps.AliasesRelabelled | src/wikitools/redirects.py:242-243 | The dict comprehension over the reverse map can only fail with a KeyError for a key that has no id. |
| RedirectMaps.ListsRelabelled | src/wikitools/redirects.py:244-245 | The dict comprehension over the collected lists can only fail with a KeyError for a key that has no id. |
| RedirectMaps.FetchedAliasIds | src/wikitools/redirects.py:242-243 | On success an alias's id maps, in the page-id redirect map, to the id of the page it redirects to, when it is the last alias in iteration order with that id. |
| RedirectMaps.FetchedListIds | src/wikitools/redirects.py:244-245 | On success a collected page's id maps, in the collected page-id lists, to the ids of its aliases in order, when it is the last page in iteration order with that id. |
| RedirectMaps.RelabelledListKeys | src/wikitools/redirects.py:244-245 | Every key of the relabelled list dict is the id of a key it was built from. |
| RedirectMaps.GetRedirectsOn | src/wikitools/redirects.py:202-245 | `get_redirects` returns early with nothing changed exactly when the filter against the collected lists leaves nothing, and an error of the filter is raised with nothing changed. Otherwise `fix_redirects` runs first and grows the maps. Its error ends the call. Then ValueError unless exactly one of titles, pageids and revids is given, and otherwise the fetched lists are recorded on top. Maps only grow. |
| RedirectMaps.GrownTransitive | src/wikitools/redirects.py:195-200 | Only adding entries, step after step, only adds entries. |
| RedirectMaps.PageMaps.constructor | src/wikitools/redirects.py:151-160 | The instance holds the seven maps it is given. |
| RedirectMaps.PageMaps.LoadMaps | src/wikitools/redirects.py:247-258 | `load_maps` restores exactly what `return_maps` saved, in the same order, and keeps `revid_map`. |
| RedirectMaps.PageMaps.FixRedirects | src/wikitools/redirects.py:162-200 | The maps become what `FixRedirectsOn` gives for the old maps. |
| RedirectMaps.PageMaps.GetRedirects | src/wikitools/redirects.py:202-245 | The maps become what `GetRedirectsOn` gives for the old maps. |
| Links.LinkIdPairs | src/wikitools/links.py:32-33 | One id update per page of a portion, missing or not. |
| Links.FirstKeyError | src/wikitools/links.py:38-39 | No error exactly when every page has `pageid` and `title`. Otherwise the error is a KeyError. |
| Links.FirstKeyErrorAt | src/wikitools/links.py:38-39 | The KeyError raised is that of the first page lacking `pageid` or `title`. |
| Links.LinkFoldMeaning | src/wikitools/links.py:16-24 | The link list holds every portion's pages and every page, in order, when no element is dead. It is None when dead elements come only at the end, and AttributeError exactly when a live element follows a dead one. |
| Links.LinkFoldErrSticks | src/wikitools/links.py:16-24 | Once AttributeError is raised, the rest of the stream does not matter. |
| Links.ParseLinkPages | src/wikitools/links.py:10-35 | The `links`/`linkshere` loop builds the list and the three maps of `LinkBatchOf`. |
| Links.PropEntries | src/wikitools/links.py:39 | When every page has both fields, one `(page['pageid'], page['title'])` entry per page, with `page.get(prop, [])`. |
| Links.LangEntries | src/wikitools/links.py:49-53 | One `(lang, [title])` entry per language link. |
| Links.GroupPropStep | src/wikitools/links.py:37-44 | One more keyed page extends the grouped dict of the pages before it by that page's entry, keeping every page keyed. |
| Links.GroupPropLinks | src/wikitools/links.py:37-44 | A repeated page key extends its list. The loop raises exactly when some page lacks `pageid` or `title`, with the KeyError of the first such page. |
| Links.GroupByLang | src/wikitools/links.py:48-53 | One page's language links are grouped by language. |
| Links.ParseKeyedLinks | src/wikitools/links.py:37-56 | The loop for other properties builds `KeyedLinks`, or raises the KeyError of the first page without `pageid` or `title`. |
| Links.KeyedLinksMeaning | src/wikitools/links.py:37-54 | Each page key appears once in arrival order, with the lists of all pages carrying it concatenated in order. For `langlinks`, every page key appears and its titles are grouped by language in order. |
| Links.ParseLinks | src/wikitools/links.py:8-56 | For `links`/`linkshere`, `parse_links` raises exactly when a live element follows a dead one, and then AttributeError. For other properties it raises exactly when some page lacks `pageid` or `title`, and then KeyError. |
| Links.MissingPageRaises | src/wikitools/links.py:39 | A page without `pageid`, as a title that does not exist comes back, makes `parse_links` raise `KeyError('pageid')` for any property but `links`/`linkshere`. |
| Links.Modes | src/wikitools/links.py:82-86 | `'all'` stands for the five modes, another name for itself, and a list for its names. |
| Links.ModeDict | src/wikitools/links.py:76-80 | Exactly the five modes are known, and only `out` and `in` are generator modes with a namespace parameter. |
| Links.Advance | src/wikitools/links.py:123 | With a floor of 1: success moves on by the size just used, and failure halves the size and keeps the position. |
| Links.StallsAsWritten | src/wikitools/links.py:123 | As written, one failure at size 1 leaves size 0, after which neither failure nor success moves the loop. |
| Links.SizeStaysInRange | src/wikitools/links.py:145-151 | With the floor, a size in 1..200 stays in 1..200, and success always moves on. |
| Links.BackToCeiling | src/wikitools/links.py:145-151 | Eight successes in a row bring any size in 1..200 back to 200. |
| Links.SuccessesGrow | src/wikitools/links.py:145-151 | After k successes the size is 200, or at least the start size times 2^k. |
| Links.Slice | src/wikitools/links.py:103 | A batch holds at most the batch size of references. |
| Links.ApplyBatch | src/wikitools/links.py:129-151 | A successful batch moves the cursor on, and its links (`BatchLinks`) are added to the mode's links in every mode. With `update_maps` in a generator mode, the maps become the merged updates of the answers, with every key whose links are None made a redirect to None with id -1. Otherwise the maps are unchanged. |
| Links.KeyedBy | src/wikitools/links.py:141 | The items are exactly `(k[ix], val)` for the entries of a parsed dict. |
| Links.PropLinksMember | src/wikitools/links.py:141 | An item of the comprehension comes from one of the parsed dicts, and every item of every parsed dict is in it. |
| Links.MergeMapsLast | src/wikitools/links.py:133-136 | After the `update` calls, a key that answer i sets, and no later answer sets, has answer i's value. |
| Links.MergeMapsUnset | src/wikitools/links.py:133-136 | A key that no answer sets keeps its old value, or stays absent. |
| Links.KeyedLinksFirsts | src/wikitools/links.py:37-44 | The keys of one answer's parsed dict are its pages' `(pageid, title)` keys, each once. |
| Links.KeyedLinksEntryPage | src/wikitools/links.py:37-44 | Every entry of one answer's parsed dict is keyed by the key of one of its pages. |
| Links.KeyedLinksPageEntry | src/wikitools/links.py:37-44 | The key of every page of one answer keys an entry of its parsed dict. |
| Links.KeyedLinksKeys | src/wikitools/links.py:141 | `k[ix]` picks out of one answer's parsed dict exactly the titles (or page ids) of its pages. |
| Links.PropLinksKeyPage | src/wikitools/links.py:141 | A key of the batch's dict is the title (or page id) of a page of some answer. |
| Links.PropLinksPageKey | src/wikitools/links.py:141 | The title (or page id) of every page of every answer is a key of the batch's dict. |
| Links.PropLinksKeys | src/wikitools/links.py:141 | Across several answers, `k[ix]` picks out exactly the titles (or page ids) of every page of every answer. |
| Links.TryBatchPlan | src/wikitools/links.py:108-113 | A successful batch was planned from its slice after `process_articles` ran with the `norm_map` and `redirect_map` earlier batches left and an empty page-id map: one query per chunk of the distinct processed references, keyed by titles or pageids. |
| Links.TryBatchParsed | src/wikitools/links.py:108-116 | A batch that succeeds has one parsed answer per query, each what `parse_links` makes of that query's answer. |
| Links.PropBatchLinks | src/wikitools/links.py:108-141 | In the lang, interwiki and ext modes, a successful batch's links are keyed by exactly the titles (or page ids) of the pages of all its answers. |
| Links.MergeAll | src/wikitools/links.py:133-136 | The three `update` calls for each parsed answer, in order. |
| Links.ApplyBatchStep | src/wikitools/links.py:129-151 | The body of a successful pass computes `ApplyBatch`. |
| Links.RunBatches | src/wikitools/links.py:98-151 | The batch loop of one mode computes `RunMode`. |
| Links.RunModeGrows | src/wikitools/links.py:101-151 | A mode's links only gain keys, the position never goes back, and the size stays in 1..200 when it starts there. |
| Links.RunModeStops | src/wikitools/links.py:101 | The loop stops only when every reference is covered or the attempts run out. |
| Links.RunModeKeys | src/wikitools/links.py:101-151 | A mode's links keep every key they have gained, whatever the later passes do. |
| Links.RunModeKeepsBatch | src/wikitools/links.py:129-143 | A pass whose batch succeeds adds the batch's links to the mode's links, and every key of them is in the mode's result. |
| Links.TryBatchAsWritten | src/wikitools/links.py:114-116 | As written, the `try` block always raises: ValueError from `querylister`, or TypeError because `iterate_async_query` has no `args` parameter. |
| Links.ArgsNeverAdvance | src/wikitools/links.py:101-127 | As written, a mode with references left never moves on: every attempt is spent, and no reference is covered and no link or map entry is added. |
| Links.RunModes | src/wikitools/links.py:90-153 | When every mode finishes, the result has one key per mode asked for. A KeyError names a mode `modedict` lacks. |
| Links.GetLinksRun | src/wikitools/links.py:58-158 | ValueError exactly when titles and pageids are not exactly one non-empty list, and then the caller's maps are untouched. |
| Links.GetLinksUnknownMode | src/wikitools/links.py:92 | A KeyError from `get_links` names an unknown mode. |
| Links.GetLinksReturned | src/wikitools/links.py:155-158 | One distinct mode returns its links alone. Several return a dict keyed by every mode asked for. |
| Links.ReturnedShape | src/wikitools/links.py:155-158 | A dict keyed by the modes asked for has one key exactly when one distinct mode was asked for, and then it is the first. |
| Links.RunAllModes | src/wikitools/links.py:90-153 | The loop over the modes computes `RunModes`. |
| Links.GetLinks | src/wikitools/links.py:58-158 | `get_links` computes `GetLinksRun`, threading the caller's maps through. Each batch is planned with the maps the earlier batches updated (`TryBatchPlan`). |
| Revisions.AllEntries | src/wikitools/revisions.py:7-8 | A reducer's loop succeeds exactly when no page raises, collecting every page's entries in order. Otherwise it ends with the error of the first page that raises. |
| Revisions.FirstFailure | src/wikitools/revisions.py:7-8 | The loop ends with the error of the first page that raises. |
| Revisions.KeyOf | src/wikitools/revisions.py:8 | The `(pageid, title)` key exists exactly when both fields do, and KeyError otherwise. |
| Revisions.FirstRevision | src/wikitools/revisions.py:8 | A page files its first revision under its key. A page without revisions raises before its key is read. |
| Revisions.ParseRevision | src/wikitools/revisions.py:5-9 | The `parse_revision` loop computes `RevisionInfo`. |
| Revisions.RevisionInfoMeaning | src/wikitools/revisions.py:7-8 | Each key holds the first revision of the last page with that key, and the keys come in first-arrival order. |
| Revisions.PageRevisions | src/wikitools/revisions.py:53-56 | A page contributes its revisions, `[]` when absent, under its key. |
| Revisions.ParseRevisions | src/wikitools/revisions.py:50-58 | The `parse_revisions` loop computes `RevisionsOf`. |
| Revisions.RevisionsOfMeaning | src/wikitools/revisions.py:52-56 | Each page key appears once in first-arrival order, with the revisions of all pages under it concatenated in page order. |
| Revisions.PageEntriesLineUp | src/wikitools/revisions.py:52-56 | The entries read are the pages' keys and the revisions under them. |
| Revisions.RevisionRecord | src/wikitools/revisions.py:102-103 | A revision is filed under its `revid` with every other field and without `revid`. It raises KeyError exactly when `revid` is missing. |
| Revisions.RevisionContent | src/wikitools/revisions.py:136-137 | A revision is filed under its `revid` with its main-slot content. It raises KeyError exactly when a key on the path is missing. |
| Revisions.ParseByRevid | src/wikitools/revisions.py:99-104 | The loop of both revid reducers computes `RevidDict`. |
| Revisions.Update | src/wikitools/revisions.py:102 | `dict.update` assigns every item in turn. |
| Revisions.ParseRevisionsData | src/wikitools/revisions.py:99-104 | `parse_revisions_data` is that loop with `RevisionRecord`. |
| Revisions.ParseRevisionsContent | src/wikitools/revisions.py:133-138 | `parse_revisions_content` is that loop with `RevisionContent`. |
| Revisions.RevidDictMeaning | src/wikitools/revisions.py:101-103 | Updating page by page gives the ids in first-appearance order, each with the entry of its last revision. |
| Revisions.PageDictsFlatten | src/wikitools/revisions.py:101-103 | Per-page comprehensions then `update` equal assigning every revision's entry in order. |
| Revisions.Rekey | src/wikitools/revisions.py:38 | Every item is re-keyed to the title (`k[1]`) or the page id (`k[0]`). |
| Revisions.Keyed | src/wikitools/revisions.py:37-40 | The merged dict lists each key once. |
| Revisions.RekeyedMember | src/wikitools/revisions.py:37-40 | Re-keyed items are exactly the projected items of the gathered dicts. |
| Revisions.KeyedKeys | src/wikitools/revisions.py:37-40 | The keyed dict holds exactly the titles (or page ids) of the pages the queries returned. |
| Revisions.KeyedValue | src/wikitools/revisions.py:91-94 | Each key's value is the value of one of the pages that key names. |
| Revisions.MapValues | src/wikitools/revisions.py:44 | `{k: v[p]}` succeeds exactly when every value has `p`, key by key in order. Otherwise it raises a value's error. |
| Revisions.MapValuesFirstError | src/wikitools/revisions.py:44 | The error is that of the first value that raises. |
| Revisions.Names | src/wikitools/revisions.py:46 | The property names, as the keys they are compared with. |
| Revisions.KeepFields | src/wikitools/revisions.py:42-46 | A revision keeps exactly the fields named in the properties. A value that is not a record raises AttributeError. |
| Revisions.ReturnProps | src/wikitools/revisions.py:42-46 | Intended projection: no properties leaves the result alone, one property projects each revision to it, and several keep each revision's named fields. |
| Revisions.ReturnPropsAsWritten | src/wikitools/revisions.py:46 | As written, several properties keep the articles whose key is a property name, with whole revisions. |
| Revisions.AsWrittenDropsArticles | src/wikitools/revisions.py:46 | As written, articles keyed by page id are all dropped. |
| Revisions.AsWrittenLosesRevision | src/wikitools/revisions.py:46 | One article with `return_props=['timestamp', 'revid']` comes back empty as written. |
| Revisions.IntendedKeepsRevision | src/wikitools/revisions.py:42-46 | The intended projection keeps that article with both fields. |
| Revisions.PerReference | src/wikitools/revisions.py:32-34 | One query per title or page id, each naming it. |
| Revisions.RevisionQueries | src/wikitools/revisions.py:28-34 | `get_revision` sends one query per reference, each asking for one revision, older, from `date`. |
| Revisions.RevisionParamsSet | src/wikitools/revisions.py:28-30 | The shared parameters set prop, rvdir `older`, rvlimit 1, rvstart and rvprop. |
| Revisions.RevisionsQueries | src/wikitools/revisions.py:81-87 | `get_revisions` sends one query per reference, each asking for every revision from start to stop, newer first. |
| Revisions.RevisionsParamsSet | src/wikitools/revisions.py:81-83 | The shared parameters set rvdir `newer`, rvlimit `max`, rvstart, rvend and rvprop. |
| Revisions.GetRevisionRun | src/wikitools/revisions.py:11-48 | `get_revision` raises ValueError unless exactly one of titles and pageids is a non-empty list. |
| Revisions.RevisionInfoFrom | src/wikitools/revisions.py:7-8 | Every parsed item is the first revision of a page, filed under that page's key. |
| Revisions.GetRevisionSource | src/wikitools/revisions.py:28-40 | Every value `get_revision` returns is the first revision listed for a page of that title (or id), in the answer to one of its queries. |
| Revisions.KeyedRevisionFrom | src/wikitools/revisions.py:36-40 | The same, for any queries whose answers parse. |
| Revisions.GetRevisionsRun | src/wikitools/revisions.py:60-96 | `get_revisions`, with its intended defaults, raises ValueError unless exactly one kind of reference is given. |
| Revisions.RangeDefaults | src/wikitools/revisions.py:76-79 | Intended defaults: the range ends now without `stop`, and starts thirty days before its end without `start`. |
| Revisions.GetRevisionsRunAsWritten | src/wikitools/revisions.py:76-79 | As written, a missing `stop` raises AttributeError (`datetime.now`), and a missing `start` with a `stop` raises NameError (`timedelta`). |
| Revisions.DefaultsAsWrittenRaise | src/wikitools/revisions.py:76-79 | Asking for the last month of one title's revisions raises as written and succeeds as intended. |
| Revisions.RevidBatchesCover | src/wikitools/revisions.py:119-122 | Every distinct revid is asked for exactly once, in batches of 1 to 50, in ascending order. A scalar revid is wrapped first. |
| Revisions.RevidQueries | src/wikitools/revisions.py:122-126 | One query per batch, naming its ids joined by a pipe. |
| Revisions.Merged | src/wikitools/revisions.py:129 | The merged dict lists each id once. |
| Revisions.MergedMeaning | src/wikitools/revisions.py:129 | It holds exactly the ids of the per-query dicts, each with the value of one of its occurrences. |
| Pageviews.Spaced | src/wikitools/pageviews.py:35 | `replace('_', ' ')` character by character. |
| Pageviews.IntOrZero | src/wikitools/pageviews.py:35-37 | `int(value or 0)`: a falsy value counts as 0, an int as itself, and it raises nothing but ValueError or TypeError. |
| Pageviews.IntOrZeroMeaning | src/wikitools/pageviews.py:35-37 | True counts as 1 and a non-empty string is parsed. It raises exactly on a string that is not an integer literal and on a non-empty list or dict. |
| Pageviews.AddEntry | src/wikitools/pageviews.py:34-37 | A new target goes last, and a known one keeps its place. |
| Pageviews.AddEntrySum | src/wikitools/pageviews.py:34-37 | Adding n to a target adds n to the date's total. |
| Pageviews.AddEntryCount | src/wikitools/pageviews.py:34-37 | Adding n to target k adds n to k's count and changes no other. |
| Pageviews.ArticleError | src/wikitools/pageviews.py:34-37 | An article raises nothing exactly when its spaced name is in the redirect map and `int(value or 0)` accepts its value. The `int` error comes first, then KeyError for the name. |
| Pageviews.GroupedDay | src/wikitools/pageviews.py:32-37 | The inner loop raises only KeyError, ValueError or TypeError. |
| Pageviews.GroupableSplit | src/wikitools/pageviews.py:33-37 | A date's articles are all mapped and all counted exactly when all but the last are and the last one is. |
| Pageviews.GroupedDayOk | src/wikitools/pageviews.py:32-37 | A date groups exactly when every article is in the redirect map and every value is one `int(value or 0)` accepts. |
| Pageviews.GroupedDayError | src/wikitools/pageviews.py:33-37 | A date that raises raises the error of its first article that raises, and every article before it groups. |
| Pageviews.InitMapped | src/wikitools/pageviews.py:33-37 | Where a date groups, its sums are those of all but its last article with the last article's views added to its target. |
| Pageviews.GroupedDayTargets | src/wikitools/pageviews.py:32-37 | The targets come in the order the articles first reach them. |
| Pageviews.GroupedDayCount | src/wikitools/pageviews.py:33-37 | Each target's count is the sum of `int(value or 0)` over the articles that redirect to it. |
| Pageviews.GroupedDayTotal | src/wikitools/pageviews.py:33-37 | No view is lost or counted twice: the counts add up to the date's views. |
| Pageviews.GroupDay | src/wikitools/pageviews.py:32-38 | The inner loop computes `GroupedDay`. |
| Pageviews.DayErrorPersists | src/wikitools/pageviews.py:33-37 | An article that raises ends the date, and later articles are not read. |
| Pageviews.Applied | src/wikitools/pageviews.py:30-46 | Each item with its computed value, in order. |
| Pageviews.AllOkSplit | src/wikitools/pageviews.py:30-46 | No value raises exactly when none but the last does and the last does not. |
| Pageviews.DictOfOk | src/wikitools/pageviews.py:30-46 | A dict built item by item is built exactly when no value raises. |
| Pageviews.DictOfItems | src/wikitools/pageviews.py:30-46 | Where it is built, assigning each item in turn gives `DictItems` of the items with their values. |
| Pageviews.DictOfKeys | src/wikitools/pageviews.py:30-46 | Where it is built, each key appears once in first-appearance order, with the value of its last item. When no key repeats, the dict is the items with their values. |
| Pageviews.DictOfError | src/wikitools/pageviews.py:30-46 | A dict that is not built raises the error of the first value that raises, and every item before it is computed. |
| Pageviews.DictOfStep | src/wikitools/pageviews.py:30-46 | One more item either raises its value's error or is assigned on top of the dict so far. |
| Pageviews.DictOfErrorPersists | src/wikitools/pageviews.py:30-46 | An item whose value raises ends the dict, and later items are not read. |
| Pageviews.GroupedViews | src/wikitools/pageviews.py:27-39 | The redirects branch raises only KeyError, ValueError or TypeError. |
| Pageviews.GroupedViewsDates | src/wikitools/pageviews.py:28-38 | The redirects branch succeeds exactly when every date groups. The output then has exactly the client's dates in the client's order, each with the sums of its last occurrence, and each date keeps its own sums when no date repeats. |
| Pageviews.GroupedViewsDay | src/wikitools/pageviews.py:30-38 | Each date of the output holds the grouped views of the client's date. |
| Pageviews.GroupedViewsError | src/wikitools/pageviews.py:30-38 | The redirects branch raises the error of its first date that raises, and every date before it groups. |
| Pageviews.GroupViews | src/wikitools/pageviews.py:28-39 | The outer loop of the redirects branch computes `GroupedViews`. |
| Pageviews.Cleaned | src/wikitools/pageviews.py:42-46 | Without `replace_nones` a value stays as it is. With it, only `int`'s ValueError or TypeError can be raised. |
| Pageviews.CleanedMeaning | src/wikitools/pageviews.py:42-43 | With `replace_nones` a value is cleaned exactly when `int(val or 0)` accepts it, into that integer. Falsy values become 0 and ints stay as they are. |
| Pageviews.Respaced | src/wikitools/pageviews.py:42-45 | Each article's name spaced, its value unchanged, in order. |
| Pageviews.RenameDay | src/wikitools/pageviews.py:42-45 | A date's comprehension raises only `int`'s ValueError or TypeError. |
| Pageviews.RenameDayOk | src/wikitools/pageviews.py:42-45 | A date is renamed exactly when every value survives cleaning. Otherwise the error is that of its first value `int` rejects. |
| Pageviews.RenameDayMeaning | src/wikitools/pageviews.py:42-45 | A renamed date lists each spaced name once, and exactly the spaced names of its articles. |
| Pageviews.RenameDayLast | src/wikitools/pageviews.py:42-45 | A spaced name holds the cleaned value of the last article with that name, so of two names that differ only in `_` and space the later wins. |
| Pageviews.Renamed | src/wikitools/pageviews.py:41-46 | The branch without redirects raises only `int`'s ValueError or TypeError. |
| Pageviews.RenamedDates | src/wikitools/pageviews.py:41-46 | It succeeds exactly when every date is renamed, and always without `replace_nones`. The output has the client's dates in order, each with its own renamed views when no date repeats. |
| Pageviews.ArticleViews | src/wikitools/pageviews.py:11-48 | ValueError exactly when redirects are asked for with an empty map. Otherwise it succeeds exactly when every date groups (redirects) or is renamed (no redirects), raises only KeyError, ValueError or TypeError, and groups by target exactly when redirects are asked for. |
| Pageviews.ApiArticleViews | src/wikitools/pageviews.py:11-48 | `api_article_views` computes `ArticleViews`. |
| Quality.BeforeDash | wikitoolkit/quality.py:111 | `split('-')[0]` is the longest dash-free prefix. |
| Quality.SecondPart | wikitoolkit/quality.py:115 | `split('-')[1]` exists exactly when there is a dash, and is the dash-free part after it. |
| Quality.Slice | wikitoolkit/quality.py:114 | `s[a:b]` clips both bounds to the string. |
| Quality.FamilyOf | wikitoolkit/quality.py:108-122 | Dispatch order: exactly `articlequality`, then `split('-')[0] == 'revertrisk'`, then `model[2:6] == 'wiki'`, else unknown. |
| Quality.WikiSlice | wikitoolkit/quality.py:114 | `model[2:6] == 'wiki'` holds exactly for models of six or more characters with `wiki` at 2..6. |
| Quality.Path | wikitoolkit/quality.py:112-120 | A chain of lookups fails only with KeyError. |
| Quality.ByRevisionId | wikitoolkit/quality.py:109-113 | A response without `revision_id` contributes nothing. One with it files its score under `int(revision_id)`. |
| Quality.SomeFailure | wikitoolkit/quality.py:116-120 | The error of the comprehension is one its keys or values raise. |
| Quality.ScoreFor | wikitoolkit/quality.py:116-120 | The value under an integer comes from a key that reads as it. |
| Quality.ByKey | wikitoolkit/quality.py:116-120 | `{int(k): v...}` succeeds exactly when every key reads as an int and every value has the path. Its keys are exactly those ints, each with a value from such a key. |
| Quality.ScoresByInt | wikitoolkit/quality.py:116-120 | The same dict once no key or value fails. |
| Quality.WikiScores | wikitoolkit/quality.py:115-120 | For `articlequality` and `draftquality` every response's `enwiki` entry is read, so a response lacking it raises KeyError. For the other `wiki` sub-models a response lacking the model's wiki is skipped. Otherwise the scores object is read. |
| Quality.Merge | wikitoolkit/quality.py:109-120 | The merged dict's keys are those of some response's dict. |
| Quality.MergeLast | wikitoolkit/quality.py:109-120 | A merged key carries the value of the last response that has it. |
| Quality.QualsOf | wikitoolkit/quality.py:108-122 | An unknown model raises ValueError('Model not recognized'). A `wiki` model without a dash raises IndexError. |
| Quality.QualsParts | wikitoolkit/quality.py:108-122 | A model's scores are the merge of one dict per response. |
| Quality.OneRecord | wikitoolkit/quality.py:109-113 | One response with a revision id contributes exactly that id, with its score. |
| Quality.RevisionIdScores | wikitoolkit/quality.py:109-113 | For `articlequality` and `revertrisk` the scores are filed under the responses' revision ids, responses without one ignored, each id with its last response's score. |
| Quality.WikiModelScores | wikitoolkit/quality.py:114-120 | For the `wiki` models the scores are filed under the scores object's keys read as ints, each with its last response's score. |
| Quality.MergedByKey | wikitoolkit/quality.py:116-120 | Merging the per-response dicts keeps exactly the keys read from some scores object, each with a value read from one. |
| Quality.ModelsList | wikitoolkit/quality.py:92-93 | A single model name is scored as a list of one. |
| Quality.ScoreQueries | wikitoolkit/quality.py:96 | One query per revision, with `rev_id` and `lang`. |
| Quality.InitialScores | wikitoolkit/quality.py:99 | Every revision once, in first-occurrence order, with no scores yet. |
| Quality.Recorded | wikitoolkit/quality.py:125-127 | Filing a model's scores keeps the revisions and their order. |
| Quality.RecordedLookup | wikitoolkit/quality.py:125-127 | A revision with a score maps the model to it and keeps its other scores. A revision without one keeps all its scores. |
| Quality.RecordScores | wikitoolkit/quality.py:125-127 | The filing loop computes `Recorded`. |
| Quality.Filed | wikitoolkit/quality.py:101-127 | Filing succeeds exactly when every model's scores parse. It keeps the revisions once each, in order, and each revision's scores name each model once. |
| Quality.ScoresOfModel | wikitoolkit/quality.py:101-127 | A revision holds exactly the models whose scores include it, each with its score. |
| Quality.FiledNone | wikitoolkit/quality.py:99 | Before any model no revision has a score. |
| Quality.FiledLastLookup | wikitoolkit/quality.py:125-127 | The last model is filed on top of the others, for the revisions it scores. |
| Quality.ScoresOfLastModel | wikitoolkit/quality.py:125-127 | What holds for the models before the last holds for all of them. |
| Quality.FiledModel | wikitoolkit/quality.py:125-127 | One model more, for one revision. |
| Quality.FiledLast | wikitoolkit/quality.py:102-127 | The last model's scores are filed on top of the earlier ones. |
| Quality.FiledErrorPersists | wikitoolkit/quality.py:102-122 | Once a model's scores fail, the whole call fails with that error. |
| Quality.FiledNext | wikitoolkit/quality.py:102-127 | Filing one model more: an earlier error persists, this model's error raises, or its scores are recorded. |
| Quality.GetRevisionsQuality | wikitoolkit/quality.py:72-129 | `get_revisions_quality` (a scalar revid or model wrapped into a list) computes the scores of `Filed`. |
| Quality.NoThirdPath | wikitoolkit/quality.py:153-168 | When the single-revision path does not run, `start` or `stop` is given, so the final ValueError cannot be reached. |
| Quality.FetchArticles | wikitoolkit/quality.py:153-165 | With `date` or no range, each article's latest revision at `date` is fetched. Otherwise each article's revisions in the range are fetched, as a list. |
| Quality.AsLists | wikitoolkit/quality.py:162-165 | Each article's revisions become one list value. |
| Quality.RevidOf | wikitoolkit/quality.py:159 | `int(v['revid'])`, with KeyError when `revid` is missing. |
| Quality.ArticleRevids | wikitoolkit/quality.py:159-165 | On the single path an article has `[int(v['revid'])]`, and on the range path one id per revision, in order. |
| Quality.RevidLists | wikitoolkit/quality.py:159-165 | Every article's revision ids, in order, or failure when one article fails. |
| Quality.ScoredRevids | wikitoolkit/quality.py:171 | A revid is sent for scoring exactly when some article lists it. |
| Quality.ScoresOf | wikitoolkit/quality.py:180-185 | `quals[x]` gives the scores filed under an integer id, or none. |
| Quality.UpdateSingle | wikitoolkit/quality.py:180 | The single revision gains its scores, and a revid without scores raises. |
| Quality.UpdateRevision | wikitoolkit/quality.py:183-185 | A revision with scores gains them, and one without is unchanged. |
| Quality.UpdateAll | wikitoolkit/quality.py:183-185 | Every revision of a list is updated in turn. |
| Quality.UpdateEach | wikitoolkit/quality.py:181-185 | A list has its revisions updated. A non-empty record raises TypeError, because iterating over it yields field names. |
| Quality.AttachScores | wikitoolkit/quality.py:177-185 | The final loop computes `Attached`. |
| Quality.SingleRevisionsScored | wikitoolkit/quality.py:153-185 | On the single path every article whose revision has an integer id gets that revision back with its scores added. |
| Quality.KeyInPairs | wikitoolkit/quality.py:180 | A listed revision id is a key of the scores dict. |
| Quality.UpdateSingleFound | wikitoolkit/quality.py:180 | A revision whose integer id has scores is updated without raising. |
| Quality.DateWithRangeRaises | wikitoolkit/quality.py:153-185 | With `date` and a range, the function as written raises TypeError whenever the intended one returns an article. |
| Dumps.LastRequest | src/wikitools/dumps.py:30-43 | The last request made is the first answered 200 or 404, or the fifth. Every request before it was retried. |
| Dumps.LastRequestAfterRetries | src/wikitools/dumps.py:36-40 | Requests that were all retried do not change which request is the last. |
| Dumps.Downloaded | src/wikitools/dumps.py:45-50 | The body is returned exactly when the last response was 200 and `ret` is set, and it is that response's body. |
| Dumps.NotFoundFirst | src/wikitools/dumps.py:33-35 | A 404 on the first request returns None at once, without retrying. |
| Dumps.DownloadSucceeds | src/wikitools/dumps.py:30-44 | The download succeeds exactly when one of the first five requests answers 200 and every one before it failed with something other than 404. |
| Dumps.DownloadTable | src/wikitools/dumps.py:15-50 | `download_table` makes at most five requests, the last as `LastRequest` says, and returns `Downloaded`. |
| Dumps.ReverseRedirectsMeaning | src/wikitools/dumps.py:236 | Every redirect listed for an article is in the reverse map, nothing else is, and each maps to an article that lists it. |
| Dumps.ReverseRedirectsOwn | src/wikitools/dumps.py:236 | A redirect listed under one article only maps to that article. |
| Dumps.ReverseRedirectsLast | src/wikitools/dumps.py:236 | A redirect listed under several articles maps to the last of them. |
| Dumps.DayFloor | src/wikitools/dumps.py:416 | `floor('D')` is the midnight at or before the hour. |
| Dumps.DayCeil | src/wikitools/dumps.py:417 | `ceil('D')` is the midnight at or after the hour. |
| Dumps.Adjusted | src/wikitools/dumps.py:415-417 | With `days`, the range runs from a midnight to the hour before a midnight and covers the given range. Without it, the range is unchanged. |
| Dumps.SpanCells | src/wikitools/dumps.py:418 | `date_range(..., freq='H')` is exactly the hours from first to last, both included. |
| Dumps.ArtCellsMeaning | src/wikitools/dumps.py:413-418 | A cell belongs to a language's articles exactly when one of them covers its hour. |
| Dumps.LangCellsMeaning | src/wikitools/dumps.py:412-418 | A cell belongs to the table exactly when some article of its language covers its hour. |
| Dumps.Put | src/wikitools/dumps.py:419-423 | The nested assignment creates inner dicts as needed and sets the article's entry. It never leaves a table or a language's dict empty. |
| Dumps.PutCells | src/wikitools/dumps.py:419-423 | Putting a cell adds it, keeps the others and keeps every entry equal to its article's redirects. |
| Dumps.AddHours | src/wikitools/dumps.py:418-423 | The hour loop adds exactly the article's hours, and leaves no table or language's dict empty. It raises KeyError exactly when the range is non-empty and the article has no redirects entry. |
| Dumps.AddArticles | src/wikitools/dumps.py:413-423 | The article loop adds exactly the articles' cells, and leaves no table or language's dict empty. It raises when some article fails its lookup. |
| Dumps.AddLanguages | src/wikitools/dumps.py:411-423 | The language loop holds exactly the cells the ranges cover, each with its redirects, and no empty table or language's dict. It raises when some article fails. |
| Dumps.ByHour | src/wikitools/dumps.py:425 | The sorted dict lists every hour once, in strictly ascending order, with its table. |
| Dumps.ByHourCells | src/wikitools/dumps.py:425 | The sorted tables hold exactly the cells of the dict. |
| Dumps.ByHourConsistent | src/wikitools/dumps.py:425 | The sorted tables hold the redirects the dict holds. |
| Dumps.ByHourTables | src/wikitools/dumps.py:411-425 | Sorting the built dict gives the hourly tables, none of them empty. |
| Dumps.GetDateLangArtDict | src/wikitools/dumps.py:398-425 | The hours in ascending order, each with exactly the articles whose ranges cover it, with their redirects. No other hour or language appears, as no table and no language's dict is empty. KeyError exactly when an article with a non-empty range has no redirects entry. |
| Dumps.RowsAt | src/wikitools/dumps.py:444-446 | `loc[[hour]]` gives exactly the rows of that hour, or KeyError when there are none. |
| Dumps.Missing | src/wikitools/dumps.py:455-457 | A language keeps exactly its articles that no row of `lang` or `lang + '.m'` names. |
| Dumps.MissingArticles | src/wikitools/dumps.py:452-459 | Only languages of the input appear, each once. |
| Dumps.Kept | src/wikitools/dumps.py:452-459 | The languages in order, each with its missing articles, those with none omitted. |
| Dumps.MissingArticlesKept | src/wikitools/dumps.py:452-459 | For languages listed once, the loop's dict is `Kept`. |
| Dumps.MissingArticlesMeaning | src/wikitools/dumps.py:452-459 | For languages listed once, a language is kept exactly when some of its articles are missing from its rows, and it keeps exactly those. |
| Dumps.DropMobileOfLanguage | src/wikitools/dumps.py:461-462 | `replace('.m', '')` maps a language code and its mobile site to the language. |
| Dumps.Covered | src/wikitools/dumps.py:461-462 | The covered languages are those with a value in every row of the hour, on either site. |
| Dumps.StillToDo | src/wikitools/dumps.py:428-464 | AssertionError exactly when not exactly one input is non-empty. An absent hour returns the input unchanged. Otherwise existing articles are dropped, or the uncovered languages are returned, sorted. |
| Dumps.FilterLangDict | src/wikitools/dumps.py:452-459 | The `langdict` loop computes `MissingArticles`. |
| Dumps.CheckRows | src/wikitools/dumps.py:428-464 | `check_rows` computes `StillToDo`. |

## Left out

- Transport is not modelled: `requests.get`, the mwapi sessions, aiohttp, the pageviews
  client, Lift Wing POSTs and `qores` (src/wikitools/api.py:208-222). Their answers are
  arguments.
- `asyncio` scheduling is not modelled. `gather` is an order-preserving map.
- `time.sleep`, `print`, progress messages and writing the downloaded body to a file
  are left out, because they change nothing the callers read.
- `process_articles` is not part of this model. It is a caller-supplied function
  (`Api.Processor`).
- The wikitoolkit `iterate_async_query` with `httpmethod`/`posturl`, `WTSession` and the
  wikitoolkit `get_revision`/`get_revisions` are not part of this model. `quality.py`
  is modelled over the `get_revision`/`get_revisions` of src/wikitools/revisions.py, and
  the `pagemaps` argument they receive is dropped.
- JSON field access is total. A missing field reads as None or an empty list, so
  `KeyError` on a malformed API answer is modelled only where the model relies on it:
  `revid`, `revisions`, the `(pageid, title)` keys of `parse_revision` and of
  `parse_links` (`Revisions.KeyOf`, `Links.FirstKeyError`), redirect lookups, score paths.
  The `lang` and `title` fields of a language link are read totally.
- `int()` (`Ints.IntOf`) is modelled on ASCII digits with an optional sign. Surrounding
  whitespace, underscores and non-ASCII digits are not accepted, and there are no floats.
- Decoded JSON objects are maps, so the order of keys inside a decoded object is not
  modelled.
- Dicts the code builds are item lists where their order reaches the caller or decides
  which entry wins: the pageviews output, the `parse_revision`/`parse_revisions` dicts,
  the `querylister` batches and the reverse maps' construction. The following are plain
  maps, so their key order is not modelled:
  - the seven `page_maps` maps (`RedirectMaps.State`);
  - the three dicts `parse_redirects` returns (`Redirects.ParseRedirects`);
  - the fetched lists of `parse_fetched_redirects` (`Redirects.FetchedMap`);
  - a `get_links` mode's links and its result (`Links.ModeState`, `Links.LinksOut`);
  - the hourly tables of `get_datelangartdict` (`Dumps.Table`, `Dumps.Hourly`).
  Where a contract needs the iteration order of one of these dicts, it is recomputed
  from the answers as insertion order, first insertion first (`RedirectMaps.FixedOrder`,
  `RedirectMaps.AliasOrder`, `RedirectMaps.FetchedOrder`).
- The page-id batches of `querylister` come from `list(set(...))`, whose order is not
  specified. The model uses first-occurrence order, and its properties do not depend on it.
- `Api.Gathered`: the error is one a task raised. `gather` raises the first to occur
  in time, which the model has no clock for.
- `Api.IterateQuery`: the contract bounds what is yielded rather than listing it.
  `Api.EmptyPortionContributesNothing` and `Api.ContinuedStep` state the filtering.
- `Quality.SomeFailure`: a decoded object has no key order, so the model picks the
  least failing key rather than the first in the answer.
- `Quality.ScoreFor`: when two keys read as the same integer, the model takes the least
  such key rather than the later one in the answer.
- `Dumps.GetDateLangArtDict`: the KeyError is that of some failing article. The contract
  does not say it is the first in iteration order.
- `Dumps.AddArticles`: likewise some failing article, not the first.
- `Dumps.AddLanguages`: likewise some failing article, not the first.
- `RedirectMaps.RelabelPairs`: the KeyError names some key without an id, not
  necessarily the first.
- `RedirectMaps.LookupAll`: likewise, some key without an id.
- `RedirectMaps.RelabelLists`: likewise, some key without an id.
- Hours are whole integers counted from a midnight. Timezones, `Timestamp` objects and
  sub-hour times are not modelled.
- `check_rows` sees a data frame as rows with an hour index and columns, with None
  standing for NaN. Only the operations the function uses are modelled (`loc[[hour]]`,
  the domain and article columns, `T.dropna().index`).
- The pandas, gzip and HDF5 work of dumps.py is left out, as are scipy percentiles,
  interactive input and the clickstream readers apart from the reverse map at line 236.
- `round_sig` (floating point) is left out. Quality scores are opaque JSON values.
- The `pipeline_*` orchestrators (session creation and closing), src/wikitools/__init__.py,
  the module-level `fix_redirects`/`get_redirects` (src/wikitools/redirects.py:49-146)
  and `basic_info` are left out. The `page_maps` methods model the same steps, with
  `basic_info` as the follow-up query's pages.
- Two calls pass `args=` where `iterate_async_query` takes `f_args` (api.py:104):
  `get_links` (links.py:114-116) and `basic_info` (redirects.py:13). As written, each
  raises TypeError before any request is sent. So every `get_links` batch fails and the
  loop never moves on. Once its filter leaves something to fetch, `fix_redirects` (through
  `basic_info`) raises before it updates any map, and so does `get_redirects`, which
  calls it first. When `fix_redirects` returns early, `get_redirects` goes on with its own,
  correctly keyworded query and updates its five maps (see Findings). `Links.TryBatchAsWritten`,
  `Links.ArgsNeverAdvance` and `RedirectMaps.FixRedirectsAsWritten` model the calls as
  written. The rest of the model makes the evidently intended calls.
- The module-level `fix_redirects`/`get_redirects` pass `redirect_map=` to `querylister`,
  which has no such parameter. They are left out, as the bullet above says.
- `page_maps.__init__` shares its mutable default dicts between instances. The model
  gives each instance its own maps, so the aliasing is not reproduced.
- `save_maps`/`load_maps` pickling is left out. `RedirectMaps.PageMaps.LoadMaps` takes
  the unpickled tuple.
- `get_links` prints progress as a percentage. The float division is not modelled.
- `links.py:71-74` (`namespaces='all'` to `'*'`) is modelled by `Links.NsValue`,
  which has no contract of its own.
- `revisions.py`'s `get_revisions_data` and `get_revisions_content` are modelled by
  `Revisions.GetRevisionsDataRun` and `Revisions.GetRevisionsContentRun`, which have no
  contract of their own. Their parts carry the contracts: `Revisions.RevidBatchesCover`,
  `Revisions.RevidQueries`, `Revisions.RevidDictMeaning`, `Revisions.MergedMeaning`.
- `Revisions.RevidBatchesCover`: only int revids are modelled. A single `str` revid is
  also wrapped (revisions.py:119-120, 153-154), and `sorted(set(revids))` then orders
  strings lexicographically ('10' before '9') and raises TypeError on a list mixing ints
  and strings. Neither case is modelled.
- `RedirectMaps.GetRedirectsOn`: `titles` and `pageids` are lists. The wrapping of a single
  `str` title (redirects.py:204-205), and of a single int or `str` page id as
  `[int(pageids)]` (redirects.py:213-214), with its ValueError for a non-numeric string,
  is not modelled. `RedirectMaps.PageMaps.GetRedirects` has the same limit.
- `Links.RunModeKeepsBatch`: it states that the keys of a successful batch are in the
  mode's result. A later batch that yields the same key replaces its value, so the value
  in the result is the one of the last batch carrying that key.
- `get_links` runs for as many passes as the `Attempt` script has entries. The loop as
  written can run forever (see Findings), so a run that exhausts its attempts ends in
  `OutOfAttempts`.

## Findings

| source | as written | input that shows it | evidently intended | confidence | as-written member | corrected member |
|---|---|---|---|---|---|---|
| src/wikitools/links.py:123 | A failed batch sets `batchsize = batchsize // 2`, which reaches 0. After that, `n += 0` and `0 * 2 == 0`, so the loop never ends. | Start size 1, one failed batch: size 0, and every later pass leaves `n` where it is. | The size halves but stays at least 1. | not executed | Links.StallsAsWritten | Links.SizeStaysInRange |
| src/wikitools/revisions.py:46 | With several `return_props`, the comprehension keeps the articles whose key is a property name. The revisions themselves are not projected. | One article `'Foo'` with `return_props=['timestamp', 'revid']` gives `{}`. | Each revision is reduced to the named fields. | not executed | Revisions.AsWrittenLosesRevision | Revisions.IntendedKeepsRevision |
| src/wikitools/revisions.py:76-79 | The module imports `datetime`, so `datetime.now()` raises AttributeError, and `timedelta` is undefined (NameError). | `get_revisions(titles=['Foo'])` with neither `start` nor `stop`. | `stop` defaults to now and `start` to thirty days before `stop`. | not executed | Revisions.DefaultsAsWrittenRaise | Revisions.RangeDefaults |
| wikitoolkit/quality.py:153-178 | The fetch takes the single-revision path when `date` is given, but the update chooses the list path whenever `start` or `stop` is given. Iterating a revision record yields field names, and `'timestamp'['revid']` raises TypeError. | `get_articles_quality(titles=['Foo'], date='2024-01-01', start='2023-12-01')`, where the article has a revision. | The update takes the path the fetch took. | not executed | Quality.DateWithRangeRaises | Quality.SingleRevisionsScored |
| src/wikitools/links.py:114-116 | `get_links` calls `iterate_async_query(..., args=[...])`, but the parameter is `f_args` (api.py:104). The call raises TypeError inside the `try`, so every batch takes the `except` branch. | `get_links(session, titles=['Foo'])`: the first pass raises TypeError, the size halves, and after eight failures it is 0; `n` stays at 0 for ever. | The property name reaches `parse_links` through `f_args`, and a batch the network answers is recorded. | not executed | Links.ArgsNeverAdvance | Links.RunModeKeepsBatch |
| src/wikitools/redirects.py:13 | `basic_info` calls `iterate_async_query(..., args=f_args)`. `fix_redirects` calls `basic_info` (line 189) before any update, so once the filter leaves something to fetch it raises TypeError, and so does `get_redirects`, which calls it first. | `page_maps().fix_redirects(session, titles=['Foo'])` on empty maps. | `f_args` is passed as `f_args`, and the fetched redirects are recorded. | not executed | RedirectMaps.FixRaisesAsWritten | RedirectMaps.FixRedirectsOn |

The comment above the halving in src/wikitools/links.py:122 says the failed batch is split
in half and tried again. A batch of one reference cannot be split, and a batch of size 0
asks for nothing, so the halving is meant to stop at 1. The code has no such floor. The
model follows the code in `Links.AdvanceAsWritten` and uses the floor in `Links.Advance`.
