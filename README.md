# metacatalog2 contexts and pages, in Dafny

metacatalog2 is a metadata catalog that keeps its documents in Elasticsearch.
A **context** is a project or group. It owns a physical index named
`<name>_v<version>`. Its own name, and the names of the contexts it is part of,
are aliases of that index. A search through a parent's alias therefore reaches
the pages of the children whose indices `create_index` gave that alias; the
global context `meta` reaches the pages of every context created as part of
it, but not those of a context outside it, nor those in an index that the
first write of a page created without aliases.
Context documents live in a registry index, `index_list_v1`, which the model
keeps apart from the page indices. A **page** is one
metadata document. It is fetched directly from a known index, or searched for
by id through an alias. The web API resolves which context a request addresses
and drives these models.

This project models that core:

- the context life cycle: index naming, the version bump, index creation,
  aliasing, realiasing, lookup by name and deletion (`metacatalog2/models.py`,
  class `Context`);
- the page model: `get` routing, `from_hit`, and the `create`/`save` timestamps
  (`metacatalog2/models.py`, class `Page`);
- the page endpoints (`metacatalog2/api/views/page.py`).

Modules, one file each:

- `Values` holds options, results, JSON values, and the exceptions the Python
  code raises.
- `Naming` renders `'%s_v%d'` and proves that the version can be read back.
- `Engine` is the search engine as the code relies on it. The class
  `SearchEngine` holds the indices, the aliases per index, the page documents
  per index and the context registry. Pure functions give the status of each
  request.
- `Contexts` holds the class `Context`, plus the pure decision of `by_name`.
- `Pages` holds the class `Page`, `from_hit`, and the routing of `Page.get`.
- `PageViews` holds the handlers. The request's `context` argument, the
  session's `context`, the JSON body and the clock are parameters.
- `Scenario` walks through the catalog on an empty engine, as a client of the
  other modules.

The engine's behaviour is the module comment of `Engine.dfy`, given as status
codes:
- Creating an index whose name is taken or refused gives 400.
- Putting an alias on a missing index gives 404. Using an index name as an
  alias gives 400.
- Fetching through a name that reaches no index gives 404. Through a name that
  reaches several indices it gives 400. A missing document gives 404.
- Writing to an unknown name creates that index.

The order of search hits is not specified, so the model chooses among them
nondeterministically. Iterating a search yields only its first 10 hits
(`SearchWindow`).

Three behaviours of the code that the model follows:
- A page update does not refresh `edited`.
- Renaming a context is not blocked.
- Deleting a context keeps its index unless `delete_index` is passed.

## Model

| member | source | states |
|---|---|---|
| Naming.IntToDecimal | metacatalog2/models.py:75 | `%d` renders a non-negative version as digits only, and a negative one with a sign |
| Naming.DecimalRoundTrip | metacatalog2/models.py:75 | reading back the decimal digits of a version gives the version |
| Naming.IntRoundTrip | metacatalog2/models.py:75 | parsing what `%d` wrote gives back the integer, negative values included |
| Naming.IndexName | metacatalog2/models.py:73-75 | the index name starts with the context name followed by `_v`, and the version parses back from it |
| Naming.IndexNameInjective | metacatalog2/models.py:73-75 | two versions of one context never share a physical index |
| Naming.IndexEndpoint | metacatalog2/models.py:69-71 | the endpoint is the host, a slash, and the index name |
| Engine.Resolve | metacatalog2/models.py:263 | the indices a name reaches; none exactly when the name is neither an index nor an alias |
| Engine.IndexPutStatus | metacatalog2/models.py:99-101 | a mapping PUT succeeds iff the name is free and accepted and the mapping is not refused |
| Engine.AliasStatus | metacatalog2/models.py:125-127 | an alias PUT gives 200 iff the index exists and the alias name is acceptable, and 404 iff the index is missing |
| Engine.PutAliasSeq | metacatalog2/models.py:103-108 | a run of alias PUTs changes only the aliases of its own index |
| Engine.PutAliasSeqEffect | metacatalog2/models.py:103-108 | the run succeeds iff every name is accepted, then the index gains exactly those names; a failure keeps the earlier aliases and adds no others |
| Engine.PutAliasSeqStopsAtRefusal | metacatalog2/models.py:103-108 | when `names[j]` is the first refused name, the run answers 400 and the index carries its former aliases plus exactly `names[..j]` |
| Engine.RealiasExact | metacatalog2/models.py:131-142 | after a successful realias the index carries exactly `{name} + part_of`, other indices are untouched, and a missing index gives 404 with no change |
| Engine.RealiasIdempotent | metacatalog2/models.py:131-142 | realiasing twice gives the same aliases and status as realiasing once |
| Engine.AllNames | metacatalog2/models.py:90 | every name a HEAD request finds is among the engine's names, which bounds the version bump |
| Engine.Window | metacatalog2/models.py:59 | iterating a search yields at most its first 10 hits, as a prefix of them |
| Engine.DistinctHitKeys | metacatalog2/models.py:275 | hits that differ pairwise in their index (or their id) count as many as the indices (ids) they stand for |
| Engine.DateField | metacatalog2/models.py:177-178 | a Date field holds an instant exactly when the document gives one |
| Engine.MergePatch | metacatalog2/api/views/page.py:125 | a partial update adds the patched top-level keys, keeps the unpatched ones, takes the patch's value where the field is not an object merged with an object, and changes the timestamps only when patched |
| Engine.MergeKeepsUntouched | metacatalog2/api/views/page.py:125 | a partial update keeps every value, at any depth of nested objects, that the patch does not reach |
| Engine.MergePatchWins | metacatalog2/api/views/page.py:125 | wherever the patch holds a value that is not an object, the updated document holds that value |
| Engine.MergeSelf | metacatalog2/api/views/page.py:125 | merging a document into itself leaves it unchanged |
| Engine.MergeIdempotent | metacatalog2/api/views/page.py:125 | sending the same partial update twice has the effect of sending it once |
| Engine.WriteSpec | metacatalog2/models.py:232 | indexing writes into the one index the target reaches, or creates the target; several indices give 400 with no change |
| Engine.SearchEngine.constructor | metacatalog2/elastic.py:6-7 | an engine starts with no index, alias, page or registry entry |
| Engine.SearchEngine.IndexExists | metacatalog2/models.py:90 | HEAD finds a name iff it is an index or an alias |
| Engine.SearchEngine.PutIndex | metacatalog2/models.py:99 | a successful mapping PUT adds one empty index without aliases; otherwise nothing changes |
| Engine.SearchEngine.PutAlias | metacatalog2/models.py:125 | an accepted alias is added to that index only |
| Engine.SearchEngine.DeleteAliases | metacatalog2/models.py:137 | the wildcard delete clears every alias of the index |
| Engine.SearchEngine.DeleteIndex | metacatalog2/models.py:153 | deleting an index removes it with its aliases and documents |
| Engine.SearchEngine.GetById | metacatalog2/models.py:263 | a direct fetch gives 404 for no index or a missing id, 400 for several indices, and otherwise the stored page |
| Engine.SearchEngine.SearchById | metacatalog2/models.py:273 | a search by id lists one hit per reached index holding the id, exactly those, as stored; unknown names give 404 |
| Engine.SearchEngine.SearchAll | metacatalog2/models.py:312 | listing through a name yields exactly the pages stored in the indices it reaches |
| Engine.SearchEngine.WriteDoc | metacatalog2/models.py:354 | indexing a page has exactly the effect `WriteSpec` describes |
| Engine.SearchEngine.UpdateDoc | metacatalog2/api/views/page.py:125 | an update succeeds iff the name reaches one index holding the id, and then stores the merged page |
| Engine.SearchEngine.DeleteDoc | metacatalog2/api/views/page.py:144 | a delete succeeds iff the name reaches one index holding the id, and then removes just that page |
| Engine.SearchEngine.SaveContextDoc | metacatalog2/models.py:147 | a context document is stored under its id or under a fresh one |
| Engine.SearchEngine.DeleteContextDoc | metacatalog2/models.py:154 | the registry document is removed; a missing one gives 404 |
| Engine.SearchEngine.ContextsNamed | metacatalog2/models.py:51 | the term filter lists every registry document with exactly that name, once each |
| Contexts.SelectByName | metacatalog2/models.py:51-59 | strict with several matches gives 412, none gives 404, and otherwise the last hit iterated, which is the last hit when there are at most 10 and the tenth otherwise |
| Contexts.VersionBound | metacatalog2/models.py:75 | among finitely many names, the versions of `name` they carry are bounded above |
| Contexts.TakenBelow | metacatalog2/models.py:89-92 | from some version on no version of the context is taken in the engine, so the bump loop ends |
| Contexts.CreateSucceedsOnlyAtVersionOne | metacatalog2/models.py:99 | since the mapping always goes to `name_v1`, the alias run succeeds only when the final version is 1 |
| Contexts.BumpedCreateIsRefused | metacatalog2/models.py:89-101 | with `lab1_v1` taken, the bump reaches free `lab1_v2`, but the mapping PUT to `lab1_v1` gets 400 |
| Contexts.IntendedCreateAliases | metacatalog2/models.py:103-108 | aliases put on a freshly created index succeed iff all names are accepted, and then it carries exactly `{name} + part_of` |
| Contexts.Context.constructor | metacatalog2/models.py:61-64 | a context built without a version, or with None, has version 1 |
| Contexts.Context.IndexName | metacatalog2/models.py:73-75 | the context's version can be read back from its index name |
| Contexts.Context.IndexEndpoint | metacatalog2/models.py:69-71 | the endpoint is the host, a slash, and the context's index name |
| Contexts.Context.CreateAlias | metacatalog2/models.py:115-129 | an alias PUT returns True on 200, and otherwise raises with the engine's status and changes nothing |
| Contexts.Context.CreateAliases | metacatalog2/models.py:103-108 | the alias PUTs run in order and stop at the first failure, as `PutAliasSeq` |
| Contexts.Context.BumpVersion | metacatalog2/models.py:89-92 | the version never decreases, every version skipped was taken, and the final one is free |
| Contexts.Context.CreateIndex | metacatalog2/models.py:77-113 | after the version bump, a missing mapping raises before any PUT; a refused mapping PUT raises 404; otherwise `name_v1` is created and the alias run goes to `name_v<v>`; success implies version 1 with aliases `{name} + part_of` |
| Contexts.Context.CreateIndexAtVersion | metacatalog2/models.py:77-113 | with the mapping PUT to the free version: a missing mapping raises with no change; a refused PUT raises 404 with no change; otherwise that index is created and the alias run on it decides the result and the aliases; success gives exactly `{name} + part_of`, and acceptable names guarantee success |
| Contexts.Context.Realias | metacatalog2/models.py:131-142 | realias clears the index's aliases, ignoring the response, then rebuilds them as `RealiasRun`; success leaves exactly `{name} + part_of` |
| Contexts.Context.Save | metacatalog2/models.py:145-147 | saving stores the context's document in the registry under its id, which it keeps |
| Contexts.Context.Delete | metacatalog2/models.py:150-154 | with `delete_index` the physical index goes first; the registry document is removed; by default indices and aliases are unchanged |
| Contexts.ByName | metacatalog2/models.py:35-59 | strict with several matches gives 412, none gives 404, otherwise a context of exactly that name as registered |
| Pages.Dict.constructor | metacatalog2/api/views/page.py:88 | the request body as a mutable JSON object |
| Pages.Page.constructor | metacatalog2/models.py:213-215 | a page from a document: content fields, dates, and the meta data id and index |
| Pages.Page.FromSource | metacatalog2/models.py:202-204 | a page from an engine hit carries the hit's id, index and source |
| Pages.Page.Create | metacatalog2/models.py:346-354 | `created` and `edited` become the same instant, then the page is indexed as `WriteSpec`; on success it takes the engine's id and index |
| Pages.Page.Save | metacatalog2/models.py:228-232 | only `edited` is refreshed; a stamped page stays stamped under a clock that does not run backwards |
| Pages.Page.Write | metacatalog2/models.py:232 | the page is indexed into its index (`meta` by default) under its id or a fresh one |
| Pages.Page.Update | metacatalog2/api/views/page.py:125 | the patch merges into the page and into the stored document, addressed in the page's index or the class default `meta`; `edited` is not refreshed; a page without an id raises AttributeError and writes nothing |
| Pages.Page.Delete | metacatalog2/api/views/page.py:144 | the page's document is removed from its index, or from the class default `meta`, and nothing else; a page without an id raises AttributeError |
| Pages.FromHit | metacatalog2/models.py:190-217 | covers engine hits, dicts with meta data, and other arguments (AttributeError); a dict loses `meta`, with KeyError or TypeError for missing or malformed meta data, and otherwise gives a page with the meta index and id whose content and `created`/`edited` dates are those of the rest of the dict |
| Pages.PickHit | metacatalog2/models.py:275-280 | strict with several results gives 409, none gives no page, otherwise the last result |
| Pages.SearchContext | metacatalog2/models.py:272-280 | the search answers 404, no page, 409, or a page as stored in one of the indices holding the id |
| Pages.GetPage | metacatalog2/models.py:234-284 | a context object means its index; a direct fetch falls back to searching `meta` on 400; a name is searched; other contexts give 405; any page returned is as stored |
| PageViews.FirstSet | metacatalog2/api/views/page.py:19-29 | the first option set, the reference for the precedence chains |
| PageViews.InvokeContext | metacatalog2/api/views/page.py:8-29 | the request argument, else the session, else `meta` |
| PageViews.RequestContext | metacatalog2/api/views/page.py:43-44 | the URL context comes before the request argument, the session, and `meta` |
| PageViews.ListedUnderEveryAlias | metacatalog2/api/views/page.py:47 | a stored page is listed under its own index and under every alias of it |
| PageViews.ShowPage | metacatalog2/api/views/page.py:63-64 | a page found is shown; an error or no page ends the request |
| PageViews.WithUrlId | metacatalog2/api/views/page.py:89-90 | a URL id replaces the body's meta data with `{id}` and leaves the other fields alone |
| PageViews.GetPages | metacatalog2/api/views/page.py:32-47 | lists exactly the pages reachable through the resolved context, or ends with 404 for an unknown name |
| PageViews.GetPage | metacatalog2/api/views/page.py:50-64 | a direct fetch with the resolved context as index, shown as `ShowPage` |
| PageViews.UrlContext | metacatalog2/api/views/page.py:124 | no URL context means no context, and a URL context is a name to search |
| PageViews.EditPage | metacatalog2/api/views/page.py:106-128 | the raw URL context is used; a page found is merged with the body in place; otherwise nothing is written |
| PageViews.DeletePage | metacatalog2/api/views/page.py:131-149 | the raw URL context is used; a page found is removed and acknowledged; otherwise nothing is removed |
| PageViews.StoredPageInContextIndex | metacatalog2/api/views/page.py:97-103 | a stored page has both timestamps at the creation instant and lands in the context's index when that index exists or is free; without a page nothing changes |
| PageViews.StorePage | metacatalog2/api/views/page.py:97-103 | the body's meta data gets the index in place; missing meta gives KeyError and non-object meta gives TypeError; otherwise the page is created as `StoreSpec` |
| PageViews.NewPage | metacatalog2/api/views/page.py:67-103 | a missing context gives 404 and an ambiguous one 412, both with nothing written; otherwise the page goes to the one named context's physical index |
| Scenario.ProvisionLab1 | metacatalog2/models.py:77-113 | on an empty engine, `lab1` part of `meta` gets index `lab1_v1` with aliases `{lab1, meta}` |
| Scenario.RegisterLab1 | metacatalog2/models.py:145-147 | after provisioning, saving `lab1` as `c1` makes it the one registry document a request for `lab1` resolves to |
| Scenario.PublishInLab1 | metacatalog2/api/views/page.py:67-103 | `new_page` with URL context `lab1` stores the page under id `p1` in `lab1_v1`, whose aliases stay `{lab1, meta}` |
| Scenario.Lab1Walkthrough | metacatalog2/api/views/page.py:67-103 | a page created in `lab1` lands in `lab1_v1` and is listed under both `lab1` and `meta` |
| Scenario.SecondLab1AsWritten | metacatalog2/models.py:89-101 | a second `lab1` bumps to version 2 but raises 404 and leaves the engine unchanged |
| Scenario.SecondLab1Intended | metacatalog2/models.py:89-101 | with the mapping sent to the free version, the second `lab1` gets `lab1_v2` with the same aliases and `lab1_v1` keeps its own |
| Scenario.NestedEditKeepsSiblings | metacatalog2/models.py:179-182 | editing `info` of `{downloads: 5, votes: 0}` with `{"info": {"votes": 1}}` sets the votes and keeps the downloads |

## Left out

- The engine itself is an abstract state with the status codes listed above. Analyzers, shards, refreshes, the network and its transport errors are not modelled. A registry lookup never fails.
- The `DocType` base class (`save`, `delete`, `get`, `all`, `update`, `to_json`) is not part of this model. Its calls are the `SearchEngine` operations, and a page is shown as the hit it stands for.
- Engine.SearchEngine.ContextsNamed: `by_name` filters an analysed text field with a term query; the model matches names exactly.
- PageViews.GetPages: the `limit` argument is not modelled; every reachable page is listed.
- PageViews.StorePage: a non-string id in the body's meta data is refused with TypeError, whereas the Python code would pass it on to the engine.
- PageViews.NewPage: inherits the TypeError for a non-string meta id from `PageViews.StorePage`.
- Pages.FromHit: non-string `index` or `id` entries in a dict's meta data are refused with TypeError, whereas the Python code would store them as they are.
- Engine.SearchEngine: the registry index `index_list_v1` (models.py:31) is kept apart from `indices`, so HEAD on `index_list_v1` answers false, and a context named `index_list` does not skip version 1 as it does in the code.
- Engine.DateField: dates are integer instants; date strings in JSON are not parsed, and a non-numeric date reads as no date.
- The clock (`datetime.utcnow`) is the `now` parameter. Ids the engine assigns are the `freshId` parameter.
- A JSON body that is not an object, and Flask's rendering of exceptions as HTTP 500 responses, are not modelled; an uncaught exception is `Crashed` with the exception.
- `by_name` error bodies carry the status only; message strings and the `print` calls are not modelled.
- Contexts.Context.CreateIndex returns the index name rather than the `Index` object, and does not model the final `exists` check, which only prints.
- A context without `part_of` is modelled with the empty list.
- `Page.all_coordinates`, `Page.to_shapely`, geo.py, manage.py, contexts.py, system.py, main/views.py, elk.py, app.py, config.py and setup.py are not part of this model. They are engine aggregations, floating-point geometry, Flask wiring, and install scripts.
- Concurrency: the Python code has none.

## Findings

| source | as written | input that shows it | evidently intended | confidence | as-written member | corrected member |
|---|---|---|---|---|---|---|
| metacatalog2/models.py:99 | the mapping is always PUT to `name_v1`, while the version bump moves to `name_v<v>` and the aliases are put there | a second context `lab1` when `lab1_v1` exists: the version becomes 2, the PUT to `lab1_v1` is refused, `create_index` raises 404, and `lab1_v2` is never created | PUT the mapping to `name_v<v>`, the version found free | not executed | Contexts.BumpedCreateIsRefused | Contexts.Context.CreateIndexAtVersion |
