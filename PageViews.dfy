/** The page endpoints of the web API (api/views/page.py): which context a
    request addresses, and how each handler drives the page model. The
    request's `context` argument, the session's `context` entry, the JSON
    body and the clock are parameters. */
module PageViews {
  import opened Values
  import opened Engine
  import Naming
  import Contexts
  import Pages

  /** The global context every request falls back to (page.py:29). */
  const GlobalContext: string := "meta"

  /** What a handler answers. A page is shown with its meta data, which is
      the hit it was built from; an uncaught exception ends the request. */
  datatype Response =
    | PageDoc(page: Hit<PageSource>)
    | PageList(pages: set<Hit<PageSource>>)
    | ErrorDoc(status: int)
    | Acknowledged(id: string)
    | Crashed(error: Error)

  /** The first of `options` that is set: the reference for every precedence
      chain below. */
  function FirstSet<T>(options: seq<Option<T>>): (r: Option<T>)
    ensures r.None? <==> forall k :: 0 <= k < |options| ==> options[k].None?
    ensures forall k :: 0 <= k < |options| && options[k].Some? && (forall j :: 0 <= j < k ==> options[j].None?) ==>
      r == options[k]
    decreases |options|
  {
    if options == [] then None
    else if options[0].Some? then options[0]
    else
      assert forall k :: 1 <= k < |options| ==> options[1..][k - 1] == options[k];
      FirstSet(options[1..])
  }

  /** `invoke_context` (page.py:8-29): the request's `context` argument, else
      the session's, else the global context. */
  function InvokeContext(arg: Option<string>, session: Option<string>): (c: string)
    ensures FirstSet([arg, session, Some(GlobalContext)]) == Some(c)
  {
    if arg.Some? then arg.value
    else if session.Some? then session.value
    else
      var options := [arg, session, Some(GlobalContext)];
      assert options[2].Some? && forall j :: 0 <= j < 2 ==> options[j].None?;
      GlobalContext
  }

  /** The context of a handler that resolves it: a context in the URL comes
      first, `invoke_context` is consulted only without one (page.py:43-44). */
  function RequestContext(url: Option<string>, arg: Option<string>, session: Option<string>): (c: string)
    ensures FirstSet([url, arg, session, Some(GlobalContext)]) == Some(c)
  {
    if url.Some? then url.value else InvokeContext(arg, session)
  }

  /** A page stored in an index is listed under every alias of that index
      that is not itself an index name: a page written to a context's index
      shows up in every context the alias set makes it part of. */
  lemma ListedUnderEveryAlias(indices: set<string>, aliases: AliasMap, pages: map<string, map<string, PageSource>>,
                              idx: string, id: string)
    requires aliases.Keys == indices && pages.Keys == indices
    requires idx in indices && id in pages[idx]
    ensures forall a :: a in aliases[idx] && a !in indices ==> Hit(idx, id, pages[idx][id]) in Listing(indices, aliases, pages, a)
    ensures Hit(idx, id, pages[idx][id]) in Listing(indices, aliases, pages, idx)
  {
    forall a | a in aliases[idx] && a !in indices
      ensures Hit(idx, id, pages[idx][id]) in Listing(indices, aliases, pages, a)
    {
      assert idx in AliasHolders(aliases, a);
    }
  }

  /** `jsonify(page.to_json())` of what `Page.get` returned: no page makes
      the handler fail on None. */
  function ShowPage(r: Result<Option<Hit<PageSource>>>): (resp: Response)
    ensures resp.PageDoc? <==> r.Ok? && r.value.Some?
    ensures resp.PageDoc? ==> resp.page == r.value.value
    ensures r.Err? ==> resp == Crashed(r.error)
    ensures r == Ok(None) ==> resp == Crashed(AttributeError)
  {
    match r
    case Err(e) => Crashed(e)
    case Ok(None) => Crashed(AttributeError)
    case Ok(Some(h)) => PageDoc(h)
  }

  /** The id given in the page meta data, if any. */
  function MetaId(meta: map<string, Json>): Result<Option<string>>
  {
    if "id" !in meta then Ok(None)
    else if meta["id"].JStr? then Ok(Some(meta["id"].s))
    else Err(TypeError)
  }

  /** The request body after a URL id replaced its meta data (page.py:89-90). */
  function WithUrlId(body: map<string, Json>, id: Option<string>): (r: map<string, Json>)
    ensures id.None? ==> r == body
    ensures id.Some? ==> r.Keys == body.Keys + {"meta"} && r["meta"] == JObj(map["id" := JStr(id.value)])
    ensures forall k :: k in body && k != "meta" ==> k in r && r[k] == body[k]
  {
    if id.Some? then body["meta" := JObj(map["id" := JStr(id.value)])] else body
  }

  /** `get_pages` (page.py:32-47): every page reachable through the context. */
  method GetPages(es: SearchEngine, url: Option<string>, arg: Option<string>, session: Option<string>)
    returns (resp: Response)
    requires es.Valid()
    ensures var reached := Resolve(es.indices, es.aliases, RequestContext(url, arg, session));
      && (reached == {} ==> resp == Crashed(TransportError(404)))
      && (reached != {} ==> resp == PageList(Listing(es.indices, es.aliases, es.pages, RequestContext(url, arg, session))))
  {
    var context := RequestContext(url, arg, session);
    var all := es.SearchAll(context);
    if all.Err? {
      return Crashed(all.error);
    }
    resp := PageList(all.value);
  }

  /** `get_page` (page.py:50-64): a direct fetch with the resolved context as
      the index, falling back to a non-strict search of `meta`. */
  method GetPage(es: SearchEngine, id: string, url: Option<string>, arg: Option<string>, session: Option<string>)
    returns (resp: Response)
    requires es.Valid()
    ensures exists r :: Pages.FetchOutcome(es.indices, es.aliases, es.pages, RequestContext(url, arg, session), id, false, r)
                        && resp == ShowPage(r)
  {
    var context := RequestContext(url, arg, session);
    var r := Pages.GetPage(es, id, Some(context), Pages.NoContext, false);
    resp := ShowPage(r);
  }

  /** How `edit_page` and `delete_page` hand the URL context to `Page.get`:
      as it is, without `invoke_context` (page.py:124, 143). */
  function UrlContext(url: Option<string>): (c: Pages.ContextArg)
    ensures c.NoContext? <==> url.None?
    ensures c.ContextName? <==> url.Some?
    ensures c.ContextName? ==> c.name == url.value
  {
    if url.Some? then Pages.ContextName(url.value) else Pages.NoContext
  }

  /** What `Page.get(id, context=url)` may answer. */
  ghost predicate LookupOutcome(indices: set<string>, aliases: AliasMap, pages: map<string, map<string, PageSource>>,
                                id: string, url: Option<string>, r: Result<Option<Hit<PageSource>>>)
    requires aliases.Keys == indices && pages.Keys == indices
  {
    if url.Some? then Pages.SearchOutcome(indices, aliases, pages, url.value, id, false, r)
    else Pages.FetchOutcome(indices, aliases, pages, Pages.DefaultIndex, id, false, r)
  }

  /** `edit_page` (page.py:106-128): look the page up and merge the body into
      it and into the stored document. `found` is what the lookup answered. */
  method EditPage(es: SearchEngine, id: string, url: Option<string>, patch: map<string, Json>)
    returns (resp: Response, ghost found: Result<Option<Hit<PageSource>>>)
    requires es.Valid()
    modifies es`pages
    ensures es.Valid()
    ensures LookupOutcome(es.indices, es.aliases, old(es.pages), id, url, found)
    ensures found.Err? ==> resp == Crashed(found.error) && es.pages == old(es.pages)
    ensures found == Ok(None) ==> resp == Crashed(AttributeError) && es.pages == old(es.pages)
    ensures found.Ok? && found.value.Some? ==>
      var h := found.value.value;
      && h.index in old(es.pages) && h.id in old(es.pages)[h.index]
      && resp == PageDoc(Hit(h.index, h.id, MergePatch(h.source, patch)))
      && es.pages == old(es.pages)[h.index := old(es.pages)[h.index][h.id := MergePatch(h.source, patch)]]
  {
    var r := Pages.GetPage(es, id, None, UrlContext(url), false);
    found := r;
    if r.Err? {
      return Crashed(r.error), found;
    }
    if r.value.None? {
      return Crashed(AttributeError), found;
    }
    var h := r.value.value;
    var page := new Pages.Page.FromSource(h);
    assert Resolve(es.indices, es.aliases, h.index) == {h.index};
    var u := page.Update(es, patch);
    resp := PageDoc(Hit(h.index, h.id, page.Source()));
  }

  /** `delete_page` (page.py:131-149): look the page up and delete it.
      `found` is what the lookup answered. */
  method DeletePage(es: SearchEngine, id: string, url: Option<string>)
    returns (resp: Response, ghost found: Result<Option<Hit<PageSource>>>)
    requires es.Valid()
    modifies es`pages
    ensures es.Valid()
    ensures LookupOutcome(es.indices, es.aliases, old(es.pages), id, url, found)
    ensures found.Err? ==> resp == Crashed(found.error) && es.pages == old(es.pages)
    ensures found == Ok(None) ==> resp == Crashed(AttributeError) && es.pages == old(es.pages)
    ensures found.Ok? && found.value.Some? ==>
      var h := found.value.value;
      && h.index in old(es.pages)
      && resp == Acknowledged(id)
      && es.pages == old(es.pages)[h.index := old(es.pages)[h.index] - {h.id}]
  {
    var r := Pages.GetPage(es, id, None, UrlContext(url), false);
    found := r;
    if r.Err? {
      return Crashed(r.error), found;
    }
    if r.value.None? {
      return Crashed(AttributeError), found;
    }
    var h := r.value.value;
    var page := new Pages.Page.FromSource(h);
    assert Resolve(es.indices, es.aliases, h.index) == {h.index};
    var d := page.Delete(es);
    resp := Acknowledged(id);
  }

  /** What a handler leaves behind: its answer, the request body and the engine's content. */
  datatype Outcome = Outcome(resp: Response, entries: map<string, Json>, indices: set<string>,
                             aliases: AliasMap, pages: map<string, map<string, PageSource>>)

  /** The end of `new_page` (page.py:97-103) for a body `entries` and the
      physical index `index` of the context: the meta data must be an object
      and is completed with `index` in place, then the rest of the body
      becomes a page created at `now` and written to `index`. */
  ghost function StoreSpec(indices: set<string>, aliases: AliasMap, pages: map<string, map<string, PageSource>>,
                           invalid: set<string>, entries: map<string, Json>, index: string, now: int,
                           freshId: string): (o: Outcome)
    requires aliases.Keys == indices && pages.Keys == indices
    ensures o.aliases.Keys == o.indices && o.pages.Keys == o.indices
  {
    if "meta" !in entries then Outcome(Crashed(KeyError("meta")), entries, indices, aliases, pages)
    else if !entries["meta"].JObj? then Outcome(Crashed(TypeError), entries, indices, aliases, pages)
    else
      var meta := entries["meta"].fields;
      var completed := entries["meta" := JObj(meta["index" := JStr(index)])];
      var pageId := MetaId(meta);
      if pageId.Err? then Outcome(Crashed(pageId.error), completed, indices, aliases, pages)
      else
        var source := PageSource(entries - {"meta", "created", "edited"}, Some(now), Some(now));
        var w := WriteSpec(indices, aliases, pages, invalid, index, pageId.value.GetOr(freshId), source);
        Outcome(if w.result.Ok? then PageDoc(w.result.value) else Crashed(w.result.error),
                completed, w.indices, w.aliases, w.pages)
  }

  /** A page `new_page` stores carries the creation instant as both
      timestamps and the body's content; it lands in the context's index
      `index` itself whenever that index exists or the name is free, and
      the engine is left untouched when no page is shown. */
  lemma StoredPageInContextIndex(indices: set<string>, aliases: AliasMap, pages: map<string, map<string, PageSource>>,
                                 invalid: set<string>, entries: map<string, Json>, index: string, now: int,
                                 freshId: string)
    requires aliases.Keys == indices && pages.Keys == indices
    ensures var o := StoreSpec(indices, aliases, pages, invalid, entries, index, now, freshId);
      && (!o.resp.PageDoc? ==> o.indices == indices && o.aliases == aliases && o.pages == pages)
      && (o.resp.PageDoc? ==>
            && o.resp.page.source == PageSource(entries - {"meta", "created", "edited"}, Some(now), Some(now))
            && o.pages[o.resp.page.index][o.resp.page.id] == o.resp.page.source
            && (index in indices || !Exists(indices, aliases, index) ==> o.resp.page.index == index))
  {
  }

  /** The body handling of `new_page` (page.py:97-103), proved against `StoreSpec`. */
  method StorePage(es: SearchEngine, body: Pages.Dict, index: string, now: int, freshId: string)
    returns (resp: Response)
    requires es.Valid()
    modifies body, es`indices, es`aliases, es`pages
    ensures es.Valid()
    ensures StoreSpec(old(es.indices), old(es.aliases), old(es.pages), es.invalidNames, old(body.entries), index, now, freshId)
      == Outcome(resp, body.entries, es.indices, es.aliases, es.pages)
  {
    if "meta" !in body.entries {
      return Crashed(KeyError("meta"));
    }
    var meta := body.entries["meta"];
    if !meta.JObj? {
      return Crashed(TypeError);
    }
    body.entries := body.entries["meta" := JObj(meta.fields["index" := JStr(index)])];
    var pageId := MetaId(meta.fields);
    if pageId.Err? {
      return Crashed(pageId.error);
    }
    var page := new Pages.Page(pageId.value, Some(index), body.entries - {"meta"});
    assert page.fields == old(body.entries) - {"meta", "created", "edited"};
    var r := page.Create(es, now, freshId);
    resp := if r.Ok? then PageDoc(r.value) else Crashed(r.error);
  }

  /** `new_page` (page.py:67-103): the body, with the URL id as its meta data
      when there is one, becomes a page in the physical index of the one
      context of the resolved name. A missing or ambiguous context is
      answered with its error status; the body is then only given the URL
      id, and nothing is written. */
  method NewPage(es: SearchEngine, body: Pages.Dict, id: Option<string>, url: Option<string>,
                 arg: Option<string>, session: Option<string>, now: int, freshId: string)
    returns (resp: Response)
    requires es.Valid()
    modifies body, es`indices, es`aliases, es`pages
    ensures es.Valid()
    ensures var matching := NamedContexts(es.registry, RequestContext(url, arg, session));
      && (matching == {} ==> resp == ErrorDoc(404))
      && (|matching| > 1 ==> resp == ErrorDoc(412))
      && (|matching| != 1 ==>
            && body.entries == WithUrlId(old(body.entries), id)
            && es.indices == old(es.indices) && es.aliases == old(es.aliases) && es.pages == old(es.pages))
      && (forall k :: matching == {k} ==>
            StoreSpec(old(es.indices), old(es.aliases), old(es.pages), es.invalidNames,
                      WithUrlId(old(body.entries), id),
                      Naming.IndexName(es.registry[k].name, es.registry[k].v), now, freshId)
            == Outcome(resp, body.entries, es.indices, es.aliases, es.pages))
  {
    if id.Some? {
      body.entries := body.entries["meta" := JObj(map["id" := JStr(id.value)])];
    }
    var context := RequestContext(url, arg, session);
    var found := Contexts.ByName(es, context, true);
    if found.Err? {
      return ErrorDoc(found.error.status);
    }
    var c := found.value;
    SingletonOrMore(NamedContexts(es.registry, context), c.id.value);
    resp := StorePage(es, body, c.IndexName(), now, freshId);
  }
}
