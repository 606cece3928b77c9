/** Pages (models.py:157-354): the metadata documents of the catalog. A page
    lives in the physical index of one context and is found either by a
    direct fetch from a known index or by a search through an alias. */
module Pages {
  import opened Values
  import opened Engine
  import Contexts

  /** The index a page addresses when none is given (models.py:186). */
  const DefaultIndex: string := "meta"

  /** The alias searched when a direct fetch is refused with 400 (models.py:269). */
  const FallbackContext: string := "meta"

  /** A mutable JSON object, such as the body of a request. */
  class Dict {
    var entries: map<string, Json>

    constructor (entries: map<string, Json>)
      ensures this.entries == entries
    {
      this.entries := entries;
    }
  }

  /** The `context` argument of `Page.get`. */
  datatype ContextArg = NoContext | ContextObject(c: Contexts.Context) | ContextName(name: string) | OtherValue

  /** The argument of `Page.from_hit`. */
  datatype HitArg = EngineHit(hit: Hit<PageSource>) | DictHit(dict: Dict) | OtherHit

  class Page {
    var id: Option<string>
    var index: Option<string>
    /** The content fields other than the two timestamps. */
    var fields: map<string, Json>
    var created: Option<int>
    var edited: Option<int>

    /** `Page(**doc)` with the meta data `id` and `index`. */
    constructor (id: Option<string>, index: Option<string>, doc: map<string, Json>)
      ensures this.id == id && this.index == index
      ensures fields == doc - {"created", "edited"}
      ensures created == DateField(doc, "created") && edited == DateField(doc, "edited")
    {
      this.id := id;
      this.index := index;
      fields := doc - {"created", "edited"};
      created := DateField(doc, "created");
      edited := DateField(doc, "edited");
    }

    /** A page built from a document the engine returned. */
    constructor FromSource(h: Hit<PageSource>)
      ensures id == Some(h.id) && index == Some(h.index)
      ensures fields == h.source.fields && created == h.source.created && edited == h.source.edited
    {
      id := Some(h.id);
      index := Some(h.index);
      fields := h.source.fields;
      created := h.source.created;
      edited := h.source.edited;
    }

    function Source(): PageSource
      reads this
    {
      PageSource(fields, created, edited)
    }

    /** Both timestamps are set and `created` is not after `edited`. */
    ghost predicate Stamped()
      reads this
    {
      created.Some? && edited.Some? && created.value <= edited.value
    }

    /** `create` (models.py:346-354): set `created` and `edited` to the same
        instant `now`, then index the page where its meta data says. */
    method Create(es: SearchEngine, now: int, freshId: string) returns (r: Result<Hit<PageSource>>)
      requires es.Valid()
      modifies this, es`indices, es`aliases, es`pages
      ensures es.Valid()
      ensures created == Some(now) && edited == Some(now) && Stamped()
      ensures fields == old(fields)
      ensures var w := WriteSpec(old(es.indices), old(es.aliases), old(es.pages), es.invalidNames,
                                 old(index).GetOr(DefaultIndex), old(id).GetOr(freshId), Source());
        r == w.result && es.indices == w.indices && es.aliases == w.aliases && es.pages == w.pages
      ensures r.Ok? ==> id == Some(r.value.id) && index == Some(r.value.index) && r.value.source == Source()
      ensures r.Err? ==> id == old(id) && index == old(index)
    {
      edited := Some(now);
      created := Some(now);
      r := Write(es, freshId);
    }

    /** `save` (models.py:228-232): refresh only `edited`, then index the page.
        Under a clock that does not run backwards a stamped page stays stamped. */
    method Save(es: SearchEngine, now: int, freshId: string) returns (r: Result<Hit<PageSource>>)
      requires es.Valid()
      modifies this, es`indices, es`aliases, es`pages
      ensures es.Valid()
      ensures created == old(created) && edited == Some(now) && fields == old(fields)
      ensures old(Stamped()) && old(edited.value) <= now ==> Stamped()
      ensures var w := WriteSpec(old(es.indices), old(es.aliases), old(es.pages), es.invalidNames,
                                 old(index).GetOr(DefaultIndex), old(id).GetOr(freshId), Source());
        r == w.result && es.indices == w.indices && es.aliases == w.aliases && es.pages == w.pages
      ensures r.Ok? ==> id == Some(r.value.id) && index == Some(r.value.index) && r.value.source == Source()
      ensures r.Err? ==> id == old(id) && index == old(index)
    {
      edited := Some(now);
      r := Write(es, freshId);
    }

    /** The store's save: index the source and take over the id and the
        concrete index the engine reports. */
    method Write(es: SearchEngine, freshId: string) returns (r: Result<Hit<PageSource>>)
      requires es.Valid()
      modifies this`id, this`index, es`indices, es`aliases, es`pages
      ensures es.Valid()
      ensures var w := WriteSpec(old(es.indices), old(es.aliases), old(es.pages), es.invalidNames,
                                 old(index).GetOr(DefaultIndex), old(id).GetOr(freshId), Source());
        r == w.result && es.indices == w.indices && es.aliases == w.aliases && es.pages == w.pages
      ensures r.Ok? ==> id == Some(r.value.id) && index == Some(r.value.index) && r.value.source == Source()
      ensures r.Err? ==> id == old(id) && index == old(index)
    {
      r := es.WriteDoc(index.GetOr(DefaultIndex), id, Source(), freshId);
      if r.Ok? {
        id := Some(r.value.id);
        index := Some(r.value.index);
      }
    }

    /** The store's partial update: the patch's fields are merged into the
        page and into the stored document, addressed in the page's index or
        the class default `meta`; `edited` changes only if the patch sets it.
        A page without an id has no document to address. */
    method Update(es: SearchEngine, patch: map<string, Json>) returns (r: Result<PageSource>)
      requires es.Valid()
      modifies this`fields, this`created, this`edited, es`pages
      ensures es.Valid()
      ensures Source() == MergePatch(old(Source()), patch)
      ensures "edited" !in patch ==> edited == old(edited)
      ensures id.None? ==> r == Err(AttributeError) && es.pages == old(es.pages)
      ensures id.Some? ==>
        var target := index.GetOr(DefaultIndex);
        && (r.Ok? <==> exists i :: Resolve(es.indices, es.aliases, target) == {i} && id.value in old(es.pages)[i])
        && (r.Err? ==> es.pages == old(es.pages))
        && (forall i :: Resolve(es.indices, es.aliases, target) == {i} && id.value in old(es.pages)[i] ==>
              es.pages == old(es.pages)[i := old(es.pages)[i][id.value := MergePatch(old(es.pages)[i][id.value], patch)]])
    {
      var merged := MergePatch(Source(), patch);
      fields, created, edited := merged.fields, merged.created, merged.edited;
      if id.None? {
        return Err(AttributeError);
      }
      r := es.UpdateDoc(index.GetOr(DefaultIndex), id.value, patch);
    }

    /** The store's delete: remove the document from the page's index, or
        from the class default `meta`. A page without an id cannot be deleted. */
    method Delete(es: SearchEngine) returns (r: Result<()>)
      requires es.Valid()
      modifies es`pages
      ensures es.Valid()
      ensures id.None? ==> r == Err(AttributeError) && es.pages == old(es.pages)
      ensures id.Some? ==>
        var target := index.GetOr(DefaultIndex);
        && (r.Ok? <==> exists i :: Resolve(es.indices, es.aliases, target) == {i} && id.value in old(es.pages)[i])
        && (r.Err? ==> es.pages == old(es.pages))
        && (forall i :: Resolve(es.indices, es.aliases, target) == {i} && id.value in old(es.pages)[i] ==>
              es.pages == old(es.pages)[i := old(es.pages)[i] - {id.value}])
    {
      if id.None? {
        return Err(AttributeError);
      }
      r := es.DeleteDoc(index.GetOr(DefaultIndex), id.value);
    }
  }

  /** `from_hit` (models.py:190-217): a page from an engine hit, or from a
      dict whose `meta` entry holds the index and the id; the dict loses its
      `meta` entry, even when the entry then turns out to be unusable. */
  method FromHit(arg: HitArg) returns (r: Result<Page>)
    modifies if arg.DictHit? then {arg.dict} else {}
    ensures arg.OtherHit? ==> r == Err(AttributeError)
    ensures arg.EngineHit? ==>
      && r.Ok? && fresh(r.value)
      && r.value.id == Some(arg.hit.id) && r.value.index == Some(arg.hit.index)
      && r.value.Source() == arg.hit.source
    ensures arg.DictHit? ==>
      var d := old(arg.dict.entries);
      && ("meta" !in d ==> r == Err(KeyError("meta")) && arg.dict.entries == d)
      && ("meta" in d ==> arg.dict.entries == d - {"meta"})
      && ("meta" in d && !d["meta"].JObj? ==> r == Err(TypeError))
      && ("meta" in d && d["meta"].JObj? ==>
            var meta := d["meta"].fields;
            && ("index" !in meta ==> r == Err(KeyError("index")))
            && ("index" in meta && "id" !in meta ==> r == Err(KeyError("id")))
            && (r.Ok? <==> "index" in meta && "id" in meta && meta["index"].JStr? && meta["id"].JStr?)
            && (r.Ok? ==>
                  && fresh(r.value)
                  && r.value.index == Some(meta["index"].s) && r.value.id == Some(meta["id"].s)
                  && r.value.fields == (d - {"meta"}) - {"created", "edited"}
                  && r.value.created == DateField(d - {"meta"}, "created")
                  && r.value.edited == DateField(d - {"meta"}, "edited")))
  {
    if arg.EngineHit? {
      var page := new Page.FromSource(arg.hit);
      r := Ok(page);
    } else if arg.DictHit? {
      var dict := arg.dict;
      if "meta" !in dict.entries {
        return Err(KeyError("meta"));
      }
      var meta := dict.entries["meta"];
      dict.entries := dict.entries - {"meta"};
      if !meta.JObj? {
        return Err(TypeError);
      }
      if "index" !in meta.fields {
        return Err(KeyError("index"));
      }
      if "id" !in meta.fields {
        return Err(KeyError("id"));
      }
      if !meta.fields["index"].JStr? || !meta.fields["id"].JStr? {
        return Err(TypeError);
      }
      var page := new Page(Some(meta.fields["id"].s), Some(meta.fields["index"].s), dict.entries);
      r := Ok(page);
    } else {
      r := Err(AttributeError);
    }
  }

  /** The choice among the hits a search listed: several with `strict` is a
      409 conflict, none is no page, otherwise the last one listed. */
  function PickHit<T>(results: seq<T>, strict: bool): (r: Result<Option<T>>)
    ensures results == [] ==> r == Ok(None)
    ensures strict && |results| > 1 ==> r == Err(HttpError(409))
    ensures r.Ok? <==> !strict || |results| <= 1
    ensures r.Ok? && r.value.Some? ==> r.value.value in results
    ensures r.Ok? && results != [] ==> r.value == Some(results[|results| - 1])
  {
    if |results| > 1 && strict then Err(HttpError(409))
    else if |results| == 0 then Ok(None)
    else Ok(Some(results[|results| - 1]))
  }

  /** What a search for page `id` through `n` may answer: 404 when `n`
      reaches no index, no page when no index reached holds the id, 409 for a
      strict search that finds it in several indices, and otherwise the page
      as stored in one of the indices that hold it. */
  ghost predicate SearchOutcome(indices: set<string>, aliases: AliasMap, pages: map<string, map<string, PageSource>>,
                                n: string, id: string, strict: bool, r: Result<Option<Hit<PageSource>>>)
    requires aliases.Keys == indices && pages.Keys == indices
  {
    var holders := Holders(indices, aliases, pages, n, id);
    if Resolve(indices, aliases, n) == {} then r == Err(TransportError(404))
    else if holders == {} then r == Ok(None)
    else if strict && |holders| > 1 then r == Err(HttpError(409))
    else
      && r.Ok? && r.value.Some?
      && r.value.value.index in holders && r.value.value.id == id
      && r.value.value.source == pages[r.value.value.index][id]
  }

  /** The search branch of `Page.get` (models.py:272-280). */
  method SearchContext(es: SearchEngine, n: string, id: string, strict: bool)
    returns (r: Result<Option<Hit<PageSource>>>)
    requires es.Valid()
    ensures SearchOutcome(es.indices, es.aliases, es.pages, n, id, strict, r)
  {
    var found := es.SearchById(n, id);
    if found.Err? {
      return Err(found.error);
    }
    var hits := found.value;
    DistinctHitKeys(hits, ByIndex);
    var results := Window(hits);
    r := PickHit(results, strict);
    if r.Ok? && r.value.Some? {
      assert r.value.value in hits;
    }
  }

  /** `h` is page `id` as stored in its index. */
  predicate Stored(pages: map<string, map<string, PageSource>>, id: string, h: Hit<PageSource>) {
    h.id == id && h.index in pages && id in pages[h.index] && h.source == pages[h.index][id]
  }

  /** What a direct fetch of page `id` from `target` may answer (the parent
      class's get): 404 when `target` reaches no index or the one index it
      reaches lacks the id, the stored page when it has it, and, because the
      engine refuses the fetch through a multi-index alias with 400, the
      outcome of a search through the `meta` alias. */
  ghost predicate FetchOutcome(indices: set<string>, aliases: AliasMap, pages: map<string, map<string, PageSource>>,
                               target: string, id: string, strict: bool, r: Result<Option<Hit<PageSource>>>)
    requires aliases.Keys == indices && pages.Keys == indices
  {
    var reached := Resolve(indices, aliases, target);
    && (reached == {} ==> r == Err(TransportError(404)))
    && (forall i :: reached == {i} ==>
          r == if id in pages[i] then Ok(Some(Hit(i, id, pages[i][id]))) else Err(TransportError(404)))
    && (|reached| > 1 ==> SearchOutcome(indices, aliases, pages, FallbackContext, id, strict, r))
  }

  /** `Page.get` (models.py:234-284). A context object stands for its index;
      with no context the page is fetched directly from the index (the
      default index when none is given), and a 400 from that fetch turns it
      into a search through the `meta` alias; a context name is searched;
      any other context is refused with 405. The answer is the hit the page
      is built from. */
  method GetPage(es: SearchEngine, id: string, index: Option<string>, context: ContextArg, strict: bool)
    returns (r: Result<Option<Hit<PageSource>>>)
    requires es.Valid()
    ensures context.OtherValue? ==> r == Err(HttpError(405))
    ensures context.ContextName? ==> SearchOutcome(es.indices, es.aliases, es.pages, context.name, id, strict, r)
    ensures context.NoContext? ==> FetchOutcome(es.indices, es.aliases, es.pages, index.GetOr(DefaultIndex), id, strict, r)
    ensures context.ContextObject? ==> FetchOutcome(es.indices, es.aliases, es.pages, context.c.IndexName(), id, strict, r)
    ensures r.Ok? && r.value.Some? ==> Stored(es.pages, id, r.value.value)
  {
    var ctx := context;
    var idx := index;
    if ctx.ContextObject? {
      idx := Some(ctx.c.IndexName());
      ctx := NoContext;
    }
    if ctx.NoContext? {
      var got := es.GetById(idx.GetOr(DefaultIndex), id);
      if got.Ok? {
        return Ok(Some(got.value));
      }
      if got.error != TransportError(400) {
        return Err(got.error);
      }
      ctx := ContextName(FallbackContext);
    }
    if ctx.ContextName? {
      r := SearchContext(es, ctx.name, id, strict);
    } else {
      r := Err(HttpError(405));
    }
  }
}
