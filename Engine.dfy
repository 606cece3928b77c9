/** The search engine (Elasticsearch) as the Python code sees it: a set of
    physical indices, the alias names each index carries, the page documents
    stored per index, and the registry index of context documents.

    The engine is external to the repository; this module fixes the
    behaviour the models rely on, as status codes:
    - creating an index whose name already resolves (index or alias), whose
      name the engine refuses, or whose mapping it refuses: 400;
    - putting an alias on a missing index: 404; an alias named like an index
      or refused by the engine: 400;
    - fetching a document by id through a name that resolves to no index:
      404, to several indices: 400, to one index without that id: 404;
    - searching a name that resolves to no index: 404;
    - writing a document through a name that resolves to several indices:
      400; to an unknown name: the index is created on the fly. */
module Engine {
  import opened Values

  /** Iterating an elasticsearch_dsl search yields its first page of hits. */
  const SearchWindow: nat := 10

  /** The index holding the context registry (models.py:31). */
  const RegistryIndex: string := "index_list_v1"

  /** The stored source of a page document; `created` and `edited` are instants. */
  datatype PageSource = PageSource(fields: map<string, Json>, created: Option<int>, edited: Option<int>)

  /** The stored source of a context document. */
  datatype ContextDoc = ContextDoc(name: string, partOf: seq<string>, v: int)

  /** A document as the engine returns it: the concrete index, the id and the source. */
  datatype Hit<T> = Hit(index: string, id: string, source: T)

  type AliasMap = map<string, set<string>>

  /** The indices that carry alias `a`. */
  function AliasHolders(aliases: AliasMap, a: string): (r: set<string>)
    ensures r <= aliases.Keys
    ensures forall i :: i in r <==> i in aliases && a in aliases[i]
  {
    set i | i in aliases && a in aliases[i]
  }

  /** Whether `n` names an index or an alias (a HEAD request on `n`). */
  predicate Exists(indices: set<string>, aliases: AliasMap, n: string) {
    n in indices || AliasHolders(aliases, n) != {}
  }

  /** The physical indices that a request addressed to `n` reaches. */
  function Resolve(indices: set<string>, aliases: AliasMap, n: string): (r: set<string>)
    requires aliases.Keys == indices
    ensures r <= indices
    ensures r == {} <==> !Exists(indices, aliases, n)
  {
    if n in indices then {n} else AliasHolders(aliases, n)
  }

  /** The indices reached through `n` that store a page with id `id`. */
  function Holders(indices: set<string>, aliases: AliasMap, pages: map<string, map<string, PageSource>>,
                   n: string, id: string): set<string>
    requires aliases.Keys == indices && pages.Keys == indices
  {
    set i | i in Resolve(indices, aliases, n) && id in pages[i]
  }

  /** The status of PUT `n` with a mapping. */
  function IndexPutStatus(indices: set<string>, aliases: AliasMap, invalid: set<string>,
                          refused: set<Json>, n: string, mapping: Json): (status: int)
    ensures status == 200 <==> !Exists(indices, aliases, n) && n !in invalid && mapping !in refused
    ensures status == 200 || status == 400
  {
    if Exists(indices, aliases, n) || n in invalid || mapping in refused then 400 else 200
  }

  /** The status of PUT `idx/_aliases/a`. */
  function AliasStatus(indices: set<string>, invalid: set<string>, idx: string, a: string): (status: int)
    ensures status == 200 <==> idx in indices && a !in indices && a !in invalid
    ensures status == 404 <==> idx !in indices
  {
    if idx !in indices then 404 else if a in indices || a in invalid then 400 else 200
  }

  /** The aliases after a run of alias PUTs, and the status of the last PUT sent. */
  datatype AliasRun = AliasRun(aliases: AliasMap, status: int)

  /** PUT `idx/_aliases/n` for each `n` of `names` in order, stopping at the first
      response that is not 200 (the Python code raises there). */
  function PutAliasSeq(indices: set<string>, invalid: set<string>, aliases: AliasMap,
                       idx: string, names: seq<string>): (run: AliasRun)
    requires aliases.Keys == indices
    ensures run.aliases.Keys == indices
    ensures forall i :: i in indices && i != idx ==> run.aliases[i] == aliases[i]
    decreases |names|
  {
    if names == [] then AliasRun(aliases, 200)
    else
      var status := AliasStatus(indices, invalid, idx, names[0]);
      if status != 200 then AliasRun(aliases, status)
      else PutAliasSeq(indices, invalid, aliases[idx := aliases[idx] + {names[0]}], idx, names[1..])
  }

  /** A name the engine accepts as an alias of an existing index. */
  predicate AcceptedAlias(indices: set<string>, invalid: set<string>, a: string) {
    a !in indices && a !in invalid
  }

  /** A run of alias PUTs succeeds exactly when every name is accepted (and,
      unless there is nothing to put, the index exists); then the index carries
      exactly its former aliases and the new names. A failed run leaves the
      aliases put before the failure in place and adds no other. */
  lemma {:induction false} PutAliasSeqEffect(indices: set<string>, invalid: set<string>, aliases: AliasMap,
                                            idx: string, names: seq<string>)
    requires aliases.Keys == indices
    ensures var run := PutAliasSeq(indices, invalid, aliases, idx, names);
      && (run.status == 200 <==>
            names == [] || (idx in indices && forall k :: 0 <= k < |names| ==> AcceptedAlias(indices, invalid, names[k])))
      && (run.status == 200 && idx in indices ==>
            run.aliases == aliases[idx := aliases[idx] + NameSet(names)])
      && (run.status != 200 ==> (run.status == 404 <==> idx !in indices) && (run.status == 400 <==> idx in indices))
      && (idx in indices ==> aliases[idx] <= run.aliases[idx] <= aliases[idx] + NameSet(names))
      && (idx !in indices ==> run.aliases == aliases)
    decreases |names|
  {
    if names == [] {
      assert NameSet(names) == {};
      if idx in indices {
        assert aliases[idx] + NameSet(names) == aliases[idx];
        assert aliases[idx := aliases[idx]] == aliases;
      }
    } else if AliasStatus(indices, invalid, idx, names[0]) == 200 {
      var next := aliases[idx := aliases[idx] + {names[0]}];
      PutAliasSeqEffect(indices, invalid, next, idx, names[1..]);
      assert NameSet(names) == {names[0]} + NameSet(names[1..]);
      var run := PutAliasSeq(indices, invalid, aliases, idx, names);
      assert next[idx] + NameSet(names[1..]) == aliases[idx] + NameSet(names);
      assert next[idx := next[idx] + NameSet(names[1..])] == aliases[idx := aliases[idx] + NameSet(names)];
      if run.status == 200 {
        assert forall k :: 1 <= k < |names| ==> names[k] == names[1..][k - 1];
      }
    }
  }

  /** A run whose first refused name is `names[j]` answers 400 and leaves the
      index with its former aliases plus exactly the names put before `j`. */
  lemma {:induction false} PutAliasSeqStopsAtRefusal(indices: set<string>, invalid: set<string>, aliases: AliasMap,
                                                     idx: string, names: seq<string>, j: int)
    requires aliases.Keys == indices && idx in indices
    requires 0 <= j < |names| && !AcceptedAlias(indices, invalid, names[j])
    requires forall k :: 0 <= k < j ==> AcceptedAlias(indices, invalid, names[k])
    ensures var run := PutAliasSeq(indices, invalid, aliases, idx, names);
      run.status == 400 && run.aliases == aliases[idx := aliases[idx] + NameSet(names[..j])]
    decreases j
  {
    if j == 0 {
      assert NameSet(names[..0]) == {};
      assert aliases[idx] + {} == aliases[idx];
      assert aliases[idx := aliases[idx]] == aliases;
    } else {
      var next := aliases[idx := aliases[idx] + {names[0]}];
      assert forall k :: 0 <= k < j - 1 ==> names[1..][k] == names[k + 1];
      PutAliasSeqStopsAtRefusal(indices, invalid, next, idx, names[1..], j - 1);
      assert names[1..][..j - 1] == names[1..j];
      assert NameSet(names[..j]) == {names[0]} + NameSet(names[1..j]);
      assert next[idx] + NameSet(names[1..j]) == aliases[idx] + NameSet(names[..j]);
    }
  }

  /** The alias PUTs that `realias` sends, after DELETE `idx/_aliases/` with the wildcard alias
      cleared the index (a DELETE on a missing index changes nothing). */
  function RealiasRun(indices: set<string>, invalid: set<string>, aliases: AliasMap,
                      idx: string, name: string, partOf: seq<string>): AliasRun
    requires aliases.Keys == indices
  {
    var cleared := if idx in indices then aliases[idx := {}] else aliases;
    PutAliasSeq(indices, invalid, cleared, idx, [name] + partOf)
  }

  /** After a successful realias the index carries exactly its own name and
      its parents' names; the aliases of every other index are untouched. A
      realias of a missing index fails with 404 and changes nothing. */
  lemma RealiasExact(indices: set<string>, invalid: set<string>, aliases: AliasMap,
                     idx: string, name: string, partOf: seq<string>)
    requires aliases.Keys == indices
    ensures var run := RealiasRun(indices, invalid, aliases, idx, name, partOf);
      && (run.status == 200 <==> idx in indices && AcceptedAlias(indices, invalid, name)
                                 && forall k :: 0 <= k < |partOf| ==> AcceptedAlias(indices, invalid, partOf[k]))
      && (run.status == 200 ==> run.aliases[idx] == {name} + NameSet(partOf))
      && (idx !in indices ==> run.status == 404 && run.aliases == aliases)
      && (forall i :: i in indices && i != idx ==> run.aliases[i] == aliases[i])
  {
    var cleared := if idx in indices then aliases[idx := {}] else aliases;
    var names := [name] + partOf;
    PutAliasSeqEffect(indices, invalid, cleared, idx, names);
    assert NameSet(names) == {name} + NameSet(partOf);
    assert forall k :: 0 <= k < |partOf| ==> partOf[k] == names[k + 1];
  }

  /** Realias is idempotent: running it again on its own outcome yields the same aliases. */
  lemma RealiasIdempotent(indices: set<string>, invalid: set<string>, aliases: AliasMap,
                          idx: string, name: string, partOf: seq<string>)
    requires aliases.Keys == indices
    ensures var once := RealiasRun(indices, invalid, aliases, idx, name, partOf);
      RealiasRun(indices, invalid, once.aliases, idx, name, partOf) == once
  {
    var once := RealiasRun(indices, invalid, aliases, idx, name, partOf);
    RealiasExact(indices, invalid, aliases, idx, name, partOf);
    if idx in indices {
      assert once.aliases[idx := {}] == aliases[idx := {}];
    }
  }

  /** A set holding `i` is either exactly `{i}` or holds more than one element. */
  lemma SingletonOrMore(s: set<string>, i: string)
    requires i in s
    ensures s == {i} || |s| > 1
    ensures s == {i} <==> |s| == 1
  {
    if s != {i} {
      var j :| j in s && j != i;
      assert {i, j} <= s;
      assert |s| >= |{i, j}| == 2 by { SubsetCard({i, j}, s); }
    }
  }

  lemma {:induction false} SubsetCard(a: set<string>, b: set<string>)
    requires a <= b
    ensures |a| <= |b|
    decreases |a|
  {
    if a != {} {
      var x :| x in a;
      SubsetCard(a - {x}, b - {x});
    }
  }

  /** Every index name and every alias name the engine knows. */
  function AllNames(indices: set<string>, aliases: AliasMap): (r: set<string>)
    ensures forall n :: Exists(indices, aliases, n) ==> n in r
  {
    var r := indices + (set i, a | i in aliases && a in aliases[i] :: a);
    assert forall n :: Exists(indices, aliases, n) ==> n in r by {
      forall n | Exists(indices, aliases, n) ensures n in r {
        if n !in indices {
          var i :| i in AliasHolders(aliases, n);
        }
      }
    }
    r
  }

  /** The first hits of a search, as iterating it yields them. */
  function Window<T>(hits: seq<T>): (w: seq<T>)
    ensures |w| <= SearchWindow && w <= hits
    ensures |hits| <= SearchWindow ==> w == hits
    ensures |hits| > SearchWindow ==> |w| == SearchWindow
  {
    if |hits| <= SearchWindow then hits else hits[..SearchWindow]
  }

  /** A Date field of a document: the instant it holds, if any. */
  function DateField(doc: map<string, Json>, key: string): (r: Option<int>)
    ensures r.Some? <==> key in doc && doc[key].JNum?
  {
    if key in doc && doc[key].JNum? then Some(doc[key].n) else None
  }

  /** The merge of a partial update into a stored JSON value: an object
      patched with an object is merged key by key, recursively; any other
      patch value replaces what was there. */
  function MergeJson(target: Json, patch: Json): (r: Json)
    ensures target.JObj? && patch.JObj? ==>
      && r.JObj? && r.fields.Keys == target.fields.Keys + patch.fields.Keys
      && (forall k :: k in target.fields && k !in patch.fields ==> r.fields[k] == target.fields[k])
    ensures !(target.JObj? && patch.JObj?) ==> r == patch
    decreases patch
  {
    if target.JObj? && patch.JObj? then
      JObj(map k | k in target.fields.Keys + patch.fields.Keys ::
             if k !in patch.fields then target.fields[k]
             else if k in target.fields then MergeJson(target.fields[k], patch.fields[k])
             else patch.fields[k])
    else patch
  }

  /** The value reached by following `path` through nested objects. */
  function At(j: Json, path: seq<string>): Option<Json>
    decreases |path|
  {
    if path == [] then Some(j)
    else if j.JObj? && path[0] in j.fields then At(j.fields[path[0]], path[1..])
    else None
  }

  /** `path` runs through objects of `patch` down to a key the patch does not set. */
  predicate Untouched(patch: Json, path: seq<string>)
    decreases |path|
  {
    path != [] && patch.JObj? && (path[0] !in patch.fields || Untouched(patch.fields[path[0]], path[1..]))
  }

  lemma {:induction false} UntouchedAbsent(patch: Json, path: seq<string>)
    requires Untouched(patch, path)
    ensures At(patch, path) == None
    decreases |path|
  {
    if path[0] in patch.fields {
      UntouchedAbsent(patch.fields[path[0]], path[1..]);
    }
  }

  /** A partial update keeps every value the patch does not reach, however
      deeply it is nested. */
  lemma {:induction false} MergeKeepsUntouched(target: Json, patch: Json, path: seq<string>)
    requires Untouched(patch, path)
    ensures At(MergeJson(target, patch), path) == At(target, path)
    decreases |path|
  {
    if !target.JObj? {
      UntouchedAbsent(patch, path);
    } else if path[0] in patch.fields {
      var k := path[0];
      if k in target.fields {
        MergeKeepsUntouched(target.fields[k], patch.fields[k], path[1..]);
      } else {
        UntouchedAbsent(patch.fields[k], path[1..]);
      }
    }
  }

  /** Wherever the patch holds a value other than an object, the merge holds
      that value. */
  lemma {:induction false} MergePatchWins(target: Json, patch: Json, path: seq<string>)
    requires At(patch, path).Some? && !At(patch, path).value.JObj?
    ensures At(MergeJson(target, patch), path) == At(patch, path)
    decreases |path|
  {
    if path != [] && target.JObj? && patch.JObj? {
      var k := path[0];
      if k in target.fields {
        MergePatchWins(target.fields[k], patch.fields[k], path[1..]);
      }
    }
  }

  /** Merging a value into itself leaves it as it is. */
  lemma {:induction false} MergeSelf(j: Json)
    ensures MergeJson(j, j) == j
    decreases j
  {
    if j.JObj? {
      var r := MergeJson(j, j);
      forall k | k in j.fields ensures r.fields[k] == j.fields[k] {
        MergeSelf(j.fields[k]);
      }
      assert r.fields == j.fields;
    }
  }

  /** Sending the same partial update twice has the effect of sending it once. */
  lemma {:induction false} MergeIdempotent(target: Json, patch: Json)
    ensures MergeJson(MergeJson(target, patch), patch) == MergeJson(target, patch)
    decreases patch
  {
    if target.JObj? && patch.JObj? {
      var once := MergeJson(target, patch);
      var twice := MergeJson(once, patch);
      forall k | k in once.fields ensures twice.fields[k] == once.fields[k] {
        if k in patch.fields {
          if k in target.fields {
            MergeIdempotent(target.fields[k], patch.fields[k]);
          } else {
            MergeSelf(patch.fields[k]);
          }
        }
      }
      assert twice.fields == once.fields;
    } else {
      MergeSelf(patch);
    }
  }

  /** A partial update of a stored page (`Document.update` with fields): the
      patch is merged into the source as `MergeJson` does, and `created` and
      `edited` are overridden when the patch names them. */
  function MergePatch(source: PageSource, patch: map<string, Json>): (r: PageSource)
    ensures r.fields.Keys == source.fields.Keys + (patch.Keys - {"created", "edited"})
    ensures forall k :: k in source.fields && k !in patch ==> r.fields[k] == source.fields[k]
    ensures forall k :: (k in patch && k != "created" && k != "edited"
                         && !(k in source.fields && source.fields[k].JObj? && patch[k].JObj?)) ==> r.fields[k] == patch[k]
    ensures "created" !in patch ==> r.created == source.created
    ensures "edited" !in patch ==> r.edited == source.edited
  {
    var merged := MergeJson(JObj(source.fields), JObj(patch - {"created", "edited"}));
    PageSource(merged.fields,
               if "created" in patch then DateField(patch, "created") else source.created,
               if "edited" in patch then DateField(patch, "edited") else source.edited)
  }

  /** What indexing a document through `target` does to the engine. */
  datatype WriteEffect = WriteEffect(result: Result<Hit<PageSource>>, indices: set<string>, aliases: AliasMap,
                                     pages: map<string, map<string, PageSource>>)

  /** Index `source` under `docId` through `target`: into the one index
      `target` reaches, into a new index named `target` when it names
      nothing, and refused with 400 when it reaches several indices. */
  ghost function WriteSpec(indices: set<string>, aliases: AliasMap, pages: map<string, map<string, PageSource>>,
                           invalid: set<string>, target: string, docId: string, source: PageSource): (w: WriteEffect)
    requires aliases.Keys == indices && pages.Keys == indices
    ensures w.aliases.Keys == w.indices && w.pages.Keys == w.indices
    ensures w.result.Err? <==> |Resolve(indices, aliases, target)| > 1 || (!Exists(indices, aliases, target) && target in invalid)
    ensures w.result.Err? ==>
      w.result.error == TransportError(400) && w.indices == indices && w.aliases == aliases && w.pages == pages
    ensures w.result.Ok? ==>
      var i := w.result.value.index;
      && w.result.value == Hit(i, docId, source)
      && w.indices == indices + {i}
      && w.pages[i] == (if i in pages then pages[i] else map[])[docId := source]
      && (forall j :: j in indices && j != i ==> w.pages[j] == pages[j] && w.aliases[j] == aliases[j])
      && (Exists(indices, aliases, target) ==> Resolve(indices, aliases, target) == {i} && w.aliases == aliases)
      && (!Exists(indices, aliases, target) ==> i == target && i !in indices && w.aliases[i] == {})
  {
    var reached := Resolve(indices, aliases, target);
    if reached == {} then
      if target in invalid then WriteEffect(Err(TransportError(400)), indices, aliases, pages)
      else WriteEffect(Ok(Hit(target, docId, source)), indices + {target}, aliases[target := {}],
                       pages[target := map[docId := source]])
    else
      var i :| i in reached;
      SingletonOrMore(reached, i);
      if reached == {i} then
        WriteEffect(Ok(Hit(i, docId, source)), indices, aliases, pages[i := pages[i][docId := source]])
      else WriteEffect(Err(TransportError(400)), indices, aliases, pages)
  }

  /** The names listed in `names`. */
  function NameSet(names: seq<string>): set<string> {
    set n | n in names
  }

  /** Which field of a hit tells it apart: its index or its id. */
  datatype HitKey = ByIndex | ById

  function KeyOf<T>(h: Hit<T>, key: HitKey): string {
    if key.ByIndex? then h.index else h.id
  }

  /** The indices, or the ids, of a sequence of hits. */
  function HitKeys<T(==)>(hits: seq<Hit<T>>, key: HitKey): set<string> {
    set h | h in hits :: KeyOf(h, key)
  }

  lemma HitKeysAppend<T>(hits: seq<Hit<T>>, h: Hit<T>, key: HitKey)
    ensures HitKeys(hits + [h], key) == HitKeys(hits, key) + {KeyOf(h, key)}
  {
    assert forall x :: x in hits + [h] <==> x in hits || x == h;
  }

  /** Hits that differ pairwise in `key` are as many as their keys. */
  lemma {:induction false} DistinctHitKeys<T>(hits: seq<Hit<T>>, key: HitKey)
    requires forall a, b :: 0 <= a < b < |hits| ==> KeyOf(hits[a], key) != KeyOf(hits[b], key)
    ensures |HitKeys(hits, key)| == |hits|
  {
    if hits != [] {
      var init, last := hits[..|hits| - 1], hits[|hits| - 1];
      assert hits == init + [last];
      DistinctHitKeys(init, key);
      HitKeysAppend(init, last, key);
      forall h | h in init ensures KeyOf(h, key) != KeyOf(last, key) {
        var a :| 0 <= a < |init| && init[a] == h;
      }
    }
  }

  /** The pages a search through `n` lists: every page stored in an index
      that `n` reaches. */
  function Listing(indices: set<string>, aliases: AliasMap, pages: map<string, map<string, PageSource>>, n: string)
    : (r: set<Hit<PageSource>>)
    requires aliases.Keys == indices && pages.Keys == indices
    ensures forall h :: h in r <==>
      h.index in Resolve(indices, aliases, n) && h.id in pages[h.index] && h.source == pages[h.index][h.id]
  {
    set i, d | i in Resolve(indices, aliases, n) && d in pages[i] :: Hit(i, d, pages[i][d])
  }

  /** The ids of the registry documents of contexts named `name`. */
  function NamedContexts(registry: map<string, ContextDoc>, name: string): set<string> {
    set k | k in registry && registry[k].name == name
  }

  class SearchEngine {
    /** The engine's base URL, as the client connection reports it. */
    const host: string
    /** Index and alias names the engine refuses, whatever the reason. */
    const invalidNames: set<string>
    /** Mappings the engine refuses. */
    const refusedMappings: set<Json>

    var indices: set<string>
    var aliases: AliasMap
    var pages: map<string, map<string, PageSource>>
    var registry: map<string, ContextDoc>

    ghost predicate Valid()
      reads this
    {
      aliases.Keys == indices && pages.Keys == indices
    }

    constructor (host: string, invalidNames: set<string>, refusedMappings: set<Json>)
      ensures Valid()
      ensures this.host == host && this.invalidNames == invalidNames && this.refusedMappings == refusedMappings
      ensures indices == {} && aliases == map[] && pages == map[] && registry == map[]
    {
      this.host := host;
      this.invalidNames := invalidNames;
      this.refusedMappings := refusedMappings;
      indices, aliases, pages, registry := {}, map[], map[], map[];
    }

    /** HEAD `n`. */
    method IndexExists(n: string) returns (b: bool)
      ensures b <==> n in indices || exists i :: i in aliases && n in aliases[i]
    {
      b := n in indices || AliasHolders(aliases, n) != {};
    }

    /** PUT `n` with a mapping: creates an empty index without aliases. */
    method PutIndex(n: string, mapping: Json) returns (status: int)
      requires Valid()
      modifies this`indices, this`aliases, this`pages
      ensures Valid()
      ensures status == old(IndexPutStatus(indices, aliases, invalidNames, refusedMappings, n, mapping))
      ensures status == 200 ==> indices == old(indices) + {n} && aliases == old(aliases)[n := {}]
                                && pages == old(pages)[n := map[]]
      ensures status != 200 ==> indices == old(indices) && aliases == old(aliases) && pages == old(pages)
    {
      status := IndexPutStatus(indices, aliases, invalidNames, refusedMappings, n, mapping);
      if status == 200 {
        indices := indices + {n};
        aliases := aliases[n := {}];
        pages := pages[n := map[]];
      }
    }

    /** PUT `idx/_aliases/a`. */
    method PutAlias(idx: string, a: string) returns (status: int)
      requires Valid()
      modifies this`aliases
      ensures Valid()
      ensures status == AliasStatus(indices, invalidNames, idx, a)
      ensures aliases == if status == 200 then old(aliases)[idx := old(aliases)[idx] + {a}] else old(aliases)
    {
      status := AliasStatus(indices, invalidNames, idx, a);
      if status == 200 {
        aliases := aliases[idx := aliases[idx] + {a}];
      }
    }

    /** DELETE `idx/_aliases/` with the wildcard alias: 404 when nothing matched. */
    method DeleteAliases(idx: string) returns (status: int)
      requires Valid()
      modifies this`aliases
      ensures Valid()
      ensures status == (if idx in indices && old(aliases)[idx] != {} then 200 else 404)
      ensures aliases == if idx in indices then old(aliases)[idx := {}] else old(aliases)
    {
      if idx in indices {
        status := if aliases[idx] != {} then 200 else 404;
        aliases := aliases[idx := {}];
      } else {
        status := 404;
      }
    }

    /** DELETE `n`: removes the index, its aliases and its documents. */
    method DeleteIndex(n: string) returns (status: int)
      requires Valid()
      modifies this`indices, this`aliases, this`pages
      ensures Valid()
      ensures status == (if n in old(indices) then 200 else 404)
      ensures indices == old(indices) - {n} && aliases == old(aliases) - {n} && pages == old(pages) - {n}
    {
      status := if n in indices then 200 else 404;
      indices := indices - {n};
      aliases := aliases - {n};
      pages := pages - {n};
    }

    /** GET `n/page/id`: a direct fetch by id. */
    method GetById(n: string, id: string) returns (r: Result<Hit<PageSource>>)
      requires Valid()
      ensures Resolve(indices, aliases, n) == {} ==> r == Err(TransportError(404))
      ensures |Resolve(indices, aliases, n)| > 1 ==> r == Err(TransportError(400))
      ensures forall i :: Resolve(indices, aliases, n) == {i} ==>
        r == if id in pages[i] then Ok(Hit(i, id, pages[i][id])) else Err(TransportError(404))
      ensures r.Ok? ==> Resolve(indices, aliases, n) == {r.value.index} && r.value.id == id
                        && id in pages[r.value.index] && r.value.source == pages[r.value.index][id]
    {
      var targets := Resolve(indices, aliases, n);
      if targets == {} {
        r := Err(TransportError(404));
      } else {
        var i :| i in targets;
        SingletonOrMore(targets, i);
        if targets == {i} {
          r := if id in pages[i] then Ok(Hit(i, id, pages[i][id])) else Err(TransportError(404));
        } else {
          r := Err(TransportError(400));
        }
      }
    }

    /** A search through `n` for pages with id `id`: one hit per index holding
        it, in no particular order. */
    method SearchById(n: string, id: string) returns (r: Result<seq<Hit<PageSource>>>)
      requires Valid()
      ensures Resolve(indices, aliases, n) == {} <==> r == Err(TransportError(404))
      ensures r.Err? ==> r == Err(TransportError(404))
      ensures r.Ok? ==> HitKeys(r.value, ByIndex) == Holders(indices, aliases, pages, n, id)
      ensures r.Ok? ==> forall h :: h in r.value ==>
        h.id == id && h.index in pages && id in pages[h.index] && h.source == pages[h.index][id]
      ensures r.Ok? ==> forall a, b :: 0 <= a < b < |r.value| ==> r.value[a].index != r.value[b].index
    {
      var targets := Resolve(indices, aliases, n);
      if targets == {} {
        return Err(TransportError(404));
      }
      var rest := targets;
      var hits: seq<Hit<PageSource>> := [];
      while rest != {}
        invariant rest <= targets
        invariant HitKeys(hits, ByIndex) == set i | i in targets - rest && id in pages[i]
        invariant forall h :: h in hits ==>
          h.id == id && h.index in targets - rest && id in pages[h.index] && h.source == pages[h.index][id]
        invariant forall a, b :: 0 <= a < b < |hits| ==> hits[a].index != hits[b].index
        decreases rest
      {
        var i :| i in rest;
        ghost var before := hits;
        if id in pages[i] {
          hits := hits + [Hit(i, id, pages[i][id])];
          HitKeysAppend(before, Hit(i, id, pages[i][id]), ByIndex);
        } else {
          assert HitKeys(hits, ByIndex) == HitKeys(before, ByIndex);
        }
        assert (set k | k in targets - (rest - {i}) && id in pages[k])
            == (set k | k in targets - rest && id in pages[k]) + (if id in pages[i] then {i} else {});
        rest := rest - {i};
      }
      r := Ok(hits);
    }

    /** All pages reached through `n` (Page.all over an index or alias). */
    method SearchAll(n: string) returns (r: Result<set<Hit<PageSource>>>)
      requires Valid()
      ensures Resolve(indices, aliases, n) == {} <==> r == Err(TransportError(404))
      ensures r.Err? ==> r == Err(TransportError(404))
      ensures r.Ok? ==> r.value == Listing(indices, aliases, pages, n)
    {
      var targets := Resolve(indices, aliases, n);
      if targets == {} {
        return Err(TransportError(404));
      }
      r := Ok(set i, d | i in targets && d in pages[i] :: Hit(i, d, pages[i][d]));
    }

    /** Index a page source through `target` under `id`, or under the id the
        engine assigns (`freshId`) when there is none. */
    method WriteDoc(target: string, id: Option<string>, source: PageSource, freshId: string)
      returns (r: Result<Hit<PageSource>>)
      requires Valid()
      modifies this`indices, this`aliases, this`pages
      ensures Valid()
      ensures var w := WriteSpec(old(indices), old(aliases), old(pages), invalidNames, target, id.GetOr(freshId), source);
        r == w.result && indices == w.indices && aliases == w.aliases && pages == w.pages
    {
      var docId := id.GetOr(freshId);
      var targets := Resolve(indices, aliases, target);
      if targets == {} {
        if target in invalidNames {
          r := Err(TransportError(400));
        } else {
          indices := indices + {target};
          aliases := aliases[target := {}];
          pages := pages[target := map[docId := source]];
          r := Ok(Hit(target, docId, source));
        }
      } else {
        var i :| i in targets;
        SingletonOrMore(targets, i);
        if targets == {i} {
          pages := pages[i := pages[i][docId := source]];
          r := Ok(Hit(i, docId, source));
        } else {
          r := Err(TransportError(400));
        }
      }
    }

    /** A partial update of a stored page: `patch` is merged into it as `MergePatch` does. */
    method UpdateDoc(index: string, id: string, patch: map<string, Json>) returns (r: Result<PageSource>)
      requires Valid()
      modifies this`pages
      ensures Valid()
      ensures r.Err? ==> pages == old(pages)
      ensures r.Ok? <==> exists i :: Resolve(indices, aliases, index) == {i} && id in old(pages)[i]
      ensures forall i :: Resolve(indices, aliases, index) == {i} && id in old(pages)[i] ==>
        && r == Ok(MergePatch(old(pages)[i][id], patch))
        && pages == old(pages)[i := old(pages)[i][id := MergePatch(old(pages)[i][id], patch)]]
    {
      var got := GetById(index, id);
      if got.Err? {
        r := Err(got.error);
      } else {
        var h := got.value;
        var src := MergePatch(h.source, patch);
        pages := pages[h.index := pages[h.index][id := src]];
        r := Ok(src);
      }
    }

    /** DELETE `index/page/id`. */
    method DeleteDoc(index: string, id: string) returns (r: Result<()>)
      requires Valid()
      modifies this`pages
      ensures Valid()
      ensures r.Err? ==> pages == old(pages)
      ensures r.Ok? <==> exists i :: Resolve(indices, aliases, index) == {i} && id in old(pages)[i]
      ensures forall i :: Resolve(indices, aliases, index) == {i} && id in old(pages)[i] ==>
        pages == old(pages)[i := old(pages)[i] - {id}]
    {
      var got := GetById(index, id);
      if got.Err? {
        r := Err(got.error);
      } else {
        var i := got.value.index;
        pages := pages[i := pages[i] - {id}];
        r := Ok(());
      }
    }

    /** Store a context document under `id`, or under the engine's `freshId`. */
    method SaveContextDoc(id: Option<string>, doc: ContextDoc, freshId: string) returns (savedId: string)
      modifies this`registry
      ensures savedId == id.GetOr(freshId)
      ensures registry == old(registry)[savedId := doc]
    {
      savedId := id.GetOr(freshId);
      registry := registry[savedId := doc];
    }

    /** Delete the context document `id`. */
    method DeleteContextDoc(id: string) returns (r: Result<()>)
      modifies this`registry
      ensures r.Ok? <==> id in old(registry)
      ensures r.Err? ==> r.error == TransportError(404)
      ensures registry == old(registry) - {id}
    {
      r := if id in registry then Ok(()) else Err(TransportError(404));
      registry := registry - {id};
    }

    /** The context documents whose name is exactly `name`, in no particular order. */
    method ContextsNamed(name: string) returns (hits: seq<Hit<ContextDoc>>)
      ensures HitKeys(hits, ById) == NamedContexts(registry, name)
      ensures forall h :: h in hits ==>
        h.index == RegistryIndex && h.id in registry && h.source == registry[h.id] && h.source.name == name
      ensures forall a, b :: 0 <= a < b < |hits| ==> hits[a].id != hits[b].id
    {
      var rest := registry.Keys;
      hits := [];
      while rest != {}
        invariant rest <= registry.Keys
        invariant HitKeys(hits, ById) == set id | id in registry.Keys - rest && registry[id].name == name
        invariant forall h :: h in hits ==>
          h.index == RegistryIndex && h.id in registry.Keys - rest && h.source == registry[h.id] && h.source.name == name
        invariant forall a, b :: 0 <= a < b < |hits| ==> hits[a].id != hits[b].id
        decreases rest
      {
        var id :| id in rest;
        ghost var before := hits;
        if registry[id].name == name {
          hits := hits + [Hit(RegistryIndex, id, registry[id])];
          HitKeysAppend(before, Hit(RegistryIndex, id, registry[id]), ById);
        } else {
          assert HitKeys(hits, ById) == HitKeys(before, ById);
        }
        assert (set k | k in registry.Keys - (rest - {id}) && registry[k].name == name)
            == (set k | k in registry.Keys - rest && registry[k].name == name)
               + (if registry[id].name == name then {id} else {});
        rest := rest - {id};
      }
    }
  }
}
