/** Contexts (models.py:15-154): a context is a project or group whose pages
    live in their own physical index `name_v<v>`; its own name and the names
    of the contexts it is part of are aliases of that index, so that a search
    through a parent's alias reaches the pages of all its children. Context
    documents are kept in the registry index. */
module Contexts {
  import opened Values
  import Naming
  import opened Engine

  /** The decision of `by_name` over the registry hits for a name, in engine
      order: a strict lookup refuses several matches with 412, no match is
      404, and otherwise the last of the hits iterated is chosen. */
  function SelectByName(hits: seq<Hit<ContextDoc>>, strict: bool): (r: Result<Hit<ContextDoc>>)
    ensures hits == [] ==> r == Err(HttpError(404))
    ensures strict && |hits| > 1 ==> r == Err(HttpError(412))
    ensures r.Ok? <==> |hits| == 1 || (!strict && |hits| > 1)
    ensures r.Ok? ==> r.value in Window(hits)
    ensures r.Ok? ==> r.value == Window(hits)[|Window(hits)| - 1]
    ensures r.Ok? && |hits| <= SearchWindow ==> r.value == hits[|hits| - 1]
    ensures r.Ok? && |hits| > SearchWindow ==> r.value == hits[SearchWindow - 1]
  {
    if strict && |hits| > 1 then Err(HttpError(412))
    else if |hits| == 0 then Err(HttpError(404))
    else
      var listed := Window(hits);
      Ok(listed[|listed| - 1])
  }

  /** Whether version `k` of context `name` already names an index or an alias. */
  predicate VersionTaken(indices: set<string>, aliases: AliasMap, name: string, k: int) {
    Exists(indices, aliases, Naming.IndexName(name, k))
  }

  /** Every version from `lo` up to, but not including, `hi` is taken. */
  ghost predicate TakenBetween(indices: set<string>, aliases: AliasMap, name: string, lo: int, hi: int) {
    forall k :: lo <= k < hi ==> VersionTaken(indices, aliases, name, k)
  }

  lemma TakenBetweenExtend(indices: set<string>, aliases: AliasMap, name: string, lo: int, hi: int)
    requires TakenBetween(indices, aliases, name, lo, hi) && VersionTaken(indices, aliases, name, hi)
    ensures TakenBetween(indices, aliases, name, lo, hi + 1)
  {
  }

  /** A version above every version of `name` that the names in `names` carry. */
  lemma {:induction false} VersionBound(names: set<string>, name: string) returns (top: int)
    ensures forall s :: s in names && Naming.ParseIndexName(name, s).Some? ==> Naming.ParseIndexName(name, s).value < top
    decreases names
  {
    if names == {} {
      top := 0;
    } else {
      var x :| x in names;
      var rest := VersionBound(names - {x}, name);
      var p := Naming.ParseIndexName(name, x);
      top := if p.Some? && p.value >= rest then p.value + 1 else rest;
    }
  }

  /** The version bump ends: from some version on, no version of `name` is taken. */
  lemma TakenBelow(indices: set<string>, aliases: AliasMap, name: string) returns (top: int)
    ensures forall k :: VersionTaken(indices, aliases, name, k) ==> k < top
  {
    top := VersionBound(AllNames(indices, aliases), name);
    forall k | VersionTaken(indices, aliases, name, k) ensures k < top {
      assert Naming.IndexName(name, k) in AllNames(indices, aliases);
    }
  }

  /** The run of alias PUTs that `create_index` sends when the mapping PUT
      succeeds. It can succeed only when the context ends at version 1: the
      mapping PUT always creates `name_v1`, while the aliases go to
      `name_v<v>`, and that index did not exist before. */
  lemma CreateSucceedsOnlyAtVersionOne(indices: set<string>, aliases: AliasMap, invalid: set<string>,
                                       name: string, partOf: seq<string>, v: int)
    requires aliases.Keys == indices
    requires !Exists(indices, aliases, Naming.IndexName(name, v))
    ensures var first := Naming.IndexName(name, 1);
      first !in indices ==>
      PutAliasSeq(indices + {first}, invalid, aliases[first := {}], Naming.IndexName(name, v), [name] + partOf).status == 200
      ==> v == 1
  {
    var first := Naming.IndexName(name, 1);
    if first !in indices {
      var idx := Naming.IndexName(name, v);
      PutAliasSeqEffect(indices + {first}, invalid, aliases[first := {}], idx, [name] + partOf);
      if PutAliasSeq(indices + {first}, invalid, aliases[first := {}], idx, [name] + partOf).status == 200 {
        assert idx in indices + {first};
        Naming.IndexNameInjective(name, v, 1);
      }
    }
  }

  /** A concrete case: `lab1_v1` exists, so `create_index` moves on to
      version 2, but the mapping is still PUT to `lab1_v1` and refused. */
  lemma BumpedCreateIsRefused(invalid: set<string>, refused: set<Json>, mapping: Json)
    ensures var indices := {"lab1_v1"};
      var aliases := map["lab1_v1" := {"lab1", "meta"}];
      && Naming.IndexName("lab1", 1) == "lab1_v1"
      && Naming.IndexName("lab1", 2) == "lab1_v2"
      && !Exists(indices, aliases, Naming.IndexName("lab1", 2))
      && IndexPutStatus(indices, aliases, invalid, refused, Naming.IndexName("lab1", 1), mapping) == 400
  {
    assert Naming.NatToDecimal(1) == "1";
    assert Naming.NatToDecimal(2) == "2";
    var aliases := map["lab1_v1" := {"lab1", "meta"}];
    assert "lab1_v2" != "lab1_v1" by { assert "lab1_v2"[6] != "lab1_v1"[6]; }
    assert "lab1_v2" != "lab1" && "lab1_v2" != "meta";
    assert AliasHolders(aliases, "lab1_v2") == {};
  }

  /** With the mapping PUT to the version that was found free, a successful
      create leaves the new index carrying exactly `{name} + partOf`, and the
      create succeeds whenever the engine accepts those alias names. */
  lemma IntendedCreateAliases(indices: set<string>, aliases: AliasMap, invalid: set<string>,
                              idx: string, name: string, partOf: seq<string>)
    requires aliases.Keys == indices
    requires idx !in indices
    ensures var run := PutAliasSeq(indices + {idx}, invalid, aliases[idx := {}], idx, [name] + partOf);
      && (run.status == 200 <==> AcceptedAlias(indices + {idx}, invalid, name)
                                 && forall k :: 0 <= k < |partOf| ==> AcceptedAlias(indices + {idx}, invalid, partOf[k]))
      && (run.status == 200 ==> run.aliases == aliases[idx := {name} + NameSet(partOf)])
  {
    var names := [name] + partOf;
    PutAliasSeqEffect(indices + {idx}, invalid, aliases[idx := {}], idx, names);
    assert NameSet(names) == {name} + NameSet(partOf);
    assert forall k :: 0 <= k < |partOf| ==> partOf[k] == names[k + 1];
    assert {} + NameSet(names) == {name} + NameSet(partOf);
    assert aliases[idx := {}][idx := {} + NameSet(names)] == aliases[idx := {name} + NameSet(partOf)];
  }

  class Context {
    /** The id of the registry document, once saved. */
    var id: Option<string>
    var name: string
    /** The contexts this one is part of; a missing `part_of` is the empty list. */
    var partOf: seq<string>
    var v: int

    /** A context built without a version, or with version None, starts at 1 (models.py:61-64). */
    constructor (id: Option<string>, name: string, partOf: seq<string>, v: Option<int>)
      ensures this.id == id && this.name == name && this.partOf == partOf
      ensures v.None? ==> this.v == 1
      ensures v.Some? ==> this.v == v.value
    {
      this.id := id;
      this.name := name;
      this.partOf := partOf;
      this.v := if v.None? then 1 else v.value;
    }

    /** The physical index of this context; its version can be read back from it. */
    function IndexName(): (r: string)
      reads this
      ensures Naming.ParseIndexName(name, r) == Some(v)
    {
      Naming.IndexName(name, v)
    }

    /** The URL of the physical index: the host, a slash and the index name. */
    function IndexEndpoint(host: string): (r: string)
      reads this
      ensures r == host + "/" + IndexName()
    {
      Naming.IndexEndpoint(host, name, v)
    }

    /** The document stored in the registry for this context. */
    function Doc(): ContextDoc
      reads this
    {
      ContextDoc(name, partOf, v)
    }

    /** PUT `<index>/_aliases/<alias>`; a response other than 200 raises with its status. */
    method CreateAlias(es: SearchEngine, alias: string) returns (r: Result<bool>)
      requires es.Valid()
      modifies es`aliases
      ensures es.Valid()
      ensures var status := AliasStatus(es.indices, es.invalidNames, IndexName(), alias);
        && r == (if status == 200 then Ok(true) else Err(HttpError(status)))
        && es.aliases == if status == 200 then old(es.aliases)[IndexName() := old(es.aliases)[IndexName()] + {alias}]
                         else old(es.aliases)
    {
      var status := es.PutAlias(IndexName(), alias);
      r := if status == 200 then Ok(true) else Err(HttpError(status));
    }

    /** `create_alias` for each name in order; the first failure raises and
        leaves the aliases already created in place. */
    method CreateAliases(es: SearchEngine, names: seq<string>) returns (r: Result<()>)
      requires es.Valid()
      modifies es`aliases
      ensures es.Valid()
      ensures var run := PutAliasSeq(es.indices, es.invalidNames, old(es.aliases), IndexName(), names);
        && es.aliases == run.aliases
        && (r.Ok? <==> run.status == 200)
        && (r.Err? ==> r.error == HttpError(run.status))
    {
      var k := 0;
      while k < |names|
        invariant 0 <= k <= |names|
        invariant es.Valid()
        invariant PutAliasSeq(es.indices, es.invalidNames, es.aliases, IndexName(), names[k..])
               == PutAliasSeq(es.indices, es.invalidNames, old(es.aliases), IndexName(), names)
      {
        assert names[k..][0] == names[k] && names[k..][1..] == names[k + 1..];
        var created := CreateAlias(es, names[k]);
        if created.Err? {
          return Err(created.error);
        }
        k := k + 1;
      }
      r := Ok(());
    }

    /** The version-bump loop of `create_index` (models.py:89-92): move up
        from the current version until `name_v<v>` names nothing in the engine. */
    method BumpVersion(es: SearchEngine)
      requires es.Valid()
      modifies this`v
      ensures old(v) <= v
      ensures forall k :: old(v) <= k < v ==> VersionTaken(es.indices, es.aliases, name, k)
      ensures !Exists(es.indices, es.aliases, IndexName())
    {
      var indices, aliases, n := es.indices, es.aliases, name;
      ghost var top := TakenBelow(indices, aliases, n);
      var ver := v;
      var taken := es.IndexExists(Naming.IndexName(n, ver));
      while taken
        invariant old(v) <= ver
        invariant TakenBetween(indices, aliases, n, old(v), ver)
        invariant taken == VersionTaken(indices, aliases, n, ver)
        decreases top - ver
      {
        TakenBetweenExtend(indices, aliases, n, old(v), ver);
        ver := ver + 1;
        taken := es.IndexExists(Naming.IndexName(n, ver));
      }
      v := ver;
    }

    /** `create_index` (models.py:77-113) as written: bump the version, look
        up the mapping, PUT it to `name_v1`, then put the own-name alias and
        one alias per parent on `name_v<v>`. */
    method CreateIndex(es: SearchEngine, definitions: map<string, Json>, definitionName: string)
      returns (r: Result<string>)
      requires es.Valid()
      modifies this`v, es`indices, es`aliases, es`pages
      ensures es.Valid()
      ensures old(v) <= v
      ensures forall k :: old(v) <= k < v ==> VersionTaken(old(es.indices), old(es.aliases), name, k)
      ensures !Exists(old(es.indices), old(es.aliases), IndexName())
      ensures definitionName !in definitions ==>
        && r == Err(MappingNotFound)
        && es.indices == old(es.indices) && es.aliases == old(es.aliases) && es.pages == old(es.pages)
      ensures definitionName in definitions ==>
        var first := Naming.IndexName(name, 1);
        var status := IndexPutStatus(old(es.indices), old(es.aliases), es.invalidNames, es.refusedMappings,
                                     first, definitions[definitionName]);
        && (status != 200 ==>
              && r == Err(HttpError(404))
              && es.indices == old(es.indices) && es.aliases == old(es.aliases) && es.pages == old(es.pages))
        && (status == 200 ==>
              var run := PutAliasSeq(old(es.indices) + {first}, es.invalidNames, old(es.aliases)[first := {}],
                                     IndexName(), [name] + partOf);
              && es.indices == old(es.indices) + {first}
              && es.pages == old(es.pages)[first := map[]]
              && es.aliases == run.aliases
              && (r.Ok? <==> run.status == 200)
              && (r.Ok? ==> r.value == IndexName())
              && (r.Err? ==> r.error == HttpError(run.status)))
      ensures r.Ok? ==> v == 1 && es.aliases[IndexName()] == {name} + NameSet(partOf)
    {
      BumpVersion(es);
      if definitionName !in definitions {
        return Err(MappingNotFound);
      }
      var first := Naming.IndexName(name, 1);
      var status := es.PutIndex(first, definitions[definitionName]);
      if status != 200 {
        return Err(HttpError(404));
      }
      ghost var created := es.aliases;
      var aliased := CreateAliases(es, [name] + partOf);
      CreateSucceedsOnlyAtVersionOne(old(es.indices), old(es.aliases), es.invalidNames, name, partOf, v);
      if aliased.Err? {
        return Err(aliased.error);
      }
      IntendedCreateAliases(old(es.indices), old(es.aliases), es.invalidNames, first, name, partOf);
      r := Ok(IndexName());
    }

    /** `create_index` with the mapping PUT to the version found free, as the
        version bump evidently intends. */
    method CreateIndexAtVersion(es: SearchEngine, definitions: map<string, Json>, definitionName: string)
      returns (r: Result<string>)
      requires es.Valid()
      modifies this`v, es`indices, es`aliases, es`pages
      ensures es.Valid()
      ensures old(v) <= v
      ensures forall k :: old(v) <= k < v ==> VersionTaken(old(es.indices), old(es.aliases), name, k)
      ensures !Exists(old(es.indices), old(es.aliases), IndexName())
      ensures definitionName !in definitions ==>
        && r == Err(MappingNotFound)
        && es.indices == old(es.indices) && es.aliases == old(es.aliases) && es.pages == old(es.pages)
      ensures definitionName in definitions ==>
        var status := IndexPutStatus(old(es.indices), old(es.aliases), es.invalidNames, es.refusedMappings,
                                     IndexName(), definitions[definitionName]);
        && (status != 200 ==>
              && r == Err(HttpError(404))
              && es.indices == old(es.indices) && es.aliases == old(es.aliases) && es.pages == old(es.pages))
        && (status == 200 ==>
              var run := PutAliasSeq(old(es.indices) + {IndexName()}, es.invalidNames, old(es.aliases)[IndexName() := {}],
                                     IndexName(), [name] + partOf);
              && es.indices == old(es.indices) + {IndexName()}
              && es.pages == old(es.pages)[IndexName() := map[]]
              && es.aliases == run.aliases
              && (r.Ok? <==> run.status == 200)
              && (r.Err? ==> r.error == HttpError(run.status)))
      ensures r.Ok? ==>
        && r.value == IndexName()
        && es.indices == old(es.indices) + {IndexName()}
        && es.aliases == old(es.aliases)[IndexName() := {name} + NameSet(partOf)]
        && es.pages == old(es.pages)[IndexName() := map[]]
      ensures definitionName in definitions && IndexName() !in es.invalidNames
              && definitions[definitionName] !in es.refusedMappings
              && AcceptedAlias(old(es.indices) + {IndexName()}, es.invalidNames, name)
              && (forall k :: 0 <= k < |partOf| ==> AcceptedAlias(old(es.indices) + {IndexName()}, es.invalidNames, partOf[k]))
              ==> r.Ok?
    {
      BumpVersion(es);
      if definitionName !in definitions {
        return Err(MappingNotFound);
      }
      var status := es.PutIndex(IndexName(), definitions[definitionName]);
      if status != 200 {
        return Err(HttpError(404));
      }
      var aliased := CreateAliases(es, [name] + partOf);
      IntendedCreateAliases(old(es.indices), old(es.aliases), es.invalidNames, IndexName(), name, partOf);
      if aliased.Err? {
        return Err(aliased.error);
      }
      r := Ok(IndexName());
    }

    /** `realias` (models.py:131-142): delete every alias of the index,
        ignoring the response, then put the own-name alias and the parents'. */
    method Realias(es: SearchEngine) returns (r: Result<()>)
      requires es.Valid()
      modifies es`aliases
      ensures es.Valid()
      ensures var run := RealiasRun(es.indices, es.invalidNames, old(es.aliases), IndexName(), name, partOf);
        && es.aliases == run.aliases
        && (r.Ok? <==> run.status == 200)
        && (r.Err? ==> r.error == HttpError(run.status))
      ensures r.Ok? ==> es.aliases[IndexName()] == {name} + NameSet(partOf)
    {
      var _ := es.DeleteAliases(IndexName());
      r := CreateAliases(es, [name] + partOf);
      RealiasExact(es.indices, es.invalidNames, old(es.aliases), IndexName(), name, partOf);
    }

    /** `save` (models.py:145-147): store the document in the registry; a new
        document gets the id the engine assigns. */
    method Save(es: SearchEngine, freshId: string) returns (savedId: string)
      modifies this`id, es`registry
      ensures savedId == old(id).GetOr(freshId) && id == Some(savedId)
      ensures es.registry == old(es.registry)[savedId := Doc()]
    {
      savedId := es.SaveContextDoc(id, Doc(), freshId);
      id := Some(savedId);
    }

    /** `delete` (models.py:150-154): with `deleteIndex`, DELETE the physical
        index (ignoring the response) first; then remove the registry document. */
    method Delete(es: SearchEngine, deleteIndex: bool) returns (r: Result<()>)
      requires es.Valid()
      modifies es`indices, es`aliases, es`pages, es`registry
      ensures es.Valid()
      ensures deleteIndex ==>
        && es.indices == old(es.indices) - {IndexName()}
        && es.aliases == old(es.aliases) - {IndexName()}
        && es.pages == old(es.pages) - {IndexName()}
      ensures !deleteIndex ==> es.indices == old(es.indices) && es.aliases == old(es.aliases) && es.pages == old(es.pages)
      ensures id.None? ==> r == Err(AttributeError) && es.registry == old(es.registry)
      ensures id.Some? ==>
        && es.registry == old(es.registry) - {id.value}
        && (r.Ok? <==> id.value in old(es.registry))
        && (r.Err? ==> r.error == TransportError(404))
    {
      if deleteIndex {
        var _ := es.DeleteIndex(IndexName());
      }
      if id.None? {
        return Err(AttributeError);
      }
      r := es.DeleteContextDoc(id.value);
    }
  }

  /** `by_name` (models.py:35-59): the context whose name is exactly `name`. */
  method ByName(es: SearchEngine, name: string, strict: bool) returns (r: Result<Context>)
    ensures var matching := NamedContexts(es.registry, name);
      && (matching == {} ==> r == Err(HttpError(404)))
      && (strict && |matching| > 1 ==> r == Err(HttpError(412)))
      && (r.Ok? <==> matching != {} && (!strict || |matching| == 1))
      && (r.Ok? ==> && fresh(r.value) && r.value.name == name && r.value.id.Some?
                    && r.value.id.value in matching && r.value.Doc() == es.registry[r.value.id.value])
  {
    var hits := es.ContextsNamed(name);
    DistinctHitKeys(hits, ById);
    var selected := SelectByName(hits, strict);
    if selected.Err? {
      return Err(selected.error);
    }
    var hit := selected.value;
    assert hit in hits;
    var c := new Context(Some(hit.id), hit.source.name, hit.source.partOf, Some(hit.source.v));
    r := Ok(c);
  }
}
