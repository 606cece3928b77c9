/** A walk through the catalog on an empty engine: the context `lab1`, part
    of the global context `meta`, gets its physical index and aliases; a page
    created in `lab1` lands in that index and is listed both under `lab1`
    and under the global context. */
module Scenario {
  import opened Values
  import opened Engine
  import Naming
  import Contexts
  import Pages
  import PageViews

  /** The context `lab1` of the global context is provisioned on an empty
      engine as index `lab1_v1` carrying the aliases `lab1` and `meta`. */
  method ProvisionLab1(es: SearchEngine) returns (lab1: Contexts.Context)
    requires es.Valid() && es.indices == {} && es.aliases == map[] && es.invalidNames == {} && es.refusedMappings == {}
    modifies es`indices, es`aliases, es`pages
    ensures es.Valid() && fresh(lab1)
    ensures lab1.id == None && lab1.name == "lab1" && lab1.partOf == ["meta"] && lab1.v == 1 && lab1.IndexName() == "lab1_v1"
    ensures es.indices == {"lab1_v1"} && es.aliases.Keys == {"lab1_v1"} && es.aliases["lab1_v1"] == {"lab1", "meta"}
  {
    lab1 := new Contexts.Context(None, "lab1", ["meta"], None);
    Lab1Names();
    assert !Contexts.VersionTaken({}, map[], "lab1", 1);
    var created := lab1.CreateIndex(es, map["page" := JObj(map[])], "page");
    assert lab1.v == 1;
    Lab1Run();
  }

  /** The physical indices of the first two versions of `lab1`. */
  lemma Lab1Names()
    ensures Naming.IndexName("lab1", 1) == "lab1_v1" && Naming.IndexName("lab1", 2) == "lab1_v2"
  {
    assert Naming.NatToDecimal(1) == "1" && Naming.NatToDecimal(2) == "2";
  }

  /** On the empty engine the mapping PUT of `lab1_v1` succeeds and the alias
      run puts `lab1` and then `meta` on it. */
  lemma Lab1Run()
    ensures IndexPutStatus({}, map[], {}, {}, "lab1_v1", JObj(map[])) == 200
    ensures var run := PutAliasSeq({} + {"lab1_v1"}, {}, map[]["lab1_v1" := {}], "lab1_v1", ["lab1"] + ["meta"]);
      run.status == 200 && run.aliases == map["lab1_v1" := {"lab1", "meta"}]
  {
    Contexts.IntendedCreateAliases({}, map[], {}, "lab1_v1", "lab1", ["meta"]);
    assert {} + {"lab1_v1"} == {"lab1_v1"};
    assert AcceptedAlias({"lab1_v1"}, {}, "lab1") && AcceptedAlias({"lab1_v1"}, {}, "meta");
    assert {"lab1"} + NameSet(["meta"]) == {"lab1", "meta"};
    assert map[]["lab1_v1" := {"lab1", "meta"}] == map["lab1_v1" := {"lab1", "meta"}];
  }

  /** `lab1` provisioned and saved as registry document `c1`: the only
      context the registry holds, so a request for `lab1` resolves to it. */
  method RegisterLab1(es: SearchEngine)
    requires es.Valid() && es.indices == {} && es.aliases == map[] && es.invalidNames == {} && es.refusedMappings == {}
    requires es.registry == map[]
    modifies es`indices, es`aliases, es`pages, es`registry
    ensures es.Valid() && es.indices == {"lab1_v1"} && es.aliases.Keys == {"lab1_v1"}
    ensures es.aliases["lab1_v1"] == {"lab1", "meta"}
    ensures es.registry == map["c1" := ContextDoc("lab1", ["meta"], 1)]
    ensures NamedContexts(es.registry, "lab1") == {"c1"}
  {
    var lab1 := ProvisionLab1(es);
    var _ := lab1.Save(es, "c1");
  }

  /** `new_page` with URL context `lab1` on the registered engine: the page
      is stored under its own id in `lab1_v1`, which keeps both aliases. */
  method PublishInLab1(es: SearchEngine) returns (page: Hit<PageSource>)
    requires es.Valid() && es.indices == {"lab1_v1"} && es.aliases.Keys == {"lab1_v1"}
    requires es.aliases["lab1_v1"] == {"lab1", "meta"}
    requires es.registry == map["c1" := ContextDoc("lab1", ["meta"], 1)]
    requires NamedContexts(es.registry, "lab1") == {"c1"}
    modifies es`indices, es`aliases, es`pages
    ensures es.Valid() && es.indices == {"lab1_v1"} && es.aliases["lab1_v1"] == {"lab1", "meta"}
    ensures page.index == "lab1_v1" && page.id == "p1"
    ensures "p1" in es.pages["lab1_v1"] && page.source == es.pages["lab1_v1"]["p1"]
  {
    var entries := map["title" := JStr("Soil moisture"), "meta" := JObj(map[])];
    var body := new Pages.Dict(entries);
    assert Naming.IndexName("lab1", 1) == "lab1_v1";
    assert PageViews.WithUrlId(entries, None) == entries;
    PageViews.StoredPageInContextIndex(es.indices, es.aliases, es.pages, es.invalidNames, entries, "lab1_v1",
                                       1700000000, "p1");
    var made := PageViews.NewPage(es, body, None, Some("lab1"), None, None, 1700000000, "p1");
    assert made.PageDoc?;
    page := made.page;
  }

  method Lab1Walkthrough() returns (index: string, lab1Aliases: set<string>, page: Hit<PageSource>,
                                    underLab1: PageViews.Response, underGlobal: PageViews.Response)
    ensures index == "lab1_v1" && lab1Aliases == {"lab1", "meta"}
    ensures page.index == index && page.id == "p1"
    ensures underLab1.PageList? && page in underLab1.pages
    ensures underGlobal.PageList? && page in underGlobal.pages
  {
    var es := new SearchEngine("http://localhost:9200", {}, {});
    RegisterLab1(es);
    page := PublishInLab1(es);
    index := "lab1_v1";
    lab1Aliases := es.aliases[index];
    underLab1 := PageViews.GetPages(es, Some("lab1"), None, None);
    underGlobal := PageViews.GetPages(es, None, None, None);
    PageViews.ListedUnderEveryAlias(es.indices, es.aliases, es.pages, page.index, page.id);
  }

  /** A second context named `lab1` on the engine of the walkthrough: as
      written, `create_index` moves on to version 2 but PUTs the mapping to
      the taken `lab1_v1`, so it raises 404 and the engine is unchanged. */
  method SecondLab1AsWritten(es: SearchEngine) returns (r: Result<string>, v: int)
    requires es.Valid() && es.indices == {"lab1_v1"} && es.aliases.Keys == {"lab1_v1"}
    requires es.aliases["lab1_v1"] == {"lab1", "meta"}
    modifies es`indices, es`aliases, es`pages
    ensures v == 2 && r == Err(HttpError(404))
    ensures es.indices == old(es.indices) && es.aliases == old(es.aliases) && es.pages == old(es.pages)
  {
    var again := new Contexts.Context(None, "lab1", ["meta"], None);
    Contexts.BumpedCreateIsRefused(es.invalidNames, es.refusedMappings, JObj(map[]));
    assert es.aliases == map["lab1_v1" := {"lab1", "meta"}];
    assert Exists(es.indices, es.aliases, again.IndexName());
    Lab1Names();
    assert !Contexts.VersionTaken(es.indices, es.aliases, "lab1", 2);
    r := again.CreateIndex(es, map["page" := JObj(map[])], "page");
    assert again.v >= 2;
    v := again.v;
  }

  /** The same second `lab1` with the mapping PUT to the version found free:
      it gets `lab1_v2` with the same aliases, and `lab1_v1` keeps its own. */
  method SecondLab1Intended(es: SearchEngine) returns (r: Result<string>)
    requires es.Valid() && es.indices == {"lab1_v1"} && es.aliases.Keys == {"lab1_v1"}
    requires es.aliases["lab1_v1"] == {"lab1", "meta"}
    requires es.invalidNames == {} && es.refusedMappings == {}
    modifies es`indices, es`aliases, es`pages
    ensures r == Ok("lab1_v2")
    ensures es.Valid() && es.indices == {"lab1_v1", "lab1_v2"}
    ensures es.aliases["lab1_v1"] == {"lab1", "meta"} && es.aliases["lab1_v2"] == {"lab1", "meta"}
    ensures es.pages["lab1_v1"] == old(es.pages)["lab1_v1"]
  {
    var again := new Contexts.Context(None, "lab1", ["meta"], None);
    Lab1Names();
    assert Exists(es.indices, es.aliases, again.IndexName());
    assert !Contexts.VersionTaken(es.indices, es.aliases, "lab1", 2);
    assert NameSet(["meta"]) == {"meta"};
    r := again.CreateIndexAtVersion(es, map["page" := JObj(map[])], "page");
    assert again.IndexName() == "lab1_v2";
  }

  /** Editing a page whose `info` holds `{downloads: 5, votes: 0}` with the
      body `{"info": {"votes": 1}}` sets the votes and keeps the downloads. */
  lemma NestedEditKeepsSiblings()
    ensures var src := PageSource(map["info" := JObj(map["downloads" := JNum(5), "votes" := JNum(0)])], None, None);
      var r := MergePatch(src, map["info" := JObj(map["votes" := JNum(1)])]);
      && At(JObj(r.fields), ["info", "downloads"]) == Some(JNum(5))
      && At(JObj(r.fields), ["info", "votes"]) == Some(JNum(1))
  {
    var src := PageSource(map["info" := JObj(map["downloads" := JNum(5), "votes" := JNum(0)])], None, None);
    var patch := map["info" := JObj(map["votes" := JNum(1)])];
    assert patch - {"created", "edited"} == patch;
    MergeKeepsUntouched(JObj(src.fields), JObj(patch), ["info", "downloads"]);
    MergePatchWins(JObj(src.fields), JObj(patch), ["info", "votes"]);
  }
}
