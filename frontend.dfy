/** The frontend projection: a copy of the configuration with the sections
    only the backend needs removed, a few fields moved into `dashboard` and
    fixed defaults added. Values have no identity in this model, so the
    result is built from the input without changing it, as on a deep copy;
    a document whose parts are shared through YAML aliases is not modelled. */
module Frontend {
  import opened Values
  import opened Config
  import opened Validator

  /** The fixed `site` block of every frontend configuration. */
  const SiteBlock: Value :=
    Dict([Entry("askReloadSite", Bool(false)), Entry("documentTitle", Str("Avatao Tutorials"))])

  const AutoSaveInterval := 444

  /** The keys the projection pops or reads are present, so none of its
      `pop` calls or lookups raises. */
  predicate Projectable(config: Value) {
    && config.Dict?
    && HasKey(config.entries, "states")
    && HasField(config, "webservice", "iframeUrl")
    && HasField(config, "webservice", "showUrlBar")
    && HasField(config, "webservice", "reloadIframeOnDeploy")
    && HasField(config, "terminal", "terminalMenuItem")
    && HasField(config, "dashboard", "messageSpeed")
    && HasField(config, "ide", "patterns")
  }

  /** The dashboard fields the projection writes. */
  predicate DashboardWritten(k: string) {
    k in ["messageSpeed", "hideMessages", "iframeUrl", "showUrlBar", "reloadIframeOnDeploy", "terminalMenuItem"]
  }

  /** The top-level keys the projection pops or writes. */
  predicate TopWritten(k: string) {
    k in ["webservice", "terminal", "states", "dashboard", "ide", "site"]
  }

  /** `get_frontend_config`, returning the mapping it would dump as YAML. */
  method FrontendConfig(config: Value) returns (fc: Value)
    requires Projectable(config)
    ensures fc.Dict?
    // removed sections
    ensures Lookup(fc.entries, "webservice") == None
    ensures Lookup(fc.entries, "terminal") == None
    ensures Lookup(fc.entries, "states") == None
    // dashboard: the speed goes, the web service and terminal settings come in
    ensures HasDict(fc, "dashboard")
    ensures Lookup(Section(fc, "dashboard"), "messageSpeed") == None
    ensures Lookup(Section(fc, "dashboard"), "hideMessages") == Some(Bool(false))
    ensures Lookup(Section(fc, "dashboard"), "iframeUrl") == Some(Field(config, "webservice", "iframeUrl"))
    ensures Lookup(Section(fc, "dashboard"), "showUrlBar") == Some(Field(config, "webservice", "showUrlBar"))
    ensures Lookup(Section(fc, "dashboard"), "reloadIframeOnDeploy") ==
              Some(Field(config, "webservice", "reloadIframeOnDeploy"))
    ensures Lookup(Section(fc, "dashboard"), "terminalMenuItem") ==
              Some(Field(config, "terminal", "terminalMenuItem"))
    ensures forall k :: !DashboardWritten(k) ==>
              Lookup(Section(fc, "dashboard"), k) == Lookup(Section(config, "dashboard"), k)
    // ide: the patterns go, the auto-save interval comes in
    ensures HasDict(fc, "ide")
    ensures Lookup(Section(fc, "ide"), "patterns") == None
    ensures Lookup(Section(fc, "ide"), "autoSaveInterval") == Some(Int(AutoSaveInterval))
    ensures forall k :: k != "patterns" && k != "autoSaveInterval" ==>
              Lookup(Section(fc, "ide"), k) == Lookup(Section(config, "ide"), k)
    // the fixed site block; everything else as it was
    ensures Lookup(fc.entries, "site") == Some(SiteBlock)
    ensures forall k :: !TopWritten(k) ==> Lookup(fc.entries, k) == Lookup(config.entries, k)
  {
    var dashboard := ProjectDashboard(Section(config, "dashboard"), Section(config, "webservice"),
                                      Section(config, "terminal"));
    var ide := ProjectIde(Section(config, "ide"));
    var top := ProjectTop(config.entries, Dict(dashboard), Dict(ide));
    fc := Dict(top);
  }

  /** The top level: pop the backend-only sections, write back the two
      edited sections and add the site block. */
  method ProjectTop(top: seq<Entry>, dashboard: Value, ide: Value) returns (r: seq<Entry>)
    requires HasKey(top, "webservice") && HasKey(top, "terminal") && HasKey(top, "states")
    ensures Lookup(r, "webservice") == None
    ensures Lookup(r, "terminal") == None
    ensures Lookup(r, "states") == None
    ensures Lookup(r, "dashboard") == Some(dashboard)
    ensures Lookup(r, "ide") == Some(ide)
    ensures Lookup(r, "site") == Some(SiteBlock)
    ensures forall k :: !TopWritten(k) ==> Lookup(r, k) == Lookup(top, k)
  {
    TopKeysDistinct();
    var kept := RemoveBackendSections(top);
    r := AddFrontendSections(kept, dashboard, ide);
    assert Lookup(r, "webservice") == Lookup(kept, "webservice");
    assert Lookup(r, "terminal") == Lookup(kept, "terminal");
    assert Lookup(r, "states") == Lookup(kept, "states");
  }

  /** The two edited sections written back and the site block added. */
  method AddFrontendSections(top: seq<Entry>, dashboard: Value, ide: Value) returns (r: seq<Entry>)
    ensures Lookup(r, "dashboard") == Some(dashboard)
    ensures Lookup(r, "ide") == Some(ide)
    ensures Lookup(r, "site") == Some(SiteBlock)
    ensures forall k :: k != "dashboard" && k != "ide" && k != "site" ==> Lookup(r, k) == Lookup(top, k)
  {
    TopKeysDistinct();
    // The edited sections are the same objects in the source, so they keep their place
    r := Put(top, "dashboard", dashboard);
    r := Put(r, "ide", ide);
    r := Put(r, "site", SiteBlock);
  }

  /** The three pops of the sections only the backend reads. */
  method RemoveBackendSections(top: seq<Entry>) returns (r: seq<Entry>)
    requires HasKey(top, "webservice") && HasKey(top, "terminal") && HasKey(top, "states")
    ensures Lookup(r, "webservice") == None
    ensures Lookup(r, "terminal") == None
    ensures Lookup(r, "states") == None
    ensures forall k :: k != "webservice" && k != "terminal" && k != "states" ==> Lookup(r, k) == Lookup(top, k)
  {
    TopKeysDistinct();
    assert Lookup(top, "terminal").Some? && Lookup(top, "states").Some?;
    r := Pop(top, "webservice");
    r := Pop(r, "terminal");
    r := Pop(r, "states");
  }

  /** The dashboard part: pop the speed, add the default and the moved fields. */
  method ProjectDashboard(dashboard: seq<Entry>, webservice: seq<Entry>, terminal: seq<Entry>)
      returns (r: seq<Entry>)
    requires HasKey(webservice, "iframeUrl") && HasKey(webservice, "showUrlBar")
    requires HasKey(webservice, "reloadIframeOnDeploy") && HasKey(terminal, "terminalMenuItem")
    requires HasKey(dashboard, "messageSpeed")
    ensures Lookup(r, "messageSpeed") == None
    ensures Lookup(r, "hideMessages") == Some(Bool(false))
    ensures Lookup(r, "iframeUrl") == Lookup(webservice, "iframeUrl")
    ensures Lookup(r, "showUrlBar") == Lookup(webservice, "showUrlBar")
    ensures Lookup(r, "reloadIframeOnDeploy") == Lookup(webservice, "reloadIframeOnDeploy")
    ensures Lookup(r, "terminalMenuItem") == Lookup(terminal, "terminalMenuItem")
    ensures forall k :: !DashboardWritten(k) ==> Lookup(r, k) == Lookup(dashboard, k)
  {
    DashboardKeysDistinct();
    r := Pop(dashboard, "messageSpeed");
    r := Put(r, "hideMessages", Bool(false));
    r := MoveFields(r, webservice, terminal);
  }

  /** The four fields copied from `webservice` and `terminal` into the dashboard. */
  method MoveFields(dashboard: seq<Entry>, webservice: seq<Entry>, terminal: seq<Entry>)
      returns (r: seq<Entry>)
    requires HasKey(webservice, "iframeUrl") && HasKey(webservice, "showUrlBar")
    requires HasKey(webservice, "reloadIframeOnDeploy") && HasKey(terminal, "terminalMenuItem")
    ensures Lookup(r, "iframeUrl") == Lookup(webservice, "iframeUrl")
    ensures Lookup(r, "showUrlBar") == Lookup(webservice, "showUrlBar")
    ensures Lookup(r, "reloadIframeOnDeploy") == Lookup(webservice, "reloadIframeOnDeploy")
    ensures Lookup(r, "terminalMenuItem") == Lookup(terminal, "terminalMenuItem")
    ensures forall k :: k != "iframeUrl" && k != "showUrlBar" && k != "reloadIframeOnDeploy" && k != "terminalMenuItem" ==>
              Lookup(r, k) == Lookup(dashboard, k)
  {
    DashboardKeysDistinct();
    var moved := MoveWebserviceFields(dashboard, webservice);
    r := Put(moved, "terminalMenuItem", Get(terminal, "terminalMenuItem"));
    assert Lookup(r, "iframeUrl") == Lookup(moved, "iframeUrl");
    assert Lookup(r, "showUrlBar") == Lookup(moved, "showUrlBar");
    assert Lookup(r, "reloadIframeOnDeploy") == Lookup(moved, "reloadIframeOnDeploy");
  }

  /** The three fields copied from `webservice` into the dashboard. */
  method MoveWebserviceFields(dashboard: seq<Entry>, webservice: seq<Entry>) returns (r: seq<Entry>)
    requires HasKey(webservice, "iframeUrl") && HasKey(webservice, "showUrlBar")
    requires HasKey(webservice, "reloadIframeOnDeploy")
    ensures Lookup(r, "iframeUrl") == Lookup(webservice, "iframeUrl")
    ensures Lookup(r, "showUrlBar") == Lookup(webservice, "showUrlBar")
    ensures Lookup(r, "reloadIframeOnDeploy") == Lookup(webservice, "reloadIframeOnDeploy")
    ensures forall k :: k != "iframeUrl" && k != "showUrlBar" && k != "reloadIframeOnDeploy" ==>
              Lookup(r, k) == Lookup(dashboard, k)
  {
    DashboardKeysDistinct();
    r := Put(dashboard, "iframeUrl", Get(webservice, "iframeUrl"));
    r := Put(r, "showUrlBar", Get(webservice, "showUrlBar"));
    r := Put(r, "reloadIframeOnDeploy", Get(webservice, "reloadIframeOnDeploy"));
  }

  /** The top-level keys the projection touches are six different keys. */
  lemma TopKeysDistinct()
    ensures "webservice" != "terminal" && "webservice" != "states" && "webservice" != "dashboard"
    ensures "webservice" != "ide" && "webservice" != "site"
    ensures "terminal" != "states" && "terminal" != "dashboard" && "terminal" != "ide" && "terminal" != "site"
    ensures "states" != "dashboard" && "states" != "ide" && "states" != "site"
    ensures "dashboard" != "ide" && "dashboard" != "site" && "ide" != "site"
  {
  }

  /** The dashboard fields the projection writes are six different keys. */
  lemma DashboardKeysDistinct()
    ensures "messageSpeed" != "hideMessages" && "messageSpeed" != "iframeUrl" && "messageSpeed" != "showUrlBar"
    ensures "messageSpeed" != "reloadIframeOnDeploy" && "messageSpeed" != "terminalMenuItem"
    ensures "hideMessages" != "iframeUrl" && "hideMessages" != "showUrlBar"
    ensures "hideMessages" != "reloadIframeOnDeploy" && "hideMessages" != "terminalMenuItem"
    ensures "iframeUrl" != "showUrlBar" && "iframeUrl" != "reloadIframeOnDeploy" && "iframeUrl" != "terminalMenuItem"
    ensures "showUrlBar" != "reloadIframeOnDeploy" && "showUrlBar" != "terminalMenuItem"
    ensures "reloadIframeOnDeploy" != "terminalMenuItem"
  {
    assert "messageSpeed"[0] != "hideMessages"[0];
  }

  /** The ide part: pop the patterns, set the auto-save interval. */
  method ProjectIde(ide: seq<Entry>) returns (r: seq<Entry>)
    requires HasKey(ide, "patterns")
    ensures Lookup(r, "patterns") == None
    ensures Lookup(r, "autoSaveInterval") == Some(Int(AutoSaveInterval))
    ensures forall k :: k != "patterns" && k != "autoSaveInterval" ==> Lookup(r, k) == Lookup(ide, k)
  {
    r := Pop(ide, "patterns");
    r := Put(r, "autoSaveInterval", Int(AutoSaveInterval));
  }

  /** The schema keys the projection relies on. */
  predicate SchemaCoversFrontend(schema: Value) {
    && schema.Dict?
    && HasKey(schema.entries, "states")
    && HasField(schema, "webservice", "iframeUrl")
    && HasField(schema, "webservice", "showUrlBar")
    && HasField(schema, "webservice", "reloadIframeOnDeploy")
    && HasField(schema, "terminal", "terminalMenuItem")
    && HasField(schema, "dashboard", "messageSpeed")
    && HasField(schema, "ide", "patterns")
  }

  /** A schema key that a conforming mapping must have. */
  lemma ConformsHasKey(expected: seq<Entry>, actual: seq<Entry>, k: string)
    requires Conforms(expected, actual) && HasKey(expected, k)
    ensures HasKey(actual, k)
  {
    var j := HasKeyWitness(expected, k);
    assert !Mismatch(expected[j], actual);
  }

  /** The script projects only a configuration that validated: once the
      schema names every key the projection reads, a valid configuration
      is one the projection runs on. */
  lemma ValidatedIsProjectable(config: Value, schema: Value)
    requires Validatable(config, schema) && ValidConfig(config, schema)
    requires SchemaCoversFrontend(schema)
    ensures Projectable(config)
  {
    ConformsHasKey(schema.entries, config.entries, "states");
    assert SectionConforms(config, schema, Sections[0]);
    assert SectionConforms(config, schema, Sections[1]);
    assert SectionConforms(config, schema, Sections[2]);
    assert SectionConforms(config, schema, Sections[3]);
    ConformsHasKey(Section(schema, "webservice"), Section(config, "webservice"), "iframeUrl");
    ConformsHasKey(Section(schema, "webservice"), Section(config, "webservice"), "showUrlBar");
    ConformsHasKey(Section(schema, "webservice"), Section(config, "webservice"), "reloadIframeOnDeploy");
    ConformsHasKey(Section(schema, "terminal"), Section(config, "terminal"), "terminalMenuItem");
    ConformsHasKey(Section(schema, "dashboard"), Section(config, "dashboard"), "messageSpeed");
    ConformsHasKey(Section(schema, "ide"), Section(config, "ide"), "patterns");
  }
}
