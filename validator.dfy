/** The schema validator: walks the reference schema two levels deep
    comparing keys and value types, then runs the domain checks on layouts,
    the terminal menu item, the deploy button texts and the states. Every
    check runs and reports; a single success flag is cleared by each error
    and never by a warning. */
module Validator {
  import opened Values
  import opened Lists
  import opened Diagnostics
  import opened Config

  const MinMessageSpeed := 300
  const MaxMessageSpeed := 600

  const ValidLayouts: seq<string> := [
    "terminal-ide-web",
    "terminal-ide-vertical",
    "terminal-ide-horizontal",
    "terminal-web",
    "ide-web-vertical",
    "terminal-only",
    "ide-only",
    "web-only"
  ]

  /** `layout in valid_layouts`. */
  predicate IsValidLayout(v: Value) {
    v.Str? && v.s in ValidLayouts
  }

  /** The number a comparison with `<` sees (`True` is 1). */
  function Number(v: Value): int
    requires v.Int? || v.Bool?
  {
    if v.Int? then v.i else BoolToInt(v.b)
  }

  // ----- what the validator reads -----

  /** `'messages' in state`. */
  predicate HasMessages(s: Value) {
    IsContainer(s) && Contains(Str("messages"), s)
  }

  /** `state['messages']` is a list. */
  predicate MessagesIsList(s: Value) {
    s.Dict? && HasKey(s.entries, "messages") && Get(s.entries, "messages").List?
  }

  /** A state on which `'messages' in state` is defined and, when it holds,
      `state['messages']` is too. */
  predicate StateReadable(s: Value) {
    IsContainer(s) && (Contains(Str("messages"), s) ==> s.Dict?)
  }

  /** The fields the domain checks read are present, with kinds on which the
      source's comparisons, `in`, `len` and `for` do not raise. */
  predicate DomainReadable(config: Value) {
    && config.Dict?
    && HasField(config, "dashboard", "messageSpeed")
    && (Field(config, "dashboard", "messageSpeed").Int? || Field(config, "dashboard", "messageSpeed").Bool?)
    && HasField(config, "dashboard", "enabledLayouts")
    && IsContainer(Field(config, "dashboard", "enabledLayouts"))
    && HasField(config, "dashboard", "layout")
    && InDefined(Field(config, "dashboard", "layout"), Field(config, "dashboard", "enabledLayouts"))
    && HasField(config, "terminal", "terminalMenuItem")
    && HasField(config, "ide", "deployButtonText")
    && IsContainer(Field(config, "ide", "deployButtonText"))
    && HasKey(config.entries, "states")
    && IsContainer(Get(config.entries, "states"))
    && (forall j :: 0 <= j < |Iter(Get(config.entries, "states"))| ==>
          StateReadable(Iter(Get(config.entries, "states"))[j]))
  }

  /** The validator runs to completion on `config` against `schema`. */
  predicate Validatable(config: Value, schema: Value) {
    && config.Dict? && schema.Dict?
    && (forall c :: c in Sections ==> HasDict(config, c) && HasDict(schema, c))
    && DomainReadable(config)
  }

  function SpeedValue(config: Value): Value
    requires DomainReadable(config)
  {
    Field(config, "dashboard", "messageSpeed")
  }

  /** The speed as `<` compares it. */
  function Speed(config: Value): int
    requires DomainReadable(config)
  {
    Number(SpeedValue(config))
  }

  function Enabled(config: Value): Value
    requires DomainReadable(config)
  {
    Field(config, "dashboard", "enabledLayouts")
  }

  function Layout(config: Value): Value
    requires DomainReadable(config)
  {
    Field(config, "dashboard", "layout")
  }

  function MenuItem(config: Value): Value
    requires DomainReadable(config)
  {
    Field(config, "terminal", "terminalMenuItem")
  }

  function DeployText(config: Value): Value
    requires DomainReadable(config)
  {
    Field(config, "ide", "deployButtonText")
  }

  function States(config: Value): Value
    requires DomainReadable(config)
  {
    Get(config.entries, "states")
  }

  // ----- the diagnostics, check by check -----

  function Report(fired: bool, d: Diagnostic): seq<Diagnostic> {
    if fired then [d] else []
  }

  /** The expected key is absent from `actual`, or its value has another type. */
  predicate Mismatch(expected: Entry, actual: seq<Entry>) {
    !HasKey(actual, expected.key) || KindOf(Get(actual, expected.key)) != KindOf(expected.val)
  }

  /** Every key of `expected` is present in `actual` with a value of the same type. */
  predicate Conforms(expected: seq<Entry>, actual: seq<Entry>) {
    forall j :: 0 <= j < |expected| ==> !Mismatch(expected[j], actual)
  }

  /** What the schema walk reports for one expected key. */
  function KeyCheck(path: seq<string>, e: Entry, actual: seq<Entry>): seq<Diagnostic> {
    Report(Mismatch(e, actual), Diagnostic(Error, KeyMismatch(path + [e.key])))
  }

  function KeyParts(path: seq<string>, expected: seq<Entry>, actual: seq<Entry>): seq<seq<Diagnostic>> {
    seq(|expected|, j requires 0 <= j < |expected| => KeyCheck(path, expected[j], actual))
  }

  /** The errors of one level of the schema walk, in the schema's key order. */
  function KeyDiags(path: seq<string>, expected: seq<Entry>, actual: seq<Entry>): seq<Diagnostic> {
    Concat(KeyParts(path, expected, actual))
  }

  function SectionCheck(config: Value, schema: Value, c: string): seq<Diagnostic> {
    KeyDiags([c], Section(schema, c), Section(config, c))
  }

  function SectionParts(config: Value, schema: Value, components: seq<string>): seq<seq<Diagnostic>> {
    seq(|components|, j requires 0 <= j < |components| => SectionCheck(config, schema, components[j]))
  }

  function LayoutParts(layouts: seq<Value>): seq<seq<Diagnostic>> {
    seq(|layouts|, j requires 0 <= j < |layouts| =>
      Report(!IsValidLayout(layouts[j]), Diagnostic(Error, UnknownLayout(layouts[j]))))
  }

  /** The checks on state number `i`. */
  function StateCheck(i: nat, s: Value): seq<Diagnostic> {
    Report(!HasMessages(s), Diagnostic(Warning, NoMessages))
      + Report(HasMessages(s) && !MessagesIsList(s), Diagnostic(Error, MessagesNotList(i)))
  }

  /** The checks on every state, numbered from 1. */
  function StateParts(states: seq<Value>): seq<seq<Diagnostic>> {
    seq(|states|, j requires 0 <= j < |states| => StateCheck(j + 1, states[j]))
  }

  /** The four deploy button states each have a text. */
  predicate HasDeployTexts(t: Value)
    requires IsContainer(t)
  {
    Contains(Str("TODEPLOY"), t) && Contains(Str("DEPLOYING"), t)
      && Contains(Str("DEPLOYED"), t) && Contains(Str("FAILED"), t)
  }

  function SchemaDiags(config: Value, schema: Value): seq<Diagnostic>
    requires config.Dict? && schema.Dict?
  {
    KeyDiags([], schema.entries, config.entries) + Concat(SectionParts(config, schema, Sections))
  }

  function SpeedCheck(config: Value): seq<Diagnostic>
    requires DomainReadable(config)
  {
    Report(Speed(config) < MinMessageSpeed || Speed(config) > MaxMessageSpeed,
           Diagnostic(Warning, MessageSpeedOutOfRange(SpeedValue(config))))
  }

  /** The values the single checks between the two loops read. */
  predicate FieldsReadable(layout: Value, enabled: Value, texts: Value, states: Value) {
    InDefined(layout, enabled) && IsContainer(texts) && IsContainer(states)
  }

  /** The log after `if fired: LOG.error(d)`. */
  function Flagged(ds: seq<Diagnostic>, fired: bool, d: Diagnostic): seq<Diagnostic> {
    if fired then ds + [d] else ds
  }

  lemma FlaggedMembers(ds: seq<Diagnostic>, fired: bool, d: Diagnostic, x: Diagnostic)
    ensures x in Flagged(ds, fired, d) <==> x in ds || (fired && x == d)
  {
  }

  /** The single checks between the layout loop and the state loop, each
      logging one error when it fails. */
  function FieldReport(layout: Value, enabled: Value, item: Value, texts: Value, states: Value): seq<Diagnostic>
    requires FieldsReadable(layout, enabled, texts, states)
  {
    var afterLayout := Flagged([], !Contains(layout, enabled), Diagnostic(Error, LayoutNotEnabled(layout)));
    var afterItem := Flagged(afterLayout, !IsMenuItem(item), Diagnostic(Error, InvalidMenuItem(item)));
    var afterTexts := Flagged(afterItem, !HasDeployTexts(texts), Diagnostic(Error, MissingDeployButtonText));
    var afterType := Flagged(afterTexts, !states.List?, Diagnostic(Error, StatesNotList));
    Flagged(afterType, |Iter(states)| < 2, Diagnostic(Error, TooFewStates))
  }

  function FieldChecks(config: Value): seq<Diagnostic>
    requires DomainReadable(config)
  {
    FieldReport(Layout(config), Enabled(config), MenuItem(config), DeployText(config), States(config))
  }

  function DomainDiags(config: Value): seq<Diagnostic>
    requires DomainReadable(config)
  {
    SpeedCheck(config)
      + Concat(LayoutParts(Iter(Enabled(config))))
      + FieldChecks(config)
      + Concat(StateParts(Iter(States(config))))
  }

  /** Everything one validation pass reports, in the order the source logs it. */
  function Diagnose(config: Value, schema: Value): seq<Diagnostic>
    requires Validatable(config, schema)
  {
    SchemaDiags(config, schema) + DomainDiags(config)
  }

  // ----- the declarative verdict -----

  /** Section `c` of the configuration has every key of that section of the schema. */
  predicate SectionConforms(config: Value, schema: Value, c: string) {
    Conforms(Section(schema, c), Section(config, c))
  }

  predicate ComponentsConform(config: Value, schema: Value, components: seq<string>) {
    forall j :: 0 <= j < |components| ==> SectionConforms(config, schema, components[j])
  }

  /** The four sections conform to the schema's sections. */
  predicate SectionsConform(config: Value, schema: Value) {
    ComponentsConform(config, schema, Sections)
  }

  predicate MessagesWellTyped(s: Value) {
    HasMessages(s) ==> MessagesIsList(s)
  }

  /** The layout is enabled, the menu item is allowed, the four deploy
      button texts are present and there are at least two states in a list. */
  predicate FieldsValid(layout: Value, enabled: Value, item: Value, texts: Value, states: Value)
    requires FieldsReadable(layout, enabled, texts, states)
  {
    && Contains(layout, enabled)
    && IsMenuItem(item)
    && HasDeployTexts(texts)
    && states.List?
    && |Iter(states)| >= 2
  }

  /** The domain rules a tutorial must satisfy. */
  predicate DomainValid(config: Value)
    requires DomainReadable(config)
  {
    && (forall j :: 0 <= j < |Iter(Enabled(config))| ==> IsValidLayout(Iter(Enabled(config))[j]))
    && FieldsValid(Layout(config), Enabled(config), MenuItem(config), DeployText(config), States(config))
    && (forall j :: 0 <= j < |Iter(States(config))| ==> MessagesWellTyped(Iter(States(config))[j]))
  }

  /** A configuration the validator accepts: it conforms to the schema at
      both levels and meets every domain rule. The message speed and states
      without messages are not part of it. */
  predicate ValidConfig(config: Value, schema: Value)
    requires Validatable(config, schema)
  {
    Conforms(schema.entries, config.entries) && SectionsConform(config, schema) && DomainValid(config)
  }

  /** A schema key that is missing or mistyped, named by its path. */
  predicate SchemaViolation(config: Value, schema: Value, path: seq<string>)
    requires config.Dict? && schema.Dict?
  {
    || (|path| == 1 && (exists j :: 0 <= j < |schema.entries| && schema.entries[j].key == path[0]
                                 && Mismatch(schema.entries[j], config.entries)))
    || (|path| == 2 && path[0] in Sections
        && (exists j :: 0 <= j < |Section(schema, path[0])| && Section(schema, path[0])[j].key == path[1]
                     && Mismatch(Section(schema, path[0])[j], Section(config, path[0]))))
  }

  // ----- the validator -----

  /** One level of the schema walk (the two loops of the source share this body). */
  method CheckKeys(path: seq<string>, expected: seq<Entry>, actual: seq<Entry>)
      returns (ok: bool, diags: seq<Diagnostic>)
    ensures diags == KeyDiags(path, expected, actual)
    ensures ok <==> Conforms(expected, actual)
    ensures ok <==> !HasError(diags)
  {
    ok, diags := true, [];
    var k := 0;
    while k < |expected|
      invariant 0 <= k <= |expected|
      invariant diags == Concat(KeyParts(path, expected, actual)[..k])
      invariant ok <==> forall j :: 0 <= j < k ==> !Mismatch(expected[j], actual)
    {
      var e := expected[k];
      ConcatSnoc(KeyParts(path, expected, actual), k);
      if !HasKey(actual, e.key) || KindOf(Get(actual, e.key)) != KindOf(e.val) {
        diags := diags + [Diagnostic(Error, KeyMismatch(path + [e.key]))];
        ok := false;
      }
      k := k + 1;
    }
    assert KeyParts(path, expected, actual)[..k] == KeyParts(path, expected, actual);
    KeyDiagsErrors(path, expected, actual);
  }

  /** `for component in [...]`: the walk of each named section. */
  method CheckSections(config: Value, schema: Value, components: seq<string>)
      returns (success: bool, diags: seq<Diagnostic>)
    ensures diags == Concat(SectionParts(config, schema, components))
    ensures success <==> ComponentsConform(config, schema, components)
  {
    success, diags := true, [];
    var m := 0;
    while m < |components|
      invariant 0 <= m <= |components|
      invariant diags == Concat(SectionParts(config, schema, components)[..m])
      invariant success <==> !HasError(diags)
    {
      ConcatSnoc(SectionParts(config, schema, components), m);
      var c := components[m];
      var ok, ds := CheckKeys([c], Section(schema, c), Section(config, c));
      HasErrorAppend(diags, ds);
      diags := diags + ds;
      success := success && ok;
      m := m + 1;
    }
    assert SectionParts(config, schema, components)[..m] == SectionParts(config, schema, components);
    ComponentsErrors(config, schema, components);
  }

  method Validate(config: Value, schema: Value) returns (success: bool, diags: seq<Diagnostic>)
    requires Validatable(config, schema)
    ensures diags == Diagnose(config, schema)
    ensures success <==> !HasError(diags)
    ensures success <==> ValidConfig(config, schema)
  {
    var topOk, top := CheckKeys([], schema.entries, config.entries);
    var sectionsOk, sections := CheckSections(config, schema, Sections);
    success, diags := topOk && sectionsOk, top + sections;
    SchemaDiagsErrors(config, schema);
    var ok, ds := CheckDomain(config);
    HasErrorAppend(diags, ds);
    diags := diags + ds;
    success := success && ok;
    DiagnoseErrorFree(config, schema);
  }

  /** The additional checks, in the order the source runs them. */
  method CheckDomain(config: Value) returns (success: bool, diags: seq<Diagnostic>)
    requires DomainReadable(config)
    ensures diags == DomainDiags(config)
    ensures success <==> !HasError(diags)
  {
    var speedValue := Field(config, "dashboard", "messageSpeed");
    var speed := Number(speedValue);
    diags := [];
    if speed < MinMessageSpeed || speed > MaxMessageSpeed {
      diags := [Diagnostic(Warning, MessageSpeedOutOfRange(speedValue))];
    }
    assert diags == SpeedCheck(config);
    ReportErrors(speed < MinMessageSpeed || speed > MaxMessageSpeed, Diagnostic(Warning, MessageSpeedOutOfRange(speedValue)));
    var ok, ds := CheckLayouts(Iter(Field(config, "dashboard", "enabledLayouts")));
    HasErrorAppend(diags, ds);
    success, diags := ok, diags + ds;
    ok, ds := CheckFields(Field(config, "dashboard", "layout"), Field(config, "dashboard", "enabledLayouts"),
                          Field(config, "terminal", "terminalMenuItem"), Field(config, "ide", "deployButtonText"),
                          Get(config.entries, "states"));
    FieldErrors(Field(config, "dashboard", "layout"), Field(config, "dashboard", "enabledLayouts"),
                Field(config, "terminal", "terminalMenuItem"), Field(config, "ide", "deployButtonText"),
                Get(config.entries, "states"));
    HasErrorAppend(diags, ds);
    success, diags := success && ok, diags + ds;
    ok, ds := CheckStates(Iter(Get(config.entries, "states")));
    HasErrorAppend(diags, ds);
    success, diags := success && ok, diags + ds;
  }

  /** `for layout in enabledLayouts`: each layout outside the allow-list is an error. */
  method CheckLayouts(layouts: seq<Value>) returns (ok: bool, diags: seq<Diagnostic>)
    ensures diags == Concat(LayoutParts(layouts))
    ensures ok <==> forall j :: 0 <= j < |layouts| ==> IsValidLayout(layouts[j])
    ensures ok <==> !HasError(diags)
  {
    ok, diags := true, [];
    var j := 0;
    while j < |layouts|
      invariant 0 <= j <= |layouts|
      invariant diags == Concat(LayoutParts(layouts)[..j])
      invariant ok <==> forall i :: 0 <= i < j ==> IsValidLayout(layouts[i])
    {
      ConcatSnoc(LayoutParts(layouts), j);
      if !(layouts[j].Str? && layouts[j].s in ValidLayouts) {
        diags := diags + [Diagnostic(Error, UnknownLayout(layouts[j]))];
        ok := false;
      }
      j := j + 1;
    }
    assert LayoutParts(layouts)[..j] == LayoutParts(layouts);
    LayoutErrors(layouts);
  }

  /** The single checks on the layout, the menu item, the deploy button texts
      and the shape of `states`. */
  method CheckFields(layout: Value, enabled: Value, item: Value, texts: Value, states: Value)
      returns (ok: bool, diags: seq<Diagnostic>)
    requires FieldsReadable(layout, enabled, texts, states)
    ensures diags == FieldReport(layout, enabled, item, texts, states)
    ensures ok <==> FieldsValid(layout, enabled, item, texts, states)
  {
    ok, diags := true, [];
    if !Contains(layout, enabled) {
      diags := diags + [Diagnostic(Error, LayoutNotEnabled(layout))];
      ok := false;
    }
    ghost var before := diags;
    if !IsMenuItem(item) {
      diags := diags + [Diagnostic(Error, InvalidMenuItem(item))];
      ok := false;
    }
    assert diags == Flagged(before, !IsMenuItem(item), Diagnostic(Error, InvalidMenuItem(item)));
    before := diags;
    if !HasDeployTexts(texts) {
      diags := diags + [Diagnostic(Error, MissingDeployButtonText)];
      ok := false;
    }
    assert diags == Flagged(before, !HasDeployTexts(texts), Diagnostic(Error, MissingDeployButtonText));
    before := diags;
    if !states.List? {
      diags := diags + [Diagnostic(Error, StatesNotList)];
      ok := false;
    }
    assert diags == Flagged(before, !states.List?, Diagnostic(Error, StatesNotList));
    var count := |Iter(states)|;
    if count < 2 {
      diags := diags + [Diagnostic(Error, TooFewStates)];
      ok := false;
    }
  }

  /** One pass of `for i, state in enumerate(states, 1)`: a state without
      messages is a warning, messages that are not a list an error. */
  method CheckState(i: nat, state: Value) returns (ok: bool, diags: seq<Diagnostic>)
    requires StateReadable(state)
    ensures diags == StateCheck(i, state)
    ensures ok <==> MessagesWellTyped(state)
  {
    ok, diags := true, [];
    if !Contains(Str("messages"), state) {
      diags := [Diagnostic(Warning, NoMessages)];
    }
    if Contains(Str("messages"), state) && !Get(state.entries, "messages").List? {
      diags := diags + [Diagnostic(Error, MessagesNotList(i))];
      ok := false;
    }
  }

  /** `for i, state in enumerate(states, 1)`, numbering the states from 1. */
  method CheckStates(states: seq<Value>) returns (ok: bool, diags: seq<Diagnostic>)
    requires forall j :: 0 <= j < |states| ==> StateReadable(states[j])
    ensures diags == Concat(StateParts(states))
    ensures ok <==> forall j :: 0 <= j < |states| ==> MessagesWellTyped(states[j])
    ensures ok <==> !HasError(diags)
  {
    ok, diags := true, [];
    var n := 0;
    while n < |states|
      invariant 0 <= n <= |states|
      invariant diags == Concat(StateParts(states)[..n])
      invariant ok <==> forall i :: 0 <= i < n ==> MessagesWellTyped(states[i])
    {
      ConcatSnoc(StateParts(states), n);
      var stateOk, ds := CheckState(n + 1, states[n]);
      diags := diags + ds;
      ok := ok && stateOk;
      n := n + 1;
    }
    assert StateParts(states)[..n] == StateParts(states);
    StateErrors(states);
  }

  // ----- lemmas -----

  lemma ReportErrors(fired: bool, d: Diagnostic)
    ensures HasError(Report(fired, d)) <==> fired && d.severity == Error
  {
    if fired { assert Report(fired, d)[0] == d; }
  }

  lemma StateCheckErrors(i: nat, s: Value)
    ensures HasError(StateCheck(i, s)) <==> !MessagesWellTyped(s)
  {
    ReportErrors(!HasMessages(s), Diagnostic(Warning, NoMessages));
    ReportErrors(HasMessages(s) && !MessagesIsList(s), Diagnostic(Error, MessagesNotList(i)));
    HasErrorAppend(Report(!HasMessages(s), Diagnostic(Warning, NoMessages)),
                   Report(HasMessages(s) && !MessagesIsList(s), Diagnostic(Error, MessagesNotList(i))));
  }

  /** Each key of the schema that is missing or mistyped is reported once
      under its path, and nothing else is. */
  lemma KeyDiagsMembers(path: seq<string>, expected: seq<Entry>, actual: seq<Entry>, d: Diagnostic)
    ensures d in KeyDiags(path, expected, actual) <==>
      exists j :: 0 <= j < |expected| && Mismatch(expected[j], actual)
        && d == Diagnostic(Error, KeyMismatch(path + [expected[j].key]))
  {
    var parts := KeyParts(path, expected, actual);
    ConcatMembers(parts, d);
    forall j | 0 <= j < |expected|
      ensures d in parts[j] <==>
        Mismatch(expected[j], actual) && d == Diagnostic(Error, KeyMismatch(path + [expected[j].key]))
    {
    }
  }

  lemma KeyDiagsErrors(path: seq<string>, expected: seq<Entry>, actual: seq<Entry>)
    ensures HasError(KeyDiags(path, expected, actual)) <==> !Conforms(expected, actual)
  {
    ConcatErrors(KeyParts(path, expected, actual));
    if !Conforms(expected, actual) {
      var j :| 0 <= j < |expected| && Mismatch(expected[j], actual);
      assert KeyParts(path, expected, actual)[j][0].severity == Error;
    }
  }

  /** The section walks report an error exactly when some section does not conform. */
  lemma ComponentsErrors(config: Value, schema: Value, components: seq<string>)
    ensures HasError(Concat(SectionParts(config, schema, components))) <==>
      !ComponentsConform(config, schema, components)
  {
    ConcatErrors(SectionParts(config, schema, components));
    forall j | 0 <= j < |components|
      ensures HasError(SectionParts(config, schema, components)[j]) <==>
                !SectionConforms(config, schema, components[j])
    {
      KeyDiagsErrors([components[j]], Section(schema, components[j]), Section(config, components[j]));
    }
  }

  lemma SchemaDiagsErrors(config: Value, schema: Value)
    requires config.Dict? && schema.Dict?
    ensures HasError(SchemaDiags(config, schema)) <==>
      !(Conforms(schema.entries, config.entries) && SectionsConform(config, schema))
  {
    KeyDiagsErrors([], schema.entries, config.entries);
    ComponentsErrors(config, schema, Sections);
    HasErrorAppend(KeyDiags([], schema.entries, config.entries), Concat(SectionParts(config, schema, Sections)));
  }

  lemma LayoutErrors(layouts: seq<Value>)
    ensures HasError(Concat(LayoutParts(layouts))) <==>
      exists j :: 0 <= j < |layouts| && !IsValidLayout(layouts[j])
  {
    ConcatErrors(LayoutParts(layouts));
    forall j | 0 <= j < |layouts|
      ensures HasError(LayoutParts(layouts)[j]) <==> !IsValidLayout(layouts[j])
    {
      ReportErrors(!IsValidLayout(layouts[j]), Diagnostic(Error, UnknownLayout(layouts[j])));
    }
  }

  lemma StateErrors(states: seq<Value>)
    ensures HasError(Concat(StateParts(states))) <==>
      exists j :: 0 <= j < |states| && !MessagesWellTyped(states[j])
  {
    ConcatErrors(StateParts(states));
    forall j | 0 <= j < |states|
      ensures HasError(StateParts(states)[j]) <==> !MessagesWellTyped(states[j])
    {
      StateCheckErrors(j + 1, states[j]);
    }
  }

  /** Every single check reports an error, so the report is empty exactly
      when all of them pass. */
  lemma FieldReportEmpty(layout: Value, enabled: Value, item: Value, texts: Value, states: Value)
    requires FieldsReadable(layout, enabled, texts, states)
    ensures FieldReport(layout, enabled, item, texts, states) == [] <==>
      FieldsValid(layout, enabled, item, texts, states)
  {
  }

  lemma FieldErrors(layout: Value, enabled: Value, item: Value, texts: Value, states: Value)
    requires FieldsReadable(layout, enabled, texts, states)
    ensures HasError(FieldReport(layout, enabled, item, texts, states)) <==>
      !FieldsValid(layout, enabled, item, texts, states)
  {
    var r := FieldReport(layout, enabled, item, texts, states);
    FieldReportEmpty(layout, enabled, item, texts, states);
    if r != [] {
      FieldReportKinds(layout, enabled, item, texts, states, r[0]);
    }
  }

  lemma DomainDiagsErrors(config: Value)
    requires DomainReadable(config)
    ensures HasError(DomainDiags(config)) <==> !DomainValid(config)
  {
    var sp := SpeedCheck(config);
    var ls := Concat(LayoutParts(Iter(Enabled(config))));
    var fs := FieldChecks(config);
    var ss := Concat(StateParts(Iter(States(config))));
    ReportErrors(Speed(config) < MinMessageSpeed || Speed(config) > MaxMessageSpeed,
                 Diagnostic(Warning, MessageSpeedOutOfRange(SpeedValue(config))));
    LayoutErrors(Iter(Enabled(config)));
    FieldErrors(Layout(config), Enabled(config), MenuItem(config), DeployText(config), States(config));
    StateErrors(Iter(States(config)));
    HasErrorAppend(sp, ls);
    HasErrorAppend(sp + ls, fs);
    HasErrorAppend(sp + ls + fs, ss);
  }

  /** The validator's verdict, stated without diagnostics: no error is
      reported exactly when the configuration is valid. */
  lemma DiagnoseErrorFree(config: Value, schema: Value)
    requires Validatable(config, schema)
    ensures !HasError(Diagnose(config, schema)) <==> ValidConfig(config, schema)
  {
    SchemaDiagsErrors(config, schema);
    DomainDiagsErrors(config);
    HasErrorAppend(SchemaDiags(config, schema), DomainDiags(config));
  }

  // ----- what is reported -----

  /** The top-level walk reports a one-key path exactly when that key of
      the schema is missing from the configuration or has another type. */
  lemma TopKeyMembers(config: Value, schema: Value, path: seq<string>)
    requires config.Dict? && schema.Dict?
    ensures Diagnostic(Error, KeyMismatch(path)) in KeyDiags([], schema.entries, config.entries) <==>
      |path| == 1 && exists j :: 0 <= j < |schema.entries| && schema.entries[j].key == path[0]
                                 && Mismatch(schema.entries[j], config.entries)
  {
    var d := Diagnostic(Error, KeyMismatch(path));
    KeyDiagsMembers([], schema.entries, config.entries, d);
    if d in KeyDiags([], schema.entries, config.entries) {
      var j :| 0 <= j < |schema.entries| && Mismatch(schema.entries[j], config.entries)
        && d == Diagnostic(Error, KeyMismatch([] + [schema.entries[j].key]));
      assert path == [schema.entries[j].key];
    }
    if |path| == 1 && exists j :: 0 <= j < |schema.entries| && schema.entries[j].key == path[0]
                                 && Mismatch(schema.entries[j], config.entries) {
      var j :| 0 <= j < |schema.entries| && schema.entries[j].key == path[0] && Mismatch(schema.entries[j], config.entries);
      assert path == [] + [schema.entries[j].key];
    }
  }

  /** The walk of section `c` reports `[c, k]` exactly when key `k` of that
      section of the schema is missing or has another type. */
  lemma SectionKeyMembers(config: Value, schema: Value, c: string, path: seq<string>)
    ensures Diagnostic(Error, KeyMismatch(path)) in SectionCheck(config, schema, c) <==>
      |path| == 2 && path[0] == c
      && exists j :: 0 <= j < |Section(schema, c)| && Section(schema, c)[j].key == path[1]
                     && Mismatch(Section(schema, c)[j], Section(config, c))
  {
    var d := Diagnostic(Error, KeyMismatch(path));
    KeyDiagsMembers([c], Section(schema, c), Section(config, c), d);
    if d in SectionCheck(config, schema, c) {
      var j :| 0 <= j < |Section(schema, c)| && Mismatch(Section(schema, c)[j], Section(config, c))
        && d == Diagnostic(Error, KeyMismatch([c] + [Section(schema, c)[j].key]));
      assert path == [c, Section(schema, c)[j].key];
    }
    if |path| == 2 && path[0] == c
      && exists j :: 0 <= j < |Section(schema, c)| && Section(schema, c)[j].key == path[1]
                     && Mismatch(Section(schema, c)[j], Section(config, c)) {
      var j :| 0 <= j < |Section(schema, c)| && Section(schema, c)[j].key == path[1]
        && Mismatch(Section(schema, c)[j], Section(config, c));
      assert path == [c] + [Section(schema, c)[j].key];
    }
  }

  /** The schema walk reports a path exactly when that key of the schema is
      missing from the configuration or has another type there; every such
      key is reported, not only the first. */
  lemma SchemaDiagsMembers(config: Value, schema: Value, path: seq<string>)
    requires config.Dict? && schema.Dict?
    ensures Diagnostic(Error, KeyMismatch(path)) in SchemaDiags(config, schema) <==>
      SchemaViolation(config, schema, path)
  {
    var d := Diagnostic(Error, KeyMismatch(path));
    TopKeyMembers(config, schema, path);
    var parts := SectionParts(config, schema, Sections);
    ConcatMembers(parts, d);
    if m :| 0 <= m < |Sections| && d in parts[m] {
      SectionKeyMembers(config, schema, Sections[m], path);
    }
    if |path| == 2 && path[0] in Sections {
      var m :| 0 <= m < |Sections| && Sections[m] == path[0];
      SectionKeyMembers(config, schema, Sections[m], path);
      assert d in parts[m] <==> SchemaViolation(config, schema, path);
    }
  }

  /** What the layout loop reports, layout by layout. */
  lemma LayoutDiagsMembers(layouts: seq<Value>, d: Diagnostic)
    ensures d in Concat(LayoutParts(layouts)) <==>
      exists j :: 0 <= j < |layouts| && !IsValidLayout(layouts[j]) && d == Diagnostic(Error, UnknownLayout(layouts[j]))
  {
    ConcatMembers(LayoutParts(layouts), d);
    forall j | 0 <= j < |layouts|
      ensures d in LayoutParts(layouts)[j] <==>
        !IsValidLayout(layouts[j]) && d == Diagnostic(Error, UnknownLayout(layouts[j]))
    {
    }
  }

  lemma StateDiagsMembers(states: seq<Value>, d: Diagnostic)
    ensures d in Concat(StateParts(states)) <==> exists j :: 0 <= j < |states| && d in StateCheck(j + 1, states[j])
  {
    ConcatMembers(StateParts(states), d);
    forall j | 0 <= j < |states| ensures StateParts(states)[j] == StateCheck(j + 1, states[j]) { }
  }

  /** The state loop reports the unnumbered warning and numbered errors only. */
  lemma StateDiagsKinds(states: seq<Value>, d: Diagnostic)
    requires d in Concat(StateParts(states))
    ensures d == Diagnostic(Warning, NoMessages) || (d.severity == Error && d.check.MessagesNotList?)
  {
    StateDiagsMembers(states, d);
  }

  /** State number `i` is reported exactly when its messages are present but not a list. */
  lemma MessagesNotListMembers(states: seq<Value>, i: nat)
    ensures Diagnostic(Error, MessagesNotList(i)) in Concat(StateParts(states)) <==>
      1 <= i <= |states| && !MessagesWellTyped(states[i - 1])
  {
    var d := Diagnostic(Error, MessagesNotList(i));
    StateDiagsMembers(states, d);
    if d in Concat(StateParts(states)) {
      var j :| 0 <= j < |states| && d in StateCheck(j + 1, states[j]);
      assert i == j + 1 && !MessagesWellTyped(states[j]);
    }
    if 1 <= i <= |states| && !MessagesWellTyped(states[i - 1]) {
      assert d in StateCheck(i, states[i - 1]);
    }
  }

  lemma NoMessagesMembers(states: seq<Value>)
    ensures Diagnostic(Warning, NoMessages) in Concat(StateParts(states)) <==>
      exists j :: 0 <= j < |states| && !HasMessages(states[j])
  {
    var d := Diagnostic(Warning, NoMessages);
    StateDiagsMembers(states, d);
    if d in Concat(StateParts(states)) {
      var j :| 0 <= j < |states| && d in StateCheck(j + 1, states[j]);
      assert !HasMessages(states[j]);
    }
    if j :| 0 <= j < |states| && !HasMessages(states[j]) {
      assert d in StateCheck(j + 1, states[j]);
    }
  }

  /** The schema walk reports nothing but key mismatches. */
  lemma SchemaDiagsKinds(config: Value, schema: Value, d: Diagnostic)
    requires config.Dict? && schema.Dict?
    requires d in SchemaDiags(config, schema)
    ensures d.severity == Error && d.check.KeyMismatch?
  {
    KeyDiagsMembers([], schema.entries, config.entries, d);
    ConcatMembers(SectionParts(config, schema, Sections), d);
    if d !in KeyDiags([], schema.entries, config.entries) {
      var m :| 0 <= m < |Sections| && d in SectionParts(config, schema, Sections)[m];
      KeyDiagsMembers([Sections[m]], Section(schema, Sections[m]), Section(config, Sections[m]), d);
    }
  }

  /** The checks the single field tests report. */
  predicate FieldCheckKind(c: Check) {
    c.LayoutNotEnabled? || c.InvalidMenuItem? || c == MissingDeployButtonText || c == StatesNotList || c.TooFewStates?
  }

  lemma FieldReportKinds(layout: Value, enabled: Value, item: Value, texts: Value, states: Value, d: Diagnostic)
    requires FieldsReadable(layout, enabled, texts, states)
    requires d in FieldReport(layout, enabled, item, texts, states)
    ensures d.severity == Error && FieldCheckKind(d.check)
  {
    var n := |Iter(states)|;
    var afterLayout := Flagged([], !Contains(layout, enabled), Diagnostic(Error, LayoutNotEnabled(layout)));
    var afterItem := Flagged(afterLayout, !IsMenuItem(item), Diagnostic(Error, InvalidMenuItem(item)));
    var afterTexts := Flagged(afterItem, !HasDeployTexts(texts), Diagnostic(Error, MissingDeployButtonText));
    var afterType := Flagged(afterTexts, !states.List?, Diagnostic(Error, StatesNotList));
    FlaggedMembers(afterType, n < 2, Diagnostic(Error, TooFewStates), d);
    FlaggedMembers(afterTexts, !states.List?, Diagnostic(Error, StatesNotList), d);
    FlaggedMembers(afterItem, !HasDeployTexts(texts), Diagnostic(Error, MissingDeployButtonText), d);
    FlaggedMembers(afterLayout, !IsMenuItem(item), Diagnostic(Error, InvalidMenuItem(item)), d);
  }

  /** Which part of the additional checks a diagnostic can come from, by its kind. */
  lemma DomainDiagsKinds(config: Value, d: Diagnostic)
    requires DomainReadable(config)
    ensures d in DomainDiags(config) <==>
      || d in SpeedCheck(config)
      || d in Concat(LayoutParts(Iter(Enabled(config))))
      || d in FieldChecks(config)
      || d in Concat(StateParts(Iter(States(config))))
    ensures d in SpeedCheck(config) <==>
      (Speed(config) < MinMessageSpeed || Speed(config) > MaxMessageSpeed)
      && d == Diagnostic(Warning, MessageSpeedOutOfRange(SpeedValue(config)))
    ensures d in Concat(LayoutParts(Iter(Enabled(config)))) ==> d.severity == Error && d.check.UnknownLayout?
    ensures d in FieldChecks(config) ==> d.severity == Error && FieldCheckKind(d.check)
    ensures d in Concat(StateParts(Iter(States(config)))) ==>
      d == Diagnostic(Warning, NoMessages) || (d.severity == Error && d.check.MessagesNotList?)
  {
    if d in FieldChecks(config) {
      FieldReportKinds(Layout(config), Enabled(config), MenuItem(config), DeployText(config), States(config), d);
    }
    if d in Concat(LayoutParts(Iter(Enabled(config)))) {
      LayoutDiagsMembers(Iter(Enabled(config)), d);
    }
    if d in Concat(StateParts(Iter(States(config)))) {
      StateDiagsKinds(Iter(States(config)), d);
    }
  }

  /** A diagnostic other than a key mismatch comes from the additional checks. */
  lemma DiagnoseOutsideSchema(config: Value, schema: Value, d: Diagnostic)
    requires Validatable(config, schema)
    ensures !(d.severity == Error && d.check.KeyMismatch?) ==>
      (d in Diagnose(config, schema) <==> d in DomainDiags(config))
  {
    if d in SchemaDiags(config, schema) {
      SchemaDiagsKinds(config, schema, d);
    }
  }

  /** The schema walk is the only source of key mismatches. */
  lemma KeyMismatchReported(config: Value, schema: Value, path: seq<string>)
    requires Validatable(config, schema)
    ensures Diagnostic(Error, KeyMismatch(path)) in Diagnose(config, schema) <==>
      SchemaViolation(config, schema, path)
  {
    SchemaDiagsMembers(config, schema, path);
    DomainDiagsKinds(config, Diagnostic(Error, KeyMismatch(path)));
  }

  /** Each entry of `enabledLayouts` outside the allow-list is reported by name. */
  lemma UnknownLayoutReported(config: Value, schema: Value, layout: Value)
    requires Validatable(config, schema)
    ensures Diagnostic(Error, UnknownLayout(layout)) in Diagnose(config, schema) <==>
      layout in Iter(Enabled(config)) && !IsValidLayout(layout)
  {
    var d := Diagnostic(Error, UnknownLayout(layout));
    DiagnoseOutsideSchema(config, schema, d);
    DomainDiagsKinds(config, d);
    LayoutDiagsMembers(Iter(Enabled(config)), d);
  }

  /** A state whose `messages` is not a list is reported by its number, counted from 1. */
  lemma MessagesNotListReported(config: Value, schema: Value, i: nat)
    requires Validatable(config, schema)
    ensures Diagnostic(Error, MessagesNotList(i)) in Diagnose(config, schema) <==>
      1 <= i <= |Iter(States(config))| && !MessagesWellTyped(Iter(States(config))[i - 1])
  {
    var d := Diagnostic(Error, MessagesNotList(i));
    DiagnoseOutsideSchema(config, schema, d);
    DomainDiagsKinds(config, d);
    MessagesNotListMembers(Iter(States(config)), i);
  }

  /** The two warnings: a message speed outside [300, 600], and a state
      without messages. Nothing else is a warning. */
  lemma WarningsReported(config: Value, schema: Value, d: Diagnostic)
    requires Validatable(config, schema)
    requires d in Diagnose(config, schema) && d.severity == Warning
    ensures d == Diagnostic(Warning, MessageSpeedOutOfRange(SpeedValue(config))) || d == Diagnostic(Warning, NoMessages)
  {
    DiagnoseOutsideSchema(config, schema, d);
    DomainDiagsKinds(config, d);
  }

  /** The speed warning fires exactly when the speed is out of the recommended range. */
  lemma SpeedWarned(config: Value, schema: Value)
    requires Validatable(config, schema)
    ensures Diagnostic(Warning, MessageSpeedOutOfRange(SpeedValue(config))) in Diagnose(config, schema) <==>
      Speed(config) < MinMessageSpeed || Speed(config) > MaxMessageSpeed
  {
    var d := Diagnostic(Warning, MessageSpeedOutOfRange(SpeedValue(config)));
    DiagnoseOutsideSchema(config, schema, d);
    DomainDiagsKinds(config, d);
  }

  /** A state without messages draws the (unnumbered) warning. */
  lemma NoMessagesWarned(config: Value, schema: Value)
    requires Validatable(config, schema)
    ensures Diagnostic(Warning, NoMessages) in Diagnose(config, schema) <==>
      exists j :: 0 <= j < |Iter(States(config))| && !HasMessages(Iter(States(config))[j])
  {
    var d := Diagnostic(Warning, NoMessages);
    DiagnoseOutsideSchema(config, schema, d);
    DomainDiagsKinds(config, d);
    NoMessagesMembers(Iter(States(config)));
  }

  /** On a configuration that validates, every enabled layout is one of the
      allowed strings, so `x in enabledLayouts` (lines 65 and 151) compares
      `x` with strings only: it is exact equality with an entry whatever `x`
      is, and how mappings compare never comes into it. */
  lemma ValidLayoutsAreStrings(config: Value, schema: Value, x: Value)
    requires Validatable(config, schema) && ValidConfig(config, schema)
    ensures forall j :: 0 <= j < |Iter(Enabled(config))| ==> IsValidLayout(Iter(Enabled(config))[j])
    ensures forall j :: 0 <= j < |Iter(Enabled(config))| ==>
      (Eq(Iter(Enabled(config))[j], x) <==> Iter(Enabled(config))[j] == x)
  {
  }
}
