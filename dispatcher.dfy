/** One pass of the compiler's inner loop: the chain of tests on a state's
    instruction key that decides whether the key sends a payload to the
    frontend, is passed over, or is logged as a warning or an error. */
module Dispatcher {
  import opened Values
  import opened Diagnostics
  import opened Config

  /** The message a state sends to the frontend, one case per dict shape the source builds. */
  datatype Payload =
    | DashboardLayout(layout: Value)
    | DashboardIframeUrl(url: Value)
    | DashboardShowUrlBar(show: Value)
    | ReloadIframe
    | DashboardMenuItem(item: Value)
    | TerminalWrite(command: Value)
    | ConsoleWrite(command: Value)
    | IdeRead(filename: Option<Value>, patterns: Option<Value>)
    | IdeShowDeployButton(show: Value)

  /** The `'key'` field of the payload dict. */
  function Channel(p: Payload): string {
    match p
    case DashboardLayout(_) => "frontend.dashboard"
    case DashboardIframeUrl(_) => "frontend.dashboard"
    case DashboardShowUrlBar(_) => "frontend.dashboard"
    case ReloadIframe => "frontend.reloadIframe"
    case DashboardMenuItem(_) => "frontend.dashboard"
    case TerminalWrite(_) => "terminal.write"
    case ConsoleWrite(_) => "console.write"
    case IdeRead(_, _) => "ide.read"
    case IdeShowDeployButton(_) => "frontend.ide"
  }

  /** The payload dict exactly as the source writes it into `send_message`:
      a well-formed dict whose `'key'` names the payload's channel. */
  function Wire(p: Payload): (r: Value)
    ensures r.Dict? && DistinctKeys(r.entries)
    ensures Lookup(r.entries, "key") == Some(Str(Channel(p)))
  {
    var key := Entry("key", Str(Channel(p)));
    match p
    case DashboardLayout(v) => Pair(key, Entry("layout", v))
    case DashboardIframeUrl(v) => Pair(key, Entry("iframeUrl", v))
    case DashboardShowUrlBar(v) => Pair(key, Entry("showUrlBar", v))
    case ReloadIframe => Dict([key])
    case DashboardMenuItem(v) => Pair(key, Entry("terminalMenuItem", v))
    case TerminalWrite(v) => Pair(key, Entry("command", v))
    case ConsoleWrite(v) => Pair(key, Entry("command", v))
    case IdeRead(f, ps) =>
      if f.Some? && ps.Some? then
        Triple(key, Entry("filename", f.value), Entry("patterns", ps.value))
      else if f.Some? then Pair(key, Entry("filename", f.value))
      else if ps.Some? then Pair(key, Entry("patterns", ps.value))
      else Dict([key])
    case IdeShowDeployButton(v) => Pair(key, Entry("showDeployButton", v))
  }

  /** A two-field dict. */
  function Pair(a: Entry, b: Entry): (r: Value)
    requires a.key != b.key
    ensures r == Dict([a, b])
    ensures DistinctKeys(r.entries) && Lookup(r.entries, a.key) == Some(a.val) && Lookup(r.entries, b.key) == Some(b.val)
  {
    assert [a, b][1..] == [b] && [b][1..] == [];
    assert DistinctKeys([b]) && !HasKey([b], a.key);
    Dict([a, b])
  }

  /** A three-field dict. */
  function Triple(a: Entry, b: Entry, c: Entry): (r: Value)
    requires a.key != b.key && a.key != c.key && b.key != c.key
    ensures r == Dict([a, b, c])
    ensures DistinctKeys(r.entries) && Lookup(r.entries, a.key) == Some(a.val)
    ensures Lookup(r.entries, b.key) == Some(b.val) && Lookup(r.entries, c.key) == Some(c.val)
  {
    assert [a, b, c][1..] == [b, c] && [b, c][1..] == [c] && [c][1..] == [];
    assert Lookup([b, c], c.key) == Lookup([c], c.key) == Some(c.val);
    assert Lookup([a, b, c], c.key) == Lookup([b, c], c.key);
    assert DistinctKeys([c]) && !HasKey([c], b.key) && !HasKey([c], a.key);
    assert DistinctKeys([b, c]) && !HasKey([b, c], a.key);
    Dict([a, b, c])
  }

  /** What one key of a state turns into. */
  datatype Outcome =
    | Skip                       // `continue` without a log line
    | Emit(payload: Payload)
    | Warn(warning: Check)
    | Fail(error: Check)

  /** The log line an outcome adds. */
  function Logged(o: Outcome): seq<Diagnostic> {
    match o
    case Warn(c) => [Diagnostic(Warning, c)]
    case Fail(c) => [Diagnostic(Error, c)]
    case _ => []
  }

  /** `value in config['dashboard']['enabledLayouts']` does not raise. */
  predicate LayoutReadable(enabled: Option<Value>, value: Value) {
    enabled.Some? && InDefined(value, enabled.value)
  }

  /** What the dispatch of one key reads besides the key and its value:
      the state's `ide.selectFile` value and whether it has `ide.patterns`,
      and the enabled layouts. */
  datatype Context = Context(selectFile: Option<Value>, hasPatterns: bool, enabled: Option<Value>)

  /** The branch of the dispatch chain a key selects. */
  datatype Instruction =
    | Reserved | Layout | IframeUrl | ShowUrlBar | ReloadIframeKey | MenuItem
    | TerminalWriteKey | ConsoleWriteKey | Patterns | SelectFile | ShowDeployButton | Unknown

  /** The keys the dispatch chain tests, in the order it tests them, with
      the branch each selects. */
  const Instructions: seq<(string, Instruction)> := [
    ("buttons", Reserved), ("messages", Reserved),
    ("dashboard.layout", Layout),
    ("webservice.iframeUrl", IframeUrl), ("webservice.showUrlBar", ShowUrlBar),
    ("webservice.reloadIframe", ReloadIframeKey),
    ("terminal.terminalMenuItem", MenuItem), ("terminal.write", TerminalWriteKey),
    ("console.write", ConsoleWriteKey),
    ("ide.patterns", Patterns), ("ide.selectFile", SelectFile),
    ("ide.showDeployButton", ShowDeployButton)
  ]

  /** The branch of the first row from row `j` on whose key is `key`. */
  function Find(key: string, j: nat): Instruction
    decreases |Instructions| - j
  {
    if j >= |Instructions| then Unknown
    else if |Instructions[j].0| == |key| && Instructions[j].0 == key then Instructions[j].1
    else Find(key, j + 1)
  }

  function Classify(key: string): Instruction {
    Find(key, 0)
  }

  /** The body of the inner loop for key `key` of state number `i`. */
  function Dispatch(i: nat, key: string, value: Value, ctx: Context): (o: Outcome)
    requires key == "dashboard.layout" ==> LayoutReadable(ctx.enabled, value)
    ensures o.Fail? ==> o.error == DisabledLayout(i, value) || o.error == InvalidStateMenuItem(i, value)
    ensures o.Warn? ==> o.warning == UnsupportedInstruction(i, key, value)
  {
    match Classify(key)
    case Reserved => Skip
    case Layout =>
      ClassifyLayout(key);
      if !Contains(value, ctx.enabled.value) then Fail(DisabledLayout(i, value))
      else Emit(DashboardLayout(value))
    case IframeUrl => Emit(DashboardIframeUrl(value))
    case ShowUrlBar => Emit(DashboardShowUrlBar(value))
    case ReloadIframeKey =>
      // any other value fails the chain's test and falls through to its last branch
      if Eq(value, Bool(true)) then Emit(ReloadIframe) else Warn(UnsupportedInstruction(i, key, value))
    case MenuItem =>
      if !IsMenuItem(value) then Fail(InvalidStateMenuItem(i, value))
      else Emit(DashboardMenuItem(value))
    case TerminalWriteKey => Emit(TerminalWrite(value))
    case ConsoleWriteKey => Emit(ConsoleWrite(value))
    case Patterns =>
      if ctx.selectFile.Some? then Emit(IdeRead(Some(ctx.selectFile.value), Some(value)))
      else Emit(IdeRead(None, Some(value)))
    case SelectFile =>
      if ctx.hasPatterns then Skip
      else Emit(IdeRead(Some(value), None))
    case ShowDeployButton => Emit(IdeShowDeployButton(value))
    case Unknown => Warn(UnsupportedInstruction(i, key, value))
  }

  // ----- the classifier is the source's chain of key tests -----

  /** A key the table classifies from row `j` on sits in such a row, with its branch. */
  lemma {:induction false} FindFound(key: string, j: nat)
    ensures Find(key, j) != Unknown ==> exists m :: j <= m < |Instructions| && Instructions[m] == (key, Find(key, j))
    decreases |Instructions| - j
  {
    if j < |Instructions| && Instructions[j].0 != key {
      FindFound(key, j + 1);
    }
  }

  /** A key no row from `j` on names is `Unknown`, and only such a key. */
  lemma {:induction false} FindMissing(key: string, j: nat)
    ensures Find(key, j) == Unknown <==> forall m :: j <= m < |Instructions| ==> Instructions[m].0 != key
    decreases |Instructions| - j
  {
    if j < |Instructions| && Instructions[j].0 != key {
      FindMissing(key, j + 1);
    }
  }

  /** Keys the chain tests for. */
  predicate Known(key: string) {
    exists j :: 0 <= j < |Instructions| && Instructions[j].0 == key
  }

  lemma ClassifyUnknown(key: string)
    ensures Classify(key) == Unknown <==> !Known(key)
  {
    FindMissing(key, 0);
  }

  lemma ClassifyReserved(key: string)
    ensures Classify(key) == Reserved <==> key == "buttons" || key == "messages"
  {
    FindFound(key, 0);
  }

  lemma ClassifyLayout(key: string)
    ensures Classify(key) == Layout <==> key == "dashboard.layout"
  {
    FindFound(key, 0);
  }

  lemma ClassifyIframeUrl(key: string)
    ensures Classify(key) == IframeUrl <==> key == "webservice.iframeUrl"
  {
    FindFound(key, 0);
  }

  lemma ClassifyShowUrlBar(key: string)
    ensures Classify(key) == ShowUrlBar <==> key == "webservice.showUrlBar"
  {
    FindFound(key, 0);
  }

  lemma ClassifyReloadIframe(key: string)
    ensures Classify(key) == ReloadIframeKey <==> key == "webservice.reloadIframe"
  {
    FindFound(key, 0);
  }

  lemma ClassifyMenuItem(key: string)
    ensures Classify(key) == MenuItem <==> key == "terminal.terminalMenuItem"
  {
    FindFound(key, 0);
  }

  lemma ClassifyTerminalWrite(key: string)
    ensures Classify(key) == TerminalWriteKey <==> key == "terminal.write"
  {
    FindFound(key, 0);
  }

  lemma ClassifyConsoleWrite(key: string)
    ensures Classify(key) == ConsoleWriteKey <==> key == "console.write"
  {
    FindFound(key, 0);
  }

  lemma ClassifyPatterns(key: string)
    ensures Classify(key) == Patterns <==> key == "ide.patterns"
  {
    FindFound(key, 0);
  }

  lemma ClassifySelectFile(key: string)
    ensures Classify(key) == SelectFile <==> key == "ide.selectFile"
  {
    FindFound(key, 0);
  }

  lemma ClassifyShowDeployButton(key: string)
    ensures Classify(key) == ShowDeployButton <==> key == "ide.showDeployButton"
  {
    FindFound(key, 0);
  }

  // ----- one key, in the source's terms -----

  /** A key is an error exactly when it sets a layout that is not enabled,
      or a terminal menu item other than `terminal` and `console`. */
  lemma DispatchFails(i: nat, key: string, value: Value, ctx: Context)
    requires key == "dashboard.layout" ==> LayoutReadable(ctx.enabled, value)
    ensures Dispatch(i, key, value, ctx) == Fail(DisabledLayout(i, value)) <==>
      key == "dashboard.layout" && !Contains(value, ctx.enabled.value)
    ensures Dispatch(i, key, value, ctx) == Fail(InvalidStateMenuItem(i, value)) <==>
      key == "terminal.terminalMenuItem" && !IsMenuItem(value)
    ensures Dispatch(i, key, value, ctx).Fail? <==>
      (key == "dashboard.layout" && !Contains(value, ctx.enabled.value))
      || (key == "terminal.terminalMenuItem" && !IsMenuItem(value))
  {
    ClassifyLayout(key);
    ClassifyMenuItem(key);
  }

  /** A key is a warning exactly when the chain does not test for it, or
      when it is `webservice.reloadIframe` with a value other than `True`. */
  lemma DispatchWarns(i: nat, key: string, value: Value, ctx: Context)
    requires key == "dashboard.layout" ==> LayoutReadable(ctx.enabled, value)
    ensures Dispatch(i, key, value, ctx).Warn? <==>
      !Known(key) || (key == "webservice.reloadIframe" && !Eq(value, Bool(true)))
  {
    ClassifyUnknown(key);
    ClassifyReloadIframe(key);
  }

  /** A key is passed over silently exactly when it is `buttons` or
      `messages`, or `ide.selectFile` in a state that also has `ide.patterns`. */
  lemma DispatchSkips(i: nat, key: string, value: Value, ctx: Context)
    requires key == "dashboard.layout" ==> LayoutReadable(ctx.enabled, value)
    ensures Dispatch(i, key, value, ctx) == Skip <==>
      key == "buttons" || key == "messages" || (key == "ide.selectFile" && ctx.hasPatterns)
  {
    ClassifyReserved(key);
    ClassifySelectFile(key);
  }

  /** The payload each dashboard, webservice and terminal instruction sends. */
  lemma DispatchFrontendPayloads(i: nat, key: string, value: Value, ctx: Context)
    requires key == "dashboard.layout" ==> LayoutReadable(ctx.enabled, value)
    ensures key == "dashboard.layout" && Contains(value, ctx.enabled.value) ==>
      Dispatch(i, key, value, ctx) == Emit(DashboardLayout(value))
    ensures key == "webservice.iframeUrl" ==> Dispatch(i, key, value, ctx) == Emit(DashboardIframeUrl(value))
    ensures key == "webservice.showUrlBar" ==> Dispatch(i, key, value, ctx) == Emit(DashboardShowUrlBar(value))
    ensures key == "webservice.reloadIframe" && Eq(value, Bool(true)) ==> Dispatch(i, key, value, ctx) == Emit(ReloadIframe)
    ensures key == "terminal.terminalMenuItem" && IsMenuItem(value) ==>
      Dispatch(i, key, value, ctx) == Emit(DashboardMenuItem(value))
    ensures key == "terminal.write" ==> Dispatch(i, key, value, ctx) == Emit(TerminalWrite(value))
    ensures key == "console.write" ==> Dispatch(i, key, value, ctx) == Emit(ConsoleWrite(value))
  {
    ClassifyLayout(key);
    ClassifyIframeUrl(key);
    ClassifyShowUrlBar(key);
    ClassifyReloadIframe(key);
    ClassifyMenuItem(key);
    ClassifyTerminalWrite(key);
    ClassifyConsoleWrite(key);
  }

  /** The payload each WebIDE instruction sends: `ide.patterns` reads the
      state's `ide.selectFile` file when there is one, `ide.selectFile` reads
      on its own only when there are no patterns. */
  lemma DispatchIdePayloads(i: nat, key: string, value: Value, ctx: Context)
    requires key == "dashboard.layout" ==> LayoutReadable(ctx.enabled, value)
    ensures key == "ide.patterns" ==> Dispatch(i, key, value, ctx) == Emit(IdeRead(ctx.selectFile, Some(value)))
    ensures key == "ide.selectFile" && !ctx.hasPatterns ==> Dispatch(i, key, value, ctx) == Emit(IdeRead(Some(value), None))
    ensures key == "ide.showDeployButton" ==> Dispatch(i, key, value, ctx) == Emit(IdeShowDeployButton(value))
  {
    ClassifyPatterns(key);
    ClassifySelectFile(key);
    ClassifyShowDeployButton(key);
  }

  /** Which keys send an `ide.read`. */
  lemma DispatchReads(i: nat, key: string, value: Value, ctx: Context)
    requires key == "dashboard.layout" ==> LayoutReadable(ctx.enabled, value)
    ensures (Dispatch(i, key, value, ctx).Emit? && Dispatch(i, key, value, ctx).payload.IdeRead?) <==>
      key == "ide.patterns" || (key == "ide.selectFile" && !ctx.hasPatterns)
  {
    ClassifyPatterns(key);
    ClassifySelectFile(key);
    DispatchIdePayloads(i, key, value, ctx);
  }

  /** The dict an emitting key writes into `send_message`. */
  function PayloadDict(i: nat, key: string, value: Value, ctx: Context): seq<Entry>
    requires key == "dashboard.layout" ==> LayoutReadable(ctx.enabled, value)
    requires Dispatch(i, key, value, ctx).Emit?
  {
    Wire(Dispatch(i, key, value, ctx).payload).entries
  }

  /** The dict each dashboard, web service and terminal instruction sends:
      its `'key'` names the frontend channel, and the instruction's value sits
      under the one other field the frontend reads. */
  lemma DispatchWireFrontend(i: nat, key: string, value: Value, ctx: Context)
    requires key == "dashboard.layout" ==> LayoutReadable(ctx.enabled, value)
    requires Dispatch(i, key, value, ctx).Emit?
    ensures key == "dashboard.layout" ==>
      PayloadDict(i, key, value, ctx) == [Entry("key", Str("frontend.dashboard")), Entry("layout", value)]
    ensures key == "webservice.iframeUrl" ==>
      PayloadDict(i, key, value, ctx) == [Entry("key", Str("frontend.dashboard")), Entry("iframeUrl", value)]
    ensures key == "webservice.showUrlBar" ==>
      PayloadDict(i, key, value, ctx) == [Entry("key", Str("frontend.dashboard")), Entry("showUrlBar", value)]
    ensures key == "webservice.reloadIframe" ==>
      PayloadDict(i, key, value, ctx) == [Entry("key", Str("frontend.reloadIframe"))]
    ensures key == "terminal.terminalMenuItem" ==>
      PayloadDict(i, key, value, ctx) == [Entry("key", Str("frontend.dashboard")), Entry("terminalMenuItem", value)]
    ensures key == "terminal.write" ==>
      PayloadDict(i, key, value, ctx) == [Entry("key", Str("terminal.write")), Entry("command", value)]
    ensures key == "console.write" ==>
      PayloadDict(i, key, value, ctx) == [Entry("key", Str("console.write")), Entry("command", value)]
  {
    DispatchFrontendPayloads(i, key, value, ctx);
    if key == "webservice.reloadIframe" {
      DispatchWarns(i, key, value, ctx);
    } else if key == "terminal.terminalMenuItem" {
      DispatchFails(i, key, value, ctx);
    }
  }

  /** The dict each WebIDE instruction sends: an `ide.read` carries the
      state's file under `filename` and the patterns under `patterns`, each
      only when present; `ide.showDeployButton` sends its value. */
  lemma DispatchWireIde(i: nat, key: string, value: Value, ctx: Context)
    requires key == "dashboard.layout" ==> LayoutReadable(ctx.enabled, value)
    requires Dispatch(i, key, value, ctx).Emit?
    ensures key == "ide.patterns" ==>
      && Lookup(PayloadDict(i, key, value, ctx), "key") == Some(Str("ide.read"))
      && Lookup(PayloadDict(i, key, value, ctx), "filename") == ctx.selectFile
      && Lookup(PayloadDict(i, key, value, ctx), "patterns") == Some(value)
    ensures key == "ide.selectFile" ==>
      PayloadDict(i, key, value, ctx) == [Entry("key", Str("ide.read")), Entry("filename", value)]
    ensures key == "ide.showDeployButton" ==>
      PayloadDict(i, key, value, ctx) == [Entry("key", Str("frontend.ide")), Entry("showDeployButton", value)]
  {
    DispatchIdePayloads(i, key, value, ctx);
    if key == "ide.selectFile" {
      DispatchSkips(i, key, value, ctx);
    }
  }

  /** An entry sets a layout that is not enabled, or a menu item other than
      `terminal` and `console`. */
  predicate BadInstruction(e: Entry, enabled: Option<Value>)
    requires e.key == "dashboard.layout" ==> LayoutReadable(enabled, e.val)
  {
    (e.key == "dashboard.layout" && !Contains(e.val, enabled.value))
    || (e.key == "terminal.terminalMenuItem" && !IsMenuItem(e.val))
  }

  /** What an entry of state number `i` logs, read off the chain's error and
      warning branches. */
  function EntryLog(i: nat, e: Entry, enabled: Option<Value>): seq<Diagnostic>
    requires e.key == "dashboard.layout" ==> LayoutReadable(enabled, e.val)
  {
    if BadInstruction(e, enabled) then
      [Diagnostic(Error, if e.key == "dashboard.layout" then DisabledLayout(i, e.val) else InvalidStateMenuItem(i, e.val))]
    else if Unsupported(e.key, e.val) then
      [Diagnostic(Warning, UnsupportedInstruction(i, e.key, e.val))]
    else []
  }

  /** The chain does not test for the key, or it is a `webservice.reloadIframe`
      other than `True`. */
  predicate Unsupported(key: string, value: Value) {
    !Known(key) || (key == "webservice.reloadIframe" && !Eq(value, Bool(true)))
  }

  /** Which lines an entry logs, one kind of line at a time. */
  lemma EntryLogged(i: nat, e: Entry, enabled: Option<Value>, n: nat, key: string, v: Value)
    requires e.key == "dashboard.layout" ==> LayoutReadable(enabled, e.val)
    ensures Diagnostic(Error, DisabledLayout(n, v)) in EntryLog(i, e, enabled) <==>
      n == i && e == Entry("dashboard.layout", v) && !Contains(v, enabled.value)
    ensures Diagnostic(Error, InvalidStateMenuItem(n, v)) in EntryLog(i, e, enabled) <==>
      n == i && e == Entry("terminal.terminalMenuItem", v) && !IsMenuItem(v)
    ensures Diagnostic(Warning, UnsupportedInstruction(n, key, v)) in EntryLog(i, e, enabled) <==>
      n == i && e == Entry(key, v) && Unsupported(key, v)
  {
    ClassifyUnknown(e.key);
    ClassifyLayout(e.key);
    ClassifyMenuItem(e.key);
  }

  /** A key logs what `EntryLog` says, and fails exactly on a bad instruction. */
  lemma DispatchLogs(i: nat, key: string, value: Value, ctx: Context)
    requires key == "dashboard.layout" ==> LayoutReadable(ctx.enabled, value)
    ensures Logged(Dispatch(i, key, value, ctx)) == EntryLog(i, Entry(key, value), ctx.enabled)
    ensures Dispatch(i, key, value, ctx).Fail? <==> BadInstruction(Entry(key, value), ctx.enabled)
  {
    DispatchFails(i, key, value, ctx);
    DispatchWarns(i, key, value, ctx);
  }
}
