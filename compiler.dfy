/** The action compiler: for each state of the tutorial, numbered from 1,
    one entry step made of the state's message batch followed by one
    payload per recognised instruction key, in the state's key order. An
    invalid layout or menu item is an error and makes the whole result
    `False`; an unknown instruction is a warning. The generated Python text
    is modelled by the structured steps it would contain. */
module Compiler {
  import opened Values
  import opened Lists
  import opened Diagnostics
  import opened Config
  import opened Dispatcher

  /** One statement of an `on_enter_<i>` method. */
  datatype Action =
    | QueueMessages(messages: Value, buttons: Option<Value>)
    | Send(payload: Payload)

  /** The `on_enter_<index>` method generated for one state. */
  datatype EntryStep = EntryStep(index: nat, actions: seq<Action>)

  // ----- what the compiler reads -----

  /** `config['dashboard']['enabledLayouts']`, when it can be read. */
  function EnabledLayouts(config: Value): Option<Value> {
    if HasField(config, "dashboard", "enabledLayouts") then Some(Field(config, "dashboard", "enabledLayouts")) else None
  }

  /** Every `dashboard.layout` instruction of the state can be checked. */
  predicate EntriesReadable(state: seq<Entry>, enabled: Option<Value>) {
    forall j :: 0 <= j < |state| && state[j].key == "dashboard.layout" ==> LayoutReadable(enabled, state[j].val)
  }

  /** Each state is a mapping whose instructions can be checked. */
  predicate StatesReadable(states: seq<Value>, enabled: Option<Value>) {
    forall j :: 0 <= j < |states| ==> states[j].Dict? && EntriesReadable(states[j].entries, enabled)
  }

  /** `config['states']` can be enumerated and every state compiled without raising. */
  predicate Compilable(config: Value) {
    && config.Dict?
    && HasKey(config.entries, "states")
    && IsContainer(Get(config.entries, "states"))
    && StatesReadable(Iter(Get(config.entries, "states")), EnabledLayouts(config))
  }

  function StateList(config: Value): seq<Value>
    requires Compilable(config)
  {
    Iter(Get(config.entries, "states"))
  }

  /** What the dispatch of a key of `state` reads besides the key and its value. */
  function ContextOf(state: seq<Entry>, enabled: Option<Value>): Context {
    Context(Lookup(state, "ide.selectFile"), HasKey(state, "ide.patterns"), enabled)
  }

  // ----- one state -----

  /** The outcomes of the first `k` keys of state number `i`, in key order. */
  function OutcomesUpTo(i: nat, state: seq<Entry>, k: nat, ctx: Context): (r: seq<Outcome>)
    requires k <= |state| && EntriesReadable(state, ctx.enabled)
    ensures |r| == k
  {
    if k == 0 then []
    else OutcomesUpTo(i, state, k - 1, ctx) + [Dispatch(i, state[k - 1].key, state[k - 1].val, ctx)]
  }

  /** The outcome of every key of state number `i`, in the state's key order. */
  function Outcomes(i: nat, state: seq<Entry>, enabled: Option<Value>): (r: seq<Outcome>)
    requires EntriesReadable(state, enabled)
    ensures |r| == |state|
  {
    OutcomesUpTo(i, state, |state|, ContextOf(state, enabled))
  }

  /** Key `j` of the state has the outcome its dispatch gives. */
  lemma {:induction false} OutcomeAt(i: nat, state: seq<Entry>, k: nat, ctx: Context, j: nat)
    requires j < k <= |state| && EntriesReadable(state, ctx.enabled)
    ensures OutcomesUpTo(i, state, k, ctx)[j] == Dispatch(i, state[j].key, state[j].val, ctx)
  {
    if j < k - 1 {
      OutcomeAt(i, state, k - 1, ctx, j);
    }
  }

  lemma OutcomesAt(i: nat, state: seq<Entry>, enabled: Option<Value>, j: nat)
    requires j < |state| && EntriesReadable(state, enabled)
    ensures Outcomes(i, state, enabled)[j] == Dispatch(i, state[j].key, state[j].val, ContextOf(state, enabled))
  {
    OutcomeAt(i, state, |state|, ContextOf(state, enabled), j);
  }

  /** The statement an outcome adds to the generated method. */
  function Sent(o: Outcome): seq<Action> {
    if o.Emit? then [Send(o.payload)] else []
  }

  function SentParts(outs: seq<Outcome>): seq<seq<Action>> {
    seq(|outs|, j requires 0 <= j < |outs| => Sent(outs[j]))
  }

  function LoggedParts(outs: seq<Outcome>): seq<seq<Diagnostic>> {
    seq(|outs|, j requires 0 <= j < |outs| => Logged(outs[j]))
  }

  /** `self.message_sender.queue_messages(messages[, buttons=...])`, when the state has messages. */
  function MessageBatch(state: seq<Entry>): (r: seq<Action>)
    ensures |r| <= 1
    ensures r != [] <==> HasKey(state, "messages")
    ensures r != [] ==> r[0].QueueMessages? && r[0].messages == Get(state, "messages")
    ensures r != [] ==> (r[0].buttons.Some? <==> HasKey(state, "buttons")) && r[0].buttons == Lookup(state, "buttons")
  {
    if HasKey(state, "messages") then [QueueMessages(Get(state, "messages"), Lookup(state, "buttons"))] else []
  }

  /** The payloads of state number `i`, in key order. */
  function Payloads(i: nat, state: seq<Entry>, enabled: Option<Value>): seq<Action>
    requires EntriesReadable(state, enabled)
  {
    Concat(SentParts(Outcomes(i, state, enabled)))
  }

  /** The body of `on_enter_<i>`. */
  function StateActions(i: nat, state: seq<Entry>, enabled: Option<Value>): seq<Action>
    requires EntriesReadable(state, enabled)
  {
    MessageBatch(state) + Payloads(i, state, enabled)
  }

  function StateDiags(i: nat, state: seq<Entry>, enabled: Option<Value>): seq<Diagnostic>
    requires EntriesReadable(state, enabled)
  {
    Concat(LoggedParts(Outcomes(i, state, enabled)))
  }

  /** Some key of state number `i` is an error. */
  predicate StateFails(i: nat, state: seq<Entry>, enabled: Option<Value>)
    requires EntriesReadable(state, enabled)
  {
    exists j :: 0 <= j < |state| && Outcomes(i, state, enabled)[j].Fail?
  }

  // ----- the whole tutorial -----

  /** What compiling one state yields: the body of its `on_enter_<i>`
      method, its log lines, and whether one of its keys is an error. */
  datatype StateResult = StateResult(actions: seq<Action>, diags: seq<Diagnostic>, fails: bool)

  function ResultOf(i: nat, state: seq<Entry>, enabled: Option<Value>): StateResult
    requires EntriesReadable(state, enabled)
  {
    StateResult(StateActions(i, state, enabled), StateDiags(i, state, enabled), StateFails(i, state, enabled))
  }

  /** The result of every state; the state at position `m` is number `m + 1`. */
  function Results(states: seq<Value>, enabled: Option<Value>): (rs: seq<StateResult>)
    requires StatesReadable(states, enabled)
    ensures |rs| == |states|
  {
    seq(|states|, m requires 0 <= m < |states| => ResultOf(m + 1, states[m].entries, enabled))
  }

  /** State `m` is number `m + 1`. */
  lemma ResultAt(states: seq<Value>, enabled: Option<Value>, m: nat)
    requires StatesReadable(states, enabled) && m < |states|
    ensures Results(states, enabled)[m] == ResultOf(m + 1, states[m].entries, enabled)
  {
  }

  /** The `on_enter_<i>` methods of the first `n` states. */
  function StepsUpTo(rs: seq<StateResult>, n: nat): (r: seq<EntryStep>)
    requires n <= |rs|
    ensures |r| == n
  {
    if n == 0 then [] else StepsUpTo(rs, n - 1) + [EntryStep(n, rs[n - 1].actions)]
  }

  /** What compiling the first `n` states logs. */
  function DiagsUpTo(rs: seq<StateResult>, n: nat): seq<Diagnostic>
    requires n <= |rs|
  {
    if n == 0 then [] else DiagsUpTo(rs, n - 1) + rs[n - 1].diags
  }

  /** No key of the first `n` states is an error. */
  predicate CompilesUpTo(rs: seq<StateResult>, n: nat)
    requires n <= |rs|
  {
    n == 0 || (CompilesUpTo(rs, n - 1) && !rs[n - 1].fails)
  }

  function Steps(states: seq<Value>, enabled: Option<Value>): seq<EntryStep>
    requires StatesReadable(states, enabled)
  {
    StepsUpTo(Results(states, enabled), |states|)
  }

  /** Everything the compiler logs, state by state. */
  function CompileDiags(states: seq<Value>, enabled: Option<Value>): seq<Diagnostic>
    requires StatesReadable(states, enabled)
  {
    DiagsUpTo(Results(states, enabled), |states|)
  }

  /** No key of any state is an error. */
  predicate Compiles(states: seq<Value>, enabled: Option<Value>)
    requires StatesReadable(states, enabled)
  {
    CompilesUpTo(Results(states, enabled), |states|)
  }

  /** The generated program, or `None` for the source's `False`. */
  function Program(config: Value): Option<seq<EntryStep>>
    requires Compilable(config)
  {
    var states, enabled := StateList(config), EnabledLayouts(config);
    if Compiles(states, enabled) then Some(Steps(states, enabled)) else None
  }

  // ----- the compiler -----

  /** `get_app_fsm`: the generated program, or `None` for `False`, and the log. */
  method CompileApp(config: Value) returns (program: Option<seq<EntryStep>>, diags: seq<Diagnostic>)
    requires Compilable(config)
    ensures program == Program(config)
    ensures diags == CompileDiags(StateList(config), EnabledLayouts(config))
    ensures program.Some? <==> !HasError(diags)
  {
    var steps, success;
    steps, diags, success := CompileStates(Iter(Get(config.entries, "states")), EnabledLayouts(config));
    program := if success then Some(steps) else None;
  }

  /** The loop over the states, numbered from 1. */
  method CompileStates(states: seq<Value>, enabled: Option<Value>)
      returns (steps: seq<EntryStep>, diags: seq<Diagnostic>, success: bool)
    requires StatesReadable(states, enabled)
    ensures steps == Steps(states, enabled)
    ensures diags == CompileDiags(states, enabled)
    ensures success <==> Compiles(states, enabled)
    ensures success <==> !HasError(diags)
  {
    ghost var rs := Results(states, enabled);
    steps, diags, success := [], [], true;
    var n := 0;
    while n < |states|
      invariant 0 <= n <= |states|
      invariant steps == StepsUpTo(rs, n)
      invariant diags == DiagsUpTo(rs, n)
      invariant success <==> CompilesUpTo(rs, n)
    {
      var i := n + 1;
      var actions, ds, ok := CompileState(i, states[n].entries, enabled);
      ResultAt(states, enabled, n);
      steps := steps + [EntryStep(i, actions)];
      diags := diags + ds;
      success := success && ok;
      n := n + 1;
    }
    ResultsSound(states, enabled);
    DiagsUpToErrors(rs, n);
  }

  /** One `on_enter_<i>` method: the message batch, then the key loop. */
  method CompileState(i: nat, state: seq<Entry>, enabled: Option<Value>)
      returns (actions: seq<Action>, diags: seq<Diagnostic>, ok: bool)
    requires EntriesReadable(state, enabled)
    ensures actions == StateActions(i, state, enabled)
    ensures diags == StateDiags(i, state, enabled)
    ensures ok <==> !StateFails(i, state, enabled)
  {
    var batch: seq<Action> := [];
    if HasKey(state, "messages") {
      if HasKey(state, "buttons") {
        batch := [QueueMessages(Get(state, "messages"), Some(Get(state, "buttons")))];
      } else {
        batch := [QueueMessages(Get(state, "messages"), None)];
      }
    }
    var ctx := ContextOf(state, enabled);
    ghost var outs := Outcomes(i, state, enabled);
    var sends: seq<Action> := [];
    diags, ok := [], true;
    var k := 0;
    while k < |state|
      invariant 0 <= k <= |state|
      invariant sends == Concat(SentParts(outs)[..k])
      invariant diags == Concat(LoggedParts(outs)[..k])
      invariant ok <==> forall j :: 0 <= j < k ==> !outs[j].Fail?
    {
      ConcatSnoc(SentParts(outs), k);
      ConcatSnoc(LoggedParts(outs), k);
      var sent, logged, failed := CompileKey(i, state, enabled, ctx, k);
      sends := sends + sent;
      diags := diags + logged;
      ok := ok && !failed;
      k := k + 1;
    }
    assert SentParts(outs)[..k] == SentParts(outs);
    assert LoggedParts(outs)[..k] == LoggedParts(outs);
    actions := batch + sends;
  }

  /** One pass of the key loop: what key `k` of state number `i` adds to the
      method body and to the log. */
  method CompileKey(i: nat, state: seq<Entry>, enabled: Option<Value>, ctx: Context, k: nat)
      returns (sent: seq<Action>, logged: seq<Diagnostic>, failed: bool)
    requires k < |state| && EntriesReadable(state, enabled) && ctx == ContextOf(state, enabled)
    ensures sent == Sent(Outcomes(i, state, enabled)[k])
    ensures logged == Logged(Outcomes(i, state, enabled)[k])
    ensures failed <==> Outcomes(i, state, enabled)[k].Fail?
  {
    OutcomesAt(i, state, enabled, k);
    var o := Dispatch(i, state[k].key, state[k].val, ctx);
    sent, logged, failed := Sent(o), Logged(o), o.Fail?;
  }

  // ----- lemmas -----

  /** A state's log holds an error exactly when one of its keys failed. */
  lemma StateDiagsErrors(i: nat, state: seq<Entry>, enabled: Option<Value>)
    requires EntriesReadable(state, enabled)
    ensures HasError(StateDiags(i, state, enabled)) <==> StateFails(i, state, enabled)
  {
    var outs := Outcomes(i, state, enabled);
    ConcatErrors(LoggedParts(outs));
    forall j | 0 <= j < |outs|
      ensures HasError(LoggedParts(outs)[j]) <==> outs[j].Fail?
    {
      if outs[j].Fail? { assert LoggedParts(outs)[j][0].severity == Error; }
    }
  }


  /** Each state's log holds an error exactly when the state fails. */
  predicate LogsSound(rs: seq<StateResult>) {
    forall m :: 0 <= m < |rs| ==> (HasError(rs[m].diags) <==> rs[m].fails)
  }

  lemma ResultsSound(states: seq<Value>, enabled: Option<Value>)
    requires StatesReadable(states, enabled)
    ensures LogsSound(Results(states, enabled))
  {
    var rs := Results(states, enabled);
    forall m | 0 <= m < |rs|
      ensures HasError(rs[m].diags) <==> rs[m].fails
    {
      StateDiagsErrors(m + 1, states[m].entries, enabled);
    }
  }

  /** The log of the first `n` states holds an error exactly when one of them failed. */
  lemma {:induction false} DiagsUpToErrors(rs: seq<StateResult>, n: nat)
    requires n <= |rs| && LogsSound(rs)
    ensures HasError(DiagsUpTo(rs, n)) <==> !CompilesUpTo(rs, n)
  {
    if n > 0 {
      DiagsUpToErrors(rs, n - 1);
      HasErrorAppend(DiagsUpTo(rs, n - 1), rs[n - 1].diags);
    }
  }

  // ----- one state -----

  /** A key's outcome only ever sends payloads. */
  lemma SentAreSends(outs: seq<Outcome>)
    ensures forall a :: 0 <= a < |Concat(SentParts(outs))| ==> Concat(SentParts(outs))[a].Send?
  {
    var sent := Concat(SentParts(outs));
    forall a | 0 <= a < |sent|
      ensures sent[a].Send?
    {
      ConcatMembers(SentParts(outs), sent[a]);
    }
  }

  /** The message batch is queued first, and only when the state has
      messages, with the state's buttons when it has them. */
  lemma MessageBatchFirst(i: nat, state: seq<Entry>, enabled: Option<Value>)
    requires EntriesReadable(state, enabled)
    ensures forall a :: 0 <= a < |StateActions(i, state, enabled)| ==>
      (StateActions(i, state, enabled)[a].QueueMessages? <==> a == 0 && HasKey(state, "messages"))
    ensures HasKey(state, "messages") ==>
      StateActions(i, state, enabled)[0] == QueueMessages(Get(state, "messages"), Lookup(state, "buttons"))
  {
    var sent := Concat(SentParts(Outcomes(i, state, enabled)));
    SentAreSends(Outcomes(i, state, enabled));
    QueuedFirst(MessageBatch(state), sent);
  }

  /** A batch of at most one queued message before some sends is the only
      queued message, at the front. */
  lemma QueuedFirst(batch: seq<Action>, sent: seq<Action>)
    requires |batch| <= 1 && forall a :: 0 <= a < |batch| ==> batch[a].QueueMessages?
    requires forall a :: 0 <= a < |sent| ==> sent[a].Send?
    ensures forall a :: 0 <= a < |batch + sent| ==> ((batch + sent)[a].QueueMessages? <==> a == 0 && |batch| == 1)
  {
    forall a | 0 <= a < |batch + sent|
      ensures (batch + sent)[a].QueueMessages? <==> a == 0 && |batch| == 1
    {
      if a >= |batch| {
        assert (batch + sent)[a] == sent[a - |batch|];
      }
    }
  }

  /** A payload is sent exactly when one of the state's keys emits it. */
  lemma PayloadSent(i: nat, state: seq<Entry>, enabled: Option<Value>, p: Payload)
    requires EntriesReadable(state, enabled)
    ensures Send(p) in StateActions(i, state, enabled) <==>
      exists j :: 0 <= j < |state| && Outcomes(i, state, enabled)[j] == Emit(p)
  {
    var outs := Outcomes(i, state, enabled);
    ConcatMembers(SentParts(outs), Send(p));
    if j :| 0 <= j < |state| && outs[j] == Emit(p) {
      assert Send(p) in SentParts(outs)[j];
    }
  }

  /** Payloads are sent in the order of the keys that emit them. */
  lemma PayloadOrder(i: nat, state: seq<Entry>, enabled: Option<Value>, j1: nat, j2: nat)
    requires EntriesReadable(state, enabled) && j1 < j2 < |state|
    requires Outcomes(i, state, enabled)[j1].Emit? && Outcomes(i, state, enabled)[j2].Emit?
    ensures exists a1, a2 ::
      && 0 <= a1 < a2 < |StateActions(i, state, enabled)|
      && StateActions(i, state, enabled)[a1] == Send(Outcomes(i, state, enabled)[j1].payload)
      && StateActions(i, state, enabled)[a2] == Send(Outcomes(i, state, enabled)[j2].payload)
  {
    var outs := Outcomes(i, state, enabled);
    var batch := MessageBatch(state);
    var x, y := Send(outs[j1].payload), Send(outs[j2].payload);
    assert x in SentParts(outs)[j1] && y in SentParts(outs)[j2];
    ConcatOrder(SentParts(outs), j1, j2, x, y);
    var sent := Concat(SentParts(outs));
    var a1, a2 :| 0 <= a1 < a2 < |sent| && sent[a1] == x && sent[a2] == y;
    var acts := StateActions(i, state, enabled);
    assert acts == batch + sent;
    assert acts[|batch| + a1] == x && acts[|batch| + a2] == y;
  }

  // ----- the ide.read request of a state -----

  predicate IsRead(a: Action) {
    a.Send? && a.payload.IdeRead?
  }

  predicate SendsRead(o: Outcome) {
    o.Emit? && o.payload.IdeRead?
  }

  /** The number of `ide.read` payloads among some actions. */
  function CountReads(acts: seq<Action>): nat {
    if acts == [] then 0 else CountReads(acts[..|acts| - 1]) + (if IsRead(acts[|acts| - 1]) then 1 else 0)
  }

  /** The number of outcomes that send an `ide.read` payload. */
  function ReadCount(outs: seq<Outcome>): nat {
    if outs == [] then 0 else ReadCount(outs[..|outs| - 1]) + (if SendsRead(outs[|outs| - 1]) then 1 else 0)
  }

  lemma {:induction false} CountReadsAppend(a: seq<Action>, b: seq<Action>)
    ensures CountReads(a + b) == CountReads(a) + CountReads(b)
    decreases |b|
  {
    if b == [] {
      assert a + b == a;
    } else {
      var n := |b| - 1;
      assert (a + b)[..|a + b| - 1] == a + b[..n];
      assert (a + b)[|a + b| - 1] == b[n];
      CountReadsAppend(a, b[..n]);
    }
  }

  lemma {:induction false} CountSent(outs: seq<Outcome>)
    ensures CountReads(Concat(SentParts(outs))) == ReadCount(outs)
  {
    if outs != [] {
      var n := |outs| - 1;
      assert SentParts(outs)[..n] == SentParts(outs[..n]);
      CountSent(outs[..n]);
      CountReadsAppend(Concat(SentParts(outs[..n])), Sent(outs[n]));
    }
  }

  /** Outcomes of which only the one at `r` (if any) sends a read hold that many reads. */
  lemma {:induction false} ReadCountUnique(outs: seq<Outcome>, r: int)
    requires forall j :: 0 <= j < |outs| ==> (SendsRead(outs[j]) <==> j == r)
    ensures ReadCount(outs) == if 0 <= r < |outs| then 1 else 0
  {
    if outs != [] {
      var n := |outs| - 1;
      assert forall j :: 0 <= j < n ==> outs[..n][j] == outs[j];
      ReadCountUnique(outs[..n], r);
    }
  }

  /** Which keys of a state send an `ide.read`, and what it carries. */
  lemma ReadAt(i: nat, state: seq<Entry>, enabled: Option<Value>, j: nat)
    requires EntriesReadable(state, enabled) && j < |state|
    ensures SendsRead(Outcomes(i, state, enabled)[j]) <==>
      state[j].key == "ide.patterns" || (state[j].key == "ide.selectFile" && !HasKey(state, "ide.patterns"))
    ensures state[j].key == "ide.patterns" ==>
      Outcomes(i, state, enabled)[j] == Emit(IdeRead(Lookup(state, "ide.selectFile"), Some(state[j].val)))
    ensures state[j].key == "ide.selectFile" && !HasKey(state, "ide.patterns") ==>
      Outcomes(i, state, enabled)[j] == Emit(IdeRead(Some(state[j].val), None))
  {
    OutcomesAt(i, state, enabled, j);
    DispatchReads(i, state[j].key, state[j].val, ContextOf(state, enabled));
    DispatchIdePayloads(i, state[j].key, state[j].val, ContextOf(state, enabled));
  }

  /** The one entry of a state (if any) whose key sends its `ide.read`:
      `ide.patterns` when present, else `ide.selectFile`; -1 when neither. */
  lemma ReadingEntry(i: nat, state: seq<Entry>, enabled: Option<Value>) returns (r: int)
    requires EntriesReadable(state, enabled) && DistinctKeys(state)
    ensures -1 <= r < |state|
    ensures r >= 0 <==> HasKey(state, "ide.patterns") || HasKey(state, "ide.selectFile")
    ensures r >= 0 ==>
      Outcomes(i, state, enabled)[r] == Emit(IdeRead(Lookup(state, "ide.selectFile"), Lookup(state, "ide.patterns")))
    ensures forall j :: 0 <= j < |state| ==> (SendsRead(Outcomes(i, state, enabled)[j]) <==> j == r)
  {
    var outs := Outcomes(i, state, enabled);
    r := -1;
    if HasKey(state, "ide.patterns") {
      r := HasKeyWitness(state, "ide.patterns");
    } else if HasKey(state, "ide.selectFile") {
      r := HasKeyWitness(state, "ide.selectFile");
    }
    forall j | 0 <= j < |state|
      ensures SendsRead(outs[j]) <==> j == r
    {
      ReadAt(i, state, enabled, j);
      HasKeyAt(state, j);
      if r >= 0 && state[j].key == state[r].key {
        DistinctKeysAt(state, j, r);
      }
    }
    if r >= 0 {
      ReadAt(i, state, enabled, r);
      LookupAt(state, r);
    }
  }

  /** A state with `ide.patterns`, `ide.selectFile` or both sends exactly one
      `ide.read`, carrying the state's file and patterns; a state with
      neither sends none. */
  lemma IdeReadOnce(i: nat, state: seq<Entry>, enabled: Option<Value>)
    requires EntriesReadable(state, enabled) && DistinctKeys(state)
    ensures CountReads(StateActions(i, state, enabled)) ==
      if HasKey(state, "ide.patterns") || HasKey(state, "ide.selectFile") then 1 else 0
    ensures HasKey(state, "ide.patterns") || HasKey(state, "ide.selectFile") ==>
      Send(IdeRead(Lookup(state, "ide.selectFile"), Lookup(state, "ide.patterns"))) in StateActions(i, state, enabled)
  {
    var outs := Outcomes(i, state, enabled);
    var r := ReadingEntry(i, state, enabled);
    ReadCountUnique(outs, r);
    CountSent(outs);
    var batch := MessageBatch(state);
    CountReadsAppend(batch, Concat(SentParts(outs)));
    assert CountReads(batch) == 0 by {
      if batch != [] {
        assert batch[..0] == [];
      }
    }
    if r >= 0 {
      PayloadSent(i, state, enabled, outs[r].payload);
    }
  }


  // ----- the whole tutorial, state by state -----

  /** The `m`-th of the first `n` methods is state number `m + 1`'s. */
  lemma {:induction false} StepsUpToAt(rs: seq<StateResult>, n: nat, m: nat)
    requires m < n <= |rs|
    ensures StepsUpTo(rs, n)[m] == EntryStep(m + 1, rs[m].actions)
  {
    if m < n - 1 {
      StepsUpToAt(rs, n - 1, m);
    }
  }

  /** What state `m` logs is in the log of the first `n` states. */
  lemma {:induction false} DiagsUpToHas(rs: seq<StateResult>, n: nat, m: nat, d: Diagnostic)
    requires m < n <= |rs| && d in rs[m].diags
    ensures d in DiagsUpTo(rs, n)
  {
    if m < n - 1 {
      DiagsUpToHas(rs, n - 1, m, d);
    }
  }

  /** A line of the log of the first `n` states comes from one of them. */
  lemma {:induction false} DiagsUpToSource(rs: seq<StateResult>, n: nat, d: Diagnostic) returns (m: nat)
    requires n <= |rs| && d in DiagsUpTo(rs, n)
    ensures m < n && d in rs[m].diags
  {
    if d in DiagsUpTo(rs, n - 1) {
      m := DiagsUpToSource(rs, n - 1, d);
    } else {
      m := n - 1;
    }
  }

  /** The first `n` states compile exactly when none of them fails. */
  lemma {:induction false} CompilesUpToAll(rs: seq<StateResult>, n: nat)
    requires n <= |rs|
    ensures CompilesUpTo(rs, n) <==> forall m :: 0 <= m < n ==> !rs[m].fails
  {
    if n > 0 {
      CompilesUpToAll(rs, n - 1);
    }
  }

  /** One `on_enter_<n>` method per state, numbered from 1 in state order. */
  lemma StepsShape(states: seq<Value>, enabled: Option<Value>)
    requires StatesReadable(states, enabled)
    ensures |Steps(states, enabled)| == |states|
    ensures forall m :: 0 <= m < |states| ==>
      Steps(states, enabled)[m] == EntryStep(m + 1, StateActions(m + 1, states[m].entries, enabled))
  {
    var rs := Results(states, enabled);
    forall m | 0 <= m < |states|
      ensures Steps(states, enabled)[m] == EntryStep(m + 1, StateActions(m + 1, states[m].entries, enabled))
    {
      StepsUpToAt(rs, |states|, m);
      ResultAt(states, enabled, m);
    }
  }

  /** Each key logs exactly what `EntryLog` says. */
  lemma LoggedExactly(i: nat, state: seq<Entry>, enabled: Option<Value>, j: nat)
    requires EntriesReadable(state, enabled) && j < |state|
    ensures Logged(Outcomes(i, state, enabled)[j]) == EntryLog(i, state[j], enabled)
    ensures Outcomes(i, state, enabled)[j].Fail? <==> BadInstruction(state[j], enabled)
  {
    OutcomesAt(i, state, enabled, j);
    DispatchLogs(i, state[j].key, state[j].val, ContextOf(state, enabled));
  }

  /** A diagnostic in a state's log comes from one of its keys. */
  lemma LoggedSource(outs: seq<Outcome>, d: Diagnostic) returns (j: nat)
    requires d in Concat(LoggedParts(outs))
    ensures j < |outs| && d in Logged(outs[j])
  {
    ConcatMembers(LoggedParts(outs), d);
    j :| 0 <= j < |outs| && d in LoggedParts(outs)[j];
  }

  /** What one key logs is in its state's log. */
  lemma LoggedReported(outs: seq<Outcome>, j: nat, d: Diagnostic)
    requires j < |outs| && d in Logged(outs[j])
    ensures d in Concat(LoggedParts(outs))
  {
    assert d in LoggedParts(outs)[j];
    ConcatMembers(LoggedParts(outs), d);
  }

  /** Every line of the compile log comes from one entry of one state. */
  lemma DiagSource(states: seq<Value>, enabled: Option<Value>, d: Diagnostic) returns (m: nat, j: nat)
    requires StatesReadable(states, enabled) && d in CompileDiags(states, enabled)
    ensures m < |states| && j < |states[m].entries|
    ensures d in EntryLog(m + 1, states[m].entries[j], enabled)
  {
    var rs := Results(states, enabled);
    m := DiagsUpToSource(rs, |states|, d);
    ResultAt(states, enabled, m);
    j := LoggedSource(Outcomes(m + 1, states[m].entries, enabled), d);
    LoggedExactly(m + 1, states[m].entries, enabled, j);
  }

  /** What any entry of any state logs is in the compile log: a failing key
      does not stop the compiler. */
  lemma DiagReported(states: seq<Value>, enabled: Option<Value>, m: nat, j: nat, d: Diagnostic)
    requires StatesReadable(states, enabled) && m < |states| && j < |states[m].entries|
    requires d in EntryLog(m + 1, states[m].entries[j], enabled)
    ensures d in CompileDiags(states, enabled)
  {
    var rs := Results(states, enabled);
    LoggedExactly(m + 1, states[m].entries, enabled, j);
    LoggedReported(Outcomes(m + 1, states[m].entries, enabled), j, d);
    ResultAt(states, enabled, m);
    DiagsUpToHas(rs, |states|, m, d);
  }

  /** A state fails exactly when one of its entries is a bad instruction. */
  lemma StateFailsExactly(i: nat, state: seq<Entry>, enabled: Option<Value>)
    requires EntriesReadable(state, enabled)
    ensures StateFails(i, state, enabled) <==> exists j :: 0 <= j < |state| && BadInstruction(state[j], enabled)
  {
    forall j | 0 <= j < |state|
      ensures Outcomes(i, state, enabled)[j].Fail? <==> BadInstruction(state[j], enabled)
    {
      LoggedExactly(i, state, enabled, j);
    }
  }

  /** `get_app_fsm` returns a program exactly when no entry of any state is
      a bad instruction, and the program is then the states' methods. */
  lemma CompilesExactly(config: Value)
    requires Compilable(config)
    ensures Program(config).Some? <==>
      forall m, j :: 0 <= m < |StateList(config)| && 0 <= j < |StateList(config)[m].entries| ==>
        !BadInstruction(StateList(config)[m].entries[j], EnabledLayouts(config))
    ensures Program(config).Some? ==> Program(config).value == Steps(StateList(config), EnabledLayouts(config))
  {
    var states, enabled := StateList(config), EnabledLayouts(config);
    var rs := Results(states, enabled);
    CompilesUpToAll(rs, |states|);
    forall m | 0 <= m < |states|
      ensures rs[m].fails <==> exists j :: 0 <= j < |states[m].entries| && BadInstruction(states[m].entries[j], enabled)
    {
      ResultAt(states, enabled, m);
      StateFailsExactly(m + 1, states[m].entries, enabled);
    }
  }

  /** State number `m + 1` is reported for an entry `dashboard.layout: v`
      with a layout that is not enabled, and only then. */
  lemma DisabledLayoutReported(states: seq<Value>, enabled: Option<Value>, m: nat, v: Value)
    requires StatesReadable(states, enabled) && m < |states|
    ensures Diagnostic(Error, DisabledLayout(m + 1, v)) in CompileDiags(states, enabled) <==>
      exists j :: 0 <= j < |states[m].entries| && states[m].entries[j] == Entry("dashboard.layout", v) && !Contains(v, enabled.value)
  {
    var d := Diagnostic(Error, DisabledLayout(m + 1, v));
    if d in CompileDiags(states, enabled) {
      var m', j := DiagSource(states, enabled, d);
      EntryLogged(m' + 1, states[m'].entries[j], enabled, m + 1, "dashboard.layout", v);
    }
    if j :| 0 <= j < |states[m].entries| && states[m].entries[j] == Entry("dashboard.layout", v) && !Contains(v, enabled.value) {
      EntryLogged(m + 1, states[m].entries[j], enabled, m + 1, "dashboard.layout", v);
      DiagReported(states, enabled, m, j, d);
    }
  }

  /** State number `m + 1` is reported for an entry `terminal.terminalMenuItem: v`
      with an item other than `terminal` and `console`, and only then. */
  lemma InvalidMenuItemReported(states: seq<Value>, enabled: Option<Value>, m: nat, v: Value)
    requires StatesReadable(states, enabled) && m < |states|
    ensures Diagnostic(Error, InvalidStateMenuItem(m + 1, v)) in CompileDiags(states, enabled) <==>
      exists j :: 0 <= j < |states[m].entries| && states[m].entries[j] == Entry("terminal.terminalMenuItem", v) && !IsMenuItem(v)
  {
    var d := Diagnostic(Error, InvalidStateMenuItem(m + 1, v));
    if d in CompileDiags(states, enabled) {
      var m', j := DiagSource(states, enabled, d);
      EntryLogged(m' + 1, states[m'].entries[j], enabled, m + 1, "terminal.terminalMenuItem", v);
    }
    if j :| 0 <= j < |states[m].entries| && states[m].entries[j] == Entry("terminal.terminalMenuItem", v) && !IsMenuItem(v) {
      EntryLogged(m + 1, states[m].entries[j], enabled, m + 1, "terminal.terminalMenuItem", v);
      DiagReported(states, enabled, m, j, d);
    }
  }

  /** State number `m + 1` is warned about for an entry `key: v` the chain
      does not test for, or a `webservice.reloadIframe` other than `True`,
      and only then. */
  lemma UnsupportedReported(states: seq<Value>, enabled: Option<Value>, m: nat, key: string, v: Value)
    requires StatesReadable(states, enabled) && m < |states|
    ensures Diagnostic(Warning, UnsupportedInstruction(m + 1, key, v)) in CompileDiags(states, enabled) <==>
      exists j :: 0 <= j < |states[m].entries| && states[m].entries[j] == Entry(key, v) && Unsupported(key, v)
  {
    var d := Diagnostic(Warning, UnsupportedInstruction(m + 1, key, v));
    if d in CompileDiags(states, enabled) {
      var m', j := DiagSource(states, enabled, d);
      EntryLogged(m' + 1, states[m'].entries[j], enabled, m + 1, key, v);
    }
    if j :| 0 <= j < |states[m].entries| && states[m].entries[j] == Entry(key, v) && Unsupported(key, v) {
      EntryLogged(m + 1, states[m].entries[j], enabled, m + 1, key, v);
      DiagReported(states, enabled, m, j, d);
    }
  }
}
