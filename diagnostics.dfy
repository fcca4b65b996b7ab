/** The diagnostics a validation or compile pass reports, in place of the
    process-wide logger: a sequence of (severity, check) pairs in the order
    the checks fire. A check records which test fired and, where the log
    message names them, the key, value or state number involved. */
module Diagnostics {
  import opened Values
  import opened Lists

  datatype Severity = Error | Warning

  datatype Check =
    // validation
    | KeyMismatch(path: seq<string>)             // a reference-schema key missing or of another type
    | MessageSpeedOutOfRange(speed: Value)      // the speed as written, a number or a bool
    | UnknownLayout(layout: Value)               // an entry of enabledLayouts outside the allow-list
    | LayoutNotEnabled(layout: Value)            // dashboard.layout not in enabledLayouts
    | InvalidMenuItem(item: Value)               // terminal.terminalMenuItem
    | MissingDeployButtonText
    | StatesNotList
    | TooFewStates                               // the log text prints no count
    | NoMessages                                 // the log text of this warning names no state
    | MessagesNotList(state: nat)
    // compilation
    | DisabledLayout(state: nat, layout: Value)
    | InvalidStateMenuItem(state: nat, item: Value)
    | UnsupportedInstruction(state: nat, key: string, value: Value)

  datatype Diagnostic = Diagnostic(severity: Severity, check: Check)

  /** Some diagnostic is an error (warnings never count). */
  predicate HasError(ds: seq<Diagnostic>) {
    exists d :: d in ds && d.severity == Error
  }

  /** A loop's diagnostics hold an error exactly when some iteration reported one. */
  lemma ConcatErrors(parts: seq<seq<Diagnostic>>)
    ensures HasError(Concat(parts)) <==> exists j :: 0 <= j < |parts| && HasError(parts[j])
  {
    if HasError(Concat(parts)) {
      var d :| d in Concat(parts) && d.severity == Error;
      ConcatMembers(parts, d);
    }
    if j :| 0 <= j < |parts| && HasError(parts[j]) {
      var d :| d in parts[j] && d.severity == Error;
      ConcatMembers(parts, d);
    }
  }

  /** Appending one log to another: an error in either is an error in both. */
  lemma HasErrorAppend(a: seq<Diagnostic>, b: seq<Diagnostic>)
    ensures HasError(a + b) <==> HasError(a) || HasError(b)
  {
    if HasError(a + b) {
      var d :| d in a + b && d.severity == Error;
      assert d in a || d in b;
    }
    if HasError(a) {
      var d :| d in a && d.severity == Error;
      assert d in a + b;
    }
    if HasError(b) {
      var d :| d in b && d.severity == Error;
      assert d in a + b;
    }
  }
}
