/**
 * The retryable verification of one locally stored image: normalise the received source, inspect and
 * stamp the output, mark it verified, remove the source. Any stage may fail or the process may stop
 * there; the deletions made to recover are taken to succeed.
 */
module LocalVerification {
  import opened Prelude

  datatype Output = Output(mtime: Time, valid: bool)

  /** The files of one public id: the received source by its receipt time, the output, the marker. */
  datatype Files = Files(source: Option<Time>, output: Option<Output>, marker: bool)

  function Received(at: Time): Files { Files(Some(at), None, false) }

  /** `StorageFault` is the adapter's own error, `OtherFault` anything else a call may throw. */
  datatype Fault = Fine | StorageFault | OtherFault | Stopped

  /**
   * What happens at each stage of one pass: `written` is what the normaliser produced, left behind on
   * a fault if `leaves`; `marked` says a failing mark was made all the same.
   */
  datatype Stages = Stages(
    normalize: Fault, written: Output, leaves: bool, inspect: Fault, stamp: Fault,
    mark: Fault, marked: bool, look: Fault, remove: Fault)

  datatype Outcome = Verified(createdAt: Time) | NotFound | Failed

  function Recovered(f: Files): Files {
    f.(output := None, marker := false)
  }

  /** An inspection turns every error, and an output that breaks policy, into the adapter's own error. */
  function Inspected(f: Files, st: Stages): Fault
    requires f.output.Some?
  {
    if st.inspect.Stopped? then Stopped
    else if !st.inspect.Fine? || !f.output.value.valid then StorageFault
    else Fine
  }

  function Stamped(f: Files): Files
    requires f.output.Some? && f.source.Some?
  {
    f.(output := Some(f.output.value.(mtime := f.source.value)))
  }

  function Marked(f: Files, st: Stages): Files {
    f.(marker := f.marker || st.mark.Fine? || st.marked)
  }

  /** How a pass over an existing output goes up to the removal of the source: the files and any fault. */
  function Recheck(f: Files, st: Stages): (Files, Fault)
    requires f.output.Some?
  {
    if !Inspected(f, st).Fine? then (f, Inspected(f, st))
    else if f.source.Some? && !st.stamp.Fine? then (f, st.stamp)
    else
      var f1 := if f.source.Some? then Stamped(f) else f;
      var f2 := Marked(f1, st);
      if !st.mark.Fine? then (f2, st.mark)
      else if f.source.Some? && !st.remove.Fine? then (f2, st.remove)
      else (f2.(source := None), Fine)
  }

  /** How a pass from the source goes up to the marker. */
  function Normalized(f: Files, st: Stages): (Files, Fault)
    requires f.source.Some?
  {
    var f1 := if st.normalize.Fine? || st.leaves then f.(output := Some(st.written)) else f;
    if !st.normalize.Fine? then (f1, st.normalize)
    else if !Inspected(f1, st).Fine? then (f1, Inspected(f1, st))
    else if !st.stamp.Fine? then (f1, st.stamp)
    else (Marked(Stamped(f1), st), st.mark)
  }

  function VerifyFresh(f: Files, st: Stages): (Files, Outcome) {
    if f.source.None? then (f, NotFound)
    else
      var (f1, fault) := Normalized(f, st);
      if fault.Stopped? then (f1, Failed)
      else if !fault.Fine? then (Recovered(f1), Failed)
      else if !st.look.Fine? || !st.remove.Fine? then (f1, Failed)
      else (f1.(source := None), Verified(f.source.value))
  }

  /** One call: `first` for the pass it starts with, `second` for the one it may fall back to. */
  function VerifyLocked(f: Files, first: Stages, second: Stages): (Files, Outcome) {
    if f.output.None? then VerifyFresh(f, first)
    else
      var (f1, fault) := Recheck(f, first);
      if fault.Fine? then (f1, Verified(if f.source.Some? then f.source.value else f.output.value.mtime))
      else if fault.StorageFault? && f.source.Some? then VerifyFresh(Recovered(f1), second)
      else (f1, Failed)
  }

  // ---- Retry stability ------------------------------------------------------------------------------------

  /**
   * For a source received at `at`: while it is there it carries that time; a marker stands for a valid
   * output carrying it; and the source is gone only once the marker stands.
   */
  predicate Consistent(f: Files, at: Time) {
    && (f.source.Some? ==> f.source.value == at)
    && (f.marker ==> f.output == Some(Output(at, true)))
    && (f.source.None? ==> f.marker)
  }

  lemma VerifyKeeps(f: Files, at: Time, first: Stages, second: Stages)
    requires Consistent(f, at)
    ensures var (g, outcome) := VerifyLocked(f, first, second);
            && Consistent(g, at)
            && (outcome.Verified? ==> outcome.createdAt == at && g == Files(None, Some(Output(at, true)), true))
            && !outcome.NotFound?
  {
  }

  datatype Call = Call(first: Stages, second: Stages)

  function Calls(f: Files, calls: seq<Call>): Files
    decreases |calls|
  {
    if calls == [] then f else Calls(VerifyLocked(f, calls[0].first, calls[0].second).0, calls[1..])
  }

  lemma {:induction false} CallsKeep(f: Files, at: Time, calls: seq<Call>)
    requires Consistent(f, at)
    ensures Consistent(Calls(f, calls), at)
    decreases |calls|
  {
    hide Consistent, VerifyLocked;
    if calls != [] {
      VerifyKeeps(f, at, calls[0].first, calls[0].second);
      CallsKeep(VerifyLocked(f, calls[0].first, calls[0].second).0, at, calls[1..]);
    }
  }

  /**
   * However often verification of one received source is tried and wherever it fails, every success
   * reports the time of receipt, a marker means a valid output carrying it, and the source is there
   * until the marker is.
   */
  lemma SuccessesAgree(at: Time, before: seq<Call>, call: Call, between: seq<Call>, again: Call)
    ensures var f := Calls(Received(at), before);
            var (g, outcome) := VerifyLocked(f, call.first, call.second);
            var later := VerifyLocked(Calls(g, between), again.first, again.second).1;
            && Consistent(g, at)
            && (outcome.Verified? ==> outcome.createdAt == at)
            && (outcome.Verified? && later.Verified? ==> later == outcome)
  {
    hide Consistent, VerifyLocked;
    assert Consistent(Received(at), at) by { NewSourceIsConsistent(at); }
    CallsKeep(Received(at), at, before);
    var f := Calls(Received(at), before);
    VerifyKeeps(f, at, call.first, call.second);
    var g := VerifyLocked(f, call.first, call.second).0;
    CallsKeep(g, at, between);
    VerifyKeeps(Calls(g, between), at, again.first, again.second);
  }

  lemma NewSourceIsConsistent(at: Time)
    ensures Consistent(Received(at), at)
  {
  }

  const NoTrouble := Stages(Fine, Output(0, true), false, Fine, Fine, Fine, false, Fine, Fine)

  /** And a try that meets no fault always succeeds, whatever earlier ones left behind. */
  lemma TroubleFreeTriesSucceed(at: Time, before: seq<Call>, written: Time)
    ensures var stages := NoTrouble.(written := Output(written, true));
            VerifyLocked(Calls(Received(at), before), stages, stages).1 == Verified(at)
  {
    CallsKeep(Received(at), at, before);
  }

  // ---- One call, stage by stage -------------------------------------------------------------------------------

  /** The first trouble of a pass from the source; a fault or a bad output at inspection is the adapter's own. */
  function FreshTrouble(st: Stages): Fault {
    if !st.normalize.Fine? then st.normalize
    else if st.inspect.Stopped? then Stopped
    else if !st.inspect.Fine? || !st.written.valid then StorageFault
    else if !st.stamp.Fine? then st.stamp
    else st.mark
  }

  /** A pass from a source received at `at`, with nothing there yet. */
  predicate PassesFresh(at: Time, st: Stages, g: Files, outcome: Outcome) {
    var done := Output(at, true);
    match FreshTrouble(st)
    case Stopped => outcome == Failed && g.source == Some(at)
    case Fine =>
      if st.look.Fine? && st.remove.Fine? then outcome == Verified(at) && g == Files(None, Some(done), true)
      else outcome == Failed && g == Files(Some(at), Some(done), true)
    case _ => outcome == Failed && g == Files(Some(at), None, false)
  }

  /** The first trouble of a pass over an output that is there. */
  function RecheckTrouble(f: Files, valid: bool, st: Stages): Fault {
    if st.inspect.Stopped? then Stopped
    else if !st.inspect.Fine? || !valid then StorageFault
    else if f.source.Some? && !st.stamp.Fine? then st.stamp
    else if !st.mark.Fine? then st.mark
    else if f.source.Some? then st.remove
    else Fine
  }

  /** What one call answers and leaves behind, for whatever it finds and whatever goes wrong. */
  predicate VerifiesAs(f: Files, first: Stages, second: Stages, g: Files, outcome: Outcome) {
    match f.output
    case None => if f.source.None? then outcome == NotFound && g == f else !f.marker ==> PassesFresh(f.source.value, first, g, outcome)
    case Some(o) =>
      var trouble := RecheckTrouble(f, o.valid, first);
      var at := if f.source.Some? then f.source.value else o.mtime;
      if trouble.Fine? then outcome == Verified(at) && g == Files(None, Some(Output(at, true)), true)
      else if trouble.StorageFault? && f.source.Some? then PassesFresh(at, second, g, outcome)
      else outcome == Failed && g.source == f.source && g.output.Some? && (f.marker ==> g.marker)
  }

  lemma VerifyInTerms(f: Files, first: Stages, second: Stages)
    ensures VerifiesAs(f, first, second, VerifyLocked(f, first, second).0, VerifyLocked(f, first, second).1)
  {
  }

  // ---- The code ---------------------------------------------------------------------------------------------

  class LocalObject {
    var source: Option<Time>
    var output: Option<Output>
    var marker: bool

    function State(): Files
      reads this
    {
      Files(source, output, marker)
    }

    constructor (at: Time)
      ensures State() == Received(at)
    {
      source, output, marker := Some(at), None, false;
    }

    method EnsureVerifiedMarker(st: Stages) returns (fault: Fault)
      modifies this`marker
      ensures State() == Marked(old(State()), st) && fault == st.mark
      ensures (fault.Fine? || old(marker) ==> marker) && (marker ==> old(marker) || fault.Fine? || st.marked)
      ensures forall at :: Consistent(old(State()), at) && output == Some(Output(at, true)) ==> Consistent(State(), at)
    {
      if st.mark.Fine? || st.marked { marker := true; }
      return st.mark;
    }

    method RemoveOutput()
      modifies this`output, this`marker
      ensures State() == Recovered(old(State()))
    {
      output := None;
      marker := false;
    }

    /** The pass over an existing output; `source` is removed last. */
    method RecheckExisting(st: Stages) returns (fault: Fault)
      requires output.Some?
      modifies this
      ensures (State(), fault) == Recheck(old(State()), st)
      ensures forall at :: Consistent(old(State()), at) ==>
                Consistent(State(), at) && (fault.Fine? ==> State() == Files(None, Some(Output(at, true)), true))
      ensures !fault.Fine? ==> source == old(source) && output.Some?
    {
      fault := Inspected(State(), st);
      if !fault.Fine? { return; }
      if source.Some? {
        if !st.stamp.Fine? { return st.stamp; }
        output := Some(output.value.(mtime := source.value));
      }
      fault := EnsureVerifiedMarker(st);
      if !fault.Fine? { return; }
      if source.Some? {
        if !st.remove.Fine? { return st.remove; }
        source := None;
      }
    }

    method NormalizeSource(st: Stages) returns (fault: Fault)
      requires source.Some?
      modifies this
      ensures (State(), fault) == Normalized(old(State()), st)
      ensures forall at :: Consistent(old(State()), at) && old(output).None? ==>
                Consistent(State(), at) && (fault.Fine? ==> State() == Files(Some(at), Some(Output(at, true)), true))
      ensures source == old(source)
    {
      if st.normalize.Fine? || st.leaves { output := Some(st.written); }
      if !st.normalize.Fine? { return st.normalize; }
      fault := Inspected(State(), st);
      if !fault.Fine? { return; }
      if !st.stamp.Fine? { return st.stamp; }
      output := Some(output.value.(mtime := source.value));
      fault := EnsureVerifiedMarker(st);
    }

    /** The call falls back on itself only after clearing the output, so never more than once. */
    method VerifyUploadedObjectLocked(first: Stages, second: Stages) returns (outcome: Outcome)
      modifies this
      ensures (State(), outcome) == VerifyLocked(old(State()), first, second)
      ensures VerifiesAs(old(State()), first, second, State(), outcome)
      decreases if output.Some? then 1 else 0
    {
      hide VerifiesAs;
      VerifyInTerms(State(), first, second);
      var sourceTime := source;
      if output.Some? {
        var existing := output.value;
        var fault := RecheckExisting(first);
        if fault.Fine? { return Verified(if sourceTime.Some? then sourceTime.value else existing.mtime); }
        if sourceTime.None? || !fault.StorageFault? { return Failed; }
        RemoveOutput();
        outcome := VerifyUploadedObjectLocked(second, second);
        return;
      }
      if source.None? { return NotFound; }
      var fault := NormalizeSource(first);
      if fault.Stopped? { return Failed; }
      if !fault.Fine? {
        RemoveOutput();
        return Failed;
      }
      if !first.look.Fine? || !first.remove.Fine? { return Failed; }
      source := None;
      return Verified(sourceTime.value);
    }
  }
}
