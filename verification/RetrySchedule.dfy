// When scans collect which source: due times, back-off after failures, and the
// coupling of CISA KEV to the security source, over whole sequences of scans.
module RetrySchedule {
  import opened Wrappers
  import opened Records
  import opened ScanResolution
  import opened ScanAssembly
  import opened ScanGeneration

  // What the collectors would return in one scan, in slice order.
  type Collected = c: seq<SourceOutcome> | |c| == |SLICES| witness seq(|SLICES|, _ => NotApplicableOutcome(SourceName.Omarchy))

  datatype Run = Run(force: bool, enableCisaKev: bool, now: Instant, collected: Collected)

  datatype Runs = NoRun | AfterRun(earlier: Runs, run: Run)

  function NotApplicableOutcome(source: SourceName): SourceOutcome {
    SourceOutcome(source, None, NotApplicable, Live, [], [], None, false, false)
  }

  predicate SourceDue(metadata: seq<SourceMetadata>, source: SourceName, run: Run) {
    Due(FindMetadata(metadata, source), run.now, run.force)
  }

  // Security evidence and the KEV catalogue are collected together; when KEV is
  // switched off its outcome is "not applicable" in every scan.
  function SecurityInputs(metadata: seq<SourceMetadata>, run: Run): (Option<SourceOutcome>, Option<SourceOutcome>) {
    var security := SourceDue(metadata, SourceName.Security, run);
    var cisa := SourceDue(metadata, SourceName.CisaKev, run);
    if !run.enableCisaKev then
      (if security then Some(run.collected[6]) else None, Some(NotApplicableOutcome(SourceName.CisaKev)))
    else if !security && !cisa then (None, None)
    else (Some(run.collected[6]), Some(run.collected[7]))
  }

  function RunInputs(metadata: seq<SourceMetadata>, run: Run): (r: ScanInputs)
    ensures |r| == |SLICES|
  {
    var when := (source: SourceName, k: nat) requires k < |SLICES| =>
      if SourceDue(metadata, source, run) then Some(run.collected[k]) else None;
    var (security, cisa) := SecurityInputs(metadata, run);
    [when(SourceName.Omarchy, 0), when(SourceName.Arch, 1), when(SourceName.Aur, 2),
     when(SourceName.Flatpak, 3), when(SourceName.Flatpak, 4), when(SourceName.Mise, 5), security, cisa]
  }

  // The metadata stored after a sequence of scans.
  function Stored(runs: Runs): (r: seq<SourceMetadata>)
    ensures CountsValid(r)
  {
    match runs
    case NoRun => []
    case AfterRun(earlier, run) =>
      var before := Stored(earlier);
      Metadata(before, RunInputs(before, run), run.now)
  }

  // The schedule as seen from outside

  function LastInputs(runs: Runs, source: SourceName): seq<Option<SourceOutcome>>
    requires runs.AfterRun?
  {
    InputsOf(RunInputs(Stored(runs.earlier), runs.run), source)
  }

  predicate Attempts(runs: Runs, source: SourceName)
    requires runs.AfterRun?
  {
    exists o :: o in LastInputs(runs, source) && o.Some?
  }

  predicate Succeeds(runs: Runs, source: SourceName)
    requires runs.AfterRun?
  {
    forall o :: o in LastInputs(runs, source) && o.Some? ==> Successful(o.value)
  }

  // Failed attempts since the last success.
  function Failures(runs: Runs, source: SourceName): nat {
    if runs.NoRun? then 0
    else if !Attempts(runs, source) then Failures(runs.earlier, source)
    else if Succeeds(runs, source) then 0
    else Failures(runs.earlier, source) + 1
  }

  function LastAttempt(runs: Runs, source: SourceName): Option<Instant> {
    if runs.NoRun? then None
    else if Attempts(runs, source) then Some(runs.run.now)
    else LastAttempt(runs.earlier, source)
  }

  function LastSuccess(runs: Runs, source: SourceName): Option<Instant> {
    if runs.NoRun? then None
    else if Attempts(runs, source) && Succeeds(runs, source) then Some(runs.run.now)
    else LastSuccess(runs.earlier, source)
  }

  lemma {:induction false} AttemptedMembers(inputs: seq<Option<SourceOutcome>>)
    ensures Attempted(inputs) != [] <==> exists o :: o in inputs && o.Some?
    ensures FirstFailure(Attempted(inputs)).None? <==> forall o :: o in inputs && o.Some? ==> Successful(o.value)
  {
    if inputs != [] {
      AttemptedMembers(inputs[1..]);
      var rest := Attempted(inputs[1..]);
      assert inputs == [inputs[0]] + inputs[1..];
      if inputs[0].Some? {
        assert Attempted(inputs) == [inputs[0].value] + rest;
        assert ([inputs[0].value] + rest)[1..] == rest;
      } else {
        assert Attempted(inputs) == rest;
      }
    }
  }

  lemma MetadataFound(previous: seq<SourceMetadata>, inputs: ScanInputs, now: Instant, source: SourceName)
    requires |inputs| == |SLICES| && CountsValid(previous)
    ensures FindMetadata(Metadata(previous, inputs, now), source)
         == Some(NextMetadata(source, InputsOf(inputs, source), FindMetadata(previous, source), now))
  {
    var after := Metadata(previous, inputs, now);
    forall i | 0 <= i < |SOURCES|
      ensures after[i].source == SOURCES[i]
    {
    }
    FindAt(after, source);
  }

  lemma FindAt(after: seq<SourceMetadata>, source: SourceName)
    requires |after| == |SOURCES| && forall i :: 0 <= i < |SOURCES| ==> after[i].source == SOURCES[i]
    ensures exists i :: 0 <= i < |SOURCES| && SOURCES[i] == source && FindMetadata(after, source) == Some(after[i])
  {
    assert after == [after[0]] + [after[1]] + [after[2]] + [after[3]] + [after[4]] + [after[5]] + [after[6]];
    FindEach(after, source);
    match source {
      case Omarchy => assert SOURCES[0] == source;
      case Arch => assert SOURCES[1] == source;
      case Aur => assert SOURCES[2] == source;
      case Flatpak => assert SOURCES[3] == source;
      case Mise => assert SOURCES[4] == source;
      case Security => assert SOURCES[5] == source;
      case CisaKev => assert SOURCES[6] == source;
    }
  }

  lemma {:induction false} FindEach(after: seq<SourceMetadata>, source: SourceName)
    requires forall i, j :: 0 <= i < j < |after| ==> after[i].source != after[j].source
    ensures forall i :: 0 <= i < |after| && after[i].source == source ==> FindMetadata(after, source) == Some(after[i])
  {
    if after != [] && after[0].source != source {
      FindEach(after[1..], source);
      forall i | 0 <= i < |after| && after[i].source == source
        ensures FindMetadata(after, source) == Some(after[i])
      {
        assert after[1..][i - 1] == after[i];
      }
    }
  }

  // Whether the failure that ended the last failed attempt was a permanent one.
  function Permanent(runs: Runs, source: SourceName): bool {
    if runs.NoRun? then false
    else if !Attempts(runs, source) then Permanent(runs.earlier, source)
    else
      var failure := FirstFailure(Attempted(LastInputs(runs, source)));
      failure.Some? && failure.value.permanent
  }

  // How long a source waits after so many failures in a row.
  function Wait(failures: nat, permanent: bool): (d: int)
    requires failures > 0
    ensures 5 * MINUTE <= d <= 6 * HOUR
  {
    if permanent then 6 * HOUR
    else if failures == 1 then 5 * MINUTE
    else if failures == 2 then 15 * MINUTE
    else if failures == 3 then HOUR
    else 6 * HOUR
  }

  // What is stored for a source after any sequence of scans.
  ghost predicate Recorded(found: Option<SourceMetadata>, runs: Runs, source: SourceName) {
    if runs.NoRun? then found.None?
    else
      found.Some? && Holds(found.value, Failures(runs, source), Permanent(runs, source),
                           LastAttempt(runs, source), LastSuccess(runs, source))
  }

  predicate Holds(m: SourceMetadata, failures: nat, permanent: bool, attempt: Option<Instant>,
                  success: Option<Instant>) {
    && m.failureCount == failures && m.lastSuccess == success && m.permanentFailure == permanent
    && (failures == 0 ==> attempt == success && m.backoffUntil.None?)
    && (failures > 0 ==>
          && attempt.Some?
          && m.backoffUntil == Some(attempt.value + Wait(failures, permanent)))
  }

  lemma NextHolds(source: SourceName, current: seq<Option<SourceOutcome>>, before: Option<SourceMetadata>, now: Instant,
                  failures: nat, permanent: bool, attempt: Option<Instant>, success: Option<Instant>)
    requires if before.Some? then Holds(before.value, failures, permanent, attempt, success)
             else failures == 0 && !permanent && attempt.None? && success.None?
    ensures before.Some? ==> before.value.failureCount >= 0
    ensures var m := NextMetadata(source, current, before, now);
            var failure := FirstFailure(Attempted(current));
            if Attempted(current) == [] then Holds(m, failures, permanent, attempt, success)
            else if failure.None? then Holds(m, 0, false, Some(now), Some(now))
            else Holds(m, failures + 1, failure.value.permanent, Some(now), success)
  {
  }

  lemma RecordedStep(runs: Runs, source: SourceName, before: Option<SourceMetadata>)
    requires runs.AfterRun? && Recorded(before, runs.earlier, source)
    requires before.Some? ==> before.value.failureCount >= 0
    ensures Recorded(Some(NextMetadata(source, LastInputs(runs, source), before, runs.run.now)), runs, source)
  {
    var current := LastInputs(runs, source);
    AttemptedMembers(current);
    NextHolds(source, current, before, runs.run.now, Failures(runs.earlier, source), Permanent(runs.earlier, source),
              LastAttempt(runs.earlier, source), LastSuccess(runs.earlier, source));
  }

  // The stored failure count is the number of failed attempts since the last
  // success, the stored success time is that of the last success, and a source
  // waits after an attempt exactly when it failed, for as long as its failures call for.
  lemma {:induction false} RecordedAfter(runs: Runs, source: SourceName)
    ensures Recorded(FindMetadata(Stored(runs), source), runs, source)
  {
    if runs.AfterRun? {
      RecordedAfter(runs.earlier, source);
      var before := Stored(runs.earlier);
      MetadataFound(before, RunInputs(before, runs.run), runs.run.now, source);
      RecordedStep(runs, source, FindMetadata(before, source));
    }
  }

  predicate NondecreasingClock(runs: Runs) {
    runs.AfterRun? ==>
      && NondecreasingClock(runs.earlier)
      && (runs.earlier.AfterRun? ==> runs.earlier.run.now <= runs.run.now)
  }

  lemma {:induction false} SuccessBeforeAttempt(runs: Runs, source: SourceName)
    requires NondecreasingClock(runs)
    ensures LastAttempt(runs, source).Some? ==> LastAttempt(runs, source).value <= runs.run.now
    ensures LastSuccess(runs, source).Some? ==>
              LastAttempt(runs, source).Some? && LastSuccess(runs, source).value <= LastAttempt(runs, source).value
  {
    if runs.AfterRun? {
      SuccessBeforeAttempt(runs.earlier, source);
    }
  }

  // A source never attempted, or last attempted at least six hours ago, is due.
  lemma DueWithinSixHours(runs: Runs, source: SourceName, now: Instant, force: bool)
    requires NondecreasingClock(runs)
    requires LastAttempt(runs, source).Some? ==> LastAttempt(runs, source).value + 6 * HOUR <= now
    ensures Due(FindMetadata(Stored(runs), source), now, force)
  {
    RecordedAfter(runs, source);
    SuccessBeforeAttempt(runs, source);
  }

  // When a scan attempts a source.
  lemma AttemptsIff(runs: Runs, source: SourceName)
    requires runs.AfterRun?
    ensures Attempts(runs, source) <==> Collects(Stored(runs.earlier), source, runs.run)
  {
    CollectsIff(Stored(runs.earlier), source, runs.run);
    var inputs := LastInputs(runs, source);
    assert inputs[0] in inputs;
  }

  predicate Collects(metadata: seq<SourceMetadata>, source: SourceName, run: Run) {
    match source
    case Security =>
      SourceDue(metadata, source, run) || (run.enableCisaKev && SourceDue(metadata, SourceName.CisaKev, run))
    case CisaKev =>
      !run.enableCisaKev || SourceDue(metadata, source, run) || SourceDue(metadata, SourceName.Security, run)
    case _ => SourceDue(metadata, source, run)
  }

  lemma CollectsIff(metadata: seq<SourceMetadata>, source: SourceName, run: Run)
    ensures forall o :: o in InputsOf(RunInputs(metadata, run), source) ==> (o.Some? <==> Collects(metadata, source, run))
  {
  }

  predicate Independent(source: SourceName) {
    !source.Security? && !source.CisaKev?
  }

  // A source that is due without force was last attempted five minutes ago or
  // earlier, and last succeeded six hours ago or earlier.
  lemma DueSpaced(runs: Runs, source: SourceName, now: Instant)
    requires Due(FindMetadata(Stored(runs), source), now, false)
    ensures LastAttempt(runs, source).Some? ==> LastAttempt(runs, source).value + 5 * MINUTE <= now
    ensures LastSuccess(runs, source).Some? ==> LastSuccess(runs, source).value + 6 * HOUR <= now
  {
    RecordedAfter(runs, source);
  }

  // Without force, a source other than the two security feeds is attempted again
  // only five minutes after any attempt and six hours after any success.
  lemma AttemptsSpaced(runs: Runs, source: SourceName)
    requires runs.AfterRun? && !runs.run.force && Independent(source) && Attempts(runs, source)
    ensures LastAttempt(runs.earlier, source).Some? ==>
              LastAttempt(runs.earlier, source).value + 5 * MINUTE <= runs.run.now
    ensures LastSuccess(runs.earlier, source).Some? ==>
              LastSuccess(runs.earlier, source).value + 6 * HOUR <= runs.run.now
  {
    AttemptsIff(runs, source);
    DueSpaced(runs.earlier, source, runs.run.now);
  }

  // The two security feeds

  // Security evidence is never collected without the KEV catalogue.
  lemma SecurityWithKev(runs: Runs)
    requires runs.AfterRun?
    ensures Attempts(runs, SourceName.Security) ==> Attempts(runs, SourceName.CisaKev)
    ensures runs.run.enableCisaKev ==> (Attempts(runs, SourceName.Security) <==> Attempts(runs, SourceName.CisaKev))
  {
    AttemptsIff(runs, SourceName.Security);
    AttemptsIff(runs, SourceName.CisaKev);
  }

  lemma {:induction false} SecurityBeforeKev(runs: Runs)
    requires NondecreasingClock(runs)
    ensures LastAttempt(runs, SourceName.Security).Some? ==>
              && LastAttempt(runs, SourceName.CisaKev).Some?
              && LastAttempt(runs, SourceName.Security).value <= LastAttempt(runs, SourceName.CisaKev).value
  {
    if runs.AfterRun? {
      SecurityBeforeKev(runs.earlier);
      SecurityWithKev(runs);
      SuccessBeforeAttempt(runs.earlier, SourceName.Security);
    }
  }

  // With no failure since its last success, a source is due six hours after that.
  lemma DueAfterSuccess(runs: Runs, source: SourceName, now: Instant)
    requires Failures(runs, source) == 0 && LastSuccess(runs, source).Some?
    ensures Due(FindMetadata(Stored(runs), source), now, false) <==> LastSuccess(runs, source).value + 6 * HOUR <= now
  {
    RecordedAfter(runs, source);
  }

  // Without force security evidence is collected again only five minutes after any
  // attempt. It is collected within six hours of its last success only when a due
  // KEV catalogue brings it along, and exactly then if nothing has failed since.
  lemma SecuritySpaced(runs: Runs)
    requires runs.AfterRun? && !runs.run.force && NondecreasingClock(runs) && Attempts(runs, SourceName.Security)
    ensures LastAttempt(runs.earlier, SourceName.Security).Some? ==>
              LastAttempt(runs.earlier, SourceName.Security).value + 5 * MINUTE <= runs.run.now
    ensures LastSuccess(runs.earlier, SourceName.Security).Some?
            && LastSuccess(runs.earlier, SourceName.Security).value + 6 * HOUR > runs.run.now
            ==> KevBringsSecurity(runs)
    ensures LastSuccess(runs.earlier, SourceName.Security).Some? && Failures(runs.earlier, SourceName.Security) == 0 ==>
              (LastSuccess(runs.earlier, SourceName.Security).value + 6 * HOUR > runs.run.now <==> KevBringsSecurity(runs))
  {
    AttemptsIff(runs, SourceName.Security);
    SecurityBeforeKev(runs.earlier);
    if SourceDue(Stored(runs.earlier), SourceName.Security, runs.run) {
      DueSpaced(runs.earlier, SourceName.Security, runs.run.now);
    } else {
      DueSpaced(runs.earlier, SourceName.CisaKev, runs.run.now);
    }
    if LastSuccess(runs.earlier, SourceName.Security).Some? && Failures(runs.earlier, SourceName.Security) == 0 {
      DueAfterSuccess(runs.earlier, SourceName.Security, runs.run.now);
    }
  }

  predicate KevBringsSecurity(runs: Runs)
    requires runs.AfterRun?
  {
    && runs.run.enableCisaKev
    && SourceDue(Stored(runs.earlier), SourceName.CisaKev, runs.run)
    && !SourceDue(Stored(runs.earlier), SourceName.Security, runs.run)
  }

  predicate AlwaysEnabled(runs: Runs) {
    runs.AfterRun? ==> AlwaysEnabled(runs.earlier) && runs.run.enableCisaKev
  }

  lemma {:induction false} EnabledTogether(runs: Runs)
    requires AlwaysEnabled(runs)
    ensures LastAttempt(runs, SourceName.Security) == LastAttempt(runs, SourceName.CisaKev)
  {
    if runs.AfterRun? {
      EnabledTogether(runs.earlier);
      SecurityWithKev(runs);
    }
  }

  // As long as KEV has always been switched on, so is the catalogue; it is collected
  // early, and exactly then if nothing has failed since, when security evidence is due.
  lemma KevSpaced(runs: Runs)
    requires runs.AfterRun? && !runs.run.force && AlwaysEnabled(runs) && Attempts(runs, SourceName.CisaKev)
    ensures LastAttempt(runs.earlier, SourceName.CisaKev).Some? ==>
              LastAttempt(runs.earlier, SourceName.CisaKev).value + 5 * MINUTE <= runs.run.now
    ensures LastSuccess(runs.earlier, SourceName.CisaKev).Some?
            && LastSuccess(runs.earlier, SourceName.CisaKev).value + 6 * HOUR > runs.run.now
            ==> SecurityBringsKev(runs)
    ensures LastSuccess(runs.earlier, SourceName.CisaKev).Some? && Failures(runs.earlier, SourceName.CisaKev) == 0 ==>
              (LastSuccess(runs.earlier, SourceName.CisaKev).value + 6 * HOUR > runs.run.now <==> SecurityBringsKev(runs))
  {
    AttemptsIff(runs, SourceName.CisaKev);
    EnabledTogether(runs.earlier);
    if SourceDue(Stored(runs.earlier), SourceName.CisaKev, runs.run) {
      DueSpaced(runs.earlier, SourceName.CisaKev, runs.run.now);
    } else {
      DueSpaced(runs.earlier, SourceName.Security, runs.run.now);
    }
    if LastSuccess(runs.earlier, SourceName.CisaKev).Some? && Failures(runs.earlier, SourceName.CisaKev) == 0 {
      DueAfterSuccess(runs.earlier, SourceName.CisaKev, runs.run.now);
    }
  }

  predicate SecurityBringsKev(runs: Runs)
    requires runs.AfterRun?
  {
    && SourceDue(Stored(runs.earlier), SourceName.Security, runs.run)
    && !SourceDue(Stored(runs.earlier), SourceName.CisaKev, runs.run)
  }

  // Two runs that are not spaced by six hours: security evidence succeeds while the
  // KEV catalogue fails, and five minutes later both are collected again.
  lemma SecurityCollectedEarly(first: Collected, second: Collected, at: Instant)
    requires Successful(first[6]) && !Successful(first[7]) && !first[7].permanent
    ensures var runs := AfterRun(AfterRun(NoRun, Run(false, true, at, first)), Run(false, true, at + 5 * MINUTE, second));
            && NondecreasingClock(runs)
            && LastSuccess(runs.earlier, SourceName.Security) == Some(at)
            && Attempts(runs, SourceName.Security) && runs.run.now < at + 6 * HOUR
  {
    var once := AfterRun(NoRun, Run(false, true, at, first));
    var runs := AfterRun(once, Run(false, true, at + 5 * MINUTE, second));
    FirstRun(once);
    RecordedAfter(once, SourceName.CisaKev);
    AttemptsIff(runs, SourceName.Security);
  }

  // The first of all runs collects everything.
  lemma FirstRun(once: Runs)
    requires once.AfterRun? && once.earlier.NoRun? && once.run.enableCisaKev
    ensures LastInputs(once, SourceName.Security) == [Some(once.run.collected[6])]
    ensures LastInputs(once, SourceName.CisaKev) == [Some(once.run.collected[7])]
    ensures Attempts(once, SourceName.Security) && Attempts(once, SourceName.CisaKev)
    ensures !Successful(once.run.collected[7]) ==>
              Failures(once, SourceName.CisaKev) == 1 && LastAttempt(once, SourceName.CisaKev) == Some(once.run.now)
    ensures Permanent(once, SourceName.CisaKev) ==> once.run.collected[7].permanent
    ensures Successful(once.run.collected[6]) ==> LastSuccess(once, SourceName.Security) == Some(once.run.now)
  {
    assert Stored(NoRun) == [];
    assert Some(once.run.collected[6]) in LastInputs(once, SourceName.Security);
    assert Some(once.run.collected[7]) in LastInputs(once, SourceName.CisaKev);
    assert Failures(NoRun, SourceName.CisaKev) == 0;
    assert Attempted([Some(once.run.collected[7])][1..]) == [];
    var catalogue := once.run.collected[7];
    assert Attempted([Some(catalogue)]) == [catalogue];
    assert [catalogue][1..] == [] && FirstFailure([catalogue]) == if Successful(catalogue) then None else Some(catalogue);
  }

  // Two runs that are not spaced at all: with KEV switched off the catalogue counts
  // as collected, successfully, by every scan.
  lemma DisabledKevAgain(first: Collected, second: Collected, at: Instant)
    ensures var runs := AfterRun(AfterRun(NoRun, Run(false, false, at, first)), Run(false, false, at, second));
            && NondecreasingClock(runs)
            && LastSuccess(runs.earlier, SourceName.CisaKev) == LastAttempt(runs.earlier, SourceName.CisaKev) == Some(at)
            && Attempts(runs, SourceName.CisaKev) && Succeeds(runs, SourceName.CisaKev) && runs.run.now == at
  {
    var once := AfterRun(NoRun, Run(false, false, at, first));
    var runs := AfterRun(once, Run(false, false, at, second));
    AttemptsIff(once, SourceName.CisaKev);
    AttemptsIff(runs, SourceName.CisaKev);
    assert Succeeds(once, SourceName.CisaKev);
  }
}
