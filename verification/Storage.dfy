// The helper's storage: two files replaced one after the other under a lock, with
// a failure or the death of the process possible at every step.
module Storage {
  import opened Wrappers
  import opened Records
  import opened LedgerPruning
  import opened StateValidation
  import opened JsonTree
  import opened StorageFiles
  import StateCodec
  import GenerationCodec

  // What befalls one step: it happens, it raises OSError, or the process dies before it.
  datatype Fault = Proceed | OsFailure | Death

  datatype Outcome = Completed | Raised | Crashed

  datatype Target = StateFile | GenerationFile

  function Replaced(files: Files, target: Target, json: Json): Files {
    match target
    case StateFile => files.(state := Some(Document(json)))
    case GenerationFile => files.(generation := Some(Document(json)))
  }

  function Failure(fault: Fault): Outcome {
    match fault case Proceed => Completed case OsFailure => Raised case Death => Crashed
  }

  // A generation is stored that is as new as a bundle.
  predicate Superseded(f: Format, files: Files, b: GenerationBundle) {
    StoredGeneration(f, files).Some? && b.order <= StoredOrder(f, files)
  }

  // What an operation may do to the files, seen by every load from a time on: nothing,
  // or all of what it set out to do.
  datatype Event = Loaded | Saved(state: PersistentState) | Committed(bundle: GenerationBundle)

  ghost predicate Lands(f: Format, before: Files, after: Files, event: Event, from: Instant) {
    match event
    case Loaded => false
    case Saved(s) => ValidState(s) && Shows(f, after, s, StoredGeneration(f, before), from)
    case Committed(b) =>
      && f.validBundle(b) && StoredOrder(f, before) < b.order
      && Shows(f, after, b.state, Some(Stateless(b)), from)
  }

  ghost predicate OldOrNew(f: Format, before: Files, after: Files, event: Event, from: Instant) {
    SameView(f, before, after, from) || Lands(f, before, after, event, from)
  }

  // The generation file holds a bundle in full, beside the state file as it was.
  ghost predicate GenerationLanded(f: Format, before: Files, after: Files, b: GenerationBundle, from: Instant) {
    && f.validBundle(b)
    && after.state == before.state
    && after.generation.Some? && after.generation.value.Document?
    && f.decodeGeneration(after.generation.value.json).Ok?
    && Shows(f, after, b.state, Some(Stateless(b)), from)
  }

  // The state file holds a state in full, beside the generation file as it was.
  ghost predicate StateLanded(f: Format, before: Files, after: Files, s: PersistentState, from: Instant) {
    && ValidState(s)
    && after.generation == before.generation
    && after.state.Some? && after.state.value.Document? && f.decodeState(after.state.value.json).Ok?
    && Backs(f, after, s, from)
  }

  // After both halves of a state write the files show the state and mirror each other.
  lemma StateFileLands(f: Format, before: Files, middle: Files, after: Files, s: PersistentState,
                       generation: Option<GenerationBundle>, from: Instant)
    requires StateLanded(f, middle, after, s, from)
    requires ReadGeneration(f, before.generation) == Ok(generation)
    requires generation.None? ==> ReadGeneration(f, middle.generation) == Ok(None)
    requires generation.Some? ==> Shows(f, after, s, Some(Stateless(generation.value)), from)
    ensures Lands(f, before, after, Saved(s), from) && Mirrored(f, after, from)
  {
    if generation.None? {
      BackedAlone(f, after, s, from);
    }
    BackedShown(f, after, s, StoredGeneration(f, after), from);
  }

  // The first of the steps up to an end that does not happen, or the end.
  ghost function FirstFault(faults: nat -> Fault, from: nat, end: nat): (i: nat)
    requires from <= end
    ensures from <= i <= end
    ensures forall k :: from <= k < i ==> faults(k).Proceed?
    ensures i < end ==> !faults(i).Proceed?
    decreases end - from
  {
    if from == end || !faults(from).Proceed? then from else FirstFault(faults, from + 1, end)
  }

  lemma FirstFaultSplit(faults: nat -> Fault, from: nat, middle: nat, end: nat)
    requires from <= middle <= end
    ensures FirstFault(faults, from, end) ==
            if FirstFault(faults, from, middle) < middle then FirstFault(faults, from, middle)
            else FirstFault(faults, middle, end)
  {
    var i, j := FirstFault(faults, from, end), FirstFault(faults, from, middle);
    assert i < j ==> !faults(i).Proceed?;
  }

  // What an outcome says of the steps that were taken: it completes only when all of them
  // happened, and a process that dies takes no more of them.
  ghost predicate Told(faults: nat -> Fault, from: nat, to: nat, outcome: Outcome) {
    && from <= to
    && (outcome.Completed? ==> forall i :: from <= i < to ==> faults(i).Proceed?)
    && (outcome.Crashed? <==> from < to && faults(to - 1).Death?)
    && forall i :: from <= i < to - 1 ==> !faults(i).Death?
  }

  datatype DiskView = DiskView(files: Files, litter: nat, steps: nat)

  // What a write does, by the number of its nine steps that happen before the first
  // fault: two make the temporary file, five more put it in the place of the target, and
  // two see to the target. The temporary file stays behind exactly when the process dies
  // in between, or the write fails there and then the removal too.
  ghost predicate WroteAfter(faults: nat -> Fault, target: Target, json: Json, before: DiskView, done: nat,
                             after: DiskView, outcome: Outcome)
  {
    var fault, removal := faults(before.steps + done), faults(before.steps + done + 1);
    var removes := 2 <= done < 7 && fault.OsFailure?;
    && after.files == (if done < 7 then before.files else Replaced(before.files, target, json))
    && after.litter == before.litter + (if 2 <= done < 7 && !(removes && removal.Proceed?) then 1 else 0)
    && outcome == (if done == 9 then Completed else if removes && !removal.Proceed? then Failure(removal) else Failure(fault))
    && after.steps == before.steps + (if done == 9 then 9 else if removes then done + 2 else done + 1)
  }

  lemma WroteNothing(faults: nat -> Fault, target: Target, json: Json, before: DiskView, done: nat, after: DiskView,
                     outcome: Outcome)
    requires done < 2 && outcome == Failure(faults(before.steps + done))
    requires after == before.(steps := before.steps + done + 1)
    ensures WroteAfter(faults, target, json, before, done, after, outcome)
  {
  }

  class Disk {
    const format: Format
    const clock: nat -> Instant
    const faults: nat -> Fault
    var ticks: nat
    var steps: nat
    var stateFile: Option<Content>
    var generationFile: Option<Content>
    // Temporary files left behind.
    var litter: nat
    // The latest time that was ever read; the clock itself may go back.
    ghost var latest: Instant

    ghost predicate Valid() {
      Lawful(format)
    }

    // No step from here on fails.
    ghost predicate Calm()
      reads `steps
    {
      forall i :: steps <= i ==> faults(i).Proceed?
    }

    function Stored(): Files
      reads `stateFile, `generationFile
    {
      Files(stateFile, generationFile)
    }

    constructor (format: Format, clock: nat -> Instant, faults: nat -> Fault, files: Files)
      ensures this.format == format && this.clock == clock && this.faults == faults
      ensures Stored() == files && ticks == 0 && steps == 0 && litter == 0
    {
      this.format, this.clock, this.faults := format, clock, faults;
      ticks, steps, litter, latest := 0, 0, 0, clock(0);
      stateFile, generationFile := files.state, files.generation;
    }

    ghost function View(): DiskView
      reads `stateFile, `generationFile, `litter, `steps
    {
      DiskView(Stored(), litter, steps)
    }

    method ReadClock() returns (t: Instant)
      modifies `ticks, `latest
      ensures t == clock(old(ticks)) && ticks == old(ticks) + 1
      ensures t <= latest && old(latest) <= latest
    {
      t := clock(ticks);
      ticks := ticks + 1;
      latest := if latest < t then t else latest;
    }

    method Step() returns (fault: Fault)
      modifies `steps
      ensures steps == old(steps) + 1
      ensures fault == faults(old(steps))
    {
      fault := faults(steps);
      steps := steps + 1;
    }

    // Several steps in a row that do not touch the two files; the first fault stops them.
    method Steps(count: nat) returns (fault: Fault)
      modifies `steps
      ensures var i := FirstFault(faults, old(steps), old(steps) + count);
              if i == old(steps) + count then fault == Proceed && steps == i
              else fault == faults(i) && steps == i + 1
    {
      fault := Proceed;
      var i := 0;
      while i < count && fault.Proceed?
        invariant 0 <= i <= count && steps == old(steps) + i
        invariant fault.Proceed? ==> forall k :: old(steps) <= k < steps ==> faults(k).Proceed?
        invariant !fault.Proceed? ==>
                    && i > 0 && fault == faults(steps - 1)
                    && forall k :: old(steps) <= k < steps - 1 ==> faults(k).Proceed?
      {
        fault := Step();
        i := i + 1;
      }
    }

    method AtomicWrite(target: Target, json: Json) returns (outcome: Outcome)
      modifies `steps, `stateFile, `generationFile, `litter
      ensures WroteAfter(faults, target, json, old(View()), FirstFault(faults, old(steps), old(steps) + 9) - old(steps),
                         View(), outcome)
      ensures Stored() == old(Stored()) || Stored() == Replaced(old(Stored()), target, json)
      ensures outcome.Completed? ==> Stored() == Replaced(old(Stored()), target, json) && litter == old(litter)
      ensures old(litter) <= litter <= old(litter) + 1
      ensures Told(faults, old(steps), steps, outcome)
      ensures old(Calm()) ==> Calm() && outcome.Completed?
    {
      ghost var before, done := View(), FirstFault(faults, steps, steps + 9) - steps;
      outcome := Write(target, json, done);
      WriteTold(target, json, before, done, outcome);
    }

    method Write(target: Target, json: Json, ghost done: nat) returns (outcome: Outcome)
      requires steps + done == FirstFault(faults, steps, steps + 9)
      modifies `steps, `stateFile, `generationFile, `litter
      ensures WroteAfter(faults, target, json, old(View()), done, View(), outcome)
    {
      ghost var before := View();
      FirstFaultSplit(faults, steps, steps + 2, steps + 9);
      // The directory, then the temporary file.
      var fault := Steps(2);
      if !fault.Proceed? {
        WroteNothing(faults, target, json, before, done, View(), Failure(fault));
        return Failure(fault);
      }
      litter := litter + 1;
      outcome := FillOrRemove(target, json, before, done);
    }

    lemma WriteTold(target: Target, json: Json, before: DiskView, done: nat, outcome: Outcome)
      requires before.steps + done == FirstFault(faults, before.steps, before.steps + 9)
      requires WroteAfter(faults, target, json, before, done, View(), outcome)
      ensures Told(faults, before.steps, steps, outcome)
      ensures (forall i :: before.steps <= i ==> faults(i).Proceed?) ==> Calm() && outcome.Completed?
    {
    }

    // The write from the temporary file on.
    method FillOrRemove(target: Target, json: Json, ghost before: DiskView, ghost done: nat) returns (outcome: Outcome)
      requires View() == DiskView(before.files, before.litter + 1, before.steps + 2)
      requires before.steps + done == FirstFault(faults, before.steps + 2, before.steps + 9)
      modifies `steps, `stateFile, `generationFile, `litter
      ensures WroteAfter(faults, target, json, before, done, View(), outcome)
    {
      var fault, replaced := FillAndReplace(target, json);
      outcome := Failure(fault);
      if fault.OsFailure? && !replaced {
        outcome := Remove();
      }
    }

    // The temporary file is removed, and what went wrong before is raised.
    method Remove() returns (outcome: Outcome)
      requires litter > 0
      modifies `steps, `litter
      ensures var removal := faults(old(steps));
              && outcome == (if removal.Proceed? then Raised else Failure(removal))
              && litter == old(litter) - (if removal.Proceed? then 1 else 0)
      ensures steps == old(steps) + 1
    {
      var fault := Step();
      if !fault.Proceed? { return Failure(fault); }
      litter := litter - 1;
      outcome := Raised;
    }

    method Replace(target: Target, json: Json)
      modifies `stateFile, `generationFile
      ensures Stored() == Replaced(old(Stored()), target, json)
    {
      match target {
        case StateFile => stateFile := Some(Document(json));
        case GenerationFile => generationFile := Some(Document(json));
      }
    }

    // The steps of a write once the temporary file is there.
    method FillAndReplace(target: Target, json: Json) returns (fault: Fault, replaced: bool)
      requires litter > 0
      modifies `steps, `stateFile, `generationFile, `litter
      ensures var done := FirstFault(faults, old(steps), old(steps) + 7) - old(steps);
              && (replaced <==> done >= 5)
              && fault == (if done == 7 then Proceed else faults(old(steps) + done))
              && steps == old(steps) + (if done == 7 then 7 else done + 1)
      ensures Stored() == if replaced then Replaced(old(Stored()), target, json) else old(Stored())
      ensures litter == old(litter) - if replaced then 1 else 0
    {
      FirstFaultSplit(faults, steps, steps + 5, steps + 7);
      // Its mode, the data, the flush, the sync and the replacement itself.
      replaced := false;
      fault := Steps(5);
      if !fault.Proceed? { return; }
      litter, replaced := litter - 1, true;
      Replace(target, json);
      // The mode of the target and the sync of the directory.
      fault := Steps(2);
    }

    method LoadGeneration() returns (outcome: Outcome, generation: Option<GenerationBundle>)
      requires Valid()
      modifies `steps, `generationFile
      ensures Told(faults, old(steps), steps, outcome)
      ensures Stored() == old(Stored())
           || (ReadGeneration(format, old(generationFile)) == Ok(None) && Stored() == old(Stored()).(generation := None))
      ensures outcome.Completed? ==>
                && ReadGeneration(format, old(generationFile)) == Ok(generation)
                && (generation.None? ==> generationFile.None?)
      ensures outcome.Completed? ==>
                steps == old(steps) + if old(generationFile).None? then 0 else if generation.Some? then 1 else 3
      ensures old(Calm()) ==> Calm() && (outcome.Completed? <==> ReadGeneration(format, old(generationFile)).Ok?)
    {
      generation := None;
      if generationFile.None? { return Completed, None; }
      var fault := Step();
      if !fault.Proceed? { return Failure(fault), None; }
      if generationFile.value.Document? {
        match format.decodeGeneration(generationFile.value.json) {
          case Ok(b) => return Completed, Some(b);
          case Err(NewerState(_)) => return Raised, None;
          case Err(Unreadable) =>
        }
      }
      fault := Step();
      if !fault.Proceed? { return Failure(fault), None; }
      generationFile := None;
      fault := Step();
      outcome := Failure(fault);
    }

    method WriteGeneration(b: GenerationBundle) returns (outcome: Outcome)
      requires Valid()
      modifies this
      ensures Told(faults, old(steps), steps, outcome)
      ensures Valid() && old(latest) <= latest && old(litter) <= litter
      ensures Stored() == old(Stored()) || GenerationLanded(format, old(Stored()), Stored(), b, latest)
      ensures outcome.Completed? ==> GenerationLanded(format, old(Stored()), Stored(), b, latest) && litter == old(litter)
      ensures old(Calm()) ==> Calm() && (outcome.Completed? <==> format.validBundle(b))
    {
      var t := ReadClock();
      var encoded := format.encodeGeneration(b, t);
      if encoded.Err? { return Raised; }
      outcome := AtomicWrite(GenerationFile, encoded.value);
      if Stored() == Replaced(old(Stored()), GenerationFile, encoded.value) {
        GenerationWritten(format, Stored(), b, t, latest);
      }
    }

    method WriteStateFile(s: PersistentState) returns (outcome: Outcome)
      requires Valid()
      modifies this
      ensures Told(faults, old(steps), steps, outcome)
      ensures Valid() && old(latest) <= latest && old(litter) <= litter
      ensures Stored() == old(Stored()) || StateLanded(format, old(Stored()), Stored(), s, latest)
      ensures outcome.Completed? ==> StateLanded(format, old(Stored()), Stored(), s, latest) && litter == old(litter)
      ensures old(Calm()) ==> Calm() && (outcome.Completed? <==> ValidState(s))
    {
      var t := ReadClock();
      var encoded := format.encodeState(s, t);
      if encoded.Err? { return Raised; }
      outcome := AtomicWrite(StateFile, encoded.value);
      if Stored() == Replaced(old(Stored()), StateFile, encoded.value) {
        StateWritten(format, Stored(), s, t, latest);
      }
    }

    method WriteState(s: PersistentState) returns (outcome: Outcome)
      requires Valid()
      modifies this
      ensures Told(faults, old(steps), steps, outcome)
      ensures Valid() && old(latest) <= latest && old(litter) <= litter
      ensures OldOrNew(format, old(Stored()), Stored(), Saved(s), latest)
      ensures outcome.Completed? ==>
                && Lands(format, old(Stored()), Stored(), Saved(s), latest)
                && Mirrored(format, Stored(), latest)
                && litter == old(litter)
      ensures old(Calm()) ==>
                Calm() && (outcome.Completed? <==> ReadGeneration(format, old(generationFile)).Ok? && ValidState(s))
      ensures ValidOrKept(format, old(Stored()), Stored())
    {
      var generation;
      outcome, generation := LoadGeneration();
      ghost var loaded := Stored();
      SameAfterDiscard(format, old(Stored()), loaded, latest);
      if !outcome.Completed? { return; }
      if generation.Some? {
        outcome := WriteGeneration(generation.value.(state := s));
        if !outcome.Completed? { return; }
      }
      ghost var middle := Stored();
      ghost var since := latest;
      outcome := WriteStateFile(s);
      if generation.Some? {
        ShownBehind(format, middle, Stored(), s, Stateless(generation.value), since, latest);
      }
      if Stored() != middle || outcome.Completed? {
        StateFileLands(format, old(Stored()), middle, Stored(), s, generation, latest);
      }
    }

    // The tail of a load: the decoded state is pruned, and written back if asked.
    method PruneLoaded(decoded: PersistentState, persistPruning: bool) returns (outcome: Outcome,
                       state: PersistentState)
      requires Valid() && StoredState(format, Stored()) == Ok(decoded)
      modifies this
      ensures Told(faults, old(steps), steps, outcome)
      ensures Valid() && old(latest) <= latest && old(litter) <= litter
      ensures SameView(format, old(Stored()), Stored(), latest)
      ensures state == PruneLedger(decoded, clock(old(ticks)))
      ensures outcome.Completed? ==> litter == old(litter)
      ensures old(Calm()) ==> Calm() && outcome.Completed?
      ensures ValidOrKept(format, old(Stored()), Stored())
      ensures !persistPruning ==> Stored() == old(Stored()) && outcome.Completed?
      ensures persistPruning && outcome.Completed? && state != decoded ==>
                Lands(format, old(Stored()), Stored(), Saved(state), latest) && Mirrored(format, Stored(), latest)
    {
      var t := ReadClock();
      state := PruneLedger(decoded, t);
      outcome := Completed;
      if persistPruning && state != decoded {
        outcome := WriteState(state);
        if Lands(format, old(Stored()), Stored(), Saved(state), latest) {
          PrunedShowsSame(format, old(Stored()), Stored(), decoded, t, latest);
        }
      }
    }

    // The state file moves aside; its mode and directory are then seen to.
    method Quarantine() returns (outcome: Outcome)
      modifies `steps, `stateFile
      ensures Told(faults, old(steps), steps, outcome)
      ensures Stored() == old(Stored()) || Stored() == old(Stored()).(state := None)
      ensures outcome.Completed? ==> stateFile.None?
      ensures outcome.Completed? ==> steps == old(steps) + 3
      ensures old(Calm()) ==> Calm() && outcome.Completed?
    {
      var fault := Step();
      if !fault.Proceed? { return Failure(fault); }
      stateFile := None;
      fault := Steps(2);
      outcome := Failure(fault);
    }

    // A state that cannot be made out is moved aside, and counts as the empty one.
    method SetAside() returns (outcome: Outcome)
      requires Valid() && UnreadableState(format, Stored())
      modifies `steps, `stateFile
      ensures Told(faults, old(steps), steps, outcome)
      ensures SameView(format, old(Stored()), Stored(), latest) && ValidOrKept(format, old(Stored()), Stored())
      ensures StoredState(format, old(Stored())) == Ok(EMPTY_STATE)
      ensures StateAt(format, old(Stored()), clock(ticks)) == Ok(EMPTY_STATE)
      ensures outcome.Completed? ==> stateFile.None?
      ensures old(Calm()) ==> Calm() && outcome.Completed?
    {
      EmptyPruned(clock(ticks));
      Quarantined(format, Stored(), latest);
      outcome := Quarantine();
    }

    // The load of a state file that decodes, or is of a newer schema.
    method LoadDecoded(decoded: StateCodec.Read<PersistentState>, persistPruning: bool) returns (outcome: Outcome,
                       state: PersistentState)
      requires Valid() && ReadGeneration(format, generationFile) == Ok(None) && decoded != Err(StateCodec.Corrupt)
      requires stateFile.Some? && stateFile.value.Document? && format.decodeState(stateFile.value.json) == decoded
      modifies this
      ensures Valid() && old(latest) <= latest && old(litter) <= litter
      ensures Told(faults, old(steps), steps, outcome)
      ensures SameView(format, old(Stored()), Stored(), latest) && ValidOrKept(format, old(Stored()), Stored())
      ensures outcome.Completed? ==> StateAt(format, old(Stored()), clock(old(ticks))) == Ok(state) && litter == old(litter)
      ensures old(Calm()) ==> Calm() && (outcome.Completed? <==> StoredState(format, old(Stored())).Ok?)
      ensures persistPruning && outcome.Completed? && StoredState(format, old(Stored())) != Ok(state) ==>
                Lands(format, old(Stored()), Stored(), Saved(state), latest) && Mirrored(format, Stored(), latest)
      ensures !persistPruning ==> Stored() == old(Stored())
    {
      if decoded.Err? { return Raised, EMPTY_STATE; }
      outcome, state := PruneLoaded(decoded.value, persistPruning);
    }

    // A load when there is no readable generation.
    method LoadStateFile(persistPruning: bool) returns (outcome: Outcome, state: PersistentState, corrupt: bool)
      requires Valid() && ReadGeneration(format, generationFile) == Ok(None)
      modifies this
      ensures Valid() && old(latest) <= latest && old(litter) <= litter
      ensures Told(faults, old(steps), steps, outcome)
      ensures SameView(format, old(Stored()), Stored(), latest)
      ensures outcome.Completed? ==> StateAt(format, old(Stored()), clock(old(ticks))) == Ok(state) && litter == old(litter)
      ensures old(stateFile).Some? && !faults(old(steps)).Proceed? ==>
                outcome == Failure(faults(old(steps))) && Stored() == old(Stored())
      ensures old(Calm()) ==> Calm() && (outcome.Completed? <==> StoredState(format, old(Stored())).Ok?)
      ensures ValidOrKept(format, old(Stored()), Stored())
      ensures corrupt <==> outcome.Completed? && UnreadableState(format, old(Stored()))
      ensures outcome.Completed? && UnreadableState(format, old(Stored())) ==> stateFile.None?
      ensures persistPruning && outcome.Completed? && StoredState(format, old(Stored())) != Ok(state) ==>
                Lands(format, old(Stored()), Stored(), Saved(state), latest) && Mirrored(format, Stored(), latest)
      ensures !persistPruning ==>
                generationFile == old(generationFile) && (stateFile == old(stateFile) || UnreadableState(format, old(Stored())))
    {
      outcome, state, corrupt := Completed, EMPTY_STATE, false;
      if stateFile.None? {
        EmptyPruned(clock(ticks));
        return;
      }
      var fault := Step();
      if !fault.Proceed? { return Failure(fault), state, false; }
      if stateFile.value.Document? && format.decodeState(stateFile.value.json) != Err(StateCodec.Corrupt) {
        outcome, state := LoadDecoded(format.decodeState(stateFile.value.json), persistPruning);
      } else {
        outcome := SetAside();
        corrupt := outcome.Completed?;
      }
    }

    method LoadState(persistPruning: bool) returns (outcome: Outcome, state: PersistentState, corrupt: bool)
      requires Valid()
      modifies this
      ensures Valid() && old(latest) <= latest && old(litter) <= litter
      ensures Told(faults, old(steps), steps, outcome)
      ensures SameView(format, old(Stored()), Stored(), latest)
      ensures outcome.Completed? ==> StateAt(format, old(Stored()), clock(old(ticks))) == Ok(state) && litter == old(litter)
      ensures old(Calm()) ==> Calm() && (outcome.Completed? <==> StoredState(format, old(Stored())).Ok?)
      ensures ValidOrKept(format, old(Stored()), Stored())
      ensures corrupt <==> outcome.Completed? && UnreadableState(format, old(Stored()))
      ensures outcome.Completed? && UnreadableState(format, old(Stored())) ==> stateFile.None?
      ensures persistPruning && outcome.Completed? && StoredState(format, old(Stored())) != Ok(state) ==>
                Lands(format, old(Stored()), Stored(), Saved(state), latest) && Mirrored(format, Stored(), latest)
      ensures !persistPruning ==>
                && (stateFile == old(stateFile) || UnreadableState(format, old(Stored())))
                && (generationFile == old(generationFile) || ReadGeneration(format, old(generationFile)) == Ok(None))
    {
      state, corrupt := EMPTY_STATE, false;
      var generation;
      outcome, generation := LoadGeneration();
      SameAfterDiscard(format, old(Stored()), Stored(), latest);
      if !outcome.Completed? { return; }
      if generation.Some? {
        outcome, state := PruneLoaded(generation.value.state, persistPruning);
      } else {
        outcome, state, corrupt := LoadStateFile(persistPruning);
      }
    }

    method SaveState(s: PersistentState) returns (outcome: Outcome)
      requires Valid()
      modifies this
      ensures Told(faults, old(steps), steps, outcome)
      ensures Valid() && old(latest) <= latest
      ensures outcome.Completed? ==> litter == old(litter)
      ensures OldOrNew(format, old(Stored()), Stored(), Saved(s), latest)
      ensures outcome.Completed? ==>
                Lands(format, old(Stored()), Stored(), Saved(s), latest) && Mirrored(format, Stored(), latest)
      ensures !ValidState(s) ==> Stored() == old(Stored()) && outcome.Raised?
      ensures old(Calm()) ==>
                Calm() && (outcome.Completed? <==> StoredState(format, old(Stored())).Ok? && ValidState(s))
      ensures ValidOrKept(format, old(Stored()), Stored())
    {
      if !ValidState(s) { return Raised; }
      var loaded, corrupt;
      outcome, loaded, corrupt := LoadState(false);
      if !outcome.Completed? { return; }
      outcome := WriteState(s);
    }

    // A mutation that raises is one that gives None.
    method UpdateState(mutation: PersistentState -> Option<PersistentState>) returns (outcome: Outcome,
                       updated: PersistentState)
      requires Valid()
      modifies this
      ensures Told(faults, old(steps), steps, outcome)
      ensures Valid() && old(latest) <= latest
      ensures outcome.Completed? ==> litter == old(litter)
      ensures match StateAt(format, old(Stored()), clock(old(ticks)))
              case Err(_) => SameView(format, old(Stored()), Stored(), latest) && !outcome.Completed?
              case Ok(s) =>
                if mutation(s).None? then SameView(format, old(Stored()), Stored(), latest) && !outcome.Completed?
                else
                  && OldOrNew(format, old(Stored()), Stored(), Saved(mutation(s).value), latest)
                  && (outcome.Completed? ==>
                        && updated == mutation(s).value
                        && Lands(format, old(Stored()), Stored(), Saved(updated), latest)
                        && Mirrored(format, Stored(), latest))
      ensures var loaded := StateAt(format, old(Stored()), clock(old(ticks)));
              loaded.Ok? && mutation(loaded.value).None? ==>
                && (stateFile == old(stateFile) || UnreadableState(format, old(Stored())))
                && (generationFile == old(generationFile) || ReadGeneration(format, old(generationFile)) == Ok(None))
      ensures old(Calm()) ==>
                && Calm()
                && var loaded := StateAt(format, old(Stored()), clock(old(ticks)));
                   outcome.Completed? <==>
                   loaded.Ok? && mutation(loaded.value).Some? && ValidState(mutation(loaded.value).value)
      ensures ValidOrKept(format, old(Stored()), Stored())
    {
      updated := EMPTY_STATE;
      var loaded, corrupt;
      outcome, loaded, corrupt := LoadState(false);
      if !outcome.Completed? { return; }
      var mutated := mutation(loaded);
      if mutated.None? { return Raised, updated; }
      updated := mutated.value;
      outcome := WriteState(updated);
    }

    method CommitGeneration(b: GenerationBundle) returns (outcome: Outcome, published: bool)
      requires Valid()
      modifies this
      ensures Told(faults, old(steps), steps, outcome)
      ensures Valid() && old(latest) <= latest
      ensures outcome.Completed? ==> litter == old(litter)
      ensures OldOrNew(format, old(Stored()), Stored(), Committed(b), latest)
      ensures outcome.Completed? && published ==>
                Lands(format, old(Stored()), Stored(), Committed(b), latest) && Mirrored(format, Stored(), latest)
      ensures outcome.Completed? && !published ==>
                b.order <= StoredOrder(format, old(Stored())) && SameView(format, old(Stored()), Stored(), latest)
      ensures old(Calm()) ==>
                && Calm()
                && (outcome.Completed? <==>
                      && ReadGeneration(format, old(generationFile)).Ok?
                      && (Superseded(format, old(Stored()), b) || format.validBundle(b)))
                && (outcome.Completed? ==> (published <==> StoredOrder(format, old(Stored())) < b.order))
      ensures ValidOrKept(format, old(Stored()), Stored())
    {
      published := false;
      var current;
      outcome, current := LoadGeneration();
      ghost var loaded := Stored();
      SameAfterDiscard(format, old(Stored()), loaded, latest);
      if !outcome.Completed? { return; }
      if current.Some? && b.order <= current.value.order { return; }
      outcome := WriteGeneration(b);
      if !outcome.Completed? { return; }
      ghost var middle := Stored();
      ghost var since := latest;
      outcome := WriteStateFile(b.state);
      ShownBehind(format, middle, Stored(), b.state, Stateless(b), since, latest);
      if outcome.Completed? {
        BackedShown(format, Stored(), b.state, Some(Stateless(b)), latest);
      }
      published := outcome.Completed?;
    }
  }
}
