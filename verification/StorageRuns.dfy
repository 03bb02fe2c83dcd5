// Whole runs of storage operations, any of which may fail or be cut short anywhere.
module StorageRuns {
  import opened Wrappers
  import opened Records
  import opened LedgerPruning
  import opened StateValidation
  import opened StorageFiles
  import opened Storage

  // Each operation starts from the files its predecessor left, and is over before a time.
  datatype Run = Start(initial: Files) | Then(earlier: Run, event: Event, left: Files, over: Instant)

  function Left(run: Run): Files {
    match run case Start(files) => files case Then(_, _, files, _) => files
  }

  // Each step leaves the old view or all of what its operation set out to do; the
  // operations of the storage see to that, whatever faults they meet.
  ghost predicate Possible(f: Format, run: Run) {
    run.Then? ==>
      && Possible(f, run.earlier)
      && (run.earlier.Then? ==> run.earlier.over <= run.over)
      && OldOrNew(f, Left(run.earlier), run.left, run.event, run.over)
  }

  predicate Happened(run: Run, event: Event) {
    run.Then? && (run.event == event || Happened(run.earlier, event))
  }

  function StateOf(event: Event): Option<PersistentState> {
    match event
    case Loaded => None
    case Saved(s) => Some(s)
    case Committed(b) => Some(b.state)
  }

  // Every load from a time on gets this state, pruned.
  ghost predicate ShowsState(f: Format, files: Files, s: PersistentState, from: Instant) {
    forall t :: from <= t ==> StateAt(f, files, t) == Ok(PruneLedger(s, t))
  }

  ghost predicate FromOne(f: Format, run: Run, event: Event)
    requires run.Then?
  {
    Happened(run, event) && StateOf(event).Some? && ShowsState(f, run.left, StateOf(event).value, run.over)
  }

  ghost predicate Unchanged(f: Format, a: Files, b: Files, from: Instant) {
    forall t :: from <= t ==> StateAt(f, a, t) == StateAt(f, b, t)
  }

  // However the operations of a run were cut short, a load afterwards sees the state
  // from before the run, or in full the state of one operation of the run.
  lemma {:induction false} StateIsComplete(f: Format, run: Run)
    requires Possible(f, run) && run.Then?
    ensures Unchanged(f, Initial(run), run.left, run.over) || exists event :: FromOne(f, run, event)
  {
    if Lands(f, Left(run.earlier), run.left, run.event, run.over) {
      assert FromOne(f, run, run.event);
    } else if run.earlier.Then? {
      StateIsComplete(f, run.earlier);
      if event :| FromOne(f, run.earlier, event) {
        var s := StateOf(event).value;
        forall t | run.over <= t
          ensures StateAt(f, run.left, t) == Ok(PruneLedger(s, t))
        {
          assert StateAt(f, run.left, t) == StateAt(f, run.earlier.left, t);
        }
        assert FromOne(f, run, event);
      } else {
        forall t | run.over <= t
          ensures StateAt(f, Initial(run), t) == StateAt(f, run.left, t)
        {
          assert StateAt(f, run.left, t) == StateAt(f, run.earlier.left, t);
        }
      }
    }
  }

  function Initial(run: Run): Files {
    match run case Start(files) => files case Then(earlier, _, _, _) => Initial(earlier)
  }

  // The stored generation is the one from before the run or a committed bundle's,
  // and its order never goes down.
  lemma {:induction false} OrderNeverDecreases(f: Format, run: Run)
    requires Possible(f, run)
    ensures StoredOrder(f, Initial(run)) <= StoredOrder(f, Left(run))
    ensures run.Then? ==> StoredOrder(f, Left(run.earlier)) <= StoredOrder(f, run.left)
    ensures || StoredGeneration(f, Left(run)) == StoredGeneration(f, Initial(run))
            || exists b: GenerationBundle :: Happened(run, Committed(b)) && StoredGeneration(f, Left(run)) == Some(Stateless(b))
  {
    if run.Then? {
      OrderNeverDecreases(f, run.earlier);
      if StoredGeneration(f, run.left) != StoredGeneration(f, Left(run.earlier)) {
        assert Happened(run, run.event);
      } else if StoredGeneration(f, Left(run)) != StoredGeneration(f, Initial(run)) {
        var b: GenerationBundle :| Happened(run.earlier, Committed(b)) && StoredGeneration(f, Left(run)) == Some(Stateless(b));
        assert Happened(run, Committed(b));
      }
    }
  }

  // What is stored together belongs together: the state is that of the bundle whose
  // generation is stored, or that of an operation since then.

  predicate Extends(run: Run, part: Run) {
    run == part || (run.Then? && Extends(run.earlier, part))
  }

  predicate HappenedSince(run: Run, part: Run, event: Event) {
    run != part && run.Then? && (run.event == event || HappenedSince(run.earlier, part, event))
  }

  ghost predicate CommitSeen(f: Format, run: Run, commit: Run, b: GenerationBundle)
    requires run.Then?
  {
    && Extends(run, commit) && commit.Then? && commit.event == Committed(b)
    && StoredGeneration(f, run.left) == Some(Stateless(b))
    && (ShowsState(f, run.left, b.state, run.over) || exists event :: SeenSince(f, run, commit, event))
  }

  ghost predicate SeenSince(f: Format, run: Run, commit: Run, event: Event)
    requires run.Then?
  {
    HappenedSince(run, commit, event) && StateOf(event).Some? && ShowsState(f, run.left, StateOf(event).value, run.over)
  }

  // The state that is seen is never older than the generation that is seen.
  lemma {:induction false} StateNotOlder(f: Format, run: Run)
    requires Possible(f, run) && run.Then?
    ensures || StoredGeneration(f, run.left) == StoredGeneration(f, Initial(run))
            || exists commit, b :: CommitSeen(f, run, commit, b)
  {
    if SameView(f, Left(run.earlier), run.left, run.over) {
      if run.earlier.Then? {
        StateNotOlder(f, run.earlier);
        if commit, b :| CommitSeen(f, run.earlier, commit, b) {
          SeenStill(f, run, commit, b);
        }
      }
    } else if run.event.Committed? {
      assert CommitSeen(f, run, run, run.event.bundle);
    } else if run.earlier.Then? {
      StateNotOlder(f, run.earlier);
      if commit, b :| CommitSeen(f, run.earlier, commit, b) {
        PartIsShorter(run, commit);
        assert SeenSince(f, run, commit, run.event);
        assert CommitSeen(f, run, commit, b);
      }
    }
  }

  lemma {:induction false} PartIsShorter(run: Run, part: Run)
    requires run.Then? && Extends(run.earlier, part)
    ensures Size(part) < Size(run)
  {
    if run.earlier != part {
      PartIsShorter(run.earlier, part);
    }
  }

  function Size(run: Run): nat {
    if run.Start? then 0 else Size(run.earlier) + 1
  }

  lemma SeenStill(f: Format, run: Run, commit: Run, b: GenerationBundle)
    requires Possible(f, run) && run.Then? && run.earlier.Then? && CommitSeen(f, run.earlier, commit, b)
    requires SameView(f, run.earlier.left, run.left, run.over)
    ensures CommitSeen(f, run, commit, b)
  {
    if ShowsState(f, run.earlier.left, b.state, run.earlier.over) {
      ShowsStill(f, run, b.state);
    } else {
      var event :| SeenSince(f, run.earlier, commit, event);
      ShowsStill(f, run, StateOf(event).value);
      PartIsShorter(run, commit);
      assert SeenSince(f, run, commit, event);
    }
  }

  lemma ShowsStill(f: Format, run: Run, s: PersistentState)
    requires Possible(f, run) && run.Then? && run.earlier.Then? && SameView(f, run.earlier.left, run.left, run.over)
    requires ShowsState(f, run.earlier.left, s, run.earlier.over)
    ensures ShowsState(f, run.left, s, run.over)
  {
    forall t | run.over <= t
      ensures StateAt(f, run.left, t) == Ok(PruneLedger(s, t))
    {
      assert StateAt(f, run.left, t) == StateAt(f, run.earlier.left, t);
    }
  }

  // Executions

  datatype Request =
    | Load
    | Save(state: PersistentState)
    | Update(mutation: PersistentState -> Option<PersistentState>)
    | Commit(bundle: GenerationBundle)

  // What a request sets out to do to the files it finds: an update saves what its
  // mutation makes of the state they show at some time.
  ghost predicate Asks(f: Format, request: Request, found: Files, event: Event) {
    match request
    case Load => event == Loaded
    case Save(s) => event == Saved(s)
    case Commit(b) => event == Committed(b)
    case Update(mutation) => event == Loaded || exists t :: AsksAt(f, mutation, found, event, t)
  }

  ghost predicate AsksAt(f: Format, mutation: PersistentState -> Option<PersistentState>, found: Files, event: Event,
                         t: Instant) {
    var loaded := StateAt(f, found, t);
    loaded.Ok? && mutation(loaded.value).Some? && event == Saved(mutation(loaded.value).value)
  }

  // The events of a run are what its requests ask for.
  ghost predicate Serves(f: Format, run: Run, requests: seq<Request>) {
    match run
    case Start(_) => requests == []
    case Then(earlier, event, _, _) =>
      && requests != [] && Serves(f, earlier, requests[..|requests| - 1])
      && Asks(f, requests[|requests| - 1], Left(earlier), event)
  }

  // What a completed operation has done: all it set out to do, unless it is a commit
  // that is not newer than what is stored.
  ghost predicate Done(f: Format, before: Files, after: Files, event: Event, from: Instant) {
    match event
    case Loaded => SameView(f, before, after, from)
    case Saved(_) => Lands(f, before, after, event, from)
    case Committed(b) =>
      || Lands(f, before, after, event, from)
      || (b.order <= StoredOrder(f, before) && SameView(f, before, after, from))
  }

  // Every operation that completed did what it set out to do.
  ghost predicate Fulfilled(f: Format, run: Run, outcomes: seq<Outcome>) {
    match run
    case Start(_) => outcomes == []
    case Then(earlier, event, left, over) =>
      && outcomes != [] && Fulfilled(f, earlier, outcomes[..|outcomes| - 1])
      && (outcomes[|outcomes| - 1].Completed? ==> Done(f, Left(earlier), left, event, over))
  }

  // The requests that are carried out when nothing fails: nothing that is read comes
  // from a newer schema, and what is to be stored is valid.
  ghost predicate Acceptable(f: Format, request: Request, found: Files, t: Instant) {
    match request
    case Load => StoredState(f, found).Ok?
    case Save(s) => StoredState(f, found).Ok? && ValidState(s)
    case Update(mutation) =>
      var loaded := StateAt(f, found, t);
      loaded.Ok? && mutation(loaded.value).Some? && ValidState(mutation(loaded.value).value)
    case Commit(b) => ReadGeneration(f, found.generation).Ok? && (Superseded(f, found, b) || f.validBundle(b))
  }

  // Requests that store nothing but what is valid, whatever they find.
  ghost predicate Sound(f: Format, request: Request) {
    match request
    case Load => true
    case Save(s) => ValidState(s)
    case Update(mutation) => forall s: PersistentState :: ValidState(s) ==> mutation(s).Some? && ValidState(mutation(s).value)
    case Commit(b) => f.validBundle(b)
  }

  lemma SoundIsAcceptable(f: Format, request: Request, found: Files, t: Instant)
    requires Lawful(f) && Sound(f, request) && StoredState(f, found).Ok?
    ensures Acceptable(f, request, found, t)
  {
    StoredIsValid(f, found);
    PruneKeepsValid(StoredState(f, found).value, t);
  }

  lemma StoredIsValid(f: Format, files: Files)
    requires Lawful(f) && StoredState(f, files).Ok?
    ensures ValidState(StoredState(f, files).value)
  {
  }

  // What can be read now can be read afterwards.
  lemma StillReadable(f: Format, before: Files, after: Files, event: Event, from: Instant)
    requires OldOrNew(f, before, after, event, from) && StoredState(f, before).Ok?
    ensures StoredState(f, after).Ok?
  {
    assert StateAt(f, after, from).Ok?;
  }

  // One request, whatever befalls it.
  method Perform(disk: Disk, request: Request) returns (outcome: Outcome, ghost event: Event)
    requires disk.Valid()
    modifies disk
    ensures old(disk.latest) <= disk.latest
    ensures Told(disk.faults, old(disk.steps), disk.steps, outcome)
    ensures Asks(disk.format, request, old(disk.Stored()), event)
    ensures OldOrNew(disk.format, old(disk.Stored()), disk.Stored(), event, disk.latest)
    ensures outcome.Completed? ==> Done(disk.format, old(disk.Stored()), disk.Stored(), event, disk.latest)
    ensures old(disk.Calm()) ==>
              && disk.Calm()
              && (outcome.Completed? <==> Acceptable(disk.format, request, old(disk.Stored()), disk.clock(old(disk.ticks))))
  {
    match request {
      case Load =>
        var state, corrupt;
        outcome, state, corrupt := disk.LoadState(true);
        event := Loaded;
      case Save(s) =>
        outcome := disk.SaveState(s);
        event := Saved(s);
      case Update(mutation) =>
        ghost var t := disk.clock(disk.ticks);
        ghost var loaded := StateAt(disk.format, disk.Stored(), t);
        var updated;
        outcome, updated := disk.UpdateState(mutation);
        event := if loaded.Ok? && mutation(loaded.value).Some? then Saved(mutation(loaded.value).value) else Loaded;
        assert event.Saved? ==> AsksAt(disk.format, mutation, old(disk.Stored()), event, t);
      case Commit(b) =>
        var published;
        outcome, published := disk.CommitGeneration(b);
        event := Committed(b);
    }
  }

  // The same, with what it means for the requests after it.
  method PerformNext(disk: Disk, request: Request) returns (outcome: Outcome, ghost event: Event)
    requires disk.Valid()
    modifies disk
    ensures old(disk.latest) <= disk.latest
    ensures Asks(disk.format, request, old(disk.Stored()), event)
    ensures OldOrNew(disk.format, old(disk.Stored()), disk.Stored(), event, disk.latest)
    ensures outcome.Completed? ==> Done(disk.format, old(disk.Stored()), disk.Stored(), event, disk.latest)
    ensures StoredState(disk.format, old(disk.Stored())).Ok? ==> StoredState(disk.format, disk.Stored()).Ok?
    ensures old(disk.Calm()) ==> disk.Calm()
    ensures old(disk.Calm()) && StoredState(disk.format, old(disk.Stored())).Ok? && Sound(disk.format, request) ==>
              outcome.Completed?
  {
    ghost var found, t := disk.Stored(), disk.clock(disk.ticks);
    outcome, event := Perform(disk, request);
    if StoredState(disk.format, found).Ok? {
      StillReadable(disk.format, found, disk.Stored(), event, disk.latest);
      if Sound(disk.format, request) {
        SoundIsAcceptable(disk.format, request, found, t);
      }
    }
  }

  // Requests one after the other, by processes of which any may fail or die at any
  // step: what is left is a run, so that afterwards every load sees the state from
  // before or all of the state of one request, the stored order has not gone down, and
  // the state is not older than the generation. When nothing fails and everything is
  // readable and valid, every request is carried out.
  method PerformAll(disk: Disk, requests: seq<Request>) returns (outcomes: seq<Outcome>, ghost run: Run)
    requires disk.Valid()
    modifies disk
    ensures Possible(disk.format, run) && Serves(disk.format, run, requests) && Fulfilled(disk.format, run, outcomes)
    ensures Initial(run) == old(disk.Stored()) && Left(run) == disk.Stored()
    ensures requests != [] ==> run.Then? && run.over == disk.latest
    ensures requests != [] ==>
              Unchanged(disk.format, Initial(run), run.left, run.over) || exists event :: FromOne(disk.format, run, event)
    ensures StoredOrder(disk.format, old(disk.Stored())) <= StoredOrder(disk.format, disk.Stored())
    ensures |outcomes| == |requests|
    ensures old(disk.Calm()) && StoredState(disk.format, old(disk.Stored())).Ok?
            && (forall request :: request in requests ==> Sound(disk.format, request)) ==>
              forall outcome :: outcome in outcomes ==> outcome.Completed?
  {
    outcomes, run := [], Start(disk.Stored());
    ghost var clean := disk.Calm() && StoredState(disk.format, disk.Stored()).Ok?
                       && forall request :: request in requests ==> Sound(disk.format, request);
    for i := 0 to |requests|
      invariant Possible(disk.format, run) && Serves(disk.format, run, requests[..i])
      invariant Fulfilled(disk.format, run, outcomes)
      invariant Initial(run) == old(disk.Stored()) && Left(run) == disk.Stored()
      invariant run.Then? <==> i > 0
      invariant run.Then? ==> run.over == disk.latest
      invariant |outcomes| == i
      invariant clean ==> disk.Calm() && StoredState(disk.format, disk.Stored()).Ok?
      invariant clean ==> forall outcome :: outcome in outcomes ==> outcome.Completed?
    {
      var outcome;
      ghost var event;
      outcome, event := PerformNext(disk, requests[i]);
      ghost var earlier := run;
      assert (outcomes + [outcome])[..|outcomes|] == outcomes;
      outcomes := outcomes + [outcome];
      run := Then(earlier, event, disk.Stored(), disk.latest);
      assert requests[..i + 1][..i] == requests[..i];
    }
    assert requests[..|requests|] == requests;
    OrderNeverDecreases(disk.format, run);
    if requests != [] {
      StateIsComplete(disk.format, run);
    }
  }
}
