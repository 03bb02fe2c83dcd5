// Runs in which scans also commit: a commit replaces the whole state by one read
// earlier, which may undo what other processes did to the ledger in between.
module LeaseCommits {
  import opened Wrappers
  import opened Records
  import opened Sorting
  import opened LedgerPruning
  import opened NotificationBatch
  import opened LeaseProtocol
  import opened LeaseTheorems

  datatype SharedStep = Protocol(step: Step) | Commit(readAt: nat, sources: seq<SourceMetadata>)

  // The state a scan read, with the sources it found, takes the place of the current one.
  function Restored(w: World, read: World, sources: seq<SourceMetadata>): World {
    w.(state := read.state.(sources := sources))
  }

  ghost predicate Follows(worlds: seq<World>, steps: seq<SharedStep>, i: nat)
    requires i < |steps| && i + 1 < |worlds|
  {
    match steps[i]
    case Protocol(s) => Enabled(worlds[i], s) && worlds[i + 1] == Apply(worlds[i], s)
    case Commit(readAt, sources) => readAt <= i && worlds[i + 1] == Restored(worlds[i], worlds[readAt], sources)
  }

  ghost predicate IsSharedRun(worlds: seq<World>, steps: seq<SharedStep>) {
    && |worlds| == |steps| + 1
    && Init(worlds[0])
    && forall i {:trigger Follows(worlds, steps, i)} :: 0 <= i < |steps| ==> Follows(worlds, steps, i)
  }

  // Lease coherence

  // Batches and tokens of an earlier state are still known.
  ghost predicate Remembers(later: World, earlier: World) {
    && earlier.used <= later.used
    && forall t :: t in earlier.issued ==> t in later.issued && later.issued[t] == earlier.issued[t]
  }

  lemma RestoreKeepsInv(w: World, read: World, sources: seq<SourceMetadata>)
    requires Inv(w) && Inv(read) && Remembers(w, read)
    ensures Inv(Restored(w, read, sources))
  {
    var next := Restored(w, read, sources);
    assert forall f :: At(next, f) == At(read, f);
    forall k: NotificationKind | Owner(next, k).Some?
      ensures Owner(next, k) == Owner(read, k)
    {
    }
    RestoreKeepsCoherent(w, read, next);
  }

  lemma RestoreKeepsCoherent(w: World, read: World, next: World)
    requires Inv(w) && Inv(read) && Remembers(w, read)
    requires next.issued == w.issued && forall f :: At(next, f) == At(read, f)
    ensures Coherent(next)
  {
    forall t, f | t in next.issued && Names(next.issued[t].candidates, f) && Owns(next, next.issued[t].kind, t) && At(next, f).Some?
      ensures At(next, f).value.status.Pending? && At(next, f).value.leaseToken == Some(t)
    {
      var kind := next.issued[t].kind;
      assert Owner(next, kind) == Owner(read, kind);
      assert t in read.issued && read.issued[t] == w.issued[t];
      assert Owns(read, read.issued[t].kind, t);
    }
  }

  lemma StepRemembers(w: World, step: Step)
    requires Inv(w) && Enabled(w, step)
    ensures Remembers(Apply(w, step), w)
  {
    forall t | t in w.issued
      ensures t in Apply(w, step).issued && Apply(w, step).issued[t] == w.issued[t]
    {
      IssuedStep(w, step, t);
    }
  }

  // Every state up to one is coherent, and its batches and tokens are still known.
  ghost predicate SoundUpTo(worlds: seq<World>, i: nat)
    requires i < |worlds|
  {
    forall h {:trigger Remembers(worlds[i], worlds[h])} :: 0 <= h <= i ==> Inv(worlds[h]) && Remembers(worlds[i], worlds[h])
  }

  lemma {:induction false} SharedRunSound(worlds: seq<World>, steps: seq<SharedStep>, i: nat)
    requires IsSharedRun(worlds, steps) && i < |worlds|
    ensures SoundUpTo(worlds, i)
  {
    if i == 0 {
      InitInv(worlds[0]);
    } else {
      SharedRunSound(worlds, steps, i - 1);
      assert Follows(worlds, steps, i - 1);
      SharedStepInv(worlds, steps, i - 1);
      forall h | 0 <= h <= i
        ensures Inv(worlds[h]) && Remembers(worlds[i], worlds[h])
      {
        if h < i {
          assert Remembers(worlds[i - 1], worlds[h]);
          RemembersThrough(worlds[i], worlds[i - 1], worlds[h]);
        }
      }
    }
  }

  lemma RemembersThrough(last: World, middle: World, first: World)
    requires Remembers(last, middle) && Remembers(middle, first)
    ensures Remembers(last, first)
  {
  }

  // Lease coherence survives commits: it holds in every state of every such run.
  lemma SharedRunInv(worlds: seq<World>, steps: seq<SharedStep>, i: nat)
    requires IsSharedRun(worlds, steps) && i < |worlds|
    ensures Inv(worlds[i])
  {
    SharedRunSound(worlds, steps, i);
    assert Remembers(worlds[i], worlds[i]);
  }

  lemma SharedRunRemembers(worlds: seq<World>, steps: seq<SharedStep>, h: nat, i: nat)
    requires IsSharedRun(worlds, steps) && h <= i < |worlds|
    ensures Remembers(worlds[i], worlds[h])
  {
    SharedRunSound(worlds, steps, i);
  }

  lemma SharedStepInv(worlds: seq<World>, steps: seq<SharedStep>, i: nat)
    requires i < |steps| && i + 1 < |worlds| && Follows(worlds, steps, i) && SoundUpTo(worlds, i)
    ensures Inv(worlds[i + 1]) && Remembers(worlds[i + 1], worlds[i])
  {
    assert Remembers(worlds[i], worlds[i]);
    match steps[i] {
      case Protocol(s) =>
        StepKeepsInv(worlds[i], s);
        StepRemembers(worlds[i], s);
      case Commit(readAt, sources) =>
        assert Remembers(worlds[i], worlds[readAt]);
        RestoreKeepsInv(worlds[i], worlds[readAt], sources);
    }
  }

  // Windows

  // No commit between two states restores what was read before the first of them.
  predicate NothingRestored(steps: seq<SharedStep>, from: nat, to: nat)
    requires to <= |steps|
  {
    forall m :: from <= m < to && steps[m].Commit? ==> from <= steps[m].readAt
  }

  // A property is kept when each state is copied from its predecessor, or by a commit
  // from a state since then, or keeps it otherwise.
  lemma {:induction false} Stays<T>(values: seq<T>, p: T -> bool, steps: seq<SharedStep>, from: nat, to: nat)
    requires |values| == |steps| + 1 && from <= to <= |steps| && p(values[from])
    requires NothingRestored(steps, from, to)
    requires forall m :: from <= m < to ==> Copied(values, steps, m) || (p(values[m]) ==> p(values[m + 1]))
    ensures forall m :: from <= m <= to ==> p(values[m])
  {
    if from < to {
      Stays(values, p, steps, from, to - 1);
      assert Copied(values, steps, to - 1) || (p(values[to - 1]) ==> p(values[to - 1 + 1]));
    }
  }

  ghost predicate Copied<T>(values: seq<T>, steps: seq<SharedStep>, m: nat)
    requires |values| == |steps| + 1 && m < |steps|
  {
    match steps[m]
    case Protocol(_) => values[m + 1] == values[m]
    case Commit(readAt, _) => readAt <= m && values[m + 1] == values[readAt]
  }

  function Entries(worlds: seq<World>, f: string): (r: seq<Option<LedgerEntry>>)
    ensures |r| == |worlds| && forall m :: 0 <= m < |r| ==> r[m] == At(worlds[m], f)
  {
    seq(|worlds|, m requires 0 <= m < |worlds| => At(worlds[m], f))
  }

  predicate PrunedAway(worlds: seq<World>, steps: seq<SharedStep>, from: nat, to: nat, f: string)
    requires |worlds| == |steps| + 1 && to <= |steps|
  {
    exists m :: from <= m < to && PrunesAt(worlds, steps, m, f)
  }

  predicate PrunesAt(worlds: seq<World>, steps: seq<SharedStep>, m: nat, f: string)
    requires |worlds| == |steps| + 1 && m < |steps|
  {
    steps[m].Protocol? && steps[m].step.Prune? && At(worlds[m], f).Some? && At(worlds[m + 1], f).None?
  }

  // A final entry stays as it is unless it is pruned, or a commit brings back
  // what was read before it became final.
  lemma FinalForeverShared(worlds: seq<World>, steps: seq<SharedStep>, from: nat, to: nat, f: string)
    requires IsSharedRun(worlds, steps) && from <= to <= |steps| && NothingRestored(steps, from, to)
    requires At(worlds[from], f).Some? && !At(worlds[from], f).value.IsActive()
    ensures PrunedAway(worlds, steps, from, to, f) || At(worlds[to], f) == At(worlds[from], f)
  {
    if !PrunedAway(worlds, steps, from, to, f) {
      var values := Entries(worlds, f);
      var same := (e: Option<LedgerEntry>) => e == values[from];
      forall m | from <= m < to
        ensures Copied(values, steps, m) || !same(values[m])
      {
        FinalOneMore(worlds, steps, m, f);
      }
      Stays(values, same, steps, from, to);
    }
  }

  predicate Final(e: Option<LedgerEntry>) {
    e.Some? && !e.value.IsActive()
  }

  lemma FinalOneMore(worlds: seq<World>, steps: seq<SharedStep>, m: nat, f: string)
    requires IsSharedRun(worlds, steps) && m < |steps| && !PrunesAt(worlds, steps, m, f)
    ensures Copied(Entries(worlds, f), steps, m) || !Final(At(worlds[m], f))
  {
    SharedRunInv(worlds, steps, m);
    assert Follows(worlds, steps, m);
    if steps[m].Protocol? && Final(At(worlds[m], f)) {
      FinalStep(worlds[m], steps[m].step, f);
    }
  }

  ghost predicate DeliversAt(worlds: seq<World>, steps: seq<SharedStep>, m: nat, f: string) {
    m < |steps| && m < |worlds| && steps[m].Protocol? && ReportsDelivered(worlds[m], steps[m].step, f)
  }

  lemma DeliveredThen(worlds: seq<World>, steps: seq<SharedStep>, m: nat, f: string)
    requires IsSharedRun(worlds, steps) && DeliversAt(worlds, steps, m, f)
    ensures At(worlds[m], f).Some? && At(worlds[m], f).value.IsActive()
    ensures At(worlds[m + 1], f).Some? && At(worlds[m + 1], f).value.status == Delivered
  {
    SharedRunInv(worlds, steps, m);
    assert Follows(worlds, steps, m);
    ReportedIsPending(worlds[m], steps[m].step, f);
  }

  // At most once, with commits: a fingerprint is reported delivered twice only if its
  // entry was pruned in between, or a commit in between restored a ledger that was
  // read before the first delivery was recorded.
  lemma DeliveredOnceShared(worlds: seq<World>, steps: seq<SharedStep>, i: nat, j: nat, f: string)
    requires IsSharedRun(worlds, steps) && i < j < |steps|
    requires DeliversAt(worlds, steps, i, f) && DeliversAt(worlds, steps, j, f)
    ensures NothingRestored(steps, i + 1, j) ==> PrunedAway(worlds, steps, i + 1, j, f)
  {
    DeliveredThen(worlds, steps, i, f);
    DeliveredThen(worlds, steps, j, f);
    if NothingRestored(steps, i + 1, j) {
      FinalThenWaiting(worlds, steps, i + 1, j, f);
    }
  }

  lemma FinalThenWaiting(worlds: seq<World>, steps: seq<SharedStep>, from: nat, to: nat, f: string)
    requires IsSharedRun(worlds, steps) && from <= to <= |steps| && NothingRestored(steps, from, to)
    requires At(worlds[from], f).Some? && !At(worlds[from], f).value.IsActive()
    requires At(worlds[to], f).Some? && At(worlds[to], f).value.IsActive()
    ensures PrunedAway(worlds, steps, from, to, f)
  {
    FinalForeverShared(worlds, steps, from, to, f);
  }

  // A commit followed by a claim and a delivery once every lease it brought back has
  // expired reports the fingerprint delivered, exactly when the ledger that was
  // read did not hold it as final.
  lemma DeliveredAfterCommitIff(worlds: seq<World>, steps: seq<SharedStep>, readAt: nat, sources: seq<SourceMetadata>,
                                claim: Step, c: Candidate)
    requires IsSharedRun(worlds, steps) && readAt <= |steps|
    requires claim.Claim? && claim.candidates == [c] && WellFormed(claim.kind, c)
    requires claim.token !in worlds[|steps|].used
    requires ExpiredBy(worlds[readAt], claim.kind, c, claim.now)
    ensures var w := Restored(worlds[|steps|], worlds[readAt], sources);
            && Enabled(w, claim)
            && (DeliversNext(Apply(w, claim), Step.Complete(claim.token, Succeeded), c.fingerprint)
                <==> At(worlds[readAt], c.fingerprint).None? || At(worlds[readAt], c.fingerprint).value.IsActive())
  {
    SharedRunInv(worlds, steps, |steps|);
    SharedRunInv(worlds, steps, readAt);
    SharedRunRemembers(worlds, steps, readAt, |steps|);
    var w := Restored(worlds[|steps|], worlds[readAt], sources);
    RestoreKeepsInv(worlds[|steps|], worlds[readAt], sources);
    assert forall f :: At(w, f) == At(worlds[readAt], f);
    assert Owner(w, claim.kind) == Owner(worlds[readAt], claim.kind);
    ClaimDelivers(w, claim, c);
  }

  predicate DeliversNext(w: World, step: Step, f: string) {
    Enabled(w, step) && ReportsDelivered(w, step, f)
  }

  // No lease that could keep a claim of a candidate out is live.
  predicate ExpiredBy(w: World, kind: NotificationKind, c: Candidate, now: Instant) {
    && (Owner(w, kind).None? || !LiveLease(Owner(w, kind).value, now))
    && (At(w, c.fingerprint).None? || !LiveLease(At(w, c.fingerprint).value, now))
  }

  lemma ClaimDelivers(w: World, claim: Step, c: Candidate)
    requires Inv(w) && Enabled(w, claim) && claim.Claim? && claim.candidates == [c]
    requires WellFormed(claim.kind, c) && ExpiredBy(w, claim.kind, c, claim.now)
    ensures DeliversNext(Apply(w, claim), Step.Complete(claim.token, Succeeded), c.fingerprint)
            <==> At(w, c.fingerprint).None? || At(w, c.fingerprint).value.IsActive()
  {
    assert claim == Claim(claim.kind, [c], claim.now, claim.token);
    ClaimOfOne(w, claim.kind, c, claim.now, claim.token);
    if Succeeds(w, claim) {
      SoleClaim(w, claim, c);
      OwnerDelivers(Apply(w, claim), Step.Complete(claim.token, Succeeded), c);
    } else {
      ClaimReturnsReserved(w, claim);
      assert claim.token !in Apply(w, claim).issued;
    }
  }

  // The owner of a batch of one reports it delivered when its command succeeds.
  lemma OwnerDelivers(w: World, step: Step, c: Candidate)
    requires Inv(w) && Enabled(w, step) && step.Complete? && step.result == Succeeded
    requires w.issued[step.done].candidates == [c] && Owns(w, w.issued[step.done].kind, step.done)
    requires At(w, c.fingerprint).Some?
    ensures ReportsDelivered(w, step, c.fingerprint)
  {
    ReportsStep(w, step);
    var outcomes := Outcomes(w.state.ledger, w.issued[step.done], step.result);
    var survives := (d: Candidate) => At(w, d.fingerprint).Some?;
    assert [c][1..] == [] && Filter(survives, [c]) == [c];
    assert Surviving(w, w.issued[step.done]) == [c];
    assert |outcomes| == 1;
    assert outcomes[0].fingerprint == Map((o: NotificationOutcome) => o.fingerprint, outcomes)[0];
    assert Map((d: Candidate) => d.fingerprint, [c])[0] == c.fingerprint;
    SurvivorRecorded(w, step, c);
    assert outcomes[0] in outcomes && DeliveryStatus(Succeeded, c.change) == Delivered;
  }

  // One read before a delivery is enough for a second one, with nothing pruned: the
  // scan that read the empty ledger commits after another process has delivered.
  lemma CommitForgetsDelivery(w0: World, c: Candidate, s0: Step, s1: Step, sources: seq<SourceMetadata>)
    requires Init(w0) && s0.Claim? && s1.Claim? && s0.token != s1.token && WellFormed(s0.kind, c)
    requires s0 == Claim(s0.kind, [c], s0.now, s0.token) && s1 == Claim(s0.kind, [c], s1.now, s1.token)
    ensures Enabled(w0, s0)
    ensures var w1 := Apply(w0, s0);
            && DeliversNext(w1, Step.Complete(s0.token, Succeeded), c.fingerprint)
            && var w3 := Restored(Apply(w1, Step.Complete(s0.token, Succeeded)), w0, sources);
            && Enabled(w3, s1)
            && DeliversNext(Apply(w3, s1), Step.Complete(s1.token, Succeeded), c.fingerprint)
  {
    InitInv(w0);
    ClaimDelivers(w0, s0, c);
    var w2 := Apply(Apply(w0, s0), Step.Complete(s0.token, Succeeded));
    DeliveredOnceMore(w0, s0, Step.Complete(s0.token, Succeeded));
    RestoreKeepsInv(w2, w0, sources);
    ClaimDelivers(Restored(w2, w0, sources), s1, c);
  }

  lemma DeliveredOnceMore(w0: World, s0: Step, s1: Step)
    requires Init(w0) && Inv(w0) && s0.Claim? && Enabled(w0, s0) && s1.Complete? && Enabled(Apply(w0, s0), s1)
    ensures var w2 := Apply(Apply(w0, s0), s1);
            Inv(w2) && Remembers(w2, w0) && w2.used == {s0.token}
  {
    StepKeepsInv(w0, s0);
    StepKeepsInv(Apply(w0, s0), s1);
  }

  // Exclusion and fencing

  ghost predicate ClaimsAt(worlds: seq<World>, steps: seq<SharedStep>, m: nat, kind: NotificationKind)
    requires m < |steps| && m < |worlds|
  {
    steps[m].Protocol? && SucceedsFor(worlds[m], steps[m].step, kind)
  }

  lemma OwnerNext(worlds: seq<World>, steps: seq<SharedStep>, m: nat, kind: NotificationKind)
    requires IsSharedRun(worlds, steps) && m < |steps|
    ensures steps[m].Commit? ==> steps[m].readAt <= m
    ensures Owner(worlds[m + 1], kind) ==
            match steps[m]
            case Protocol(s) =>
              if SucceedsFor(worlds[m], s, kind) then Some(LeaseEntry(OwnerFingerprint(kind), s.now, s.token))
              else if s.Complete? && Owns(worlds[m], kind, s.done) then None
              else Owner(worlds[m], kind)
            case Commit(readAt, _) => Owner(worlds[readAt], kind)
  {
    SharedRunInv(worlds, steps, m);
    assert Follows(worlds, steps, m);
    match steps[m] {
      case Protocol(s) => OwnerStep(worlds[m], s, kind);
      case Commit(_, _) =>
    }
  }

  // Between two states of a run a kind is not claimed, a batch not completed, and
  // nothing read earlier restored.
  ghost predicate Quiet(worlds: seq<World>, steps: seq<SharedStep>, from: nat, to: nat, kind: NotificationKind, token: string)
    requires to <= |steps| < |worlds|
  {
    && NothingRestored(steps, from, to)
    && forall m :: from <= m < to ==>
         !ClaimsAt(worlds, steps, m, kind) && !CompletesAt(steps[m], token)
  }

  predicate CompletesAt(step: SharedStep, token: string) {
    step.Protocol? && step.step.Complete? && step.step.done == token
  }

  lemma LeaseHeldShared(worlds: seq<World>, steps: seq<SharedStep>, from: nat, to: nat, kind: NotificationKind,
                        token: string)
    requires IsSharedRun(worlds, steps) && from <= to <= |steps| && Quiet(worlds, steps, from, to, kind, token)
    requires Owns(worlds[from], kind, token)
    ensures Owner(worlds[to], kind) == Owner(worlds[from], kind)
  {
    var owners := Entries(worlds, OwnerFingerprint(kind));
    var lease := owners[from];
    var held := (e: Option<LedgerEntry>) => e == lease;
    forall m | from <= m < to
      ensures Copied(owners, steps, m) || (held(owners[m]) ==> held(owners[m + 1]))
    {
      OwnerNext(worlds, steps, m, kind);
      assert !ClaimsAt(worlds, steps, m, kind) && !CompletesAt(steps[m], token);
    }
    Stays(owners, held, steps, from, to);
  }

  // Lease exclusion with commits: the second of two consecutive successful claims
  // comes 30 seconds after the first unless the first was completed, or a commit in
  // between restored a ledger that was read before the first.
  lemma LeaseExclusionShared(worlds: seq<World>, steps: seq<SharedStep>, i: nat, j: nat, kind: NotificationKind)
    requires IsSharedRun(worlds, steps) && i < j < |steps|
    requires ClaimsAt(worlds, steps, i, kind) && ClaimsAt(worlds, steps, j, kind)
    requires Quiet(worlds, steps, i + 1, j, kind, steps[i].step.token)
    ensures steps[j].step.now >= steps[i].step.now + LEASE_DURATION
  {
    var first := steps[i].step;
    OwnerAfterClaim(worlds, steps, i, kind);
    LeaseHeldShared(worlds, steps, i + 1, j, kind, first.token);
    OwnerExcludes(worlds[j], steps[j].step, kind, first.now, first.token);
  }

  lemma OwnerAfterClaim(worlds: seq<World>, steps: seq<SharedStep>, i: nat, kind: NotificationKind)
    requires IsSharedRun(worlds, steps) && i < |steps| && ClaimsAt(worlds, steps, i, kind)
    ensures Owner(worlds[i + 1], kind) == Some(LeaseEntry(OwnerFingerprint(kind), steps[i].step.now, steps[i].step.token))
  {
    OwnerNext(worlds, steps, i, kind);
  }

  lemma OwnerExcludes(w: World, step: Step, kind: NotificationKind, since: Instant, token: string)
    requires Owner(w, kind) == Some(LeaseEntry(OwnerFingerprint(kind), since, token)) && SucceedsFor(w, step, kind)
    ensures step.now >= since + LEASE_DURATION
  {
  }

  // Such a commit does let two processes hold the same kind at the same instant.
  lemma CommitForgetsLease(w0: World, c: Candidate, s0: Step, s1: Step, sources: seq<SourceMetadata>)
    requires Init(w0) && s0.Claim? && s1.Claim? && s0.token != s1.token && WellFormed(s0.kind, c)
    requires s0 == Claim(s0.kind, [c], s0.now, s0.token) && s1 == Claim(s0.kind, [c], s0.now, s1.token)
    ensures Enabled(w0, s0) && SucceedsFor(w0, s0, s0.kind)
    ensures var w2 := Restored(Apply(w0, s0), w0, sources);
            && Enabled(w2, s1) && SucceedsFor(w2, s1, s0.kind)
            && {s0.token, s1.token} <= Apply(w2, s1).open
  {
    InitInv(w0);
    ClaimOfOne(w0, s0.kind, c, s0.now, s0.token);
    SoleClaim(w0, s0, c);
    var w2 := Restored(Apply(w0, s0), w0, sources);
    RestoreKeepsInv(Apply(w0, s0), w0, sources);
    ClaimOfOne(w2, s0.kind, c, s1.now, s1.token);
    ClaimReturnsReserved(w2, s1);
  }

  lemma NotOwnerShared(worlds: seq<World>, steps: seq<SharedStep>, from: nat, to: nat, kind: NotificationKind,
                       token: string)
    requires IsSharedRun(worlds, steps) && from <= to <= |steps| && NothingRestored(steps, from, to)
    requires token in worlds[from].used && !Owns(worlds[from], kind, token)
    ensures !Owns(worlds[to], kind, token)
  {
    var owners := Entries(worlds, OwnerFingerprint(kind));
    var other := (e: Option<LedgerEntry>) => !OwnedBy(e, token);
    forall m | from <= m < to
      ensures Copied(owners, steps, m) || (other(owners[m]) ==> other(owners[m + 1]))
    {
      SharedRunRemembers(worlds, steps, from, m);
      OwnerNext(worlds, steps, m, kind);
      if ClaimsAt(worlds, steps, m, kind) {
        ClaimTakes(worlds, steps, m, kind, token);
      }
    }
    Stays(owners, other, steps, from, to);
  }

  lemma ClaimTakes(worlds: seq<World>, steps: seq<SharedStep>, m: nat, kind: NotificationKind, token: string)
    requires IsSharedRun(worlds, steps) && m < |steps| && ClaimsAt(worlds, steps, m, kind) && token in worlds[m].used
    ensures !Owns(worlds[m + 1], kind, token)
  {
    OwnerAfterClaim(worlds, steps, m, kind);
    FreshClaim(worlds, steps, m);
  }

  // Fencing with commits: completing an overtaken batch changes nothing and reports
  // nothing, as long as no commit has restored what was read before it was overtaken.
  lemma FencingShared(worlds: seq<World>, steps: seq<SharedStep>, i: nat, j: nat, m: nat, kind: NotificationKind)
    requires IsSharedRun(worlds, steps) && i < j < m < |steps| && NothingRestored(steps, j + 1, m)
    requires ClaimsAt(worlds, steps, i, kind) && ClaimsAt(worlds, steps, j, kind)
    requires CompletesAt(steps[m], steps[i].step.token)
    ensures steps[m].step.done in worlds[m].issued
    ensures worlds[m + 1].state == worlds[m].state
    ensures Outcomes(worlds[m].state.ledger, worlds[m].issued[steps[m].step.done], steps[m].step.result) == []
  {
    SharedRunInv(worlds, steps, m);
    assert Follows(worlds, steps, m);
    IssuedBy(worlds, steps, i, m, kind);
    OvertakenOwner(worlds, steps, i, j, m, kind);
    NotOwnerCompletesNothing(worlds[m], steps[m].step);
  }

  lemma OvertakenOwner(worlds: seq<World>, steps: seq<SharedStep>, i: nat, j: nat, m: nat, kind: NotificationKind)
    requires IsSharedRun(worlds, steps) && i < j < m <= |steps| && NothingRestored(steps, j + 1, m)
    requires ClaimsAt(worlds, steps, i, kind) && ClaimsAt(worlds, steps, j, kind)
    ensures !Owns(worlds[m], kind, steps[i].step.token)
  {
    OvertakenAtOnce(worlds, steps, i, j, kind);
    NotOwnerShared(worlds, steps, j + 1, m, kind, steps[i].step.token);
  }

  lemma OvertakenAtOnce(worlds: seq<World>, steps: seq<SharedStep>, i: nat, j: nat, kind: NotificationKind)
    requires IsSharedRun(worlds, steps) && i < j < |steps|
    requires ClaimsAt(worlds, steps, i, kind) && ClaimsAt(worlds, steps, j, kind)
    ensures steps[i].step.token in worlds[j + 1].used && !Owns(worlds[j + 1], kind, steps[i].step.token)
  {
    IssuedBy(worlds, steps, i, j, kind);
    SharedRunRemembers(worlds, steps, j, j + 1);
    ClaimTakes(worlds, steps, j, kind, steps[i].step.token);
  }

  lemma FreshClaim(worlds: seq<World>, steps: seq<SharedStep>, j: nat)
    requires IsSharedRun(worlds, steps) && j < |steps| && steps[j].Protocol? && steps[j].step.Claim?
    ensures steps[j].step.token !in worlds[j].used
  {
    assert Follows(worlds, steps, j);
  }

  // A claimed batch is known ever after.
  lemma IssuedBy(worlds: seq<World>, steps: seq<SharedStep>, i: nat, m: nat, kind: NotificationKind)
    requires IsSharedRun(worlds, steps) && i < m < |worlds| && i < |steps| && ClaimsAt(worlds, steps, i, kind)
    ensures var token := steps[i].step.token;
            && token in worlds[m].used
            && token in worlds[m].issued && worlds[m].issued[token].kind == kind
  {
    SharedRunInv(worlds, steps, i);
    assert Follows(worlds, steps, i);
    ClaimEffect(worlds[i], steps[i].step);
    SharedRunRemembers(worlds, steps, i + 1, m);
  }

  // Completing a batch right after a commit has an effect exactly when the batch owned
  // its kind in the ledger that was read, overtaken since or not.
  lemma CompletionAfterCommitIff(worlds: seq<World>, steps: seq<SharedStep>, readAt: nat, sources: seq<SourceMetadata>,
                                 done: Step)
    requires IsSharedRun(worlds, steps) && readAt <= |steps|
    requires done.Complete? && Enabled(worlds[|steps|], done)
    ensures var w := Restored(worlds[|steps|], worlds[readAt], sources);
            && Enabled(w, done)
            && (Apply(w, done).state != w.state <==> Owns(worlds[readAt], w.issued[done.done].kind, done.done))
  {
    SharedRunInv(worlds, steps, |steps|);
    SharedRunInv(worlds, steps, readAt);
    SharedRunRemembers(worlds, steps, readAt, |steps|);
    RestoreKeepsInv(worlds[|steps|], worlds[readAt], sources);
    var w := Restored(worlds[|steps|], worlds[readAt], sources);
    assert Owner(w, w.issued[done.done].kind) == Owner(worlds[readAt], w.issued[done.done].kind);
    CompletionChangesIff(w, done);
  }

  lemma CompletionChangesIff(w: World, done: Step)
    requires Inv(w) && done.Complete? && Enabled(w, done)
    ensures Apply(w, done).state != w.state <==> Owns(w, w.issued[done.done].kind, done.done)
  {
    if Owns(w, w.issued[done.done].kind, done.done) {
      OwnerStep(w, done, w.issued[done.done].kind);
    } else {
      NotOwnerCompletesNothing(w, done);
    }
  }

  // Progress

  ghost predicate ForwardShared(worlds: seq<World>, steps: seq<SharedStep>) {
    && IsSharedRun(worlds, steps)
    && forall i {:trigger ForwardAt(worlds, steps, i)} :: 0 <= i < |steps| ==> ForwardAt(worlds, steps, i)
  }

  ghost predicate ForwardAt(worlds: seq<World>, steps: seq<SharedStep>, i: nat)
    requires i < |steps| && i < |worlds|
  {
    steps[i].Protocol? ==> Forward(worlds[i], steps[i].step)
  }

  // Up to a state every lease is timed, and the clock was no later.
  ghost predicate TimedUpTo(worlds: seq<World>, i: nat)
    requires i < |worlds|
  {
    forall h {:trigger worlds[h].clock} :: 0 <= h <= i ==> LeasesTimed(worlds[h]) && worlds[h].clock <= worlds[i].clock
  }

  lemma RestoreKeepsTimed(w: World, read: World, sources: seq<SourceMetadata>)
    requires LeasesTimed(read) && read.clock <= w.clock
    ensures LeasesTimed(Restored(w, read, sources))
  {
    var next := Restored(w, read, sources);
    forall f, k
      ensures TimedAt(next, f, k)
    {
      assert TimedAt(read, f, k) && At(next, f) == At(read, f) && Owner(next, k) == Owner(read, k);
    }
  }

  lemma TimedOneMore(worlds: seq<World>, steps: seq<SharedStep>, i: nat)
    requires ForwardShared(worlds, steps) && i < |steps| && TimedUpTo(worlds, i)
    ensures LeasesTimed(worlds[i + 1]) && worlds[i].clock <= worlds[i + 1].clock
  {
    SharedRunInv(worlds, steps, i);
    assert Follows(worlds, steps, i) && ForwardAt(worlds, steps, i);
    match steps[i] {
      case Protocol(s) =>
        assert worlds[i].clock <= worlds[i].clock;
        TimedStep(worlds[i], s);
        ClockForward(worlds[i], s);
      case Commit(readAt, sources) =>
        assert worlds[readAt].clock <= worlds[i].clock;
        RestoreKeepsTimed(worlds[i], worlds[readAt], sources);
    }
  }

  lemma ClockForward(w: World, step: Step)
    requires Enabled(w, step) && Forward(w, step)
    ensures w.clock <= Apply(w, step).clock
  {
  }

  lemma {:induction false} SharedRunTimed(worlds: seq<World>, steps: seq<SharedStep>, i: nat)
    requires ForwardShared(worlds, steps) && i < |worlds|
    ensures TimedUpTo(worlds, i)
  {
    if i == 0 {
      assert LeasesTimed(worlds[0]) by {
        assert forall f: string :: At(worlds[0], f).None?;
      }
    } else {
      SharedRunTimed(worlds, steps, i - 1);
      TimedOneMore(worlds, steps, i - 1);
      forall h | 0 <= h <= i
        ensures LeasesTimed(worlds[h]) && worlds[h].clock <= worlds[i].clock
      {
        assert h < i ==> worlds[h].clock <= worlds[i - 1].clock;
      }
    }
  }

  // The times of the successful claims of a kind.
  ghost function ClaimTimes(worlds: seq<World>, steps: seq<SharedStep>, kind: NotificationKind): (r: seq<Option<Instant>>)
    requires |worlds| == |steps| + 1
    ensures |r| == |steps|
    ensures forall m :: 0 <= m < |steps| ==>
              r[m] == if ClaimsAt(worlds, steps, m, kind) then Some(steps[m].step.now) else None
  {
    seq(|steps|, m requires 0 <= m < |steps| =>
          if ClaimsAt(worlds, steps, m, kind) then Some(steps[m].step.now) else None)
  }

  // An owner is copied, released, or left by a claim made at a time.
  ghost predicate OwnerMoves(owners: seq<Option<LedgerEntry>>, claims: seq<Option<Instant>>, steps: seq<SharedStep>, m: nat)
    requires |owners| == |steps| + 1 && |claims| == |steps| && m < |steps|
  {
    || Copied(owners, steps, m)
    || owners[m + 1].None?
    || (claims[m].Some? && owners[m + 1].value.leaseExpiresAt == Some(claims[m].value + LEASE_DURATION))
  }

  lemma {:induction false} OwnerOrigin(owners: seq<Option<LedgerEntry>>, claims: seq<Option<Instant>>,
                                       steps: seq<SharedStep>, j: nat) returns (i: nat)
    requires |owners| == |steps| + 1 && |claims| == |steps| && j < |owners| && owners[0].None? && owners[j].Some?
    requires forall m {:trigger OwnerMoves(owners, claims, steps, m)} :: 0 <= m < |steps| ==> OwnerMoves(owners, claims, steps, m)
    ensures i < |steps| && claims[i].Some?
    ensures owners[j].value.leaseExpiresAt == Some(claims[i].value + LEASE_DURATION)
    decreases j
  {
    assert OwnerMoves(owners, claims, steps, j - 1);
    if !Copied(owners, steps, j - 1) {
      i := j - 1;
    } else if steps[j - 1].Commit? {
      i := OwnerOrigin(owners, claims, steps, steps[j - 1].readAt);
    } else {
      i := OwnerOrigin(owners, claims, steps, j - 1);
    }
  }

  lemma OwnerMovesAt(worlds: seq<World>, steps: seq<SharedStep>, m: nat, kind: NotificationKind)
    requires IsSharedRun(worlds, steps) && m < |steps|
    ensures OwnerMoves(Entries(worlds, OwnerFingerprint(kind)), ClaimTimes(worlds, steps, kind), steps, m)
  {
    var owners, claims := Entries(worlds, OwnerFingerprint(kind)), ClaimTimes(worlds, steps, kind);
    if ClaimsAt(worlds, steps, m, kind) {
      OwnerAfterClaim(worlds, steps, m, kind);
      assert claims[m] == Some(steps[m].step.now) && owners[m + 1] == Owner(worlds[m + 1], kind);
    } else {
      OwnerUnclaimed(worlds, steps, m, kind);
      assert owners[m + 1] == Owner(worlds[m + 1], kind) && owners[m] == Owner(worlds[m], kind);
    }
  }

  lemma OwnerUnclaimed(worlds: seq<World>, steps: seq<SharedStep>, m: nat, kind: NotificationKind)
    requires IsSharedRun(worlds, steps) && m < |steps| && !ClaimsAt(worlds, steps, m, kind)
    ensures steps[m].Protocol? ==>
              Owner(worlds[m + 1], kind) == Owner(worlds[m], kind) || Owner(worlds[m + 1], kind).None?
    ensures steps[m].Commit? ==> steps[m].readAt <= m && Owner(worlds[m + 1], kind) == Owner(worlds[steps[m].readAt], kind)
  {
    OwnerNext(worlds, steps, m, kind);
  }

  // An owner entry is the lease of some claim, restored or not.
  lemma OwnerFromClaimShared(worlds: seq<World>, steps: seq<SharedStep>, kind: NotificationKind) returns (i: nat)
    requires IsSharedRun(worlds, steps) && Owner(worlds[|steps|], kind).Some?
    ensures i < |steps| && ClaimsAt(worlds, steps, i, kind)
    ensures Owner(worlds[|steps|], kind).value.leaseExpiresAt == Some(steps[i].step.now + LEASE_DURATION)
  {
    var owners, claims := Entries(worlds, OwnerFingerprint(kind)), ClaimTimes(worlds, steps, kind);
    NoOwnerFirst(worlds, steps, kind);
    forall m | 0 <= m < |steps|
      ensures OwnerMoves(owners, claims, steps, m)
    {
      OwnerMovesAt(worlds, steps, m, kind);
    }
    i := OwnerOrigin(owners, claims, steps, |steps|);
  }

  lemma NoOwnerFirst(worlds: seq<World>, steps: seq<SharedStep>, kind: NotificationKind)
    requires IsSharedRun(worlds, steps)
    ensures Owner(worlds[0], kind).None?
  {
  }

  // Progress survives commits: 30 seconds after every claim of a kind, whatever was
  // restored in between, a claim takes every waiting candidate.
  lemma ProgressShared(worlds: seq<World>, steps: seq<SharedStep>, claim: Step)
    requires ForwardShared(worlds, steps) && claim.Claim? && Enabled(worlds[|steps|], claim)
    requires Forward(worlds[|steps|], claim)
    requires forall i :: 0 <= i < |steps| && ClaimsAt(worlds, steps, i, claim.kind) ==>
               steps[i].step.now + LEASE_DURATION <= claim.now
    ensures var w := worlds[|steps|];
            var next := Apply(w, claim);
            Waiting(w, claim.candidates) != [] ==>
              && claim.token in next.issued
              && next.issued[claim.token] == Batch(claim.kind, Waiting(w, claim.candidates), claim.token)
  {
    var w := worlds[|steps|];
    SharedRunInv(worlds, steps, |steps|);
    SharedRunTimed(worlds, steps, |steps|);
    assert w.clock <= w.clock;
    if Owner(w, claim.kind).Some? {
      var i := OwnerFromClaimShared(worlds, steps, claim.kind);
    }
    UnownedProgress(w, claim);
  }

  lemma UnownedProgress(w: World, claim: Step)
    requires Inv(w) && LeasesTimed(w) && claim.Claim? && Enabled(w, claim) && Forward(w, claim)
    requires Unowned(w, claim.kind, claim.now)
    ensures var next := Apply(w, claim);
            Waiting(w, claim.candidates) != [] ==>
              && claim.token in next.issued
              && next.issued[claim.token] == Batch(claim.kind, Waiting(w, claim.candidates), claim.token)
  {
    WaitingAreClaimable(w, claim.kind, claim.candidates, claim.now);
    ClaimReturnsReserved(w, claim);
  }
}
