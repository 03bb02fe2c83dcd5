// Which batches are still out: those that were claimed and have since neither been
// completed nor lost with their process.
module BatchEnds {
  import opened Wrappers
  import opened Records
  import opened LedgerPruning
  import opened NotificationBatch
  import opened LeaseProtocol

  predicate Ends(step: Step, token: string) {
    (step.Complete? && step.done == token) || (step.Crash? && step.crashed == token)
  }

  predicate Begins(w: World, step: Step, token: string) {
    Succeeds(w, step) && step.token == token
  }

  // What one step does to the batches that are out.
  lemma OpenStep(w: World, step: Step, token: string)
    requires Inv(w) && Enabled(w, step)
    ensures token in Apply(w, step).open <==> Begins(w, step, token) || (token in w.open && !Ends(step, token))
    ensures Ends(step, token) ==> token in w.open
    ensures step.Claim? ==> step.token !in w.used && step.token in Apply(w, step).used
    ensures w.used <= Apply(w, step).used
  {
    if step.Claim? {
      ClaimReturnsReserved(w, step);
    }
  }

  ghost predicate OutSince(worlds: seq<World>, steps: seq<Step>, i: nat, j: nat, token: string)
    requires j <= |steps| <= |worlds|
  {
    i < j && Begins(worlds[i], steps[i], token) && forall m :: i < m < j ==> !Ends(steps[m], token)
  }

  // The same over any sequence of beginnings and ends.
  ghost predicate BegunAt(begins: seq<bool>, ends: seq<bool>, i: nat, j: nat)
    requires j <= |begins| == |ends|
  {
    i < j && begins[i] && forall m :: i < m < j ==> !ends[m]
  }

  lemma {:induction false} OutAfter(begins: seq<bool>, ends: seq<bool>, out: seq<bool>, j: nat)
    requires j <= |begins| == |ends| < |out| && !out[0]
    requires forall m :: 0 <= m < j ==> out[m + 1] == (begins[m] || (out[m] && !ends[m]))
    ensures out[j] <==> exists i: nat :: BegunAt(begins, ends, i, j)
  {
    if j > 0 {
      OutAfter(begins, ends, out, j - 1);
      assert out[j - 1 + 1] == (begins[j - 1] || (out[j - 1] && !ends[j - 1]));
      if begins[j - 1] {
        assert BegunAt(begins, ends, j - 1, j);
      } else if out[j] {
        var i: nat :| BegunAt(begins, ends, i, j - 1);
        assert BegunAt(begins, ends, i, j);
      } else if i: nat :| BegunAt(begins, ends, i, j) {
        assert BegunAt(begins, ends, i, j - 1);
      }
    }
  }

  lemma RunOpens(worlds: seq<World>, steps: seq<Step>, m: nat, token: string)
    requires IsRun(worlds, steps) && m < |steps|
    ensures token in worlds[m + 1].open <==>
            Begins(worlds[m], steps[m], token) || (token in worlds[m].open && !Ends(steps[m], token))
    ensures Ends(steps[m], token) ==> token in worlds[m].open
    ensures worlds[m].used <= worlds[m + 1].used
    ensures Begins(worlds[m], steps[m], token) ==> token !in worlds[m].used && token in worlds[m + 1].used
  {
    RunInv(worlds, steps, m);
    OpenStep(worlds[m], steps[m], token);
  }

  // In every run a batch is out exactly when it was claimed and has not ended since.
  lemma OpenIff(worlds: seq<World>, steps: seq<Step>, j: nat, token: string)
    requires IsRun(worlds, steps) && j <= |steps|
    ensures token in worlds[j].open <==> exists i: nat :: OutSince(worlds, steps, i, j, token)
  {
    var n := |steps|;
    var begins := seq(n, m requires 0 <= m < n => Begins(worlds[m], steps[m], token));
    var ends := seq(n, m requires 0 <= m < n => Ends(steps[m], token));
    var out := seq(n + 1, m requires 0 <= m <= n => token in worlds[m].open);
    forall m | 0 <= m < j
      ensures out[m + 1] == (begins[m] || (out[m] && !ends[m]))
    {
      RunOpens(worlds, steps, m, token);
    }
    OutAfter(begins, ends, out, j);
    forall i: nat
      ensures OutSince(worlds, steps, i, j, token) <==> BegunAt(begins, ends, i, j)
    {
      SameOut(worlds, steps, begins, ends, i, j, token);
    }
  }

  lemma SameOut(worlds: seq<World>, steps: seq<Step>, begins: seq<bool>, ends: seq<bool>, i: nat, j: nat, token: string)
    requires j <= |steps| == |begins| == |ends| <= |worlds|
    requires forall m :: 0 <= m < |steps| ==> begins[m] == Begins(worlds[m], steps[m], token)
    requires forall m :: 0 <= m < |steps| ==> ends[m] == Ends(steps[m], token)
    ensures OutSince(worlds, steps, i, j, token) <==> BegunAt(begins, ends, i, j)
  {
    if BegunAt(begins, ends, i, j) {
      forall m | i < m < j
        ensures !Ends(steps[m], token)
      {
        assert !ends[m];
      }
    }
  }

  lemma {:induction false} Kept(xs: seq<bool>, i: nat, j: nat)
    requires i <= j < |xs| && xs[i]
    requires forall m :: i <= m < j ==> xs[m] ==> xs[m + 1]
    ensures xs[j]
  {
    if i < j {
      Kept(xs, i, j - 1);
      assert xs[j - 1] ==> xs[j - 1 + 1];
    }
  }

  lemma OpenIsUsed(worlds: seq<World>, steps: seq<Step>, j: nat, token: string)
    requires IsRun(worlds, steps) && j <= |steps|
    ensures token in worlds[j].open ==> token in worlds[j].used
  {
    var xs := seq(|worlds|, m requires 0 <= m < |worlds| => token in worlds[m].open ==> token in worlds[m].used);
    forall m | 0 <= m < j
      ensures xs[m] ==> xs[m + 1]
    {
      RunOpens(worlds, steps, m, token);
    }
    Kept(xs, 0, j);
  }

  lemma StaysClosed(worlds: seq<World>, steps: seq<Step>, i: nat, j: nat, token: string)
    requires IsRun(worlds, steps) && i <= j <= |steps|
    requires token in worlds[i].used && token !in worlds[i].open
    ensures token !in worlds[j].open
  {
    var xs := seq(|worlds|, m requires 0 <= m < |worlds| => token in worlds[m].used && token !in worlds[m].open);
    forall m | i <= m < j
      ensures xs[m] ==> xs[m + 1]
    {
      RunOpens(worlds, steps, m, token);
    }
    Kept(xs, i, j);
  }

  // No batch is completed twice, or completed after its process died.
  lemma EndsOnce(worlds: seq<World>, steps: seq<Step>, i: nat, j: nat, token: string)
    requires IsRun(worlds, steps) && i < j < |steps| && Ends(steps[i], token)
    ensures !Ends(steps[j], token)
  {
    RunOpens(worlds, steps, i, token);
    OpenIsUsed(worlds, steps, i, token);
    StaysClosed(worlds, steps, i + 1, j, token);
    RunOpens(worlds, steps, j, token);
  }
}
