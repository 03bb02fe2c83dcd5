// Building the next generation from the previous one and eight optional outcomes.
module ScanGeneration {
  import opened Wrappers
  import opened Records
  import opened Sorting
  import opened ScanResolution
  import opened ScanAssembly

  type ScanInputs = seq<Option<SourceOutcome>>

  // Whether a source is to be collected at a time.
  predicate Due(metadata: Option<SourceMetadata>, now: Instant, force: bool) {
    if force || metadata.None? then true
    else if metadata.value.backoffUntil.Some? && now < metadata.value.backoffUntil.value then false
    else metadata.value.lastSuccess.None? || now >= metadata.value.lastSuccess.value + FRESHNESS
  }

  function BuildGeneration(sha: Sha256, generationId: string, order: int, inputs: ScanInputs,
                           previous: Option<GenerationBundle>, state: PersistentState, now: Instant)
    : Result<GenerationBundle, ErrorCode>
    requires |inputs| == |SLICES| && Usable(previous) && CountsValid(state.sources)
  {
    var resolved := ResolveAll(inputs, previous, now);
    var sources :- SourceHealths(resolved, now);
    var items :- NormalizedItems(sha, resolved);
    var findings := NormalizedFindings(resolved);
    var envelope := Envelope(now, generationId, PROTOCOL_VERSION);
    var snapshot := Snapshot(envelope, SnapshotPayload(
      ScanStateOf(resolved), sources, Summarise(items, findings, sources), items, findings, []));
    Ok(GenerationBundle(order, snapshot, Inventories(envelope, items),
                        state.(sources := Metadata(state.sources, inputs, now)),
                        snapshot, LastGoodKeys(previous, resolved)))
  }
}
