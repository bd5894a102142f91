/**
 * `import_one_profile_view` and the edge loop of
 * `import_wantedly_profile_views_from_file`: decode, convert and write every
 * edge in order, stopping at the first failure.
 */
module ImportProfileViews {
  import opened Wrappers
  import opened Int64
  import opened JsonValue
  import opened WantedlyJson
  import opened Dto
  import opened Raw
  import opened Converter
  import opened Store

  /** `WantedlyImportError`, without the file-loading variant. */
  datatype ImportError =
    | WantedlyJson(jsonError: JsonError)
    | WantedlyProfileViewJsonNode(nodeError: NodeError)
    | WantedlyProfileViewConvert(convertError: ConvertError)
    | RawRecord(rawError: RawError)
    | MissingNode(message: string)

  const MISSING_NODE_MESSAGE: string := "missing `node` field in edge"

  // ---------------------------------------------------------------------
  // What each edge should produce, as pure functions

  /**
   * The record `import_one_profile_view` hands to the store for `node`, or the
   * error it stops with before writing.
   */
  function ImportNode(node: Json, snapshotAt: int): (r: Result<NewProfileViewRaw, ImportError>)
    ensures (r.Err? && r.error.WantedlyProfileViewJsonNode?) <==> FromValue(node).Err?
    ensures r.Err? ==> r.error.WantedlyProfileViewJsonNode? || r.error.WantedlyProfileViewConvert?
    ensures FromValue(node).Ok? ==>
      (r.Ok? <==> ParseViewedAt(FromValue(node).value.profileImpressionMeta.impressedDateTime, snapshotAt).Some?)
    ensures r.Err? && r.error.WantedlyProfileViewConvert? ==>
      FromValue(node).Ok?
      && r.error.convertError == ConvertError.InvalidDate(FromValue(node).value.profileImpressionMeta.impressedDateTime)
  {
    match FromValue(node)
    case Err(e) => Err(WantedlyProfileViewJsonNode(e))
    case Ok(decoded) =>
      match ConvertNodeToStorage(decoded, node, snapshotAt)
      case Err(e) => Err(WantedlyProfileViewConvert(e))
      case Ok(rec) => Ok(rec)
  }

  /**
   * The record keeps the node itself as its raw JSON, and decoding that raw
   * JSON again gives back the node the record was made from, so converting
   * it again at the same snapshot instant gives the same record.
   */
  lemma StoredRawJsonRedecodes(node: Json, snapshotAt: int)
    requires ImportNode(node, snapshotAt).Ok?
    ensures
      var rec := ImportNode(node, snapshotAt).value;
      && rec.rawJson == node
      && FromValue(rec.rawJson).Ok?
      && ConvertNodeToStorage(FromValue(rec.rawJson).value, rec.rawJson, snapshotAt) == Ok(rec)
  {
  }

  /** One edge: its `node` member, imported; an edge without one (or not an object) is `MissingNode`. */
  function ImportEdge(edge: Json, snapshotAt: int): (r: Result<NewProfileViewRaw, ImportError>)
    ensures Get(edge, "node").None? <==> r == Err(MissingNode(MISSING_NODE_MESSAGE))
  {
    match Get(edge, "node")
    case None => Err(MissingNode(MISSING_NODE_MESSAGE))
    case Some(node) => ImportNode(node, snapshotAt)
  }

  /** The records a batch writes when the store never fails, and the error that stops it, if any. */
  datatype Plan = Plan(records: seq<NewProfileViewRaw>, failure: Option<ImportError>)

  /** The outcome of every edge taken on its own. */
  function EdgeOutcomes(edges: seq<Json>, snapshotAt: int): (outcomes: seq<Result<NewProfileViewRaw, ImportError>>)
    ensures |outcomes| == |edges|
  {
    if edges == [] then [] else [ImportEdge(edges[0], snapshotAt)] + EdgeOutcomes(edges[1..], snapshotAt)
  }

  lemma {:induction false} EdgeOutcomeAt(edges: seq<Json>, snapshotAt: int, i: nat)
    requires i < |edges|
    ensures EdgeOutcomes(edges, snapshotAt)[i] == ImportEdge(edges[i], snapshotAt)
  {
    if i > 0 {
      EdgeOutcomeAt(edges[1..], snapshotAt, i - 1);
    }
  }

  /** Fail-fast collection: the values before the first error, and that error. */
  function FirstFailure(outcomes: seq<Result<NewProfileViewRaw, ImportError>>): (p: Plan)
    ensures |p.records| <= |outcomes|
    ensures forall i :: 0 <= i < |p.records| ==> outcomes[i] == Ok(p.records[i])
    ensures p.failure.None? ==> |p.records| == |outcomes|
    ensures p.failure.Some? ==> |p.records| < |outcomes| && outcomes[|p.records|] == Err(p.failure.value)
  {
    if outcomes == [] then Plan([], None)
    else
      match outcomes[0]
      case Err(e) => Plan([], Some(e))
      case Ok(rec) =>
        var rest := FirstFailure(outcomes[1..]);
        Plan([rec] + rest.records, rest.failure)
  }

  /** The fail-fast plan for `edges`: records for the longest prefix that imports, then its first error. */
  function PlanEdges(edges: seq<Json>, snapshotAt: int): Plan {
    FirstFailure(EdgeOutcomes(edges, snapshotAt))
  }

  /**
   * The plan writes, in order, the record of every edge before the first one
   * that fails, and stops with that edge's error; with no failing edge it
   * writes one record per edge.
   */
  lemma PlanEdgesSpec(edges: seq<Json>, snapshotAt: int)
    ensures var p := PlanEdges(edges, snapshotAt);
      && |p.records| <= |edges|
      && (forall i :: 0 <= i < |p.records| ==> ImportEdge(edges[i], snapshotAt) == Ok(p.records[i]))
      && (p.failure.None? ==> |p.records| == |edges|)
      && (p.failure.Some? ==>
            |p.records| < |edges| && ImportEdge(edges[|p.records|], snapshotAt) == Err(p.failure.value))
  {
    var p := PlanEdges(edges, snapshotAt);
    forall i | 0 <= i < |edges| {
      EdgeOutcomeAt(edges, snapshotAt, i);
    }
  }

  /**
   * Edge `i`, once every edge before it has been written, decides the plan at
   * position `i`: a record it imports to is the plan's record `i`, and an
   * error it stops with is the plan's failure, with nothing planned after it.
   */
  ghost predicate EdgeFits(plan: Plan, edges: seq<Json>, snapshotAt: int, i: nat)
    requires i < |edges|
  {
    i <= |plan.records| ==>
      match ImportEdge(edges[i], snapshotAt)
      case Ok(rec) => i < |plan.records| && plan.records[i] == rec
      case Err(e) => i == |plan.records| && plan.failure == Some(e)
  }

  /** `plan` is what a fail-fast pass over `edges` writes and stops with, told edge by edge. */
  ghost predicate FitsEdges(plan: Plan, edges: seq<Json>, snapshotAt: int) {
    && |plan.records| <= |edges|
    && (|plan.records| == |edges| ==> plan.failure.None?)
    && forall i :: 0 <= i < |edges| ==> EdgeFits(plan, edges, snapshotAt, i)
  }

  /** The plan fits its edges. */
  lemma PlanEdgesFits(edges: seq<Json>, snapshotAt: int)
    ensures FitsEdges(PlanEdges(edges, snapshotAt), edges, snapshotAt)
  {
    PlanEdgesSpec(edges, snapshotAt);
  }

  /** Only one plan fits a sequence of edges, so `FitsEdges` pins `PlanEdges` down. */
  lemma FitsEdgesUnique(p: Plan, q: Plan, edges: seq<Json>, snapshotAt: int)
    requires FitsEdges(p, edges, snapshotAt) && FitsEdges(q, edges, snapshotAt)
    ensures p == q
  {
    var n := if |p.records| <= |q.records| then |p.records| else |q.records|;
    if n < |edges| {
      assert EdgeFits(p, edges, snapshotAt, n) && EdgeFits(q, edges, snapshotAt, n);
    }
    assert |p.records| == |q.records|;
    forall i | 0 <= i < |p.records|
      ensures p.records[i] == q.records[i]
    {
      assert EdgeFits(p, edges, snapshotAt, i) && EdgeFits(q, edges, snapshotAt, i);
    }
  }

  // ---------------------------------------------------------------------
  // The imperative import

  /** `import_one_profile_view`: decode, then convert, then write; a failure before the write writes nothing. */
  method ImportOneProfileView(store: ProfileViewStore, jsonNode: Json, snapshotAt: int)
    returns (r: Result<i64, ImportError>)
    modifies store
    ensures r.Ok? ==>
      ImportNode(jsonNode, snapshotAt).Ok? && store.log == old(store.log) + [ImportNode(jsonNode, snapshotAt).value]
    ensures r.Err? && !r.error.RawRecord? ==>
      ImportNode(jsonNode, snapshotAt) == Err(r.error) && store.log == old(store.log)
    ensures r.Err? && r.error.RawRecord? ==>
      ImportNode(jsonNode, snapshotAt).Ok? && r.error == RawRecord(Db) && store.log == old(store.log)
  {
    var profileViewNode := FromValue(jsonNode);
    if profileViewNode.Err? {
      return Err(WantedlyProfileViewJsonNode(profileViewNode.error));
    }
    var storageDto := ConvertNodeToStorage(profileViewNode.value, jsonNode, snapshotAt);
    if storageDto.Err? {
      return Err(WantedlyProfileViewConvert(storageDto.error));
    }
    var inserted := store.UpsertProfileViewRaw(storageDto.value);
    if inserted.Err? {
      return Err(RawRecord(inserted.error));
    }
    return Ok(inserted.value);
  }

  /**
   * What a batch over edges with plan `plan` leaves behind: the log `before`
   * grew to `after` by a prefix of the plan's records, in edge order; the
   * whole plan when the result is the count of edges or an edge's own error,
   * a strict prefix when a write failed.
   */
  ghost predicate BatchWrote(
    before: seq<NewProfileViewRaw>, after: seq<NewProfileViewRaw>,
    plan: Plan, edgeCount: nat, r: Result<nat, ImportError>)
  {
    && |before| <= |after| <= |before| + |plan.records|
    && after == before + plan.records[..|after| - |before|]
    && (r.Ok? ==> plan.failure.None? && after == before + plan.records && r.value == edgeCount)
    && (r.Err? && !r.error.RawRecord? ==> plan.failure == Some(r.error) && after == before + plan.records)
    && (r.Err? && r.error.RawRecord? ==> r.error == RawRecord(Db) && |after| - |before| < |plan.records|)
  }

  /** Stopping at the plan's own failure, after writing every planned record. */
  lemma StopAtPlannedFailure(before: seq<NewProfileViewRaw>, plan: Plan, i: nat, edgeCount: nat, e: ImportError)
    requires i == |plan.records| && plan.failure == Some(e) && !e.RawRecord?
    ensures BatchWrote(before, before + plan.records[..i], plan, edgeCount, Err(e))
  {
    assert plan.records[..i] == plan.records;
  }

  /** Stopping because writing planned record `i` failed. */
  lemma StopAtWriteFailure(before: seq<NewProfileViewRaw>, plan: Plan, i: nat, edgeCount: nat)
    requires i < |plan.records|
    ensures BatchWrote(before, before + plan.records[..i], plan, edgeCount, Err(RawRecord(Db)))
  {
  }

  /** Finishing with every edge written. */
  lemma FinishAll(before: seq<NewProfileViewRaw>, plan: Plan, n: nat)
    requires n == |plan.records| && plan.failure.None?
    ensures BatchWrote(before, before + plan.records[..n], plan, n, Ok(n))
  {
    assert plan.records[..n] == plan.records;
  }

  /**
   * One pass of the edge loop: take edge `i`'s `node` member (`MissingNode`
   * without one) and import it. Edge `i` is reached only when every edge
   * before it was written, so the pass either writes the plan's record `i` or
   * ends the batch as the plan or a failed write says.
   */
  method ImportEdgeAt(
    store: ProfileViewStore, edges: seq<Json>, snapshotAt: int, i: nat,
    ghost plan: Plan, ghost before: seq<NewProfileViewRaw>)
    returns (r: Result<i64, ImportError>)
    requires FitsEdges(plan, edges, snapshotAt)
    requires i < |edges| && i <= |plan.records|
    requires store.log == before + plan.records[..i]
    modifies store
    ensures r.Ok? ==> i < |plan.records| && store.log == before + plan.records[..i + 1]
    ensures r.Err? ==> BatchWrote(before, store.log, plan, |edges|, Err(r.error))
  {
    assert EdgeFits(plan, edges, snapshotAt, i);
    var nodeValue := Get(edges[i], "node");
    if nodeValue.None? {
      StopAtPlannedFailure(before, plan, i, |edges|, MissingNode(MISSING_NODE_MESSAGE));
      return Err(MissingNode(MISSING_NODE_MESSAGE));
    }
    r := ImportOneProfileView(store, nodeValue.value, snapshotAt);
    if r.Ok? {
      assert plan.records[..i + 1] == plan.records[..i] + [plan.records[i]];
    } else if !r.error.RawRecord? {
      StopAtPlannedFailure(before, plan, i, |edges|, r.error);
    } else {
      StopAtWriteFailure(before, plan, i, |edges|);
    }
  }

  /**
   * The edge loop of `import_wantedly_profile_views_from_file`, against the
   * plan that fits its edges (`PlanEdges`, by `PlanEdgesFits` and
   * `FitsEdgesUnique`): the count it returns is the number of writes, the
   * writes follow the edges' order and nothing is written after the first
   * failure.
   */
  method ImportEdges(store: ProfileViewStore, nodes: seq<Json>, snapshotAt: int, ghost plan: Plan)
    returns (r: Result<nat, ImportError>)
    requires FitsEdges(plan, nodes, snapshotAt)
    modifies store
    ensures BatchWrote(old(store.log), store.log, plan, |nodes|, r)
  {
    var count := 0;
    for i := 0 to |nodes|
      invariant count == i <= |plan.records|
      invariant store.log == old(store.log) + plan.records[..i]
    {
      var imported := ImportEdgeAt(store, nodes, snapshotAt, i, plan, old(store.log));
      if imported.Err? {
        return Err(imported.error);
      }
      count := count + 1;
    }
    FinishAll(old(store.log), plan, count);
    return Ok(count);
  }

  /**
   * `import_wantedly_profile_views_from_file` after its file has been parsed:
   * an envelope that does not match writes nothing; otherwise the edge loop.
   */
  method ImportProfileViewsFromDocument(store: ProfileViewStore, json: Json, snapshotAt: int)
    returns (r: Result<nat, ImportError>)
    modifies store
    ensures ExtractImpressedUserEdges(json).Err? ==>
      r == Err(WantedlyJson(InvalidStructure)) && store.log == old(store.log)
    ensures ExtractImpressedUserEdges(json).Ok? ==>
      var edges := ExtractImpressedUserEdges(json).value;
      BatchWrote(old(store.log), store.log, PlanEdges(edges, snapshotAt), |edges|, r)
  {
    var extracted := ExtractImpressedUserEdges(json);
    if extracted.Err? {
      return Err(WantedlyJson(extracted.error));
    }
    PlanEdgesFits(extracted.value, snapshotAt);
    r := ImportEdges(store, extracted.value, snapshotAt, PlanEdges(extracted.value, snapshotAt));
  }
}
