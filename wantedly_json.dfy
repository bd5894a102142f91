/**
 * `extract_impressed_user_edges`: the array found at
 * `data.profileImpressionPage.impressedUsers.edges`, or `InvalidStructure`.
 */
module WantedlyJson {
  import opened Wrappers
  import opened JsonValue

  /** `WantedlyJsonError`. */
  datatype JsonError = InvalidStructure

  const EDGES_PATH: seq<string> := ["data", "profileImpressionPage", "impressedUsers", "edges"]

  /** The value reached from `v` through the successive object members named by `path`. */
  function Walk(v: Json, path: seq<string>): Option<Json>
    decreases |path|
  {
    if path == [] then Some(v)
    else
      match Get(v, path[0])
      case None => None
      case Some(child) => Walk(child, path[1..])
  }

  function ExtractImpressedUserEdges(v: Json): (r: Result<seq<Json>, JsonError>)
    ensures r.Ok? <==> Walk(v, EDGES_PATH).Some? && Walk(v, EDGES_PATH).value.Arr?
    ensures r.Ok? ==> Walk(v, EDGES_PATH) == Some(Arr(r.value))
  {
    var edges := AsArrayIn(GetIn(GetIn(GetIn(Get(v, "data"), "profileImpressionPage"), "impressedUsers"), "edges"));
    if edges.Some? then Ok(edges.value) else Err(InvalidStructure)
  }

  /** Walking `p + q` is walking `p`, then `q` from where `p` ends. */
  lemma {:induction false} WalkConcat(v: Json, p: seq<string>, q: seq<string>)
    ensures Walk(v, p + q) == if Walk(v, p).Some? then Walk(Walk(v, p).value, q) else None
    decreases |p|
  {
    if p != [] {
      assert (p + q)[0] == p[0] && (p + q)[1..] == p[1..] + q;
      var child := Get(v, p[0]);
      if child.Some? {
        WalkConcat(child.value, p[1..], q);
      }
    } else {
      assert p + q == q;
    }
  }

  /** Reaching a non-object anywhere before `edges` fails the extraction. */
  lemma NonObjectOnPathFails(v: Json, j: nat)
    requires j < |EDGES_PATH|
    requires Walk(v, EDGES_PATH[..j]).Some? && !Walk(v, EDGES_PATH[..j]).value.Obj?
    ensures ExtractImpressedUserEdges(v) == Err(InvalidStructure)
  {
    WalkConcat(v, EDGES_PATH[..j], EDGES_PATH[j..]);
    assert EDGES_PATH[..j] + EDGES_PATH[j..] == EDGES_PATH;
  }

  /** Everything off the path (sibling members at any level) is irrelevant. */
  lemma OnlyThePathMatters(v: Json, w: Json)
    requires Walk(v, EDGES_PATH) == Walk(w, EDGES_PATH)
    ensures ExtractImpressedUserEdges(v) == ExtractImpressedUserEdges(w)
  {
  }

  /** The envelope around a given `edges` value. */
  function Envelope(edges: Json): Json {
    Obj(map["data" := Obj(map["profileImpressionPage" := Obj(map["impressedUsers" := Obj(map["edges" := edges])])])])
  }

  /** An envelope around an array yields exactly that array; around anything else it fails. */
  lemma EnvelopeExtracts(edges: Json)
    ensures edges.Arr? ==> ExtractImpressedUserEdges(Envelope(edges)) == Ok(edges.items)
    ensures !edges.Arr? ==> ExtractImpressedUserEdges(Envelope(edges)) == Err(InvalidStructure)
  {
  }

  /** A document with two edges yields an array of two. */
  lemma TwoEdgesExample()
    ensures
      var doc := Envelope(Arr([Obj(map["node" := Obj(map["id" := Int(1)])]), Obj(map["node" := Obj(map["id" := Int(2)])])]));
      ExtractImpressedUserEdges(doc).Ok? && |ExtractImpressedUserEdges(doc).value| == 2
  {
    EnvelopeExtracts(Arr([Obj(map["node" := Obj(map["id" := Int(1)])]), Obj(map["node" := Obj(map["id" := Int(2)])])]));
  }

  /** `{"data": {}}` is `InvalidStructure`. */
  lemma EmptyDataExample()
    ensures ExtractImpressedUserEdges(Obj(map["data" := Obj(map[])])) == Err(InvalidStructure)
  {
  }
}
