/**
 * `convert_wantedly_json_node_to_storage`: maps a strictly decoded node, the
 * node's raw JSON and the snapshot instant to the storage record.
 *
 * converter.rs carries its own private copies of `parse_viewed_at` and
 * `date_to_utc_midnight`, identical to those in the storage crate up to the
 * name of the instant parameter; this model uses the single definition
 * `Raw.ParseViewedAt` for both.
 */
module Converter {
  import opened Wrappers
  import opened Int64
  import opened JsonValue
  import opened Dto
  import opened Raw

  /** `WantedlyProfileViewConvertError`. */
  datatype ConvertError = InvalidDate(raw: string)

  function ConvertNodeToStorage(node: ProfileViewNode, rawJson: Json, snapshotAt: int)
    : (r: Result<NewProfileViewRaw, ConvertError>)
    ensures r.Ok? <==> ParseViewedAt(node.profileImpressionMeta.impressedDateTime, snapshotAt).Some?
    ensures r.Err? ==> r.error == ConvertError.InvalidDate(node.profileImpressionMeta.impressedDateTime)
    ensures r.Ok? ==>
      && r.value.viewerUserId == ToString(node.userId)
      && r.value.viewerCompanyPageUrl == node.companyPageUrl
      && r.value.viewerCompanyNameRaw == node.shortDescription
      && r.value.viewedAtRaw == node.profileImpressionMeta.impressedDateTime
      && Some(r.value.viewedAt) == ParseViewedAt(r.value.viewedAtRaw, snapshotAt)
      && r.value.viewedAt % SECONDS_PER_DAY == 0
      && r.value.rawJson == rawJson
  {
    var viewerUserId := ToString(node.userId);
    var viewedAtRaw := node.profileImpressionMeta.impressedDateTime;
    match ParseViewedAt(viewedAtRaw, snapshotAt)
    case None => Err(ConvertError.InvalidDate(viewedAtRaw))
    case Some(viewedAt) =>
      Ok(NewProfileViewRaw(viewerUserId, node.companyPageUrl, node.shortDescription, viewedAtRaw, viewedAt, rawJson))
  }

  /** The stored viewer id is the decimal text of `userId`, and parsing it gives `userId` back. */
  lemma ViewerUserIdParsesBack(node: ProfileViewNode, rawJson: Json, snapshotAt: int)
    requires ConvertNodeToStorage(node, rawJson, snapshotAt).Ok?
    ensures ConvertNodeToStorage(node, rawJson, snapshotAt).value.viewerUserId == ToString(node.userId)
    ensures Parse(ConvertNodeToStorage(node, rawJson, snapshotAt).value.viewerUserId) == Some(node.userId)
  {
    ParseToString(node.userId);
  }
}

/** How the strict path (decode, then convert) and the lenient `from_node` relate. */
module StrictVersusLenient {
  import opened Wrappers
  import opened JsonValue
  import opened NodeKeys
  import opened Dto
  import opened Raw
  import opened Converter

  /** The strict outcome with its date error renamed to the storage crate's. */
  function StrictOutcome(node: Json, at: int): Result<NewProfileViewRaw, RawError>
    requires FromValue(node).Ok?
  {
    match ConvertNodeToStorage(FromValue(node).value, node, at)
    case Ok(rec) => Ok(rec)
    case Err(e) => Err(RawError.InvalidDate(e.raw))
  }

  /**
   * On an object node that the strict decoder accepts, with its metadata an
   * object too, the lenient mapper produces the same record, or rejects the
   * same date token.
   */
  lemma LenientAgreesOnStrictNodes(node: Json, at: int)
    requires node.Obj? && FromValue(node).Ok?
    requires node.fields[PROFILE_IMPRESSION_META].Obj?
    ensures FromNode(node, at) == StrictOutcome(node, at)
  {
    var n := FromValue(node).value;
    var m := node.fields;
    assert I64In(Get(node, USER_ID)) == Some(n.userId);
    assert StrIn(Get(node, COMPANY_PAGE_URL)) == n.companyPageUrl;
    assert StrIn(Get(node, SHORT_DESCRIPTION)) == n.shortDescription;
    assert ViewedAtToken(node) == n.profileImpressionMeta.impressedDateTime;
  }

  /** The example node with a numeric `shortDescription`. */
  const MISTYPED_NODE: Json := Obj(map[
    "userId" := Int(42),
    "shortDescription" := Int(5),
    "profileImpressionMeta" := Obj(map["impressedDateTime" := Str("今日")])])

  /** A mistyped optional member fails the strict decoder but not the lenient mapper. */
  lemma LenientAcceptsMistypedOptional(at: int)
    ensures FromValue(MISTYPED_NODE) == Err(Decode)
    ensures FromNode(MISTYPED_NODE, at).Ok?
    ensures FromNode(MISTYPED_NODE, at).value.viewerCompanyNameRaw == None
  {
    assert Get(MISTYPED_NODE, USER_ID) == Some(Int(42));
    assert ViewedAtToken(MISTYPED_NODE) == TODAY;
  }

  /** The example node whose metadata is the positional form `["今日"]`. */
  const POSITIONAL_META_NODE: Json := Obj(map[
    "userId" := Int(42),
    "profileImpressionMeta" := Arr([Str("今日")])])

  /**
   * Metadata in serde's positional form is accepted by the strict path, while
   * the lenient mapper finds no token there and rejects "".
   */
  lemma LenientRejectsPositionalMeta(at: int)
    ensures StrictOutcome(POSITIONAL_META_NODE, at).Ok?
    ensures FromNode(POSITIONAL_META_NODE, at) == Err(RawError.InvalidDate(""))
  {
    assert Get(POSITIONAL_META_NODE, USER_ID) == Some(Int(42));
    assert ObjectNodeShaped(POSITIONAL_META_NODE.fields);
    MissingDateTokenIsInvalid(POSITIONAL_META_NODE, at);
  }
}
