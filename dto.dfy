/**
 * The typed node (`WantedlyProfileViewNode`, `ProfileImpressionMeta`) and its
 * strict decoding by serde's derived `Deserialize` through
 * `serde_json::from_value`.
 *
 * A derived struct is decoded from an object, whose unknown members are
 * ignored, or from an array holding exactly one element per field in
 * declaration order. An `Option` field may be absent from an object or be
 * null; any other required field must be present with the right type.
 */
module Dto {
  import opened Wrappers
  import opened Int64
  import opened JsonValue
  import opened NodeKeys

  /** `WantedlyProfileViewNodeError::Decode`; serde's message is not modelled. */
  datatype NodeError = Decode

  datatype ProfileImpressionMeta = ProfileImpressionMeta(impressedDateTime: string)

  datatype ProfileViewNode = ProfileViewNode(
    userId: i64,
    shortDescription: Option<string>,
    companyPageUrl: Option<string>,
    profileImpressionMeta: ProfileImpressionMeta)

  // ---------------------------------------------------------------------
  // The accepted shapes, stated on the JSON value alone

  predicate IsOptionalString(v: Json) {
    v.Null? || v.Str?
  }

  predicate OptionalMemberOk(m: map<string, Json>, key: string) {
    key !in m || IsOptionalString(m[key])
  }

  predicate MetaShaped(v: Json) {
    || (v.Obj? && IMPRESSED_DATE_TIME in v.fields && v.fields[IMPRESSED_DATE_TIME].Str?)
    || (v.Arr? && |v.items| == 1 && v.items[0].Str?)
  }

  predicate ObjectNodeShaped(m: map<string, Json>) {
    && USER_ID in m && AsI64(m[USER_ID]).Some?
    && OptionalMemberOk(m, SHORT_DESCRIPTION)
    && OptionalMemberOk(m, COMPANY_PAGE_URL)
    && PROFILE_IMPRESSION_META in m && MetaShaped(m[PROFILE_IMPRESSION_META])
  }

  predicate ArrayNodeShaped(a: seq<Json>) {
    |a| == 4 && AsI64(a[0]).Some? && IsOptionalString(a[1]) && IsOptionalString(a[2]) && MetaShaped(a[3])
  }

  // ---------------------------------------------------------------------
  // serde's decoding, field type by field type

  function DecodeI64(v: Json): Result<i64, NodeError> {
    match AsI64(v)
    case Some(n) => Ok(n)
    case None => Err(Decode)
  }

  function DecodeString(v: Json): Result<string, NodeError> {
    if v.Str? then Ok(v.s) else Err(Decode)
  }

  /** `Option<String>`: null is None, a string is Some, anything else fails. */
  function DecodeOptionalString(v: Json): Result<Option<string>, NodeError> {
    match v
    case Null => Ok(None)
    case Str(s) => Ok(Some(s))
    case _ => Err(Decode)
  }

  /** An `Option` member of an object: an absent member is None. */
  function DecodeOptionalMember(m: map<string, Json>, key: string): Result<Option<string>, NodeError> {
    if key in m then DecodeOptionalString(m[key]) else Ok(None)
  }

  function DecodeMeta(v: Json): (r: Result<ProfileImpressionMeta, NodeError>)
    ensures r.Ok? <==> MetaShaped(v)
    ensures r.Ok? && v.Obj? ==> v.fields[IMPRESSED_DATE_TIME] == Str(r.value.impressedDateTime)
    ensures r.Ok? && v.Arr? ==> v.items == [Str(r.value.impressedDateTime)]
  {
    match v
    case Obj(m) =>
      if IMPRESSED_DATE_TIME in m then
        var t :- DecodeString(m[IMPRESSED_DATE_TIME]);
        Ok(ProfileImpressionMeta(t))
      else Err(Decode)
    case Arr(a) =>
      if |a| == 1 then
        var t :- DecodeString(a[0]);
        Ok(ProfileImpressionMeta(t))
      else Err(Decode)
    case _ => Err(Decode)
  }

  /** `WantedlyProfileViewNode::from_value`. */
  function FromValue(v: Json): (r: Result<ProfileViewNode, NodeError>)
    ensures r.Ok? <==> (v.Obj? && ObjectNodeShaped(v.fields)) || (v.Arr? && ArrayNodeShaped(v.items))
    ensures r.Ok? && v.Obj? ==>
      && v.fields[USER_ID] == Int(r.value.userId as int)
      && r.value.shortDescription == StrIn(Get(v, SHORT_DESCRIPTION))
      && r.value.companyPageUrl == StrIn(Get(v, COMPANY_PAGE_URL))
      && DecodeMeta(v.fields[PROFILE_IMPRESSION_META]) == Ok(r.value.profileImpressionMeta)
    ensures r.Ok? && v.Arr? ==>
      && v.items[0] == Int(r.value.userId as int)
      && r.value.shortDescription == AsStr(v.items[1])
      && r.value.companyPageUrl == AsStr(v.items[2])
      && DecodeMeta(v.items[3]) == Ok(r.value.profileImpressionMeta)
  {
    match v
    case Obj(m) =>
      if USER_ID in m && PROFILE_IMPRESSION_META in m then
        var userId :- DecodeI64(m[USER_ID]);
        var shortDescription :- DecodeOptionalMember(m, SHORT_DESCRIPTION);
        var companyPageUrl :- DecodeOptionalMember(m, COMPANY_PAGE_URL);
        var meta :- DecodeMeta(m[PROFILE_IMPRESSION_META]);
        Ok(ProfileViewNode(userId, shortDescription, companyPageUrl, meta))
      else Err(Decode)
    case Arr(a) =>
      if |a| == 4 then
        var userId :- DecodeI64(a[0]);
        var shortDescription :- DecodeOptionalString(a[1]);
        var companyPageUrl :- DecodeOptionalString(a[2]);
        var meta :- DecodeMeta(a[3]);
        Ok(ProfileViewNode(userId, shortDescription, companyPageUrl, meta))
      else Err(Decode)
    case _ => Err(Decode)
  }
}

/** What the strict decoder promises about the members it does not read and the ones it may miss. */
module DtoProperties {
  import opened Wrappers
  import opened JsonValue
  import opened NodeKeys
  import opened Dto

  predicate IsNodeKey(k: string) {
    k == USER_ID || k == SHORT_DESCRIPTION || k == COMPANY_PAGE_URL || k == PROFILE_IMPRESSION_META
  }

  /** A member the node type does not declare is ignored, whatever it holds. */
  lemma UnknownMembersIgnored(m: map<string, Json>, k: string, x: Json)
    requires !IsNodeKey(k)
    ensures FromValue(Obj(m[k := x])) == FromValue(Obj(m))
  {
    var m' := m[k := x];
    assert forall key :: IsNodeKey(key) ==> (key in m' <==> key in m) && (key in m ==> m'[key] == m[key]);
  }

  /** A null optional member decodes exactly as an absent one: to None, and never to an error. */
  lemma NullOptionalIsAbsent(m: map<string, Json>, k: string)
    requires k == SHORT_DESCRIPTION || k == COMPANY_PAGE_URL
    ensures FromValue(Obj(m[k := Null])) == FromValue(Obj(m - {k}))
    ensures FromValue(Obj(m - {k})).Ok? ==>
      (if k == SHORT_DESCRIPTION then FromValue(Obj(m - {k})).value.shortDescription
       else FromValue(Obj(m - {k})).value.companyPageUrl) == None
  {
    var a, b := m[k := Null], m - {k};
    assert forall key :: IsNodeKey(key) && key != k ==> (key in a <==> key in b) && (key in b ==> a[key] == b[key]);
  }

  /** A present optional member that is neither null nor a string makes the whole node fail. */
  lemma MistypedOptionalRejected(m: map<string, Json>, k: string, x: Json)
    requires k == SHORT_DESCRIPTION || k == COMPANY_PAGE_URL
    requires !x.Null? && !x.Str?
    ensures FromValue(Obj(m[k := x])) == Err(Decode)
  {
  }

  /** A node without an `i64` `userId` fails, with no partial node. */
  lemma BadUserIdRejected(m: map<string, Json>)
    requires USER_ID !in m || !AsI64(m[USER_ID]).Some?
    ensures FromValue(Obj(m)) == Err(Decode)
  {
  }

  /** A node whose impression metadata is missing, or has no string date token, fails. */
  lemma BadMetaRejected(m: map<string, Json>)
    requires PROFILE_IMPRESSION_META !in m || !MetaShaped(m[PROFILE_IMPRESSION_META])
    ensures FromValue(Obj(m)) == Err(Decode)
  {
  }
}
