/**
 * The storage crate's raw profile-view record (`NewWantedlyProfileViewRaw`),
 * its error enum, the relative-date resolver (`parse_viewed_at`,
 * `date_to_utc_midnight`) and the lenient mapper `from_node`, which reads the
 * JSON node directly instead of going through the typed decoder.
 *
 * An instant (`DateTime<Utc>`) is a whole number of seconds since the Unix
 * epoch; sub-second parts never reach a result, because every resolved
 * instant is a midnight. A calendar date (`NaiveDate`) is a day number since
 * 1970-01-01.
 */
module Raw {
  import opened Wrappers
  import opened Int64
  import opened Text
  import opened JsonValue
  import opened NodeKeys

  const SECONDS_PER_DAY: int := 86400

  /** The token for "today". */
  const TODAY: string := "今日"

  /** The marker that ends an "N days ago" token. */
  const DAYS_AGO: string := "日前"

  /** The message `from_node` gives when `userId` is unusable. */
  const USER_ID_MUST_BE_I64: string := "node.userId must be i64"

  /** `WantedlyProfileViewRawError`; the database error's payload is not modelled. */
  datatype RawError =
    | JsonStructure(message: string)
    | InvalidDate(raw: string)
    | Db

  /** `NewWantedlyProfileViewRaw`: one record ready to be written. */
  datatype NewProfileViewRaw = NewProfileViewRaw(
    viewerUserId: string,
    viewerCompanyPageUrl: Option<string>,
    viewerCompanyNameRaw: Option<string>,
    viewedAtRaw: string,
    viewedAt: int,
    rawJson: Json)

  // ---------------------------------------------------------------------
  // Dates and instants

  /** `DateTime<Utc>::date_naive`: the day that contains instant `t`. */
  function UtcDate(t: int): (d: int)
    ensures d * SECONDS_PER_DAY <= t < (d + 1) * SECONDS_PER_DAY
  {
    t / SECONDS_PER_DAY
  }

  /** `date_to_utc_midnight`: the instant 00:00:00 UTC of day `d`. */
  function DateToUtcMidnight(d: int): (m: int)
    ensures m % SECONDS_PER_DAY == 0
    ensures UtcDate(m) == d
  {
    d * SECONDS_PER_DAY
  }

  /**
   * `parse_viewed_at`: "今日" is midnight of the anchor's date; a token whose
   * text before the first "日前" parses as an `i64` N is midnight N days
   * before it; every other token is None.
   */
  function ParseViewedAt(raw: string, fetchedAt: int): (r: Option<int>)
    ensures r.Some? ==> r.value % SECONDS_PER_DAY == 0
    ensures r.Some? ==> raw == TODAY || Find(raw, DAYS_AGO).Some?
  {
    var baseDate := UtcDate(fetchedAt);
    if raw == TODAY then Some(DateToUtcMidnight(baseDate))
    else
      match Find(raw, DAYS_AGO)
      case Some(idx) =>
        (match Parse(raw[..idx])
         case Some(days) => Some(DateToUtcMidnight(baseDate - days as int))
         case None => None)
      case None => None
  }

  // ---------------------------------------------------------------------
  // The lenient mapper

  /** The date token `from_node` reads: the string at `profileImpressionMeta.impressedDateTime`, or "". */
  function ViewedAtToken(node: Json): string {
    var t := StrIn(GetIn(Get(node, PROFILE_IMPRESSION_META), IMPRESSED_DATE_TIME));
    if t.Some? then t.value else ""
  }

  /** `NewWantedlyProfileViewRaw::from_node`. */
  function FromNode(node: Json, fetchedAt: int): (r: Result<NewProfileViewRaw, RawError>)
    ensures r.Ok? <==> I64In(Get(node, USER_ID)).Some? && ParseViewedAt(ViewedAtToken(node), fetchedAt).Some?
    ensures (r.Err? && r.error.JsonStructure?) <==> I64In(Get(node, USER_ID)).None?
    ensures r.Err? && r.error.JsonStructure? ==> r.error.message == USER_ID_MUST_BE_I64
    ensures (r.Err? && r.error.InvalidDate?) <==>
      I64In(Get(node, USER_ID)).Some? && ParseViewedAt(ViewedAtToken(node), fetchedAt).None?
    ensures r.Err? && r.error.InvalidDate? ==> r.error.raw == ViewedAtToken(node)
    ensures r.Ok? ==> r.value.viewerUserId == ToString(I64In(Get(node, USER_ID)).value)
    ensures r.Ok? ==> Parse(r.value.viewerUserId) == I64In(Get(node, USER_ID))
    ensures r.Ok? ==>
      && r.value.viewerCompanyPageUrl == StrIn(Get(node, COMPANY_PAGE_URL))
      && r.value.viewerCompanyNameRaw == StrIn(Get(node, SHORT_DESCRIPTION))
      && r.value.viewedAtRaw == ViewedAtToken(node)
      && Some(r.value.viewedAt) == ParseViewedAt(r.value.viewedAtRaw, fetchedAt)
      && r.value.rawJson == node
  {
    match I64In(Get(node, USER_ID))
    case None => Err(JsonStructure(USER_ID_MUST_BE_I64))
    case Some(userId) =>
      var viewerUserId := ToString(userId);
      ParseToString(userId);
      var viewerCompanyPageUrl := StrIn(Get(node, COMPANY_PAGE_URL));
      var viewerCompanyNameRaw := StrIn(Get(node, SHORT_DESCRIPTION));
      var viewedAtRaw := ViewedAtToken(node);
      match ParseViewedAt(viewedAtRaw, fetchedAt)
      case None => Err(InvalidDate(viewedAtRaw))
      case Some(viewedAt) =>
        Ok(NewProfileViewRaw(viewerUserId, viewerCompanyPageUrl, viewerCompanyNameRaw, viewedAtRaw, viewedAt, node))
  }

  // ---------------------------------------------------------------------
  // Properties of the date resolver

  /** The first "日前" of `p + "日前" + rest` is the one after `p` when `p` has none. */
  lemma FindMarkerAfterPrefix(p: string, rest: string)
    requires Find(p, DAYS_AGO).None?
    ensures Find(p + DAYS_AGO + rest, DAYS_AGO) == Some(|p|)
  {
    var s := p + DAYS_AGO + rest;
    FindSpec(p, DAYS_AGO);
    FindSpec(s, DAYS_AGO);
    assert s[|p|..|p| + 2] == DAYS_AGO;
    assert OccursAt(s, DAYS_AGO, |p|);
    forall j: nat | j < |p|
      ensures !OccursAt(s, DAYS_AGO, j)
    {
      if j + 2 <= |p| {
        assert s[j..j + 2] == p[j..j + 2];
        assert !OccursAt(p, DAYS_AGO, j);
      } else {
        assert s[j + 1] == '日';
        assert s[j..j + 2][1] != DAYS_AGO[1];
      }
    }
  }

  /** "今日" is midnight of the anchor's own date. */
  lemma ParseViewedAtToday(fetchedAt: int)
    ensures ParseViewedAt(TODAY, fetchedAt) == Some(UtcDate(fetchedAt) * SECONDS_PER_DAY)
  {
  }

  /**
   * "<prefix>日前<rest>", with no earlier marker, is midnight `N` days before
   * the anchor's date when `prefix` parses as the `i64` N (a sign allowed),
   * and None otherwise; `rest` plays no part.
   */
  lemma ParseViewedAtDaysAgo(prefix: string, rest: string, fetchedAt: int)
    requires Find(prefix, DAYS_AGO).None?
    ensures Parse(prefix).Some? ==>
      ParseViewedAt(prefix + DAYS_AGO + rest, fetchedAt)
        == Some((UtcDate(fetchedAt) - Parse(prefix).value as int) * SECONDS_PER_DAY)
    ensures Parse(prefix).None? ==> ParseViewedAt(prefix + DAYS_AGO + rest, fetchedAt) == None
  {
    var raw := prefix + DAYS_AGO + rest;
    FindMarkerAfterPrefix(prefix, rest);
    assert raw[..|prefix|] == prefix;
    if |raw| == 2 {
      assert raw[0] == '日' != TODAY[0];
    }
  }

  /** A token that is not "今日" and holds no "日前" is not recognised. */
  lemma ParseViewedAtUnrecognized(raw: string, fetchedAt: int)
    requires raw != TODAY && Find(raw, DAYS_AGO).None?
    ensures ParseViewedAt(raw, fetchedAt) == None
  {
  }

  /** Two anchors on the same UTC date resolve every token alike. */
  lemma ParseViewedAtSameDay(raw: string, t1: int, t2: int)
    requires UtcDate(t1) == UtcDate(t2)
    ensures ParseViewedAt(raw, t1) == ParseViewedAt(raw, t2)
  {
  }

  /** The anchor 2025-11-23T08:00:00Z used by the worked examples below: day 20415. */
  const EXAMPLE_ANCHOR: int := 1763884800

  lemma ExampleAnchorDate()
    ensures UtcDate(EXAMPLE_ANCHOR) == 20415
  {
  }

  /** "今日" at the example anchor is 2025-11-23T00:00:00Z. */
  lemma ParseViewedAtTodayExample()
    ensures ParseViewedAt("今日", EXAMPLE_ANCHOR) == Some(1763856000)
  {
    ExampleAnchorDate();
  }

  /** "3日前" at the example anchor is 2025-11-20T00:00:00Z. */
  lemma ParseViewedAtThreeDaysExample()
    ensures ParseViewedAt("3日前", EXAMPLE_ANCHOR) == Some(1763596800)
  {
    ExampleAnchorDate();
    assert Parse("3") == Some(3);
    ParseViewedAtDaysAgo("3", "", EXAMPLE_ANCHOR);
    assert "3" + DAYS_AGO + "" == "3日前";
  }

  /** "-2日前" parses as minus two days ago: 2025-11-25T00:00:00Z, after the anchor. */
  lemma ParseViewedAtNegativeExample()
    ensures ParseViewedAt("-2日前", EXAMPLE_ANCHOR) == Some(1764028800)
    ensures 1764028800 > EXAMPLE_ANCHOR
  {
    ExampleAnchorDate();
    assert "-2"[1..] == "2" && "2"[..0] == [];
    assert DigitsValue("2") == 2;
    assert Parse("-2") == Some(-2);
    ParseViewedAtDaysAgo("-2", "", EXAMPLE_ANCHOR);
    assert "-2" + DAYS_AGO + "" == "-2日前";
  }

  /** "先週" ("last week") and a bare "日前" are not recognised. */
  lemma ParseViewedAtRejectedExamples()
    ensures ParseViewedAt("先週", EXAMPLE_ANCHOR) == None
    ensures ParseViewedAt("日前", EXAMPLE_ANCHOR) == None
  {
    assert "先週"[0..2] == "先週" && "先週"[0] != DAYS_AGO[0];
    assert !OccursAt("先週", DAYS_AGO, 0);
    ParseViewedAtDaysAgo("", "", EXAMPLE_ANCHOR);
    assert "" + DAYS_AGO + "" == "日前";
  }

  // ---------------------------------------------------------------------
  // Properties of the lenient mapper

  /** A node whose date path is missing or not a string gets the token "", which is always rejected. */
  lemma MissingDateTokenIsInvalid(node: Json, fetchedAt: int)
    requires I64In(Get(node, USER_ID)).Some?
    requires StrIn(GetIn(Get(node, PROFILE_IMPRESSION_META), IMPRESSED_DATE_TIME)).None?
    ensures FromNode(node, fetchedAt) == Err(InvalidDate(""))
  {
    assert ParseViewedAt("", fetchedAt) == None;
  }

  /**
   * Whatever an optional member holds, it never decides between success and
   * failure; a string is copied and anything else becomes None.
   */
  lemma OptionalMembersNeverFail(m: map<string, Json>, k: string, x: Json, fetchedAt: int)
    requires k == SHORT_DESCRIPTION || k == COMPANY_PAGE_URL
    ensures FromNode(Obj(m[k := x]), fetchedAt).Ok? == FromNode(Obj(m - {k}), fetchedAt).Ok?
    ensures FromNode(Obj(m[k := x]), fetchedAt).Ok? ==>
      (if k == SHORT_DESCRIPTION then FromNode(Obj(m[k := x]), fetchedAt).value.viewerCompanyNameRaw
       else FromNode(Obj(m[k := x]), fetchedAt).value.viewerCompanyPageUrl) == AsStr(x)
  {
    var a, b := m[k := x], m - {k};
    assert Get(Obj(a), USER_ID) == Get(Obj(b), USER_ID);
    assert Get(Obj(a), PROFILE_IMPRESSION_META) == Get(Obj(b), PROFILE_IMPRESSION_META);
  }
}
