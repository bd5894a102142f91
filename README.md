# Wantedly profile-view ingestion, modelled in Dafny

This project models the ingestion pipeline of profile-insights. The pipeline
takes one exported "who viewed my profile" JSON snapshot from Wantedly and
turns every viewer edge in it into a raw storage record:

- `extract_impressed_user_edges` finds the edge array at
  `data.profileImpressionPage.impressedUsers.edges` (module `WantedlyJson`).
- `WantedlyProfileViewNode::from_value` decodes a node strictly, as serde's
  derived `Deserialize` does (module `Dto`, properties in `DtoProperties`).
- `parse_viewed_at` / `date_to_utc_midnight` resolve the relative date tokens
  "今日" ("today") and "N日前" ("N days ago") against the snapshot instant
  (module `Raw`).
- `convert_wantedly_json_node_to_storage` maps a decoded node to a record
  (module `Converter`). The older, lenient `NewWantedlyProfileViewRaw::from_node`
  reads the JSON directly (module `Raw`). `StrictVersusLenient` compares the two.
- `import_one_profile_view` and the edge loop of
  `import_wantedly_profile_views_from_file` write one record per edge and stop
  at the first failure (module `ImportProfileViews`). They write into a store
  object whose writes may fail (module `Store`).

Supporting modules:

- `JsonValue` is the JSON value and its accessors (`get`, `as_i64`, `as_str`, `as_array`).
- `Int64` is Rust's `i64` with `to_string` and `str::parse`.
- `Text` is `str::find`.
- `Wrappers` holds `Option` and `Result`.

An instant is a whole number of seconds since the Unix epoch. A calendar date
is a day number: the date of instant `t` is `t / 86400`, and the midnight of
day `d` is `d * 86400`. The snapshot instant, which the program reads from
the clock, is a parameter.

The batch is specified by a pure plan, `PlanEdges`: the record each edge
would produce, up to the first edge that fails, and that edge's error. The
imperative loop `ImportEdges` is proved against this plan. The store log grows
by a prefix of the planned records, in edge order. The returned count is the
number of edges when every write succeeds. A failing edge, or a failing
write, ends the batch with nothing written after it.

`converter.rs` and `raw.rs` each carry their own copy of `parse_viewed_at` and
`date_to_utc_midnight`. The two copies are identical up to the name of the
instant parameter (`fetched_at` in `raw.rs`, `snapshot_at` in `converter.rs`),
so one definition, `Raw.ParseViewedAt`, serves both. That the two agree on every
input holds by construction.

Serde's derived decoding accepts a struct in two forms:

- as an object, ignoring unknown members;
- as a positional array holding exactly one element per field.

`Dto.FromValue` models both forms. One consequence is a real divergence
between the two mappers. A node whose `profileImpressionMeta` is the array
`["今日"]` passes the strict path. The lenient `from_node` finds no date token
in it and rejects `""` (`StrictVersusLenient.LenientRejectsPositionalMeta`).

## Model

| member | source | states |
|---|---|---|
| Int64.NatToDigitsSpec | crates/storage/src/wantedly/raw.rs:53 | The decimal digits of a natural number are non-empty, all ASCII digits, have no leading zero unless the number is 0, and have exactly that value |
| Int64.ToStringSign | apps/rust-server/src/infra/wantedly/converter.rs:21 | `i64::to_string` is never empty and starts with `-` exactly for negative values |
| Int64.ParseToString | crates/storage/src/wantedly/raw.rs:53 | Parsing the rendering of any `i64` with `str::parse::<i64>` gives that value back |
| Int64.ToStringOfParse | crates/storage/src/wantedly/raw.rs:127 | A string that parses, has no `+` sign and no redundant leading zero is exactly the rendering of its value |
| Text.FindFrom | crates/storage/src/wantedly/raw.rs:126 | A match found from index k starts at or after k and the pattern fits inside the string there |
| Text.FindFromSpec | crates/storage/src/wantedly/raw.rs:126 | The search from k returns an occurrence, and no occurrence lies between k and it; None means no occurrence at or after k |
| Text.FindSpec | crates/storage/src/wantedly/raw.rs:126 | `str::find` returns the first occurrence of the pattern, and None only when there is none |
| Raw.UtcDate | crates/storage/src/wantedly/raw.rs:120 | The date of an instant is the day whose 86400-second span contains it |
| Raw.DateToUtcMidnight | crates/storage/src/wantedly/raw.rs:135-138 | The midnight of a day is a multiple of 86400 whose date is that day |
| Raw.ParseViewedAt | crates/storage/src/wantedly/raw.rs:119-133 | Every resolved instant is a UTC midnight, and a token resolves only if it is "今日" or contains "日前" |
| Raw.FromNode | crates/storage/src/wantedly/raw.rs:43-86 | Succeeds exactly when `userId` is an i64 and the token resolves. `JsonStructure("node.userId must be i64")` exactly when `userId` is not an i64. `InvalidDate` exactly when the id is fine and the token does not resolve, and it carries the token. On success the viewer id is the decimal rendering of `userId` and parses back to it, the optional members are the string values or None, the token and its resolution are kept, and `rawJson` is the node itself |
| Raw.FindMarkerAfterPrefix | crates/storage/src/wantedly/raw.rs:126 | In `p + "日前" + rest` with no marker in `p`, the first marker is found right after `p` |
| Raw.ParseViewedAtToday | crates/storage/src/wantedly/raw.rs:122-124 | "今日" resolves to midnight of the snapshot's own UTC date |
| Raw.ParseViewedAtDaysAgo | crates/storage/src/wantedly/raw.rs:126-130 | For `prefix + "日前" + rest` with no earlier marker, the result is midnight N days before the snapshot's date when `prefix` parses as the i64 N, and None otherwise. `rest` plays no part |
| Raw.ParseViewedAtUnrecognized | crates/storage/src/wantedly/raw.rs:126-132 | A token that is not "今日" and contains no "日前" resolves to None |
| Raw.ParseViewedAtSameDay | crates/storage/src/wantedly/raw.rs:119-120 | Two snapshot instants on the same UTC date resolve every token alike |
| Raw.ExampleAnchorDate | crates/storage/src/wantedly/raw.rs:120 | The example snapshot instant 2025-11-23T08:00:00Z falls on day 20415 |
| Raw.ParseViewedAtTodayExample | apps/rust-server/src/infra/wantedly/converter.rs:49-50 | "今日" at 2025-11-23T08:00:00Z is 2025-11-23T00:00:00Z |
| Raw.ParseViewedAtThreeDaysExample | apps/rust-server/src/infra/wantedly/converter.rs:53-56 | "3日前" at 2025-11-23T08:00:00Z is 2025-11-20T00:00:00Z |
| Raw.ParseViewedAtNegativeExample | apps/rust-server/src/infra/wantedly/converter.rs:54-56 | "-2日前" is accepted, because the i64 parser takes a sign, and resolves to a date after the snapshot |
| Raw.ParseViewedAtRejectedExamples | apps/rust-server/src/infra/wantedly/converter.rs:53-59 | "先週" (no marker) and a bare "日前" (empty prefix) resolve to None |
| Raw.MissingDateTokenIsInvalid | crates/storage/src/wantedly/raw.rs:65-76 | With a valid id and a missing or non-string date path, `from_node` fails with `InvalidDate { raw: "" }` |
| Raw.OptionalMembersNeverFail | crates/storage/src/wantedly/raw.rs:55-63 | Whatever `shortDescription` or `companyPageUrl` holds, success is the same as when it is absent. A string is copied and anything else becomes None |
| Dto.DecodeMeta | apps/rust-server/src/infra/wantedly/dto.rs:26-30 | The metadata decodes exactly when it holds a string `impressedDateTime`, as an object member or as the sole element of an array, and the decoded token is that string |
| Dto.FromValue | apps/rust-server/src/infra/wantedly/dto.rs:32-36 | A node decodes exactly when it is an object with an i64 `userId`, optional members absent, null or strings, and well-formed metadata, or a 4-element array of the same. Every decoded field equals its JSON value |
| DtoProperties.UnknownMembersIgnored | apps/rust-server/src/infra/wantedly/dto.rs:11-24 | Adding or changing a member the node type does not declare leaves the decoding result unchanged |
| DtoProperties.NullOptionalIsAbsent | apps/rust-server/src/infra/wantedly/dto.rs:16-20 | A null optional member decodes exactly as an absent one, and to None |
| DtoProperties.MistypedOptionalRejected | apps/rust-server/src/infra/wantedly/dto.rs:16-20 | An optional member that is neither null nor a string fails the whole node with `Decode` |
| DtoProperties.BadUserIdRejected | apps/rust-server/src/infra/wantedly/dto.rs:13-14 | A missing, non-integer or out-of-range `userId` fails with `Decode` |
| DtoProperties.BadMetaRejected | apps/rust-server/src/infra/wantedly/dto.rs:22-23 | Missing or malformed `profileImpressionMeta` fails with `Decode` |
| Converter.ConvertNodeToStorage | apps/rust-server/src/infra/wantedly/converter.rs:16-44 | Succeeds exactly when the token resolves, and otherwise fails with `InvalidDate` carrying exactly the token. A record's viewer id is the decimal rendering of `userId`; it copies `companyPageUrl` and `shortDescription`, keeps the token and its resolved midnight, and takes `rawJson` unchanged |
| Converter.ViewerUserIdParsesBack | apps/rust-server/src/infra/wantedly/converter.rs:21 | The stored viewer id is the rendering of `userId`, and parsing it gives `userId` back |
| StrictVersusLenient.LenientAgreesOnStrictNodes | crates/storage/src/wantedly/raw.rs:43-86 | On an object node that the strict decoder accepts, with object metadata, `from_node` yields the same record as decode-then-convert, or rejects the same token |
| StrictVersusLenient.LenientAcceptsMistypedOptional | crates/storage/src/wantedly/raw.rs:60-63 | A numeric `shortDescription` fails the strict decoder but is read as None by `from_node` |
| StrictVersusLenient.LenientRejectsPositionalMeta | crates/storage/src/wantedly/raw.rs:65-70 | Metadata in positional form passes the strict path but gives `InvalidDate("")` in `from_node` |
| WantedlyJson.ExtractImpressedUserEdges | apps/rust-server/src/infra/wantedly/json.rs:11-19 | Ok exactly when the four-key path leads to an array, and then it returns that same array |
| WantedlyJson.WalkConcat | apps/rust-server/src/infra/wantedly/json.rs:12-16 | Walking a path in two parts is walking the whole path |
| WantedlyJson.NonObjectOnPathFails | apps/rust-server/src/infra/wantedly/json.rs:13-18 | A non-object at any level before `edges` gives `InvalidStructure` |
| WantedlyJson.OnlyThePathMatters | apps/rust-server/src/infra/wantedly/json.rs:12-16 | Two documents that agree on the path give the same result, whatever their sibling members |
| WantedlyJson.EnvelopeExtracts | apps/rust-server/src/infra/wantedly/json.rs:17-18 | Inside the envelope, an array is returned as is, and anything else gives `InvalidStructure` |
| WantedlyJson.TwoEdgesExample | apps/rust-server/src/infra/wantedly/json.rs:27-46 | The two-edge sample document yields an array of length 2 |
| WantedlyJson.EmptyDataExample | apps/rust-server/src/infra/wantedly/json.rs:49-56 | `{"data": {}}` gives `InvalidStructure` |
| Store.ProfileViewStore.constructor | apps/rust-server/src/infra/usecase/import_wantedly_profile_views.rs:55 | A fresh store has written nothing |
| Store.ProfileViewStore.UpsertProfileViewRaw | apps/rust-server/src/infra/usecase/import_wantedly_profile_views.rs:50 | A write either appends exactly the record to the log and returns an id, or fails with a database error and leaves the log unchanged |
| ImportProfileViews.ImportNode | apps/rust-server/src/infra/usecase/import_wantedly_profile_views.rs:44-47 | A node fails with a node error exactly when strict decoding fails. A decodable node gives a record exactly when its token resolves, and otherwise an `InvalidDate` convert error carrying that token. Before the write, the only errors are decode and convert errors |
| ImportProfileViews.StoredRawJsonRedecodes | apps/rust-server/src/infra/usecase/import_wantedly_profile_views.rs:47 | The record's `rawJson` is the node itself, and decoding and converting it again at the same instant gives the same record |
| ImportProfileViews.ImportEdge | apps/rust-server/src/infra/usecase/import_wantedly_profile_views.rs:65-67 | An edge with no `node` member, including an edge that is not an object, gives `MissingNode` with the message "missing `node` field in edge", and no other edge gives it |
| ImportProfileViews.EdgeOutcomes | apps/rust-server/src/infra/usecase/import_wantedly_profile_views.rs:64 | There is one outcome per edge |
| ImportProfileViews.EdgeOutcomeAt | apps/rust-server/src/infra/usecase/import_wantedly_profile_views.rs:64-68 | Outcome i is edge i imported with the same snapshot instant |
| ImportProfileViews.FirstFailure | apps/rust-server/src/infra/usecase/import_wantedly_profile_views.rs:63-70 | Fail-fast collection keeps the values before the first error, in order, and then that error. With no error it keeps all of them |
| ImportProfileViews.PlanEdgesSpec | apps/rust-server/src/infra/usecase/import_wantedly_profile_views.rs:63-72 | The plan holds the record of every edge before the first failing one, in edge order, and that edge's error. With no failing edge it holds one record per edge |
| ImportProfileViews.PlanEdgesFits | apps/rust-server/src/infra/usecase/import_wantedly_profile_views.rs:63-72 | The fail-fast plan fits its edges edge by edge: an edge reached with every earlier edge written is the plan's next record when its `node` imports, and otherwise the plan's failure with nothing planned after it |
| ImportProfileViews.FitsEdgesUnique | apps/rust-server/src/infra/usecase/import_wantedly_profile_views.rs:63-72 | Only one plan fits a sequence of edges, so the edge-by-edge description determines what the loop writes and where it stops |
| ImportProfileViews.ImportOneProfileView | apps/rust-server/src/infra/usecase/import_wantedly_profile_views.rs:39-52 | Decode, then convert, then write. On success exactly the planned record is appended. A decode or convert error writes nothing and is that error. A write failure is `RawRecord(Db)` with nothing written |
| ImportProfileViews.ImportEdgeAt | apps/rust-server/src/infra/usecase/import_wantedly_profile_views.rs:64-68 | One pass of the loop either writes the plan's record for edge i, or stops with the plan's failure, or stops on a write failure, writing nothing |
| ImportProfileViews.StopAtPlannedFailure | apps/rust-server/src/infra/usecase/import_wantedly_profile_views.rs:65-68 | Stopping at the plan's own failure leaves every planned record written |
| ImportProfileViews.StopAtWriteFailure | apps/rust-server/src/infra/usecase/import_wantedly_profile_views.rs:68 | Stopping on a write failure leaves a strict prefix of the plan written |
| ImportProfileViews.FinishAll | apps/rust-server/src/infra/usecase/import_wantedly_profile_views.rs:72 | Finishing the loop writes every planned record and returns the edge count |
| ImportProfileViews.ImportEdges | apps/rust-server/src/infra/usecase/import_wantedly_profile_views.rs:63-72 | The log grows by a prefix of the plan, in edge order, and the count equals the writes done. `Ok(number of edges)` means every edge was written. An edge's own error means every edge before it was written and none after. A write failure stops short of the plan |
| ImportProfileViews.ImportProfileViewsFromDocument | apps/rust-server/src/infra/usecase/import_wantedly_profile_views.rs:59-72 | A failed extraction returns `InvalidStructure` before any write. Otherwise the batch behaves as `ImportEdges` over the extracted edges |

## Left out

- Loading the snapshot file (`load_json_file`) and the `JsonLoad` error variant. The model starts from an already parsed JSON value.
- The debug `println!` of the edges. It is output only.
- Process bootstrap, the HTTP routes and the clock. The snapshot instant is a parameter.
- `async`/`await` and the connection pool. The model is sequential.
- The SQL of `insert_profile_view_raw`. Also `upsert_profile_view_raw`, whose body is not part of this model: a write is an abstract step that appends the record or fails. Which of the two happens, and the returned id, are nondeterministic. No (viewer, time) idempotence of the upsert is claimed.
- The stored row type `WantedlyProfileViewRaw` (`id`, `created_at`) and the companies, impressions and viewers row types. They carry no logic.
- Raw.ParseViewedAt: integer days are unbounded. chrono panics when `Duration::days(N)` or the date subtraction leaves its range, but the model returns a midnight for every i64 N.
- Error payloads: serde's decode message and the database error are single constructors (`Decode`, `Db`).
- The import code names the extraction error `WantedlyJsonStructureError`, while the extractor defines `WantedlyJsonError`. The model uses the single variant `WantedlyJson(InvalidStructure)`.
- JSON numbers: a number is an integer or a float. Floats are the single `NonIntNum` case, because no operation here reads a float's value.
- ImportProfileViews.ImportEdges: the loop is a method of its own. `ImportProfileViewsFromDocument` calls it after the extraction, and `ImportEdgeAt` is one pass of its body.
