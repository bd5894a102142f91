/**
 * The persistence boundary: the database behind `PgPool` and
 * `upsert_profile_view_raw`, seen only through the writes made to it.
 */
module Store {
  import opened Wrappers
  import opened Int64
  import opened Raw

  class ProfileViewStore {
    /** Every record written successfully, in the order of the writes. */
    var log: seq<NewProfileViewRaw>

    constructor ()
      ensures log == []
    {
      log := [];
    }

    /**
     * `upsert_profile_view_raw`: either the write happens and the database
     * returns the row's id, or it fails with a database error and nothing is
     * written. Which of the two, and the id, are the database's choice.
     */
    method UpsertProfileViewRaw(rec: NewProfileViewRaw) returns (r: Result<i64, RawError>)
      modifies this
      ensures r.Ok? ==> log == old(log) + [rec]
      ensures r.Err? ==> r.error == Db && log == old(log)
    {
      var succeeded: bool;
      succeeded := *;
      if succeeded {
        var id: i64;
        id := *;
        log := log + [rec];
        r := Ok(id);
      } else {
        r := Err(Db);
      }
    }
  }
}
