/**
 * The account store: the `users.json` file, a mapping from username to the
 * record created at signup. The file is read whole before every operation
 * and written back whole after a signup; here it is an object holding the
 * mapping, so that reading and writing it are the two methods below.
 */
module Accounts {
  import opened Wrappers

  /** One account, as stored under its username. The password is kept as typed. */
  datatype UserRecord = UserRecord(name: string, email: string, password: string, plants: seq<string>)

  class UserFile {
    /** The decoded contents of the file. */
    var users: map<string, UserRecord>

    /**
     * Startup: an existing file keeps its contents; a missing one is created
     * holding the empty mapping.
     */
    constructor (existing: Option<map<string, UserRecord>>)
      ensures existing.Some? ==> users == existing.value
      ensures existing.None? ==> users == map[]
    {
      users := if existing.Some? then existing.value else map[];
    }

    /** `load_users`: the whole mapping, as last saved. */
    method Load() returns (m: map<string, UserRecord>)
      ensures m == users
    {
      m := users;
    }

    /** `save_users`: replaces the whole file with `m`. */
    method Save(m: map<string, UserRecord>)
      modifies this
      ensures users == m
    {
      users := m;
    }
  }
}
