/** The fixed credential tables and the `table[username] && table[username]
    === password` check that server.js, admin.js and admin-v2.js perform. */
module Credentials {
  import opened Wrappers

  type Table = map<string, string>

  /** server.js:34-38 (and the same table in script.js:8-12). */
  const StaffCredentials: Table :=
    map["admin" := "pxhb2024", "support" := "support123", "moderator" := "mod456"]

  /** admin.js:50-52 and admin-v2.js:55-57. */
  const AdminCredentials: Table := map["admin" := "pxhb2024"]

  /** A missing field (an absent body property, a cancelled `prompt`) is `None`. */
  function Check(table: Table, username: Option<string>, password: Option<string>): (ok: bool)
    ensures ok ==> username.Some? && username.value in table && password == Some(table[username.value])
    ensures (forall u :: u in table ==> table[u] != "") ==>
              (ok <==> username.Some? && username.value in table && password == Some(table[username.value]))
  {
    // the stored value is checked for truthiness before it is compared
    username.Some? && username.value in table && table[username.value] != ""
    && password == Some(table[username.value])
  }

  /** Exactly the three listed pairs log a staff member in. */
  lemma StaffCheckExact(username: Option<string>, password: Option<string>)
    ensures Check(StaffCredentials, username, password) <==>
      (username, password) in {(Some("admin"), Some("pxhb2024")),
                               (Some("support"), Some("support123")),
                               (Some("moderator"), Some("mod456"))}
  {
  }

  /** Only `admin` / `pxhb2024` opens an admin console. */
  lemma AdminCheckExact(username: Option<string>, password: Option<string>)
    ensures Check(AdminCredentials, username, password) <==>
      username == Some("admin") && password == Some("pxhb2024")
  {
  }
}
