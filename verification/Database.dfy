/** References to databases, as internal/database resolves them. */
module Database {
  import opened Wrappers
  import opened Objects
  import opened Status

  datatype Resolved = Resolved(host: string, port: int, user: string, dbName: string, password: KeyRef)

  datatype SingleDatabase = SingleDatabase(conditions: seq<Condition>, resolved: Option<Resolved>)

  datatype Resolution = Unsupported | NotReady | Ready(db: Resolved)

  function ResolveRef(databases: map<string, SingleDatabase>, ref: DatabaseRef): Resolution {
    if ref.kind != "SingleDatabase" then Unsupported
    else if ref.name !in databases then NotReady
    else if !IsTrue(databases[ref.name].conditions, READY) then NotReady
    else if databases[ref.name].resolved.None? then NotReady
    else Ready(databases[ref.name].resolved.value)
  }
}
