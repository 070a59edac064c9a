/** src/rag/index_registry.py: the recorded index versions, in memory. Files and swallowed OSErrors are left out. */
module IndexRegistry {
  import opened Schemas

  datatype Status = Building | Built | Active | Retired

  datatype Entry = Entry(status: Status, chunkCount: nat)

  /** The loaded dictionary. */
  datatype Data = Data(active: Option<string>, versions: map<string, Entry>)

  const EMPTY := Data(None, map[])

  function Recorded(data: Data, version: string, entry: Entry): Data {
    data.(versions := data.versions[version := entry])
  }

  /** Every recorded version retires but the one activated. */
  function Activated(data: Data, version: string): Data {
    Data(Some(version),
         map v | v in data.versions :: data.versions[v].(status := if v == version then Active else Retired))
  }

  /** The active version is recorded, and it alone has the active status. */
  ghost predicate OneActive(data: Data) {
    && (data.active.Some? ==> data.active.value in data.versions)
    && forall v :: v in data.versions ==> (data.versions[v].status == Active <==> data.active == Some(v))
  }

  class IndexRegistry {
    var data: Data

    constructor ()
      ensures data == EMPTY
    {
      data := EMPTY;
    }

    /** src/rag/index_registry.py:68-72 */
    method Record(version: string, entry: Entry)
      modifies this
      ensures data == Recorded(old(data), version, entry)
    {
      data := data.(versions := data.versions[version := entry]);
    }

    /** src/rag/index_registry.py:74-84; the error is the KeyError of line 79 */
    method Activate(version: string) returns (r: Result<(), string>)
      modifies this
      ensures r.Ok? <==> version in old(data).versions
      ensures r.Err? ==> data == old(data)
      ensures r.Ok? ==> data == Activated(old(data), version) && OneActive(data)
    {
      if version !in data.versions {
        return Err("cannot activate unknown index version");
      }
      var todo, versions := data.versions.Keys, data.versions;
      ghost var all := data.versions;
      while todo != {}
        invariant todo <= all.Keys && versions.Keys == all.Keys
        invariant forall v :: v in todo ==> versions[v] == all[v]
        invariant forall v :: v in all && v !in todo ==>
                    versions[v] == all[v].(status := if v == version then Active else Retired)
        decreases |todo|
      {
        var name :| name in todo;
        versions := versions[name := versions[name].(status := if name == version then Active else Retired)];
        todo := todo - {name};
      }
      data := Data(Some(version), versions);
      assert data.versions == Activated(old(data), version).versions;
      r := Ok(());
    }
  }
}
