/**
 * One declared resource and its dictionary form (main.py, class Resource).
 * `metadata` is optional: Null stands for Python's None, and the key is
 * left out of the dictionary in exactly that case.
 */
module Resources {
  import opened Wrappers
  import opened Json

  datatype Resource = Resource(name: string, typ: string, properties: Dict, metadata: Value)

  /** The record as the engine receives it. */
  function AsDict(r: Resource): (d: Dict)
    ensures Get(d, "name") == Some(Str(r.name))
    ensures Get(d, "type") == Some(Str(r.typ))
    ensures Get(d, "properties") == Some(Obj(r.properties))
    ensures Get(d, "metadata").Some? <==> r.metadata != Null
    ensures r.metadata != Null ==> Get(d, "metadata") == Some(r.metadata)
    ensures Keys(d) == ["name", "type", "properties"] + (if r.metadata != Null then ["metadata"] else [])
    ensures FromDict(d) == Some(r)
  {
    if r.metadata != Null then
      var d := [("name", Str(r.name)), ("type", Str(r.typ)), ("properties", Obj(r.properties)),
                ("metadata", r.metadata)];
      GetFirst(d, 0, "name");
      GetFirst(d, 1, "type");
      GetFirst(d, 2, "properties");
      GetFirst(d, 3, "metadata");
      d
    else
      var d := [("name", Str(r.name)), ("type", Str(r.typ)), ("properties", Obj(r.properties))];
      GetFirst(d, 0, "name");
      GetFirst(d, 1, "type");
      GetFirst(d, 2, "properties");
      GetMissing(d, "metadata");
      d
  }

  /** Reads a record back from its dictionary form; None when a required key is missing or mistyped. */
  function FromDict(d: Dict): Option<Resource>
  {
    match (Get(d, "name"), Get(d, "type"), Get(d, "properties"))
    case (Some(Str(name)), Some(Str(typ)), Some(Obj(properties))) =>
      Some(Resource(name, typ, properties, if Get(d, "metadata").Some? then Get(d, "metadata").value else Null))
    case _ => None
  }

  /**
   * The dictionary form loses nothing else: a dictionary with the record
   * keys in order, and no null metadata, is the form of the record read
   * back from it.
   */
  lemma DictRoundTrip(d: Dict)
    requires FromDict(d).Some?
    requires Keys(d) == ["name", "type", "properties"]
          || (Keys(d) == ["name", "type", "properties", "metadata"] && d[3].1 != Null)
    ensures AsDict(FromDict(d).value) == d
  {
    assert |Keys(d)| == |d|;
    assert Keys(d)[0] == d[0].0 && Keys(d)[1] == d[1].0 && Keys(d)[2] == d[2].0;
    GetFirst(d, 0, "name");
    GetFirst(d, 1, "type");
    GetFirst(d, 2, "properties");
    if |d| == 4 {
      assert Keys(d)[3] == d[3].0;
      GetFirst(d, 3, "metadata");
    } else {
      GetMissing(d, "metadata");
    }
  }
}
