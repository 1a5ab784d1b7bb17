/**
 * Property values as the template sees them: the YAML/JSON values a
 * deployment passes in, and the nested dictionaries the template emits.
 * A dictionary keeps its entries in insertion order, as Python's does.
 */
module Json {
  import opened Wrappers

  datatype Value =
    | Null
    | Bool(b: bool)
    | Int(i: int)
    | Str(s: string)
    | List(items: seq<Value>)
    | Obj(fields: Dict)

  /** A dictionary: its entries, in insertion order. */
  type Dict = seq<(string, Value)>

  /** The keys of a dictionary, in insertion order. */
  function Keys(d: Dict): (ks: seq<string>)
    ensures |ks| == |d|
    ensures forall i :: 0 <= i < |d| ==> ks[i] == d[i].0
  {
    if d == [] then [] else [d[0].0] + Keys(d[1..])
  }

  /** The value stored under `key`: the first entry with that key. */
  function Get(d: Dict, key: string): Option<Value>
  {
    if d == [] then None
    else if d[0].0 == key then Some(d[0].1)
    else Get(d[1..], key)
  }

  /** The first entry with key `key` decides what Get returns. */
  lemma {:induction false} GetFirst(d: Dict, i: nat, key: string)
    requires i < |d| && d[i].0 == key
    requires forall j :: 0 <= j < i ==> d[j].0 != key
    ensures Get(d, key) == Some(d[i].1)
  {
    if i > 0 {
      GetFirst(d[1..], i - 1, key);
    }
  }

  /** A key no entry has is absent. */
  lemma {:induction false} GetMissing(d: Dict, key: string)
    requires forall j :: 0 <= j < |d| ==> d[j].0 != key
    ensures Get(d, key) == None
  {
    if d != [] {
      GetMissing(d[1..], key);
    }
  }

  /** Follows a path of keys through nested dictionaries. */
  function Lookup(v: Value, path: seq<string>): Option<Value>
    decreases |path|
  {
    if path == [] then Some(v)
    else match v
      case Obj(d) =>
        (match Get(d, path[0])
         case Some(w) => Lookup(w, path[1..])
         case None => None)
      case _ => None
  }

  /** A path through the first entry with its leading key continues inside that entry. */
  lemma LookupStep(d: Dict, i: nat, path: seq<string>)
    requires path != [] && i < |d| && d[i].0 == path[0]
    requires forall j :: 0 <= j < i ==> d[j].0 != path[0]
    ensures Lookup(Obj(d), path) == Lookup(d[i].1, path[1..])
  {
    GetFirst(d, i, path[0]);
  }

  /** No text anywhere inside `v` contains a dollar sign. */
  predicate DollarFree(v: Value)
  {
    match v
    case Str(s) => '$' !in s
    case List(items) => forall i :: 0 <= i < |items| ==> DollarFree(items[i])
    case Obj(d) => forall i :: 0 <= i < |d| ==> DollarFree(d[i].1)
    case _ => true
  }
}
