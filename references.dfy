/**
 * Deployment Manager's symbolic references. A record refers to a field of
 * another record with the placeholder `$(ref.<record-name>.<field-path>)`;
 * the engine resolves it after the template has returned.
 */
module References {
  import opened Json

  const Marker: string := "$(ref."

  /** The placeholder naming field `field` of the record called `name`. */
  function Ref(name: string, field: string): string
  {
    Marker + name + "." + field + ")"
  }

  /** The record name that starts `s`: everything up to the first dot. */
  function NameAt(s: string): (n: string)
    ensures n <= s && '.' !in n
    ensures |n| < |s| ==> s[|n|] == '.'
  {
    if s == [] || s[0] == '.' then [] else [s[0]] + NameAt(s[1..])
  }

  /** The record names of every placeholder in `s`, left to right. */
  function RefsIn(s: string): seq<string>
    decreases |s|
  {
    if s == [] then []
    else if Marker <= s then
      var name := NameAt(s[|Marker|..]);
      [name] + RefsIn(s[|Marker| + |name|..])
    else RefsIn(s[1..])
  }

  /** Some text inside `v` holds a placeholder naming record `n`. */
  predicate RefersTo(v: Value, n: string)
  {
    match v
    case Str(s) => n in RefsIn(s)
    case List(items) => exists i :: 0 <= i < |items| && RefersTo(items[i], n)
    case Obj(d) => exists i :: 0 <= i < |d| && RefersTo(d[i].1, n)
    case _ => false
  }

  /** Text before a placeholder that has no dollar sign contributes no reference. */
  lemma {:induction false} RefsInSkip(p: string, t: string)
    requires '$' !in p
    ensures RefsIn(p + t) == RefsIn(t)
  {
    if p != [] {
      assert (p + t)[0] == p[0];
      assert !(Marker <= p + t);
      assert (p + t)[1..] == p[1..] + t;
      assert RefsIn(p + t) == RefsIn((p + t)[1..]);
      RefsInSkip(p[1..], t);
    } else {
      assert p + t == t;
    }
  }

  /** Text without a dollar sign holds no placeholder. */
  lemma DollarFreeNoRefs(s: string)
    requires '$' !in s
    ensures RefsIn(s) == []
  {
    RefsInSkip(s, []);
    assert s + [] == s;
  }

  /** A name without a dot is read back whole from the text after the marker. */
  lemma {:induction false} NameAtName(n: string, rest: string)
    requires '.' !in n
    ensures NameAt(n + "." + rest) == n
  {
    if n != [] {
      assert (n + "." + rest)[1..] == n[1..] + "." + rest;
      NameAtName(n[1..], rest);
    }
  }

  /** A placeholder at the start of the text is read first. */
  lemma RefsInAtMarker(rest: string)
    ensures RefsIn(Marker + rest) == [NameAt(rest)] + RefsIn(rest[|NameAt(rest)|..])
  {
    var s := Marker + rest;
    assert Marker <= s;
    assert s[|Marker|..] == rest;
    assert s[|Marker| + |NameAt(rest)|..] == rest[|NameAt(rest)|..];
  }

  /**
   * Round trip: scanning a formatted placeholder, after dollar-free text,
   * yields exactly the record name it was built from.
   */
  lemma RefRoundTrip(p: string, name: string, field: string)
    requires '$' !in p && '$' !in field && '.' !in name
    ensures RefsIn(p + Ref(name, field)) == [name]
  {
    var rest := name + "." + (field + ")");
    assert Ref(name, field) == Marker + rest;
    RefsInSkip(p, Marker + rest);
    RefsInAtMarker(rest);
    NameAtName(name, field + ")");
    assert rest[|name|..] == "." + (field + ")");
    DollarFreeNoRefs("." + (field + ")"));
  }

  /** A value whose text has no dollar sign refers to nothing. */
  lemma {:induction false} DollarFreeRefersToNothing(v: Value, n: string)
    requires DollarFree(v)
    ensures !RefersTo(v, n)
  {
    match v
    case Str(s) => DollarFreeNoRefs(s);
    case List(items) =>
      forall i | 0 <= i < |items| ensures !RefersTo(items[i], n) {
        DollarFreeRefersToNothing(items[i], n);
      }
    case Obj(d) =>
      forall i | 0 <= i < |d| ensures !RefersTo(d[i].1, n) {
        DollarFreeRefersToNothing(d[i].1, n);
      }
    case _ =>
  }
}
