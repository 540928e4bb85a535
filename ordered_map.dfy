/** Insertion-ordered string-to-string maps with JavaScript's assignment
    semantics. A cookie jar (`RequestCookies`, backed by a `Map`) and a plain
    object such as a header record both behave this way: writing a name that is
    already present replaces its value and keeps its position; writing a new
    name appends it. Also: first-match lookup in a list of name/value entries,
    as `Array.prototype.find` and `URLSearchParams.get` do. */
module OrderedMap {
  import opened Wrappers

  datatype OMap = OMap(names: seq<string>, values: map<string, string>)

  /** No name twice, and the order lists exactly the names that have a value. */
  ghost predicate Valid(m: OMap) {
    && (forall i, j :: 0 <= i < j < |m.names| ==> m.names[i] != m.names[j])
    && (forall n :: n in m.values <==> n in m.names)
  }

  const Empty: OMap := OMap([], map[])

  function Get(m: OMap, name: string): (r: Option<string>)
    ensures r.Some? <==> name in m.values
    ensures r.Some? ==> r.value == m.values[name]
  {
    if name in m.values then Some(m.values[name]) else None
  }

  /** `map.set(name, value)` / `object[name] = value`. */
  function Put(m: OMap, name: string, value: string): (r: OMap)
    requires Valid(m)
    ensures Valid(r)
    ensures Get(r, name) == Some(value)
    ensures forall n :: n != name ==> Get(r, n) == Get(m, n)
    ensures name in m.names ==> r.names == m.names
    ensures name !in m.names ==> r.names == m.names + [name]
  {
    var names := if name in m.values then m.names else m.names + [name];
    OMap(names, m.values[name := value])
  }

  /** `{...target, ...source}`: the names of `source` written into `target`
      in the order `source` lists them, each one as by `Put`. */
  function Spread(target: OMap, source: OMap): (r: OMap)
    requires Valid(target) && Valid(source)
    ensures Valid(r)
    ensures forall n :: n in source.values ==> Get(r, n) == Get(source, n)
    ensures forall n :: n !in source.values ==> Get(r, n) == Get(target, n)
    ensures |target.names| <= |r.names| && r.names[..|target.names|] == target.names
  {
    SpreadNames(target, source.names, source.values)
  }

  function SpreadNames(target: OMap, names: seq<string>, values: map<string, string>): (r: OMap)
    requires Valid(target)
    requires forall n :: n in names ==> n in values
    ensures Valid(r)
    ensures forall n :: n in names ==> Get(r, n) == Some(values[n])
    ensures forall n :: n !in names ==> Get(r, n) == Get(target, n)
    ensures |target.names| <= |r.names| && r.names[..|target.names|] == target.names
    decreases |names|
  {
    if names == [] then target
    else
      var next := Put(target, names[0], values[names[0]]);
      var r := SpreadNames(next, names[1..], values);
      assert forall n :: n in names ==> n == names[0] || n in names[1..];
      assert r.names[..|target.names|] == next.names[..|target.names|];
      r
  }

  /** A name/value pair as produced by a parser: a query parameter or a
      parsed `Set-Cookie` header (section 4.1 of RFC 6265). */
  datatype Entry = Entry(name: string, value: string)

  /** The index of the first entry called `name`, if any. */
  ghost predicate FirstNamedAt(entries: seq<Entry>, name: string, i: int) {
    && 0 <= i < |entries|
    && entries[i].name == name
    && forall j :: 0 <= j < i ==> entries[j].name != name
  }

  /** `entries.find((e) => e.name === name)?.value`. */
  function FirstValue(entries: seq<Entry>, name: string): (r: Option<string>)
    ensures r.None? <==> forall i :: 0 <= i < |entries| ==> entries[i].name != name
    ensures r.Some? ==> exists i :: FirstNamedAt(entries, name, i) && entries[i].value == r.value
  {
    if entries == [] then None
    else if entries[0].name == name then
      assert FirstNamedAt(entries, name, 0);
      Some(entries[0].value)
    else
      var r := FirstValue(entries[1..], name);
      assert forall i :: 1 <= i < |entries| ==> entries[i] == entries[1..][i - 1];
      assert r.Some? ==> exists i :: FirstNamedAt(entries, name, i) && entries[i].value == r.value by {
        if r.Some? {
          var i :| FirstNamedAt(entries[1..], name, i) && entries[1..][i].value == r.value;
          assert FirstNamedAt(entries, name, i + 1);
        }
      }
      r
  }

  /** Writing the same name twice keeps only the second value, with no
      second copy of the name. */
  lemma PutPut(m: OMap, name: string, v1: string, v2: string)
    requires Valid(m)
    ensures Put(Put(m, name, v1), name, v2) == Put(m, name, v2)
  {
  }

  /** Writes to two different names do not interact: the second write leaves
      the first one's value and the first one's position alone. */
  lemma PutOther(m: OMap, a: string, b: string, va: string, vb: string)
    requires Valid(m) && a != b
    ensures Get(Put(Put(m, a, va), b, vb), a) == Some(va)
    ensures Put(Put(m, a, va), b, vb).names[..|Put(m, a, va).names|] == Put(m, a, va).names
  {
  }

  /** Writing a name that is present never changes the order of names. */
  lemma PutPresentKeepsNames(m: OMap, name: string, v1: string, v2: string)
    requires Valid(m) && name in m.values
    ensures Put(m, name, v1).names == Put(m, name, v2).names == m.names
  {
  }

  /** Entries placed in front of the first `name` that carry other names do
      not change which value is found. */
  lemma {:induction false} FirstValueSkipsOthers(others: seq<Entry>, entries: seq<Entry>, name: string)
    requires forall i :: 0 <= i < |others| ==> others[i].name != name
    ensures FirstValue(others + entries, name) == FirstValue(entries, name)
  {
    if others == [] {
      assert others + entries == entries;
    } else {
      assert (others + entries)[1..] == others[1..] + entries;
      FirstValueSkipsOthers(others[1..], entries, name);
    }
  }

  /** Once an entry called `name` has been found, anything after it is ignored. */
  lemma {:induction false} FirstValueIgnoresLater(entries: seq<Entry>, later: seq<Entry>, name: string)
    requires FirstValue(entries, name).Some?
    ensures FirstValue(entries + later, name) == FirstValue(entries, name)
  {
    if entries[0].name != name {
      assert (entries + later)[1..] == entries[1..] + later;
      FirstValueIgnoresLater(entries[1..], later, name);
    }
  }
}
