/** Parsed YAML/JSON values, and the type assertions the analyzers make on them. */
module Values {
  import opened Sequences

  datatype Option<+T> = None | Some(value: T)

  datatype Value =
    | Null
    | Bool(flag: bool)
    | Number(num: real)
    | Str(text: string)
    | List(items: seq<Value>)
    | Map(fields: Doc)

  type Doc = map<string, Value>

  /** Reading an absent key of a Go map yields nil, which is also what a JSON null decodes to. */
  function Field(doc: Doc, key: string): Value {
    if key in doc then doc[key] else Null
  }

  function AsString(v: Value): string {
    if v.Str? then v.text else ""
  }

  function AsBool(v: Value): bool {
    v.Bool? && v.flag
  }

  function StringField(doc: Doc, key: string): string {
    AsString(Field(doc, key))
  }

  /** A nil map reads like an empty one. */
  function MapField(doc: Doc, key: string): Doc {
    if Field(doc, key).Map? then Field(doc, key).fields else map[]
  }

  /** A value that is not a list is ranged over like an empty one. */
  function ListField(doc: Doc, key: string): seq<Value> {
    if Field(doc, key).List? then Field(doc, key).items else []
  }

  function SubMap(doc: Doc, key: string): Option<Doc> {
    if Field(doc, key).Map? then Some(Field(doc, key).fields) else None
  }

  function StringOf(v: Value): seq<string> {
    if v.Str? then [v.text] else []
  }

  function MapOf(v: Value): seq<Doc> {
    if v.Map? then [v.fields] else []
  }

  /** The string items of a list value, in order; nothing for any other value. */
  function StringItems(v: Value): seq<string> {
    if v.List? then FlatMap(v.items, StringOf) else []
  }

  /** The map items of a list value, in order; nothing for any other value. */
  function MapItems(v: Value): seq<Doc> {
    if v.List? then FlatMap(v.items, MapOf) else []
  }

  method ToStringSlice(v: Value) returns (result: seq<string>)
    ensures result == StringItems(v)
  {
    result := [];
    if !v.List? {
      return;
    }
    for i := 0 to |v.items|
      invariant result == FlatMap(v.items[..i], StringOf)
    {
      FlatMapSnoc(v.items[..i], v.items[i], StringOf);
      assert v.items[..i + 1] == v.items[..i] + [v.items[i]];
      if v.items[i].Str? {
        result := result + [v.items[i].text];
      }
    }
    assert v.items[..|v.items|] == v.items;
  }

  method ToMapSlice(v: Value) returns (result: seq<Doc>)
    ensures result == MapItems(v)
  {
    result := [];
    if !v.List? {
      return;
    }
    for i := 0 to |v.items|
      invariant result == FlatMap(v.items[..i], MapOf)
    {
      FlatMapSnoc(v.items[..i], v.items[i], MapOf);
      assert v.items[..i + 1] == v.items[..i] + [v.items[i]];
      if v.items[i].Map? {
        result := result + [v.items[i].fields];
      }
    }
    assert v.items[..|v.items|] == v.items;
  }

  method Contains(slice: seq<string>, val: string) returns (found: bool)
    ensures found == (val in slice)
  {
    for i := 0 to |slice|
      invariant val !in slice[..i]
    {
      if slice[i] == val {
        return true;
      }
    }
    return false;
  }

  // ----- string helpers

  function HasPrefix(s: string, prefix: string): bool {
    prefix <= s
  }

  function HasSuffix(s: string, suffix: string): bool {
    |suffix| <= |s| && s[|s| - |suffix|..] == suffix
  }

  function TrimSuffix(s: string, suffix: string): string {
    if HasSuffix(s, suffix) then s[..|s| - |suffix|] else s
  }

  function TrimPrefix(s: string, prefix: string): string {
    if HasPrefix(s, prefix) then s[|prefix|..] else s
  }

  /** Cutting at the first separator is unambiguous when the left parts do not hold it. */
  lemma {:induction false} FirstCutUnique(sep: char, left: string, right: string, left': string, right': string)
    requires sep !in left && sep !in left'
    requires left + [sep] + right == left' + [sep] + right'
    ensures left == left' && right == right'
  {
    var s, s' := left + [sep] + right, left' + [sep] + right';
    assert s[|left|] == sep && s'[|left'|] == sep;
    assert |left| == |left'|;
    assert left == s[..|left|] && left' == s'[..|left'|];
    assert right == s[|left| + 1..] && right' == s'[|left'| + 1..];
  }
}
