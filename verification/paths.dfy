/**
 * Path addressing inside a configuration tree: `parsePath`, `cfgPath.GetValue`
 * and `cfgPath.SetValue`. merge.go only calls these; the model gives each the
 * behaviour merge.go relies on: a path is a non-empty sequence of field names,
 * a lookup either finds a value or fails with Missing or ExpectedObject, and a
 * store creates the missing intermediate sub-configs.
 */
module Paths {
  import opened Values

  /** The first occurrence of `sep` in `s` at or after `from`. */
  function Find(s: string, sep: string, from: nat): (r: Option<nat>)
    requires |sep| > 0
    ensures r.Some? ==> from <= r.value && r.value + |sep| <= |s| && s[r.value..r.value + |sep|] == sep
    decreases |s| - from
  {
    if from + |sep| > |s| then None
    else if sep <= s[from..] then Some(from)
    else Find(s, sep, from + 1)
  }

  /** Glues path segments back together with the separator. */
  function Join(p: seq<string>, sep: string): string
    requires |p| >= 1
  {
    if |p| == 1 then p[0] else p[0] + sep + Join(p[1..], sep)
  }

  /** `strings.Split(s, sep)` for a non-empty separator. */
  function Split(s: string, sep: string): (p: seq<string>)
    requires |sep| > 0
    ensures |p| >= 1
    ensures Join(p, sep) == s
    decreases |s|
  {
    match Find(s, sep, 0)
    case None => [s]
    case Some(i) =>
      var rest := Split(s[i + |sep|..], sep);
      var p := [s[..i]] + rest;
      assert p[1..] == rest;
      assert s == s[..i] + sep + s[i + |sep|..];
      p
  }

  /** `parsePath(name, sep)`: an empty separator keeps the name whole;
      otherwise the name is cut at every separator. Joining the segments gives
      the name back. */
  function ParsePath(name: string, sep: string): (p: seq<string>)
    ensures |p| >= 1
    ensures sep != "" ==> Join(p, sep) == name
    ensures sep == "" ==> p == [name]
  {
    if sep == "" then [name] else Split(name, sep)
  }

  /** `cfgPath.GetValue`: descend one named field per segment. An absent field
      is Missing; a segment that has to look inside a value that is not a
      sub-config is ExpectedObject. When `nilReadsAsMissing` holds, a stored
      nil at the end of the path reads as Missing too. */
  function GetValue(t: Tree, p: seq<string>, nilReadsAsMissing: bool): (r: Result<Value>)
    requires |p| >= 1
    ensures r.Err? ==> r.error.Missing? || r.error.ExpectedObject?
    ensures r.Ok? && nilReadsAsMissing ==> !r.value.node.Nil?
    decreases |p|
  {
    if p[0] !in t.fields then Err(Missing(p[0]))
    else if |p| == 1 then
      if nilReadsAsMissing && t.fields[p[0]].node.Nil? then Err(Missing(p[0])) else Ok(t.fields[p[0]])
    else
      match t.fields[p[0]].node
      case Sub(c) => GetValue(c, p[1..], nilReadsAsMissing)
      case _ => Err(ExpectedObject(p[0]))
  }

  /** `cfgPath.SetValue`: descend like GetValue, creating every missing
      intermediate sub-config, and store the value under the last segment with
      its context set to that segment. Only the first segment's entry of the
      top-level config changes. */
  function SetValue(t: Tree, p: seq<string>, v: Value): (r: Result<Tree>)
    requires |p| >= 1
    ensures r.Err? ==> r.error.ExpectedObject?
    ensures r.Ok? ==> r.value.arr == t.arr && r.value.fields.Keys == t.fields.Keys + {p[0]}
    ensures r.Ok? ==> forall k | k in t.fields && k != p[0] :: r.value.fields[k] == t.fields[k]
    decreases |p|
  {
    if |p| == 1 then Ok(t.(fields := t.fields[p[0] := v.(ctx := Ctx(p[0]))]))
    else
      var child := if p[0] in t.fields then t.fields[p[0]] else Value(Ctx(p[0]), Sub(EmptyTree));
      match child.node
      case Sub(c) =>
        var c' :- SetValue(c, p[1..], v);
        Ok(t.(fields := t.fields[p[0] := child.(node := Sub(c'))]))
      case _ => Err(ExpectedObject(p[0]))
  }

  /** A stored value reads back from the same path (under its new context). */
  lemma {:induction false} SetThenGet(t: Tree, p: seq<string>, v: Value, nilReadsAsMissing: bool)
    requires |p| >= 1
    requires SetValue(t, p, v).Ok?
    requires !(nilReadsAsMissing && v.node.Nil?)
    ensures GetValue(SetValue(t, p, v).value, p, nilReadsAsMissing) == Ok(v.(ctx := Ctx(p[|p| - 1])))
    decreases |p|
  {
    if |p| > 1 {
      var child := if p[0] in t.fields then t.fields[p[0]] else Value(Ctx(p[0]), Sub(EmptyTree));
      SetThenGet(child.node.cfg, p[1..], v, nilReadsAsMissing);
      assert p[1..][|p[1..]| - 1] == p[|p| - 1];
    }
  }

  /** Where the lookup reports Missing, the store cannot fail: every
      intermediate on the way is a sub-config or absent. */
  lemma {:induction false} MissingMeansSettable(t: Tree, p: seq<string>, v: Value, nilReadsAsMissing: bool)
    requires |p| >= 1
    requires GetValue(t, p, nilReadsAsMissing).Err? && GetValue(t, p, nilReadsAsMissing).error.Missing?
    ensures SetValue(t, p, v).Ok?
    decreases |p|
  {
    if |p| > 1 {
      if p[0] in t.fields {
        MissingMeansSettable(t.fields[p[0]].node.cfg, p[1..], v, nilReadsAsMissing);
      } else {
        MissingMeansSettable(EmptyTree, p[1..], v, nilReadsAsMissing);
      }
    }
  }

  /** Storing keeps a well-formed tree well formed: the stored value and every
      created intermediate take the name they are stored under as context. */
  lemma {:induction false} SetValueWellFormed(t: Tree, p: seq<string>, v: Value)
    requires |p| >= 1
    requires WellFormed(t) && InnerWellFormed(v)
    requires SetValue(t, p, v).Ok?
    ensures WellFormed(SetValue(t, p, v).value)
    decreases |p|
  {
    if |p| > 1 {
      var child := if p[0] in t.fields then t.fields[p[0]] else Value(Ctx(p[0]), Sub(EmptyTree));
      SetValueWellFormed(child.node.cfg, p[1..], v);
    }
  }
}
