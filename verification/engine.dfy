/**
 * The in-place side of merge.go: a `Config` object whose named fields and
 * array elements the normaliser fills and the merger overwrites. Each method
 * is proved against the pure definition it implements (modules Normalizer
 * and Merge), so the properties proved about those carry over.
 */
module Engine {
  import opened Values
  import opened Input
  import opened Paths
  import opened Normalizer
  import opened NormalizeFacts
  import opened Merge

  /** A `*Config`: its `fields.fields` map and its `fields.arr` slice. */
  class Config {
    var fields: map<string, Value>
    var arr: seq<Value>

    /** The current contents as a tree value. */
    function View(): Tree
      reads this
    {
      Tree(fields, arr)
    }

    /** `New()`: an empty config. */
    constructor()
      ensures View() == EmptyTree
    {
      fields := map[];
      arr := [];
    }

    /** A config object holding the given contents. */
    constructor FromTree(t: Tree)
      ensures View() == t
    {
      fields := t.fields;
      arr := t.arr;
    }

    /** `(*Config).Merge`: normalise the input, then merge it into this
        config. A normalisation error leaves the config untouched. */
    method Merge(opts: Options, ext: Externals, from: Native) returns (err: Option<Error>)
      modifies this
      ensures Normalize(opts, ext, from).Err? ==>
                err == Some(Normalize(opts, ext, from).error) && View() == old(View())
      ensures Normalize(opts, ext, from).Ok? ==>
                err == None && View() == Merged(old(View()), Normalize(opts, ext, from).value)
    ensures old(WellFormed(View())) && ConfigsWellFormed(from) ==> WellFormed(View())
    {
      var other, e := NormalizeTop(opts, ext, from);
      if e.Some? {
        return e;
      }
      ghost var keepsShape := WellFormed(View()) && ConfigsWellFormed(from);
      if keepsShape {
        MergeNormalizedWellFormed(opts, ext, View(), from);
      }
      err := MergeConfig(this, other);
    }
  }

  /** Merging a normalised input into a well-formed config keeps it well
      formed: every value's context names the key or index it sits under. */
  lemma MergeNormalizedWellFormed(opts: Options, ext: Externals, a: Tree, from: Native)
    requires WellFormed(a) && ConfigsWellFormed(from)
    requires Normalize(opts, ext, from).Ok?
    ensures WellFormed(Merged(a, Normalize(opts, ext, from).value))
  {
    NormalizeWellFormed(opts, ext, from);
    MergedWellFormed(a, Normalize(opts, ext, from).value);
  }

  /** A method's error and the config it leaves, read as a Result. On an
      error the partly filled config is discarded by every caller. */
  function Outcome(err: Option<Error>, t: Tree): Result<Tree>
  {
    if err.Some? then Err(err.value) else Ok(t)
  }

  /** `mergeConfig(opts, to, from)`: visit every named field of the source;
      a key the target lacks, or where either side is not a sub-config, gets
      a copy of the source's value; where both are sub-configs the merge
      descends. It never reports an error. */
  method MergeConfig(to: Config, from: Config) returns (err: Option<Error>)
    modifies to
    ensures err == None
    ensures to.View() == Merged(old(to.View()), old(from.View()))
    decreases from.View(), 1
  {
    ghost var a := to.View();
    var b := from.View();
    var todo := b.fields.Keys;
    ghost var done: set<string> := {};
    while todo != {}
      invariant done !! todo && done + todo == b.fields.Keys
      invariant to.fields == MergedOn(a, b, done)
      invariant to.arr == a.arr
      decreases todo
    {
      var k :| k in todo;
      var v := b.fields[k];
      var merged: Value;
      if k !in to.fields {
        merged := Cpy(v, Ctx(k));
      } else {
        var prev := to.fields[k];
        var subOld := ToConfig(prev);
        var subFrom := ToConfig(v);
        if subOld.None? || subFrom.None? {
          merged := Cpy(v, Ctx(k));
        } else {
          var e;
          merged, e := MergeSub(prev, v);
          if e.Some? {
            return e;
          }
        }
      }
      MergedOnStep(a, b, done, k);
      to.fields := to.fields[k := merged];
      todo := todo - {k};
      done := done + {k};
    }
    assert done == b.fields.Keys;
    return None;
  }

  /** The recursive step of `mergeConfig`: the sub-config the target holds
      is merged with the one the source holds, and its error passed on. */
  method MergeSub(prev: Value, v: Value) returns (merged: Value, err: Option<Error>)
    requires prev.node.Sub? && v.node.Sub?
    ensures err == None
    ensures merged == prev.(node := Sub(Merged(prev.node.cfg, v.node.cfg)))
    decreases v, 0
  {
    var target := new Config.FromTree(prev.node.cfg);
    var source := new Config.FromTree(v.node.cfg);
    err := MergeConfig(target, source);
    merged := prev.(node := Sub(target.View()));
  }

  /** `normalize`: a config is taken as it is, a map or a struct is
      normalised into a new config, anything else is refused. */
  method NormalizeTop(opts: Options, ext: Externals, from: Native) returns (cfg: Config, err: Option<Error>)
    ensures fresh(cfg)
    ensures Outcome(err, cfg.View()) == Normalize(opts, ext, from)
  {
    if from.NConfig? {
      cfg := new Config.FromTree(from.cfg);
      err := None;
    } else if from.NMap? {
      cfg, err := NormalizeMap(opts, ext, from);
    } else if from.NStruct? {
      cfg, err := NormalizeStruct(opts, ext, from);
    } else {
      cfg := new Config();
      err := Some(InvalidTopLevelType);
    }
  }

  /** `normalizeMap`: a new config filled from a map. */
  method NormalizeMap(opts: Options, ext: Externals, from: Native) returns (cfg: Config, err: Option<Error>)
    requires from.NMap?
    ensures fresh(cfg)
    ensures Outcome(err, cfg.View()) == MapInto(opts, ext, EmptyTree, from)
  {
    cfg := new Config();
    err := NormalizeMapInto(cfg, opts, ext, from);
  }

  /** `normalizeStruct`: a new config filled from a struct. */
  method NormalizeStruct(opts: Options, ext: Externals, from: Native) returns (cfg: Config, err: Option<Error>)
    requires from.NStruct?
    ensures fresh(cfg)
    ensures Outcome(err, cfg.View()) == StructInto(opts, ext, EmptyTree, from)
  {
    cfg := new Config();
    err := NormalizeStructInto(cfg, opts, ext, from);
  }

  /** `normalizeMapInto`: check the declared key type, then write every
      entry in turn; the first failure ends the loop. */
  method NormalizeMapInto(cfg: Config, opts: Options, ext: Externals, from: Native) returns (err: Option<Error>)
    requires from.NMap?
    modifies cfg
    ensures Outcome(err, cfg.View()) == MapInto(opts, ext, old(cfg.View()), from)
  {
    ghost var t0 := cfg.View();
    if !(from.keyKind.StringKeys? || from.keyKind.InterfaceKeys?) {
      return Some(KeyInvalidTypeMerge);
    }
    assert MapInto(opts, ext, t0, from) == EntriesInto(opts, ext, t0, from, |from.entries|);
    var i := 0;
    while i < |from.entries|
      invariant 0 <= i <= |from.entries|
      invariant EntriesInto(opts, ext, t0, from, i) == Ok(cfg.View())
    {
      var key := from.entries[i].0;
      EntriesIntoStep(opts, ext, t0, from, i);
      if !key.NString? {
        EntriesIntoAbort(opts, ext, t0, from, i + 1, |from.entries|);
        return Some(KeyInvalidTypeMerge);
      }
      err := NormalizeSetField(cfg, opts, ext, key.s, from.entries[i].1);
      if err.Some? {
        EntriesIntoAbort(opts, ext, t0, from, i + 1, |from.entries|);
        return err;
      }
      i := i + 1;
    }
    return None;
  }

  /** `normalizeStructInto`: the fields in declaration order. A squashed
      struct or map is written into the same config; any other squashed
      value is refused; a plain field is written under its name. */
  method NormalizeStructInto(cfg: Config, opts: Options, ext: Externals, from: Native) returns (err: Option<Error>)
    requires from.NStruct?
    modifies cfg
    ensures Outcome(err, cfg.View()) == StructInto(opts, ext, old(cfg.View()), from)
    decreases from
  {
    ghost var t0 := cfg.View();
    assert StructInto(opts, ext, t0, from) == FieldsInto(opts, ext, t0, from, |from.fields|);
    var i := 0;
    while i < |from.fields|
      invariant 0 <= i <= |from.fields|
      invariant FieldsInto(opts, ext, t0, from, i) == Ok(cfg.View())
    {
      var f := from.fields[i];
      ghost var before := cfg.View();
      if f.squash {
        match f.value
        case NStruct(_) =>
          err := NormalizeStructInto(cfg, opts, ext, f.value);
        case NMap(_, _) =>
          err := NormalizeMapInto(cfg, opts, ext, f.value);
        case _ =>
          err := Some(SquashNeedsObject(f.goName));
      } else {
        err := NormalizeSetField(cfg, opts, ext, FieldName(f.tagName, f.goName), f.value);
      }
      assert FieldsInto(opts, ext, t0, from, i + 1) == Outcome(err, cfg.View()) by {
        assert FieldsInto(opts, ext, t0, from, i) == Ok(before);
      }
      if err.Some? {
        FieldsIntoAbort(opts, ext, t0, from, i + 1, |from.fields|);
        return err;
      }
      i := i + 1;
    }
    return None;
  }

  /** `normalizeSetField`: normalise the value, look its path up, and store
      it only where nothing is found. */
  method NormalizeSetField(cfg: Config, opts: Options, ext: Externals, name: string, v: Native)
    returns (err: Option<Error>)
    modifies cfg
    ensures Outcome(err, cfg.View()) == SetField(opts, ext, old(cfg.View()), name, v)
  {
    var val := NormalizeValue(opts, ext, NoCtx, v);
    if val.Err? {
      return Some(val.error);
    }
    var p := ParsePath(name, opts.pathSep);
    var prev := GetValue(cfg.View(), p, ext.nilReadsAsMissing);
    if prev.Err? && !prev.error.Missing? {
      return Some(prev.error);
    }
    if prev.Ok? {
      if val.value.node.Nil? {
        return None;
      }
      return Some(DuplicateKey(name));
    }
    var stored := SetValue(cfg.View(), p, val.value);
    if stored.Err? {
      return Some(stored.error);
    }
    cfg.fields := stored.value.fields;
    return None;
  }

  /** `normalizeArray`: normalise the elements in order, each under the
      context named by its decimal index, and return them as an array-form
      sub-config; the first element that fails aborts. */
  method NormalizeArray(opts: Options, ext: Externals, ctx: Ctx, v: Native) returns (r: Result<Value>)
    requires v.NSlice?
    ensures r == ArrayValue(opts, ext, ctx, v)
  {
    var out: seq<Value> := [];
    var i := 0;
    while i < |v.elems|
      invariant 0 <= i <= |v.elems|
      invariant ArrayElems(opts, ext, v, i) == Ok(out)
    {
      var tmp := NormalizeValue(opts, ext, Ctx(Decimal(i)), v.elems[i]);
      if tmp.Err? {
        ArrayElemsAbort(opts, ext, v, i + 1, |v.elems|);
        return Err(tmp.error);
      }
      out := out + [tmp.value];
      i := i + 1;
    }
    var cfg := new Config();
    cfg.arr := out;
    return Ok(Value(ctx, Sub(cfg.View())));
  }
}
