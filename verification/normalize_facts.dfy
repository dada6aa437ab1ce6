/**
 * Properties of the normaliser: integer sign fidelity, the duplicate-key
 * policy of `normalizeSetField`, squash flattening, the result of normalising
 * a map with plain distinct keys (whatever order the keys are visited in), and
 * the context invariant of every normalised tree.
 */
module NormalizeFacts {
  import opened Values
  import opened Input
  import opened Paths
  import opened Normalizer

  /** A positive signed integer becomes Uint; zero and negative ones stay Int;
      unsigned integers are always Uint. */
  lemma IntegerKinds(opts: Options, ext: Externals, ctx: Ctx, i: I64, u: U64)
    ensures i > 0 ==> NormalizeValue(opts, ext, ctx, NInt(i)) == Ok(Value(ctx, Uint(i as int as U64)))
    ensures i <= 0 ==> NormalizeValue(opts, ext, ctx, NInt(i)) == Ok(Value(ctx, Int(i)))
    ensures NormalizeValue(opts, ext, ctx, NInt(0)) == Ok(Value(ctx, Int(0)))
    ensures NormalizeValue(opts, ext, ctx, NUint(u)) == Ok(Value(ctx, Uint(u)))
  {
  }

  /** Durations and regular expressions are stored as their string renderings,
      ahead of the dispatch on their underlying kind. */
  lemma SpecialTypesAsStrings(opts: Options, ext: Externals, ctx: Ctx, d: I64, source: string)
    ensures NormalizeValue(opts, ext, ctx, NDuration(d)) == Ok(Value(ctx, Str(ext.durationString(d))))
    ensures NormalizeValue(opts, ext, ctx, NRegexp(source)) == Ok(Value(ctx, Str(source)))
  {
  }

  /** The outcomes of `normalizeSetField` when the new value normalises. */
  lemma SetFieldOutcomes(opts: Options, ext: Externals, t: Tree, name: string, child: Native)
    requires NormalizeValue(opts, ext, NoCtx, child).Ok?
    ensures var val := NormalizeValue(opts, ext, NoCtx, child).value;
            var p := ParsePath(name, opts.pathSep);
            var prev := GetValue(t, p, ext.nilReadsAsMissing);
            && (prev.Ok? && val.node.Nil? ==> SetField(opts, ext, t, name, child) == Ok(t))
            && (prev.Ok? && !val.node.Nil? ==> SetField(opts, ext, t, name, child) == Err(DuplicateKey(name)))
            && (prev.Err? && !prev.error.Missing? ==> SetField(opts, ext, t, name, child) == Err(prev.error))
  {
  }

  /** An absent path is stored, the store succeeds, and the value reads back
      from that path under the path's last segment. */
  lemma {:induction false} SetFieldAbsentStores(opts: Options, ext: Externals, t: Tree, name: string, child: Native)
    requires NormalizeValue(opts, ext, NoCtx, child).Ok?
    requires GetValue(t, ParsePath(name, opts.pathSep), ext.nilReadsAsMissing).Err?
    requires GetValue(t, ParsePath(name, opts.pathSep), ext.nilReadsAsMissing).error.Missing?
    ensures var val := NormalizeValue(opts, ext, NoCtx, child).value;
            var p := ParsePath(name, opts.pathSep);
            var r := SetField(opts, ext, t, name, child);
            && r.Ok?
            && r == SetValue(t, p, val)
            && (!(ext.nilReadsAsMissing && val.node.Nil?) ==>
                  GetValue(r.value, p, ext.nilReadsAsMissing) == Ok(Cpy(val, Ctx(p[|p| - 1]))))
  {
    var val := NormalizeValue(opts, ext, NoCtx, child).value;
    var p := ParsePath(name, opts.pathSep);
    MissingMeansSettable(t, p, val, ext.nilReadsAsMissing);
    if !(ext.nilReadsAsMissing && val.node.Nil?) {
      SetThenGet(t, p, val, ext.nilReadsAsMissing);
    }
  }

  /** Writing the same name twice: a second nil is dropped and leaves the
      config as the first write made it; a second concrete value is a
      DuplicateKey. (Unless the lookup reads a stored nil as Missing, this
      holds also when the first value was nil.) */
  lemma {:induction false} SetFieldTwice(opts: Options, ext: Externals, t: Tree, name: string, first: Native, second: Native)
    requires SetField(opts, ext, t, name, first).Ok?
    requires NormalizeValue(opts, ext, NoCtx, second).Ok?
    requires !(ext.nilReadsAsMissing && NormalizeValue(opts, ext, NoCtx, first) == Ok(Value(NoCtx, Nil)))
    ensures var t1 := SetField(opts, ext, t, name, first).value;
            SetField(opts, ext, t1, name, second) ==
              if NormalizeValue(opts, ext, NoCtx, second).value.node.Nil? then Ok(t1) else Err(DuplicateKey(name))
  {
    var p := ParsePath(name, opts.pathSep);
    var valA := NormalizeValue(opts, ext, NoCtx, first).value;
    if GetValue(t, p, ext.nilReadsAsMissing).Err? {
      SetThenGet(t, p, valA, ext.nilReadsAsMissing);
    }
  }

  /** When the lookup reads a stored nil as Missing, a nil written first is
      only a placeholder: a later concrete value is stored over it. */
  lemma {:induction false} NilPlaceholderOverwritten(opts: Options, ext: Externals, t: Tree, name: string, first: Native, second: Native)
    requires ext.nilReadsAsMissing
    requires NormalizeValue(opts, ext, NoCtx, first) == Ok(Value(NoCtx, Nil))
    requires GetValue(t, ParsePath(name, opts.pathSep), true).Err?
    requires GetValue(t, ParsePath(name, opts.pathSep), true).error.Missing?
    requires NormalizeValue(opts, ext, NoCtx, second).Ok?
    ensures SetField(opts, ext, t, name, first).Ok?
    ensures var t1 := SetField(opts, ext, t, name, first).value;
            var p := ParsePath(name, opts.pathSep);
            SetField(opts, ext, t1, name, second) == SetValue(t1, p, NormalizeValue(opts, ext, NoCtx, second).value)
  {
    var p := ParsePath(name, opts.pathSep);
    var nilValue := Value(NoCtx, Nil);
    SetFieldAbsentStores(opts, ext, t, name, first);
    var t1 := SetValue(t, p, nilValue).value;
    NilReadsMissingAfterStore(t, p);
  }

  /** After a nil is stored at a path, a lookup that reads nil as Missing
      reports Missing there. */
  lemma {:induction false} NilReadsMissingAfterStore(t: Tree, p: seq<string>)
    requires |p| >= 1
    requires SetValue(t, p, Value(NoCtx, Nil)).Ok?
    ensures GetValue(SetValue(t, p, Value(NoCtx, Nil)).value, p, true).Err?
    ensures GetValue(SetValue(t, p, Value(NoCtx, Nil)).value, p, true).error.Missing?
    decreases |p|
  {
    if |p| > 1 {
      var child := if p[0] in t.fields then t.fields[p[0]] else Value(Ctx(p[0]), Sub(EmptyTree));
      NilReadsMissingAfterStore(child.node.cfg, p[1..]);
    }
  }

  /** Two struct fields with the same derived name: a nil second field is
      dropped, a concrete one is a DuplicateKey. */
  lemma {:induction false} DuplicateStructField(opts: Options, ext: Externals, t: Tree, f1: StructField, f2: StructField)
    requires !f1.squash && !f2.squash
    requires FieldName(f1.tagName, f1.goName) == FieldName(f2.tagName, f2.goName)
    requires StructInto(opts, ext, t, NStruct([f1])).Ok?
    requires NormalizeValue(opts, ext, NoCtx, f2.value).Ok?
    requires !(ext.nilReadsAsMissing && NormalizeValue(opts, ext, NoCtx, f1.value) == Ok(Value(NoCtx, Nil)))
    ensures StructInto(opts, ext, t, NStruct([f1, f2])) ==
              if NormalizeValue(opts, ext, NoCtx, f2.value).value.node.Nil?
              then StructInto(opts, ext, t, NStruct([f1]))
              else Err(DuplicateKey(FieldName(f2.tagName, f2.goName)))
  {
    var name := FieldName(f1.tagName, f1.goName);
    var v := NStruct([f1, f2]);
    assert FieldsInto(opts, ext, t, v, 0) == Ok(t);
    assert FieldsInto(opts, ext, t, NStruct([f1]), 0) == Ok(t);
    assert FieldsInto(opts, ext, t, v, 1) == SetField(opts, ext, t, name, f1.value);
    assert StructInto(opts, ext, t, NStruct([f1])) == SetField(opts, ext, t, name, f1.value);
    SetFieldTwice(opts, ext, t, name, f1.value, f2.value);
  }

  /** A squashed struct or map field is written at the current level: the
      result is that of normalising its own fields into the same config. Any
      other squashed value is SquashNeedsObject. */
  lemma SquashFlattens(opts: Options, ext: Externals, t: Tree, goName: string, tagName: string, value: Native)
    ensures var v := NStruct([StructField(goName, tagName, true, value)]);
            && (value.NStruct? ==> StructInto(opts, ext, t, v) == StructInto(opts, ext, t, value))
            && (value.NMap? ==> StructInto(opts, ext, t, v) == MapInto(opts, ext, t, value))
            && (!value.NStruct? && !value.NMap? ==> StructInto(opts, ext, t, v) == Err(SquashNeedsObject(goName)))
  {
    var v := NStruct([StructField(goName, tagName, true, value)]);
    assert FieldsInto(opts, ext, t, v, 0) == Ok(t);
  }

  /** A struct whose only field squashes a struct with one plain field `x`
      normalises to a config holding `x` alone: the squashed field's own name
      does not appear, and nothing is nested under it. */
  lemma {:induction false} SquashedChildAtTopLevel(opts: Options, ext: Externals, goName: string, tagName: string, inner: StructField)
    requires !inner.squash
    requires ParsePath(FieldName(inner.tagName, inner.goName), opts.pathSep) == [FieldName(inner.tagName, inner.goName)]
    requires NormalizeValue(opts, ext, NoCtx, inner.value).Ok?
    ensures var n := FieldName(inner.tagName, inner.goName);
            var r := Normalize(opts, ext, NStruct([StructField(goName, tagName, true, NStruct([inner]))]));
            r == Ok(Tree(map[n := Cpy(NormalizeValue(opts, ext, NoCtx, inner.value).value, Ctx(n))], []))
  {
    var n := FieldName(inner.tagName, inner.goName);
    var innerV := NStruct([inner]);
    SquashFlattens(opts, ext, EmptyTree, goName, tagName, innerV);
    assert FieldsInto(opts, ext, EmptyTree, innerV, 0) == Ok(EmptyTree);
    assert StructInto(opts, ext, EmptyTree, innerV) == SetField(opts, ext, EmptyTree, n, inner.value);
    assert GetValue(EmptyTree, [n], ext.nilReadsAsMissing) == Err(Missing(n));
  }

  /** Writing a plain name that is not yet present adds exactly that entry. */
  lemma FreshPlainField(opts: Options, ext: Externals, t: Tree, key: string, child: Native)
    requires key !in t.fields
    requires ParsePath(key, opts.pathSep) == [key]
    requires NormalizeValue(opts, ext, NoCtx, child).Ok?
    ensures SetField(opts, ext, t, key, child) ==
              Ok(t.(fields := t.fields[key := Cpy(NormalizeValue(opts, ext, NoCtx, child).value, Ctx(key))]))
  {
    assert GetValue(t, [key], ext.nilReadsAsMissing) == Err(Missing(key));
  }

  /** A key go-ucfg reads as a field name rather than an array index. A
      segment is an index when it parses as an integer literal, and every
      integer literal (decimal, or with a 0x, 0o or 0b prefix) starts with a
      digit after an optional sign. A key whose first character after an
      optional sign is not a digit is therefore never an index; keys that do
      start with a digit are all excluded, a conservative approximation. */
  predicate NonNumeric(s: string)
  {
    var rest := if |s| > 0 && (s[0] == '+' || s[0] == '-') then s[1..] else s;
    |rest| > 0 && !('0' <= rest[0] <= '9')
  }

  /** Keys of a map input are plain: each holds a non-numeric string without
      the path separator, and no two are equal. */
  predicate PlainKeys(opts: Options, v: Native)
    requires v.NMap?
  {
    && (forall i | 0 <= i < |v.entries| ::
          && v.entries[i].0.NString?
          && ParsePath(v.entries[i].0.s, opts.pathSep) == [v.entries[i].0.s]
          && NonNumeric(v.entries[i].0.s))
    && (forall i, j | 0 <= i < j < |v.entries| :: v.entries[i].0 != v.entries[j].0)
  }

  /** The fields expected after writing the first `n` entries one by one. */
  ghost function FlatFields(opts: Options, ext: Externals, fields: map<string, Value>, v: Native, n: nat): map<string, Value>
    requires v.NMap? && n <= |v.entries|
  {
    if n == 0 then fields
    else
      var e := v.entries[n - 1];
      var r := NormalizeValue(opts, ext, NoCtx, e.1);
      var prev := FlatFields(opts, ext, fields, v, n - 1);
      if e.0.NString? && r.Ok? then prev[e.0.s := Cpy(r.value, Ctx(e.0.s))] else prev
  }

  lemma {:induction false} FlatFieldsKeys(opts: Options, ext: Externals, fields: map<string, Value>, v: Native, n: nat)
    requires v.NMap? && n <= |v.entries| && PlainKeys(opts, v)
    requires forall i | 0 <= i < |v.entries| :: NormalizeValue(opts, ext, NoCtx, v.entries[i].1).Ok?
    ensures FlatFields(opts, ext, fields, v, n).Keys == fields.Keys + (set i | 0 <= i < n :: v.entries[i].0.s)
    decreases n
  {
    if n > 0 {
      FlatFieldsKeys(opts, ext, fields, v, n - 1);
      assert (set i | 0 <= i < n :: v.entries[i].0.s)
          == (set i | 0 <= i < n - 1 :: v.entries[i].0.s) + {v.entries[n - 1].0.s};
    }
  }

  lemma {:induction false} FlatFieldsValues(opts: Options, ext: Externals, fields: map<string, Value>, v: Native, n: nat)
    requires v.NMap? && n <= |v.entries| && PlainKeys(opts, v)
    requires forall i | 0 <= i < |v.entries| :: NormalizeValue(opts, ext, NoCtx, v.entries[i].1).Ok?
    requires forall i | 0 <= i < |v.entries| :: v.entries[i].0.s !in fields
    ensures forall k | k in fields :: k in FlatFields(opts, ext, fields, v, n) && FlatFields(opts, ext, fields, v, n)[k] == fields[k]
    ensures forall i | 0 <= i < n ::
              && v.entries[i].0.s in FlatFields(opts, ext, fields, v, n)
              && FlatFields(opts, ext, fields, v, n)[v.entries[i].0.s]
                   == Cpy(NormalizeValue(opts, ext, NoCtx, v.entries[i].1).value, Ctx(v.entries[i].0.s))
    decreases n
  {
    if n > 0 {
      FlatFieldsValues(opts, ext, fields, v, n - 1);
      forall i | 0 <= i < n - 1 ensures v.entries[i].0.s != v.entries[n - 1].0.s {
        assert v.entries[i].0 != v.entries[n - 1].0;
      }
    }
  }

  /** The keys of the entries not yet written are still absent. */
  lemma {:induction false} FlatFieldsFresh(opts: Options, ext: Externals, fields: map<string, Value>, v: Native, n: nat)
    requires v.NMap? && n <= |v.entries| && PlainKeys(opts, v)
    requires forall i | 0 <= i < |v.entries| :: v.entries[i].0.s !in fields
    ensures forall i | n <= i < |v.entries| :: v.entries[i].0.s !in FlatFields(opts, ext, fields, v, n)
    decreases n
  {
    if n > 0 {
      FlatFieldsFresh(opts, ext, fields, v, n - 1);
      forall i | n <= i < |v.entries| ensures v.entries[i].0.s != v.entries[n - 1].0.s {
        assert v.entries[n - 1].0 != v.entries[i].0;
      }
    }
  }

  /** Writing the first `n` entries of a map with plain keys, none of them
      already present, gives FlatFields. */
  lemma {:induction false} EntriesIntoFlat(opts: Options, ext: Externals, t: Tree, v: Native, n: nat)
    requires v.NMap? && n <= |v.entries| && PlainKeys(opts, v)
    requires forall i | 0 <= i < |v.entries| :: v.entries[i].0.s !in t.fields
    requires forall i | 0 <= i < |v.entries| :: NormalizeValue(opts, ext, NoCtx, v.entries[i].1).Ok?
    ensures EntriesInto(opts, ext, t, v, n) == Ok(t.(fields := FlatFields(opts, ext, t.fields, v, n)))
    decreases n
  {
    if n > 0 {
      EntriesIntoFlat(opts, ext, t, v, n - 1);
      FlatFieldsFresh(opts, ext, t.fields, v, n - 1);
      var e := v.entries[n - 1];
      EntriesIntoFlatStep(opts, ext, t, v, n, e.0.s, NormalizeValue(opts, ext, NoCtx, e.1).value);
    }
  }

  lemma EntriesIntoFlatStep(opts: Options, ext: Externals, t: Tree, v: Native, n: nat, key: string, val: Value)
    requires v.NMap? && 0 < n <= |v.entries|
    requires v.entries[n - 1].0 == NString(key)
    requires NormalizeValue(opts, ext, NoCtx, v.entries[n - 1].1) == Ok(val)
    requires ParsePath(key, opts.pathSep) == [key]
    requires key !in FlatFields(opts, ext, t.fields, v, n - 1)
    requires EntriesInto(opts, ext, t, v, n - 1) == Ok(t.(fields := FlatFields(opts, ext, t.fields, v, n - 1)))
    ensures EntriesInto(opts, ext, t, v, n) == Ok(t.(fields := FlatFields(opts, ext, t.fields, v, n)))
  {
    var t' := t.(fields := FlatFields(opts, ext, t.fields, v, n - 1));
    var t'' := t'.(fields := t'.fields[key := Cpy(val, Ctx(key))]);
    assert EntriesInto(opts, ext, t, v, n) == SetField(opts, ext, t', key, v.entries[n - 1].1) by {
      EntriesIntoStep(opts, ext, t, v, n - 1);
    }
    assert SetField(opts, ext, t', key, v.entries[n - 1].1) == Ok(t'') by {
      FreshPlainField(opts, ext, t', key, v.entries[n - 1].1);
    }
    assert FlatFields(opts, ext, t.fields, v, n) == t''.fields;
  }

  /** `normalizeMap` on a map whose keys are distinct plain non-numeric
      strings: every key ends up holding its normalised value and nothing else
      is added. The result does not depend on the order the keys are visited
      in. */
  lemma MapFlat(opts: Options, ext: Externals, v: Native)
    requires v.NMap? && (v.keyKind.StringKeys? || v.keyKind.InterfaceKeys?)
    requires PlainKeys(opts, v)
    requires forall i | 0 <= i < |v.entries| :: NormalizeValue(opts, ext, NoCtx, v.entries[i].1).Ok?
    ensures Normalize(opts, ext, v).Ok?
    ensures var r := Normalize(opts, ext, v).value;
            && r.arr == []
            && r.fields.Keys == (set i | 0 <= i < |v.entries| :: v.entries[i].0.s)
            && (forall i | 0 <= i < |v.entries| ::
                  r.fields[v.entries[i].0.s] == Cpy(NormalizeValue(opts, ext, NoCtx, v.entries[i].1).value, Ctx(v.entries[i].0.s)))
  {
    EntriesIntoFlat(opts, ext, EmptyTree, v, |v.entries|);
    FlatFieldsKeys(opts, ext, map[], v, |v.entries|);
    FlatFieldsValues(opts, ext, map[], v, |v.entries|);
  }

  // ---------------------------------------------------------------------------
  // Every normalised tree is well formed: each value's context names the key
  // or the index it is stored under, all the way down.

  lemma {:induction false} NormalizeWellFormed(opts: Options, ext: Externals, from: Native)
    requires ConfigsWellFormed(from)
    requires Normalize(opts, ext, from).Ok?
    ensures WellFormed(Normalize(opts, ext, from).value)
  {
    match from
    case NMap(_, _) => MapIntoWellFormed(opts, ext, EmptyTree, from);
    case NStruct(_) => StructIntoWellFormed(opts, ext, EmptyTree, from);
    case NConfig(_) =>
  }

  lemma {:induction false} NormalizeValueWellFormed(opts: Options, ext: Externals, ctx: Ctx, v: Native)
    requires ConfigsWellFormed(v)
    requires NormalizeValue(opts, ext, ctx, v).Ok?
    ensures InnerWellFormed(NormalizeValue(opts, ext, ctx, v).value)
    decreases v, 4, 0
  {
    match v
    case NSlice(es) =>
      var out := ArrayElems(opts, ext, v, |es|).value;
      forall i | 0 <= i < |out| ensures out[i].ctx == Ctx(Decimal(i)) && InnerWellFormed(out[i]) {
        NormalizeValueWellFormed(opts, ext, Ctx(Decimal(i)), es[i]);
      }
    case NMap(_, _) => MapIntoWellFormed(opts, ext, EmptyTree, v);
    case NStruct(_) => StructIntoWellFormed(opts, ext, EmptyTree, v);
    case _ =>
  }

  lemma {:induction false} MapIntoWellFormed(opts: Options, ext: Externals, t: Tree, v: Native)
    requires v.NMap? && WellFormed(t) && ConfigsWellFormed(v)
    requires MapInto(opts, ext, t, v).Ok?
    ensures WellFormed(MapInto(opts, ext, t, v).value)
    decreases v, 3, 0
  {
    EntriesIntoWellFormed(opts, ext, t, v, |v.entries|);
  }

  lemma {:induction false} EntriesIntoWellFormed(opts: Options, ext: Externals, t: Tree, v: Native, n: nat)
    requires v.NMap? && n <= |v.entries| && WellFormed(t) && ConfigsWellFormed(v)
    requires EntriesInto(opts, ext, t, v, n).Ok?
    ensures WellFormed(EntriesInto(opts, ext, t, v, n).value)
    decreases v, 2, n
  {
    if n > 0 {
      EntriesIntoWellFormed(opts, ext, t, v, n - 1);
      var t' := EntriesInto(opts, ext, t, v, n - 1).value;
      var e := v.entries[n - 1];
      SetFieldWellFormed(opts, ext, t', e.0.s, e.1);
    }
  }

  lemma {:induction false} StructIntoWellFormed(opts: Options, ext: Externals, t: Tree, v: Native)
    requires v.NStruct? && WellFormed(t) && ConfigsWellFormed(v)
    requires StructInto(opts, ext, t, v).Ok?
    ensures WellFormed(StructInto(opts, ext, t, v).value)
    decreases v, 3, 0
  {
    FieldsIntoWellFormed(opts, ext, t, v, |v.fields|);
  }

  lemma {:induction false} FieldsIntoWellFormed(opts: Options, ext: Externals, t: Tree, v: Native, n: nat)
    requires v.NStruct? && n <= |v.fields| && WellFormed(t) && ConfigsWellFormed(v)
    requires FieldsInto(opts, ext, t, v, n).Ok?
    ensures WellFormed(FieldsInto(opts, ext, t, v, n).value)
    decreases v, 2, n
  {
    if n > 0 {
      FieldsIntoWellFormed(opts, ext, t, v, n - 1);
      var t' := FieldsInto(opts, ext, t, v, n - 1).value;
      var f := v.fields[n - 1];
      assert ConfigsWellFormed(f.value);
      if f.squash {
        match f.value
        case NStruct(_) => StructIntoWellFormed(opts, ext, t', f.value);
        case NMap(_, _) => MapIntoWellFormed(opts, ext, t', f.value);
        case _ =>
      } else {
        SetFieldWellFormed(opts, ext, t', FieldName(f.tagName, f.goName), f.value);
      }
    }
  }

  lemma {:induction false} SetFieldWellFormed(opts: Options, ext: Externals, t: Tree, name: string, child: Native)
    requires WellFormed(t) && ConfigsWellFormed(child)
    requires SetField(opts, ext, t, name, child).Ok?
    ensures WellFormed(SetField(opts, ext, t, name, child).value)
    decreases child, 5, 0
  {
    NormalizeValueWellFormed(opts, ext, NoCtx, child);
    var val := NormalizeValue(opts, ext, NoCtx, child).value;
    var p := ParsePath(name, opts.pathSep);
    if GetValue(t, p, ext.nilReadsAsMissing).Err? {
      SetValueWellFormed(t, p, val);
    }
  }

  // ---------------------------------------------------------------------------
  // The first error aborts: once a prefix of the entries, fields or elements
  // fails, every longer prefix fails with the same error.

  lemma {:induction false} ArrayElemsAbort(opts: Options, ext: Externals, v: Native, n: nat, m: nat)
    requires v.NSlice? && n <= m <= |v.elems|
    requires ArrayElems(opts, ext, v, n).Err?
    ensures ArrayElems(opts, ext, v, m) == ArrayElems(opts, ext, v, n)
    decreases m
  {
    if m > n {
      ArrayElemsAbort(opts, ext, v, n, m - 1);
      assert ArrayElems(opts, ext, v, m) == Err(ArrayElems(opts, ext, v, m - 1).error);
    }
  }

  /** One more entry: a key that is not a string is KeyInvalidTypeMerge;
      otherwise the entry is written with SetField into what the earlier
      entries produced. */
  lemma EntriesIntoStep(opts: Options, ext: Externals, t: Tree, v: Native, i: nat)
    requires v.NMap? && i < |v.entries|
    requires EntriesInto(opts, ext, t, v, i).Ok?
    ensures !v.entries[i].0.NString? ==> EntriesInto(opts, ext, t, v, i + 1) == Err(KeyInvalidTypeMerge)
    ensures v.entries[i].0.NString? ==>
              EntriesInto(opts, ext, t, v, i + 1)
                == SetField(opts, ext, EntriesInto(opts, ext, t, v, i).value, v.entries[i].0.s, v.entries[i].1)
  {
  }

  lemma {:induction false} EntriesIntoAbort(opts: Options, ext: Externals, t: Tree, v: Native, n: nat, m: nat)
    requires v.NMap? && n <= m <= |v.entries|
    requires EntriesInto(opts, ext, t, v, n).Err?
    ensures EntriesInto(opts, ext, t, v, m) == EntriesInto(opts, ext, t, v, n)
    decreases m
  {
    if m > n {
      EntriesIntoAbort(opts, ext, t, v, n, m - 1);
      assert EntriesInto(opts, ext, t, v, m) == Err(EntriesInto(opts, ext, t, v, m - 1).error);
    }
  }

  lemma {:induction false} FieldsIntoAbort(opts: Options, ext: Externals, t: Tree, v: Native, n: nat, m: nat)
    requires v.NStruct? && n <= m <= |v.fields|
    requires FieldsInto(opts, ext, t, v, n).Err?
    ensures FieldsInto(opts, ext, t, v, m) == FieldsInto(opts, ext, t, v, n)
    decreases m
  {
    if m > n {
      FieldsIntoAbort(opts, ext, t, v, n, m - 1);
      assert FieldsInto(opts, ext, t, v, m) == Err(FieldsInto(opts, ext, t, v, m - 1).error);
    }
  }
}
