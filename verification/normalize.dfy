/**
 * The normaliser of merge.go as pure functions: how a native value becomes a
 * canonical configuration tree. These functions are the specification the
 * in-place methods of module Engine are proved against, and what
 * `normalizeValue` uses for nested maps, structs and arrays.
 */
module Normalizer {
  import opened Values
  import opened Input
  import opened Paths

  /** `normalize`: only a config, a map or a struct may stand at the top. */
  function Normalize(opts: Options, ext: Externals, from: Native): (r: Result<Tree>)
    ensures (r.Err? && r.error == InvalidTopLevelType) <==> !(from.NConfig? || from.NMap? || from.NStruct?)
    ensures from.NConfig? ==> r == Ok(from.cfg)
  {
    match from
    case NConfig(c) => Ok(c)
    case NMap(_, _) => MapInto(opts, ext, EmptyTree, from)
    case NStruct(_) => StructInto(opts, ext, EmptyTree, from)
    case _ => Err(InvalidTopLevelType)
  }

  /** `normalizeValue`: special types first (durations and regular expressions
      become strings), then the kind dispatch. A positive signed integer is
      stored as Uint, zero and negative ones as Int. */
  function NormalizeValue(opts: Options, ext: Externals, ctx: Ctx, v: Native): (r: Result<Value>)
    ensures r.Ok? ==> r.value.ctx == ctx
    ensures r.Err? ==> !r.error.InvalidTopLevelType?
    decreases v, 4, 0
  {
    match v
    case NDuration(d) => Ok(Value(ctx, Str(ext.durationString(d))))
    case NRegexp(source) => Ok(Value(ctx, Str(source)))
    case NBool(b) => Ok(Value(ctx, Bool(b)))
    case NInt(i) => if i > 0 then Ok(Value(ctx, Uint(i as int as U64))) else Ok(Value(ctx, Int(i)))
    case NUint(u) => Ok(Value(ctx, Uint(u)))
    case NFloat(f) => Ok(Value(ctx, Float(f)))
    case NString(s) => NormalizeString(ctx, opts, ext, s)
    case NSlice(_) => ArrayValue(opts, ext, ctx, v)
    case NMap(_, _) => NormalizeMapValue(opts, ext, ctx, v)
    case NConfig(c) => Ok(Value(ctx, Sub(c)))
    case NStruct(_) => NormalizeStructValue(opts, ext, ctx, v)
    case NNil => Ok(Value(ctx, Nil))
    case NUnsupported(_) => Err(UnsupportedInputType(ctx))
  }

  /** `normalizeString`: without variable expansion the string is kept as is;
      with it, the splice parser decides between a plain string (no reference
      in it), a reference (the whole string is one reference) and a splice. */
  function NormalizeString(ctx: Ctx, opts: Options, ext: Externals, s: string): (r: Result<Value>)
    ensures r.Ok? ==> r.value.ctx == ctx
    ensures r.Err? <==> opts.varexp && ext.parseSplice(s, opts.pathSep).ParseFailed?
    ensures r.Err? ==> r.error == ParseSplice(ctx, ext.parseSplice(s, opts.pathSep).message)
    ensures r.Ok? ==> (r.value.node.Str? <==> (!opts.varexp || ext.parseSplice(s, opts.pathSep).exp.ConstExp?))
    ensures r.Ok? && r.value.node.Str? ==> r.value.node.s == s
    ensures r.Ok? ==> (r.value.node.Ref? <==> opts.varexp && ext.parseSplice(s, opts.pathSep).exp.RefExp?)
    ensures r.Ok? && r.value.node.Ref? ==> r.value.node.ref == ext.parseSplice(s, opts.pathSep).exp.ref
    ensures r.Ok? && r.value.node.Splice? ==> r.value.node.exp == ext.parseSplice(s, opts.pathSep).exp
    ensures r.Ok? ==> r.value.node.Str? || r.value.node.Ref? || r.value.node.Splice?
  {
    if !opts.varexp then Ok(Value(ctx, Str(s)))
    else
      match ext.parseSplice(s, opts.pathSep)
      case ParseFailed(msg) => Err(ParseSplice(ctx, msg))
      case Parsed(ConstExp(_)) => Ok(Value(ctx, Str(s)))
      case Parsed(RefExp(ref)) => Ok(Value(ctx, Ref(ref)))
      case Parsed(exp) => Ok(Value(ctx, Splice(exp)))
  }

  /** `normalizeArray`: an array-form sub-config under `ctx`. */
  function ArrayValue(opts: Options, ext: Externals, ctx: Ctx, v: Native): (r: Result<Value>)
    requires v.NSlice?
    ensures r.Ok? ==> r.value.ctx == ctx && r.value.node.Sub? && r.value.node.cfg.fields == map[]
    ensures r.Ok? <==> ArrayElems(opts, ext, v, |v.elems|).Ok?
    ensures r.Ok? ==> r.value.node.cfg.arr == ArrayElems(opts, ext, v, |v.elems|).value
    ensures r.Err? ==> r.error == ArrayElems(opts, ext, v, |v.elems|).error
    ensures r.Err? ==> !r.error.InvalidTopLevelType?
    decreases v, 3, 1
  {
    var out :- ArrayElems(opts, ext, v, |v.elems|);
    Ok(Value(ctx, Sub(Tree(map[], out))))
  }

  /** The first `n` elements normalised in order, element i under the context
      named by its decimal index; the first element that fails aborts. */
  function ArrayElems(opts: Options, ext: Externals, v: Native, n: nat): (r: Result<seq<Value>>)
    requires v.NSlice? && n <= |v.elems|
    ensures r.Ok? ==> |r.value| == n
    ensures r.Ok? ==> forall i | 0 <= i < n :: NormalizeValue(opts, ext, Ctx(Decimal(i)), v.elems[i]) == Ok(r.value[i])
    ensures r.Ok? <==> forall i | 0 <= i < n :: NormalizeValue(opts, ext, Ctx(Decimal(i)), v.elems[i]).Ok?
    ensures r.Err? ==> exists j | 0 <= j < n ::
      && NormalizeValue(opts, ext, Ctx(Decimal(j)), v.elems[j]) == Err(r.error)
      && forall i | 0 <= i < j :: NormalizeValue(opts, ext, Ctx(Decimal(i)), v.elems[i]).Ok?
    decreases v, 2, n
  {
    if n == 0 then Ok([])
    else
      var prefix :- ArrayElems(opts, ext, v, n - 1);
      var x :- NormalizeValue(opts, ext, Ctx(Decimal(n - 1)), v.elems[n - 1]);
      Ok(prefix + [x])
  }

  /** `normalizeMapValue`: a map-form sub-config under `ctx`. */
  function NormalizeMapValue(opts: Options, ext: Externals, ctx: Ctx, v: Native): (r: Result<Value>)
    requires v.NMap?
    ensures r.Ok? ==> r.value.ctx == ctx && r.value.node.Sub?
    ensures r.Ok? <==> MapInto(opts, ext, EmptyTree, v).Ok?
    ensures r.Ok? ==> r.value.node.cfg == MapInto(opts, ext, EmptyTree, v).value
    ensures r.Err? ==> r.error == MapInto(opts, ext, EmptyTree, v).error
    ensures r.Err? ==> !r.error.InvalidTopLevelType?
    decreases v, 3, 1
  {
    var t :- MapInto(opts, ext, EmptyTree, v);
    Ok(Value(ctx, Sub(t)))
  }

  /** `normalizeStructValue`: a map-form sub-config under `ctx`. */
  function NormalizeStructValue(opts: Options, ext: Externals, ctx: Ctx, v: Native): (r: Result<Value>)
    requires v.NStruct?
    ensures r.Ok? ==> r.value.ctx == ctx && r.value.node.Sub?
    ensures r.Ok? <==> StructInto(opts, ext, EmptyTree, v).Ok?
    ensures r.Ok? ==> r.value.node.cfg == StructInto(opts, ext, EmptyTree, v).value
    ensures r.Err? ==> r.error == StructInto(opts, ext, EmptyTree, v).error
    ensures r.Err? ==> !r.error.InvalidTopLevelType?
    decreases v, 3, 1
  {
    var t :- StructInto(opts, ext, EmptyTree, v);
    Ok(Value(ctx, Sub(t)))
  }

  /** `normalizeMapInto`: the key type must be string or interface, every key
      must hold a string, and each entry is written with SetField. */
  function MapInto(opts: Options, ext: Externals, t: Tree, v: Native): (r: Result<Tree>)
    requires v.NMap?
    ensures !(v.keyKind.StringKeys? || v.keyKind.InterfaceKeys?) ==> r == Err(KeyInvalidTypeMerge)
    ensures r.Ok? ==> r.value.arr == t.arr && t.fields.Keys <= r.value.fields.Keys
    ensures r.Err? ==> !r.error.InvalidTopLevelType?
    decreases v, 3, 0
  {
    if !(v.keyKind.StringKeys? || v.keyKind.InterfaceKeys?) then Err(KeyInvalidTypeMerge)
    else EntriesInto(opts, ext, t, v, |v.entries|)
  }

  /** The first `n` map entries written into `t`, in the order given. */
  function EntriesInto(opts: Options, ext: Externals, t: Tree, v: Native, n: nat): (r: Result<Tree>)
    requires v.NMap? && n <= |v.entries|
    ensures r.Ok? ==> r.value.arr == t.arr && t.fields.Keys <= r.value.fields.Keys
    ensures r.Err? ==> !r.error.InvalidTopLevelType?
    decreases v, 2, n
  {
    if n == 0 then Ok(t)
    else
      var t' :- EntriesInto(opts, ext, t, v, n - 1);
      var key := v.entries[n - 1].0;
      if !key.NString? then Err(KeyInvalidTypeMerge)
      else SetField(opts, ext, t', key.s, v.entries[n - 1].1)
  }

  /** `normalizeStructInto`: the fields in declaration order. */
  function StructInto(opts: Options, ext: Externals, t: Tree, v: Native): (r: Result<Tree>)
    requires v.NStruct?
    ensures r.Ok? ==> r.value.arr == t.arr && t.fields.Keys <= r.value.fields.Keys
    ensures r.Err? ==> !r.error.InvalidTopLevelType?
    decreases v, 3, 0
  {
    FieldsInto(opts, ext, t, v, |v.fields|)
  }

  /** The first `n` struct fields written into `t`. A squashed field that holds
      a struct or a map has its own fields written into `t` itself; any other
      squashed value is an error. Other fields are written under their name. */
  function FieldsInto(opts: Options, ext: Externals, t: Tree, v: Native, n: nat): (r: Result<Tree>)
    requires v.NStruct? && n <= |v.fields|
    ensures r.Ok? ==> r.value.arr == t.arr && t.fields.Keys <= r.value.fields.Keys
    ensures r.Err? ==> !r.error.InvalidTopLevelType?
    decreases v, 2, n
  {
    if n == 0 then Ok(t)
    else
      var t' :- FieldsInto(opts, ext, t, v, n - 1);
      var f := v.fields[n - 1];
      if f.squash then
        match f.value
        case NStruct(_) => StructInto(opts, ext, t', f.value)
        case NMap(_, _) => MapInto(opts, ext, t', f.value)
        case _ => Err(SquashNeedsObject(f.goName))
      else SetField(opts, ext, t', FieldName(f.tagName, f.goName), f.value)
  }

  /** `normalizeSetField`: normalise the value, then look its path up. An
      absent path is stored; a present one keeps the config unchanged when the
      new value is nil and is a DuplicateKey otherwise; any other lookup error
      is passed on. */
  function SetField(opts: Options, ext: Externals, t: Tree, name: string, child: Native): (r: Result<Tree>)
    ensures r.Ok? ==> r.value.arr == t.arr && t.fields.Keys <= r.value.fields.Keys
    ensures r.Err? ==> !r.error.InvalidTopLevelType?
    decreases child, 5, 0
  {
    var val :- NormalizeValue(opts, ext, NoCtx, child);
    var p := ParsePath(name, opts.pathSep);
    var prev := GetValue(t, p, ext.nilReadsAsMissing);
    if prev.Err? && !prev.error.Missing? then Err(prev.error)
    else if prev.Ok? then (if val.node.Nil? then Ok(t) else Err(DuplicateKey(name)))
    else SetValue(t, p, val)
  }
}
