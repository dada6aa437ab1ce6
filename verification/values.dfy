/**
 * The canonical configuration tree of go-ucfg: the value variants a normalised
 * configuration is built from, the error kinds the merge and normalisation
 * engine raises, the options it is run with, and the collaborators that live
 * outside merge.go (rendered as explicit parameters rather than hidden calls).
 */
module Values {

  /** A signed Go integer of any width, widened to int64 as `reflect.Value.Int` does. */
  newtype I64 = x: int | -0x8000_0000_0000_0000 <= x < 0x8000_0000_0000_0000

  /** An unsigned Go integer of any width, widened to uint64 as `reflect.Value.Uint` does. */
  newtype U64 = x: int | 0 <= x < 0x1_0000_0000_0000_0000

  /** The context a value carries: the field name or array index it sits under.
      The parent back-link of the Go code is not modelled. */
  datatype Ctx = Ctx(field: string)

  const NoCtx := Ctx("")

  /** A parsed reference `${path}`: the path segments it names. */
  datatype Reference = Reference(path: seq<string>)

  /** What the splice parser produces for a string. */
  datatype VarExp =
    | ConstExp(text: string)
    | RefExp(ref: Reference)
    | SpliceExp(pieces: seq<VarExp>)

  /** Outcome of the splice parser (a collaborator outside merge.go). */
  datatype Parsed = Parsed(exp: VarExp) | ParseFailed(message: string)

  /** The variants of a normalised value. */
  datatype Node =
    | Bool(b: bool)
    | Int(i: I64)
    | Uint(u: U64)
    | Float(bits: bv64)          // opaque IEEE-754 payload, no arithmetic
    | Str(s: string)
    | Nil
    | Sub(cfg: Tree)             // a sub-config, in map form or array form
    | Ref(ref: Reference)
    | Splice(exp: VarExp)

  datatype Value = Value(ctx: Ctx, node: Node)

  /** A configuration node: named fields and array elements. */
  datatype Tree = Tree(fields: map<string, Value>, arr: seq<Value>)

  const EmptyTree := Tree(map[], [])

  /** The error conditions of normalisation and path lookup. */
  datatype Error =
    | InvalidTopLevelType
    | KeyInvalidTypeMerge
    | SquashNeedsObject(field: string)
    | DuplicateKey(name: string)
    | UnsupportedInputType(ctx: Ctx)
    | ParseSplice(ctx: Ctx, message: string)
    | Missing(field: string)
    | ExpectedObject(field: string)

  datatype Result<T> = Ok(value: T) | Err(error: Error) {
    predicate IsFailure() { Err? }
    function PropagateFailure<U>(): Result<U>
      requires Err?
    {
      Err(error)
    }
    function Extract(): T
      requires Ok?
    {
      value
    }
  }

  datatype Option<T> = None | Some(value: T)

  /** The options a normalisation or merge runs with (metadata is not modelled;
      struct tags arrive already parsed, so the tag key is not needed). */
  datatype Options = Options(pathSep: string, varexp: bool)

  /** Collaborators whose code is not part of this model:
      - durationString stands for `time.Duration.String`;
      - parseSplice stands for `parseSplice(str, pathSep)`;
      - nilReadsAsMissing says whether the path lookup reports a stored nil
        as Missing, a choice that merge.go leaves to `GetValue`. */
  datatype Externals = Externals(
    durationString: I64 -> string,
    parseSplice: (string, string) -> Parsed,
    nilReadsAsMissing: bool)

  /** `v.cpy(ctx)`: a deep copy attached under a new context. Values are
      immutable here, so only the context changes. */
  function Cpy(v: Value, ctx: Ctx): (r: Value)
    ensures r.node == v.node && r.ctx == ctx
  {
    v.(ctx := ctx)
  }

  /** `v.toConfig(opts)`: only a sub-config converts to a config. */
  function ToConfig(v: Value): (r: Option<Tree>)
    ensures r.Some? <==> v.node.Sub?
    ensures r.Some? ==> v.node == Sub(r.value)
  {
    match v.node
    case Sub(c) => Some(c)
    case _ => None
  }

  /** `fmt.Sprintf("%v", n)` for a non-negative index. */
  function Decimal(n: nat): (s: string)
    ensures |s| >= 1
    ensures forall i | 0 <= i < |s| :: '0' <= s[i] <= '9'
    decreases n
  {
    if n < 10 then [DigitChar(n)] else Decimal(n / 10) + [DigitChar(n % 10)]
  }

  function DigitChar(d: nat): (c: char)
    requires d < 10
    ensures '0' <= c <= '9'
  {
    ('0' as int + d) as char
  }

  /** Reads back a string of decimal digits. */
  function DecimalValue(s: string): nat
  {
    if s == [] then 0 else 10 * DecimalValue(s[..|s| - 1]) + ((s[|s| - 1] as int - '0' as int) % 10)
  }

  lemma {:induction false} DecimalRoundTrip(n: nat)
    ensures DecimalValue(Decimal(n)) == n
    decreases n
  {
    if n >= 10 {
      var s := Decimal(n);
      assert s[..|s| - 1] == Decimal(n / 10);
      DecimalRoundTrip(n / 10);
    }
  }

  /** Distinct array indices get distinct context names. */
  lemma DecimalInjective(m: nat, n: nat)
    requires m != n
    ensures Decimal(m) != Decimal(n)
  {
    DecimalRoundTrip(m);
    DecimalRoundTrip(n);
  }

  /** Every named child's context is its key, every element's context its
      decimal index, and the same holds inside every sub-config. */
  predicate WellFormed(t: Tree)
    decreases t, 1
  {
    && (forall k | k in t.fields :: t.fields[k].ctx == Ctx(k) && InnerWellFormed(t.fields[k]))
    && (forall i | 0 <= i < |t.arr| :: t.arr[i].ctx == Ctx(Decimal(i)) && InnerWellFormed(t.arr[i]))
  }

  /** The sub-config a value holds, if any, is well formed. */
  predicate InnerWellFormed(v: Value)
    decreases v, 0
  {
    v.node.Sub? ==> WellFormed(v.node.cfg)
  }
}
