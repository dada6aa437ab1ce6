/**
 * The native Go values the normaliser accepts, after pointer and interface
 * indirection has been followed (`chaseValue`). Reflection is replaced by this
 * closed datatype: each constructor is one case of the dispatch in merge.go.
 */
module Input {
  import opened Values

  /** The declared key type of a Go map. */
  datatype KeyKind = StringKeys | InterfaceKeys | OtherKeys

  /** One field of a Go struct with its tag already parsed (`parseTags`):
      the Go field name, the name given in the tag (possibly empty), whether
      the tag says `squash`, and the field's value. */
  datatype StructField = StructField(goName: string, tagName: string, squash: bool, value: Native)

  datatype Native =
    | NBool(b: bool)
    | NInt(i: I64)                                   // int, int8 ... int64
    | NUint(u: U64)                                  // uint, uint8 ... uint64
    | NFloat(bits: bv64)                             // float32, float64 (opaque)
    | NString(s: string)
    | NDuration(nanos: I64)                          // time.Duration
    | NRegexp(source: string)                        // regexp.Regexp
    | NSlice(elems: seq<Native>)                     // array or slice
    | NMap(keyKind: KeyKind, entries: seq<(Native, Native)>)
    | NStruct(fields: seq<StructField>)
    | NConfig(cfg: Tree)                             // already a *Config, or rebranded into one
    | NNil                                           // nil pointer, interface, chan or func
    | NUnsupported(kind: string)                     // non-nil chan, func or unsafe.Pointer

  /** Every ready-made config inside the input is well formed. */
  predicate ConfigsWellFormed(v: Native)
    decreases v
  {
    && (v.NConfig? ==> WellFormed(v.cfg))
    && (v.NSlice? ==> forall i | 0 <= i < |v.elems| :: ConfigsWellFormed(v.elems[i]))
    && (v.NMap? ==> forall i | 0 <= i < |v.entries| :: ConfigsWellFormed(v.entries[i].1))
    && (v.NStruct? ==> forall i | 0 <= i < |v.fields| :: ConfigsWellFormed(v.fields[i].value))
  }

  /** `fieldName(tagName, goName)`: the tag name when given, otherwise the Go
      field name in lower case (ASCII letters only). */
  function FieldName(tagName: string, goName: string): (r: string)
    ensures tagName != "" ==> r == tagName
    ensures tagName == "" ==> r == Lower(goName)
  {
    if tagName != "" then tagName else Lower(goName)
  }

  function Lower(s: string): (r: string)
    ensures |r| == |s|
    ensures forall i | 0 <= i < |s| :: r[i] == LowerChar(s[i])
  {
    seq(|s|, i requires 0 <= i < |s| => LowerChar(s[i]))
  }

  function LowerChar(c: char): char
  {
    if 'A' <= c <= 'Z' then (c as int - 'A' as int + 'a' as int) as char else c
  }
}
