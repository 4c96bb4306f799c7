/** The loosely typed values the dashboard passes around: the parameter object built by the
    configuration form, its nested per-model sections, and the JavaScript idioms used to read them
    (`obj?.key`, `x || default`, truthiness). */
module Values {

  datatype Option<+T> = None | Some(value: T)

  /** The names of the parameter object the configuration form builds: the top-level keys
      (`cryptocurrencies` … `deepar`) and the keys of the per-model sections (`learningRate` …
      `contextLength`). The form only ever writes these names. */
  datatype Key =
    | Cryptocurrencies | StartDate | EndDate | Variables
    | NormalizationMethod | InterpolationMethod | MissingValueThreshold
    | TrainSplit | ValidationSplit | TestSplit
    | Tft | Nbeats | Deepar
    | LearningRate | BatchSize | Epochs | HiddenSize | AttentionHeadSize | Dropout | Optimizer
    | StackTypes | NumBlocks | NumLayers | LayerWidths | NumCells | ContextLength

  /** The three forecasters, in the order every component lists them. */
  datatype Forecaster = TFT | NBEATS | DeepAR

  const Forecasters: seq<Forecaster> := [TFT, NBEATS, DeepAR]

  /** The top-level key of a forecaster's section of the parameters. */
  function SectionKey(m: Forecaster): Key
  {
    match m
    case TFT => Tft
    case NBEATS => Nbeats
    case DeepAR => Deepar
  }

  /** A value stored in a parameter object. `NaN` is what `parseFloat`/`parseInt` give for an
      empty or malformed number field; `Obj` is a nested section such as `tft`. */
  datatype Value =
    | Num(n: real)
    | NaN
    | Str(s: string)
    | StrList(items: seq<string>)
    | Obj(fields: map<Key, Value>)

  /** A plain object: the parameter set at the root, or one model's section. */
  type Record = map<Key, Value>

  /** `r[k]`, with `None` for a missing key (JavaScript's `undefined`). */
  function Get(r: Record, k: Key): (v: Option<Value>)
    ensures v.Some? <==> k in r
    ensures v.Some? ==> v.value == r[k]
  {
    if k in r then Some(r[k]) else None
  }

  /** `p?.k` on an object that may be null. */
  function Member(p: Option<Record>, k: Key): (v: Option<Value>)
    ensures v.Some? <==> p.Some? && k in p.value
    ensures v.Some? ==> v.value == p.value[k]
  {
    if p.Some? then Get(p.value, k) else None
  }

  /** `v?.k` on a value that may be undefined; only objects have named members. */
  function Field(v: Option<Value>, k: Key): (r: Option<Value>)
    ensures r.Some? <==> v.Some? && v.value.Obj? && k in v.value.fields
    ensures r.Some? ==> r.value == v.value.fields[k]
  {
    if v.Some? && v.value.Obj? then Get(v.value.fields, k) else None
  }

  /** JavaScript truthiness: undefined, 0, NaN and "" are falsy; lists and objects are truthy. */
  predicate Truthy(v: Option<Value>)
  {
    match v
    case None => false
    case Some(Num(n)) => n != 0.0
    case Some(NaN) => false
    case Some(Str(s)) => s != ""
    case Some(StrList(_)) => true
    case Some(Obj(_)) => true
  }

  /** The value holds a number (or NaN), or is missing: what the form's number fields hold. */
  predicate NumericOrAbsent(v: Option<Value>)
  {
    v.None? || v.value.Num? || v.value.NaN?
  }

  /** `v || d` for a numeric field with a numeric default. */
  function NumOr(v: Option<Value>, d: real): (r: real)
    requires NumericOrAbsent(v)
    ensures Truthy(v) ==> r == v.value.n
    ensures !Truthy(v) ==> r == d
  {
    if v.Some? && v.value.Num? && v.value.n != 0.0 then v.value.n else d
  }

  /** The value holds a string, or is missing: what the form's text fields hold. */
  predicate TextOrAbsent(v: Option<Value>)
  {
    v.None? || v.value.Str?
  }

  /** `v || d` for a text field with a text default. */
  function StrOr(v: Option<Value>, d: string): (r: string)
    requires TextOrAbsent(v)
    ensures Truthy(v) ==> r == v.value.s
    ensures !Truthy(v) ==> r == d
  {
    if v.Some? && v.value.s != "" then v.value.s else d
  }

  /** The value holds a list of strings, or is missing. */
  predicate ListOrAbsent(v: Option<Value>)
  {
    v.None? || v.value.StrList?
  }

  /** `v || d` for a list field; every list, even the empty one, is truthy. */
  function ListOr(v: Option<Value>, d: seq<string>): (r: seq<string>)
    requires ListOrAbsent(v)
    ensures v.Some? ==> r == v.value.items
    ensures v.None? ==> r == d
  {
    if v.Some? then v.value.items else d
  }

  /** A table row as `Object.keys`/`Object.values` see it: keys with their values, in
      insertion order. */
  datatype Cell = StrCell(s: string) | OtherCell(rendered: string)

  type Row = seq<(string, Cell)>

  /** The text JavaScript writes for a value when it is joined into a line. */
  function CellText(c: Cell): string
  {
    match c
    case StrCell(s) => s
    case OtherCell(r) => r
  }
}
