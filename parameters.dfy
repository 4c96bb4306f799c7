/** The parameter form: its default parameter object, the validator that lists every rule the
    parameters break, the start button, and the two update helpers (one key at the top level or
    inside a model's section, and the add/remove toggle of a cryptocurrency checkbox). */
module Parameters {
  import opened Values
  import opened Text

  /** What a key holds in the objects the form builds. */
  datatype Kind = NumberKind | TextKind | ListKind | SectionKind

  function KindOf(k: Key): Kind
  {
    match k
    case Cryptocurrencies => ListKind
    case Variables => ListKind
    case StackTypes => ListKind
    case StartDate => TextKind
    case EndDate => TextKind
    case NormalizationMethod => TextKind
    case InterpolationMethod => TextKind
    case Optimizer => TextKind
    case Tft => SectionKind
    case Nbeats => SectionKind
    case Deepar => SectionKind
    case _ => NumberKind
  }

  /** The keys that live at the top level of the parameter object. */
  predicate RootKey(k: Key)
  {
    k in {Cryptocurrencies, StartDate, EndDate, Variables, NormalizationMethod, InterpolationMethod,
          MissingValueThreshold, TrainSplit, ValidationSplit, TestSplit, Tft, Nbeats, Deepar}
  }

  /** A value the form can put under a key that is not a section: number inputs go through
      `parseFloat`/`parseInt` (a number or NaN), selects and dates give text, checkboxes a list. */
  predicate FitsFlat(k: Key, v: Value)
  {
    match KindOf(k)
    case NumberKind => v.Num? || v.NaN?
    case TextKind => v.Str?
    case ListKind => v.StrList?
    case SectionKind => false
  }

  /** A model section: an object whose keys are section keys holding fitting values. */
  predicate FitsSection(v: Value)
  {
    v.Obj? && forall j :: j in v.fields ==> !RootKey(j) && FitsFlat(j, v.fields[j])
  }

  predicate Fits(k: Key, v: Value)
  {
    if KindOf(k) == SectionKind then FitsSection(v) else FitsFlat(k, v)
  }

  /** The shape every parameter object of the form has: only top-level keys, each holding a
      fitting value, and the three sections and the crypto list always present. */
  predicate WellFormed(p: Record)
  {
    && (forall k :: k in p ==> RootKey(k) && Fits(k, p[k]))
    && Cryptocurrencies in p && Tft in p && Nbeats in p && Deepar in p
  }

  /** What the stages rely on when they read the parameters they are handed: every key that is
      present holds a fitting value. */
  predicate Typed(p: Record)
  {
    forall k :: k in p ==> Fits(k, p[k])
  }

  /** A top-level read of typed parameters gives a fitting value. */
  lemma TypedRoot(p: Option<Record>, k: Key)
    requires p.Some? ==> Typed(p.value)
    ensures Member(p, k).Some? ==> Fits(k, Member(p, k).value)
  {
  }

  /** A read inside a model's section of typed parameters gives a fitting value. */
  lemma TypedField(p: Option<Record>, m: Forecaster, k: Key)
    requires p.Some? ==> Typed(p.value)
    ensures Field(Member(p, SectionKey(m)), k).Some? ==> FitsFlat(k, Field(Member(p, SectionKey(m)), k).value)
  {
    TypedRoot(p, SectionKey(m));
  }

  /** The parameter object the form starts with, key by key. */
  function RootDefault(k: Key): Value
    requires RootKey(k)
  {
    match k
    case Cryptocurrencies => StrList(["bitcoin", "ethereum", "solana"])
    case StartDate => Str("2020-06-02")
    case EndDate => Str("2025-07-31")
    case Variables => StrList(["price", "volume", "market_cap"])
    case NormalizationMethod => Str("minmax")
    case InterpolationMethod => Str("linear")
    case MissingValueThreshold => Num(0.05)
    case TrainSplit => Num(0.8)
    case ValidationSplit => Num(0.1)
    case TestSplit => Num(0.1)
    case Tft => Obj(SectionDefaults(TFT))
    case Nbeats => Obj(SectionDefaults(NBEATS))
    case Deepar => Obj(SectionDefaults(DeepAR))
  }
  /** The default settings of each model's section; `None` where the section has no such key. */
  function SectionDefault(m: Forecaster, k: Key): Option<Value>
  {
    match (m, k)
    case (_, LearningRate) => Some(Num(0.001))
    case (_, BatchSize) => Some(Num(64.0))
    case (_, Epochs) => Some(Num(10.0))
    case (TFT, HiddenSize) => Some(Num(128.0))
    case (TFT, AttentionHeadSize) => Some(Num(4.0))
    case (TFT, Dropout) => Some(Num(0.1))
    case (TFT, Optimizer) => Some(Str("adam"))
    case (NBEATS, StackTypes) => Some(StrList(["trend", "seasonality"]))
    case (NBEATS, NumBlocks) => Some(Num(3.0))
    case (NBEATS, NumLayers) => Some(Num(4.0))
    case (NBEATS, LayerWidths) => Some(Num(512.0))
    case (DeepAR, NumLayers) => Some(Num(2.0))
    case (DeepAR, NumCells) => Some(Num(40.0))
    case (DeepAR, Dropout) => Some(Num(0.1))
    case (DeepAR, ContextLength) => Some(Num(30.0))
    case _ => None
  }
  function SectionDefaults(m: Forecaster): map<Key, Value>
  {
    map k | SectionDefault(m, k).Some? :: SectionDefault(m, k).value
  }
  /** The parameter object the form starts with. */
  function Defaults(): Record
  {
    map k | RootKey(k) :: RootDefault(k)
  }
  lemma SectionDefaultsFit(m: Forecaster)
    ensures FitsSection(Obj(SectionDefaults(m)))
  {
  }
  lemma DefaultsWellFormed()
    ensures WellFormed(Defaults())
  {
    SectionDefaultsFit(TFT);
    SectionDefaultsFit(NBEATS);
    SectionDefaultsFit(DeepAR);
  }

  /** The rules the validator checks, in the order it checks them. */
  datatype Violation = SplitSum | EpochsRange | BatchRange | NoCrypto

  function Message(v: Violation): string
  {
    match v
    case SplitSum => "Data split ratios must sum to 1.0"
    case EpochsRange => "TFT epochs must be between 1 and 100"
    case BatchRange => "Batch size must be between 16 and 512"
    case NoCrypto => "At least one cryptocurrency must be selected"
  }

  function Messages(vs: seq<Violation>): (ms: seq<string>)
    ensures |ms| == |vs|
    ensures forall i :: 0 <= i < |vs| ==> ms[i] == Message(vs[i])
  {
    if vs == [] then [] else [Message(vs[0])] + Messages(vs[1..])
  }

  function Abs(x: real): real
  {
    if x < 0.0 then -x else x
  }

  /** The split rule fails when the three ratios are numbers whose sum is more than 0.001 away
      from 1. A NaN (an emptied field) makes the sum NaN, and NaN compares false. */
  predicate SplitOff(p: Record)
  {
    var a, b, c := Get(p, TrainSplit), Get(p, ValidationSplit), Get(p, TestSplit);
    && a.Some? && a.value.Num? && b.Some? && b.value.Num? && c.Some? && c.value.Num?
    && Abs(a.value.n + b.value.n + c.value.n - 1.0) > 0.001
  }

  /** `x < lo || x > hi` on a value read from the form: false for NaN and for a missing key. */
  predicate OutOfRange(v: Option<Value>, lo: real, hi: real)
  {
    v.Some? && v.value.Num? && (v.value.n < lo || v.value.n > hi)
  }

  function TftField(p: Record, k: Key): Option<Value>
  {
    Field(Get(p, Tft), k)
  }

  function Cryptos(p: Record): seq<string>
    requires WellFormed(p)
  {
    p[Cryptocurrencies].items
  }

  /** The coins a component works on when it is handed the parameters, or nothing: the three
      usual coins when there are no parameters or no list. */
  const DefaultCryptos: seq<string> := ["bitcoin", "ethereum", "solana"]

  /** `parameters?.cryptocurrencies || ['bitcoin', 'ethereum', 'solana']`. Every list is truthy,
      so a configured empty list stays empty. */
  function SelectedCryptos(p: Option<Record>): (cs: seq<string>)
    requires p.Some? ==> Typed(p.value)
    ensures Member(p, Cryptocurrencies).None? ==> cs == DefaultCryptos
    ensures Member(p, Cryptocurrencies).Some? ==> cs == Member(p, Cryptocurrencies).value.items
  {
    TypedRoot(p, Cryptocurrencies);
    ListOr(Member(p, Cryptocurrencies), DefaultCryptos)
  }

  /** Whether the parameters break a rule. */
  predicate Breaks(p: Record, v: Violation)
    requires WellFormed(p)
  {
    match v
    case SplitSum => SplitOff(p)
    case EpochsRange => OutOfRange(TftField(p, Epochs), 1.0, 100.0)
    case BatchRange => OutOfRange(TftField(p, BatchSize), 16.0, 512.0)
    case NoCrypto => |Cryptos(p)| == 0
  }

  /** The rules in the validator's order. */
  const AllRules: seq<Violation> := [SplitSum, EpochsRange, BatchRange, NoCrypto]

  /** The broken rules among `rules`, in their order. */
  function BrokenAmong(p: Record, rules: seq<Violation>): seq<Violation>
    requires WellFormed(p)
    decreases |rules|
  {
    if rules == [] then []
    else (if Breaks(p, rules[0]) then [rules[0]] else []) + BrokenAmong(p, rules[1..])
  }

  /** Every broken rule of the parameters, in the validator's order. */
  function Violations(p: Record): seq<Violation>
    requires WellFormed(p)
  {
    BrokenAmong(p, AllRules)
  }

  lemma {:induction false} BrokenAmongIff(p: Record, rules: seq<Violation>, v: Violation)
    requires WellFormed(p)
    ensures v in BrokenAmong(p, rules) <==> v in rules && Breaks(p, v)
    decreases |rules|
  {
    if rules != [] {
      BrokenAmongIff(p, rules[1..], v);
      assert rules == [rules[0]] + rules[1..];
    }
  }

  /** The position of a rule in the validator's order. */
  function Rank(v: Violation): nat
  {
    match v
    case SplitSum => 0
    case EpochsRange => 1
    case BatchRange => 2
    case NoCrypto => 3
  }

  predicate Ascending(vs: seq<Violation>)
  {
    forall i, j :: 0 <= i < j < |vs| ==> Rank(vs[i]) < Rank(vs[j])
  }

  lemma {:induction false} BrokenAmongAscending(p: Record, rules: seq<Violation>)
    requires WellFormed(p)
    requires Ascending(rules)
    ensures Ascending(BrokenAmong(p, rules))
    ensures forall v :: v in BrokenAmong(p, rules) ==> v in rules
    ensures |BrokenAmong(p, rules)| <= |rules|
    decreases |rules|
  {
    if rules != [] {
      var rest := BrokenAmong(p, rules[1..]);
      assert Ascending(rules[1..]);
      BrokenAmongAscending(p, rules[1..]);
      forall v | v in rest ensures Rank(rules[0]) < Rank(v) {
        var k :| 0 <= k < |rules[1..]| && rules[1..][k] == v;
        assert rules[k + 1] == v;
      }
    }
  }

  /** A rule is reported exactly when the parameters break it: the split rule iff the ratios
      are more than 0.001 away from summing to 1, the epochs rule iff `tft.epochs` is a number
      outside [1, 100], the batch rule iff `tft.batchSize` is a number outside [16, 512], and
      the crypto rule iff no cryptocurrency is selected. */
  lemma ViolationsIff(p: Record)
    requires WellFormed(p)
    ensures SplitSum in Violations(p) <==> SplitOff(p)
    ensures EpochsRange in Violations(p) <==> OutOfRange(TftField(p, Epochs), 1.0, 100.0)
    ensures BatchRange in Violations(p) <==> OutOfRange(TftField(p, BatchSize), 16.0, 512.0)
    ensures NoCrypto in Violations(p) <==> |Cryptos(p)| == 0
  {
    BrokenAmongIff(p, AllRules, SplitSum);
    BrokenAmongIff(p, AllRules, EpochsRange);
    BrokenAmongIff(p, AllRules, BatchRange);
    BrokenAmongIff(p, AllRules, NoCrypto);
  }

  /** All violations come back, each once, in the fixed order split, epochs, batch, crypto;
      so there are at most four. */
  lemma ViolationsOrdered(p: Record)
    requires WellFormed(p)
    ensures Ascending(Violations(p))
    ensures |Violations(p)| <= 4
  {
    BrokenAmongAscending(p, AllRules);
  }

  /** The validator reads only the three ratios, `tft.epochs`, `tft.batchSize` and the crypto
      list: parameter objects that agree on those get the same verdict. In particular the
      N-BEATS and DeepAR settings are never checked. */
  lemma ViolationsReadOnly(p: Record, q: Record)
    requires WellFormed(p) && WellFormed(q)
    requires Get(p, TrainSplit) == Get(q, TrainSplit) && Get(p, ValidationSplit) == Get(q, ValidationSplit)
    requires Get(p, TestSplit) == Get(q, TestSplit)
    requires TftField(p, Epochs) == TftField(q, Epochs) && TftField(p, BatchSize) == TftField(q, BatchSize)
    requires Cryptos(p) == Cryptos(q)
    ensures Violations(p) == Violations(q)
  {
    assert forall v :: Breaks(p, v) == Breaks(q, v);
  }

  /** The default parameters break no rule. */
  lemma DefaultsValid()
    ensures WellFormed(Defaults())
    ensures Violations(Defaults()) == []
  {
    DefaultRatios();
    DefaultsRead();
    DefaultsWellFormed();
    var d := Defaults();
    assert !Breaks(d, SplitSum) && !Breaks(d, EpochsRange) && !Breaks(d, BatchRange) && !Breaks(d, NoCrypto);
    BrokenAmongNone(d, AllRules);
  }

  lemma {:induction false} BrokenAmongNone(p: Record, rules: seq<Violation>)
    requires WellFormed(p)
    requires forall v :: !Breaks(p, v)
    ensures BrokenAmong(p, rules) == []
    decreases |rules|
  {
    if rules != [] {
      BrokenAmongNone(p, rules[1..]);
    }
  }

  /** The default values the validator reads. */
  lemma DefaultRatios()
    ensures Get(Defaults(), TrainSplit) == Some(Num(0.8)) && Get(Defaults(), ValidationSplit) == Some(Num(0.1))
    ensures Get(Defaults(), TestSplit) == Some(Num(0.1))
  {
  }

  lemma DefaultsRead()
    ensures TftField(Defaults(), Epochs) == Some(Num(10.0)) && TftField(Defaults(), BatchSize) == Some(Num(64.0))
    ensures Cryptocurrencies in Defaults() && Defaults()[Cryptocurrencies].StrList?
    ensures |Defaults()[Cryptocurrencies].items| == 3
  {
  }

  /** An emptied number field (NaN) passes its rule: every comparison with NaN is false. */
  lemma NaNPasses(p: Record)
    requires WellFormed(p)
    requires TftField(p, Epochs) == Some(NaN) && TftField(p, BatchSize) == Some(NaN)
    requires Get(p, TrainSplit) == Some(NaN)
    ensures EpochsRange !in Violations(p) && BatchRange !in Violations(p) && SplitSum !in Violations(p)
  {
    ViolationsIff(p);
  }

  /** `validateParameters`: push the message of each broken rule, in order. */
  method ValidateParameters(p: Record) returns (errors: seq<string>)
    requires WellFormed(p)
    ensures errors == Messages(Violations(p))
  {
    errors := [];
    var i := 0;
    while i < |AllRules|
      invariant 0 <= i <= |AllRules|
      invariant errors == Messages(BrokenAmong(p, AllRules[..i]))
    {
      BrokenAmongAppend(p, AllRules[..i], AllRules[i]);
      assert AllRules[..i + 1] == AllRules[..i] + [AllRules[i]];
      if Breaks(p, AllRules[i]) {
        MessagesAppend(BrokenAmong(p, AllRules[..i]), AllRules[i]);
        errors := errors + [Message(AllRules[i])];
      } else {
        assert BrokenAmong(p, AllRules[..i] + [AllRules[i]]) == BrokenAmong(p, AllRules[..i]);
      }
      i := i + 1;
    }
    assert AllRules[..|AllRules|] == AllRules;
  }

  lemma {:induction false} BrokenAmongAppend(p: Record, rules: seq<Violation>, v: Violation)
    requires WellFormed(p)
    ensures BrokenAmong(p, rules + [v]) == BrokenAmong(p, rules) + (if Breaks(p, v) then [v] else [])
    decreases |rules|
  {
    if rules == [] {
      assert [v][1..] == [];
    } else {
      var head := if Breaks(p, rules[0]) then [rules[0]] else [];
      var last := if Breaks(p, v) then [v] else [];
      assert (rules + [v])[0] == rules[0];
      assert (rules + [v])[1..] == rules[1..] + [v];
      BrokenAmongAppend(p, rules[1..], v);
      calc {
        BrokenAmong(p, rules + [v]);
        head + BrokenAmong(p, rules[1..] + [v]);
        head + (BrokenAmong(p, rules[1..]) + last);
        (head + BrokenAmong(p, rules[1..])) + last;
        BrokenAmong(p, rules) + last;
      }
    }
  }

  lemma MessagesAppend(vs: seq<Violation>, v: Violation)
    ensures Messages(vs + [v]) == Messages(vs) + [Message(v)]
  {
  }

  /** What pressing the start button does: hand the parameters to the wizard, or raise an
      alert listing the problems. */
  datatype Outcome = StartWith(params: Record) | Alert(text: string)

  const AlertHeading: string := "Please fix parameter errors:"

  /** `handleStartAnalysis` of the form. */
  function Submit(p: Record): Outcome
    requires WellFormed(p)
  {
    var errors := Messages(Violations(p));
    if |errors| == 0 then StartWith(p) else Alert(AlertHeading + "\n" + Join(errors, "\n"))
  }

  /** The wizard is started, with these very parameters, exactly when no rule is broken. */
  lemma SubmitStartsIffValid(p: Record)
    requires WellFormed(p)
    ensures Submit(p).StartWith? <==> Violations(p) == []
    ensures Submit(p).StartWith? ==> Submit(p).params == p
  {
  }

  lemma MessageHasNoNewline(v: Violation)
    ensures '\n' !in Message(v)
  {
    match v
    case SplitSum => SplitSumHasNoNewline();
    case EpochsRange => EpochsRangeHasNoNewline();
    case BatchRange => BatchRangeHasNoNewline();
    case NoCrypto => NoCryptoHasNoNewline();
  }

  lemma SplitSumHasNoNewline()
    ensures '\n' !in "Data split ratios must sum to 1.0"
  {
  }

  lemma EpochsRangeHasNoNewline()
    ensures '\n' !in "TFT epochs must be between 1 and 100"
  {
  }

  lemma BatchRangeHasNoNewline()
    ensures '\n' !in "Batch size must be between 16 and 512"
  {
  }

  lemma NoCryptoHasNoNewline()
    ensures '\n' !in "At least one cryptocurrency must be selected"
  {
  }

  /** The alert is the heading line followed by one line per broken rule, in order. */
  lemma AlertLines(p: Record)
    requires WellFormed(p)
    requires Violations(p) != []
    ensures Submit(p).Alert?
    ensures Split(Submit(p).text, '\n') == [AlertHeading] + Messages(Violations(p))
  {
    var errors := Messages(Violations(p));
    var lines := [AlertHeading] + errors;
    assert '\n' !in AlertHeading;
    forall i | 0 <= i < |lines| ensures '\n' !in lines[i] {
      if i > 0 {
        MessageHasNoNewline(Violations(p)[i - 1]);
      }
    }
    assert lines[1..] == errors;
    assert Join(lines, "\n") == AlertHeading + "\n" + Join(errors, "\n");
    SplitJoin(lines, '\n');
  }

  /** The start button is disabled while an analysis runs or while some rule is broken. */
  predicate StartDisabled(running: bool, p: Record)
    requires WellFormed(p)
  {
    running || |Messages(Violations(p))| > 0
  }

  /** An enabled start button always starts the wizard. */
  lemma EnabledButtonStarts(running: bool, p: Record)
    requires WellFormed(p)
    ensures !StartDisabled(running, p) <==> !running && Submit(p).StartWith?
  {
  }

  /** Where `handleParameterChange` writes: the top level ('root') or a model's section. */
  datatype Section = Root | In(model: Forecaster)

  /** `{ ...prev[section] }`: the section's fields, or none when it is not an object. */
  function SectionFields(p: Record, m: Forecaster): map<Key, Value>
  {
    if SectionKey(m) in p && p[SectionKey(m)].Obj? then p[SectionKey(m)].fields else map[]
  }

  /** `handleParameterChange(section, key, value)`. */
  function ChangeParameter(p: Record, section: Section, k: Key, v: Value): Record
  {
    match section
    case Root => p[k := v]
    case In(m) => p[SectionKey(m) := Obj(SectionFields(p, m)[k := v])]
  }

  /** A top-level change sets that key and nothing else. */
  lemma ChangeRoot(p: Record, k: Key, v: Value)
    ensures Get(ChangeParameter(p, Root, k, v), k) == Some(v)
    ensures forall j :: j != k ==> Get(ChangeParameter(p, Root, k, v), j) == Get(p, j)
  {
  }

  /** A section change sets that key inside that section; every other key of the section and
      every other top-level key keep their values. */
  lemma ChangeInSection(p: Record, m: Forecaster, k: Key, v: Value)
    requires WellFormed(p)
    ensures var q := ChangeParameter(p, In(m), k, v);
      && Field(Get(q, SectionKey(m)), k) == Some(v)
      && (forall j :: j != k ==> Field(Get(q, SectionKey(m)), j) == Field(Get(p, SectionKey(m)), j))
      && (forall j :: j != SectionKey(m) ==> Get(q, j) == Get(p, j))
  {
    assert p[SectionKey(m)].Obj?;
  }

  /** The changes the form makes keep the parameter object well formed. */
  lemma ChangeKeepsWellFormed(p: Record, section: Section, k: Key, v: Value)
    requires WellFormed(p)
    requires section.Root? ==> RootKey(k) && Fits(k, v)
    requires section.In? ==> !RootKey(k) && FitsFlat(k, v)
    ensures WellFormed(ChangeParameter(p, section, k, v))
  {
    if section.In? {
      var m := section.model;
      assert Fits(SectionKey(m), p[SectionKey(m)]);
      var f := SectionFields(p, m)[k := v];
      assert FitsSection(Obj(f));
    }
  }

  /** `list.filter(c => c !== x)`. */
  function Without(list: seq<string>, x: string): seq<string>
    decreases |list|
  {
    if list == [] then [] else (if list[0] == x then [] else [list[0]]) + Without(list[1..], x)
  }

  /** The checkbox handler: a checked box appends the crypto, an unchecked one filters it out. */
  function Toggle(list: seq<string>, crypto: string, checked: bool): seq<string>
  {
    if checked then list + [crypto] else Without(list, crypto)
  }

  lemma {:induction false} WithoutCounts(list: seq<string>, x: string)
    ensures multiset(Without(list, x))[x] == 0
    ensures forall y :: y != x ==> multiset(Without(list, x))[y] == multiset(list)[y]
    decreases |list|
  {
    if list != [] {
      WithoutCounts(list[1..], x);
      assert list == [list[0]] + list[1..];
    }
  }

  lemma {:induction false} WithoutOrder(list: seq<string>, x: string, i: nat, j: nat)
    requires i < j < |Without(list, x)|
    ensures exists a, b :: 0 <= a < b < |list| && list[a] == Without(list, x)[i] && list[b] == Without(list, x)[j]
    decreases |list|
  {
    var rest := Without(list[1..], x);
    if list[0] == x {
      assert Without(list, x) == rest;
      WithoutOrder(list[1..], x, i, j);
      var a, b :| 0 <= a < b < |list[1..]| && list[1..][a] == rest[i] && list[1..][b] == rest[j];
      assert list[a + 1] == rest[i] && list[b + 1] == rest[j];
    } else if i == 0 {
      assert Without(list, x) == [list[0]] + rest;
      WithoutIn(list[1..], x, j - 1);
      var b :| 0 <= b < |list[1..]| && list[1..][b] == rest[j - 1];
      assert list[b + 1] == Without(list, x)[j];
    } else {
      assert Without(list, x) == [list[0]] + rest;
      WithoutOrder(list[1..], x, i - 1, j - 1);
      var a, b :| 0 <= a < b < |list[1..]| && list[1..][a] == rest[i - 1] && list[1..][b] == rest[j - 1];
      assert list[a + 1] == Without(list, x)[i] && list[b + 1] == Without(list, x)[j];
    }
  }

  lemma WithoutIn(list: seq<string>, x: string, i: nat)
    requires i < |Without(list, x)|
    ensures exists b :: 0 <= b < |list| && list[b] == Without(list, x)[i]
  {
    WithoutCounts(list, x);
    var y := Without(list, x)[i];
    assert y in multiset(Without(list, x));
    assert y != x;
    assert y in multiset(list);
  }

  /** Entries `i` and `j` of `sub` appear in `list` in the same order. */
  predicate InOrder(sub: seq<string>, list: seq<string>, i: nat, j: nat)
    requires i < j < |sub|
  {
    exists a, b :: 0 <= a < b < |list| && list[a] == sub[i] && list[b] == sub[j]
  }

  /** Unchecking removes every occurrence of the crypto and keeps every other entry, as many
      times as before and in the same order; checking appends it at the end. */
  lemma ToggleEffect(list: seq<string>, crypto: string)
    ensures Toggle(list, crypto, true) == list + [crypto]
    ensures crypto !in Toggle(list, crypto, false)
    ensures forall y :: y != crypto ==> multiset(Toggle(list, crypto, false))[y] == multiset(list)[y]
    ensures forall i, j :: 0 <= i < j < |Toggle(list, crypto, false)| ==> InOrder(Toggle(list, crypto, false), list, i, j)
  {
    WithoutCounts(list, crypto);
    assert crypto !in multiset(Without(list, crypto));
    forall i, j | 0 <= i < j < |Toggle(list, crypto, false)|
      ensures InOrder(Toggle(list, crypto, false), list, i, j)
    {
      WithoutOrder(list, crypto, i, j);
      var a, b :| 0 <= a < b < |list| && list[a] == Without(list, crypto)[i] && list[b] == Without(list, crypto)[j];
      assert list[a] == Toggle(list, crypto, false)[i] && list[b] == Toggle(list, crypto, false)[j];
    }
  }

  lemma {:induction false} WithoutAppend(a: seq<string>, b: seq<string>, x: string)
    ensures Without(a + b, x) == Without(a, x) + Without(b, x)
    decreases |a|
  {
    if a == [] {
      assert a + b == b;
    } else {
      var ab := a + b;
      assert ab[0] == a[0] && ab[1..] == a[1..] + b;
      WithoutAppend(a[1..], b, x);
      calc {
        Without(ab, x);
        (if a[0] == x then [] else [a[0]]) + Without(a[1..] + b, x);
        (if a[0] == x then [] else [a[0]]) + (Without(a[1..], x) + Without(b, x));
        Without(a, x) + Without(b, x);
      }
    }
  }

  lemma WithoutSingle(y: string, x: string)
    ensures Without([y], x) == if y == x then [] else [y]
  {
    assert [y][1..] == [];
  }

  /** Unchecking filters entry by entry: over a concatenation it is the concatenation of the
      filtered parts, and a single entry is dropped iff it is the crypto. These two facts fix
      the resulting list exactly, duplicates included. */
  lemma UncheckFilters(a: seq<string>, b: seq<string>, crypto: string)
    ensures Toggle(a + b, crypto, false) == Toggle(a, crypto, false) + Toggle(b, crypto, false)
    ensures forall y :: Toggle([y], crypto, false) == if y == crypto then [] else [y]
  {
    WithoutAppend(a, b, crypto);
    forall y ensures Toggle([y], crypto, false) == if y == crypto then [] else [y] {
      WithoutSingle(y, crypto);
    }
  }

  /** The checkbox as the form wires it: toggle the list, then write it back at the top level. */
  function CryptoChanged(p: Record, crypto: string, checked: bool): Record
    requires WellFormed(p)
  {
    ChangeParameter(p, Root, Cryptocurrencies, StrList(Toggle(Cryptos(p), crypto, checked)))
  }

  /** Unchecking the last selected cryptocurrency makes the crypto rule fire, and the start
      button goes grey. */
  lemma UncheckLastCrypto(p: Record, crypto: string)
    requires WellFormed(p)
    requires Cryptos(p) == [crypto]
    ensures WellFormed(CryptoChanged(p, crypto, false))
    ensures NoCrypto in Violations(CryptoChanged(p, crypto, false))
    ensures StartDisabled(false, CryptoChanged(p, crypto, false))
  {
    assert Without([crypto], crypto) == [];
    var q := CryptoChanged(p, crypto, false);
    ChangeKeepsWellFormed(p, Root, Cryptocurrencies, StrList([]));
    ViolationsIff(q);
  }
}
