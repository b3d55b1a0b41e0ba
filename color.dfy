/**
 The entry point `color(descriptor)` of the colour library: a single pass that decides
 which constructor or parser a descriptor is handed to. Object descriptors are
 classified by which properties they define, strings by their normalised text; anything
 else, and anything unrecognised, yields no colour. The constructors, extractors and the
 named-colour table themselves are not modelled: a `Route` records which of them the
 dispatcher calls and with which arguments.
 */
module Color {
  import opened JsString

  datatype Option<T> = None | Some(value: T)

  /** What `typeof` reports for a descriptor that is neither an object nor a string. */
  datatype Primitive = Undefined | Boolean | Number | BigInt | Symbol | Function

  /** The fourteen properties the dispatcher reads on an object descriptor: `red`,
      `green`, `blue`, `hue`, `saturation`, `lightness`, `whiteness`, `blackness`, `x`,
      `y`, `z`, `a`, `b` and `chroma`. No other property influences the route. */
  datatype Field =
    | Red | Green | Blue | Hue | Saturation | Lightness | Whiteness | Blackness
    | X | Y | Z | A | B | Chroma

  /** A descriptor as the dispatcher sees it. An object is known by which of the
      fourteen properties hold a defined value (neither `undefined` nor `null`). */
  datatype Descriptor =
    | Obj(defined: set<Field>)
    | Str(text: string)
    | Other(kind: Primitive)

  /** The colour models of the library: three sRGB notations, XYZ, Lab and LCH. */
  datatype Model = Rgb | Hsl | Hwb | Xyz | Lab | Lch

  /** The two hex patterns: four or eight digit groups, or the shorthand groups. */
  datatype HexPattern = HexLong | HexShort

  /** The two functional-notation extractors: `name(a, b, c)` and `name(a b c)`. */
  datatype Extractor = CommaGroups | WhitespaceGroups

  /** Where a descriptor is sent. */
  datatype Route =
      /** the object is passed to the constructor of `model` */
    | FromObject(model: Model)
      /** `keyword` is looked up in the named-colour table and an sRGB colour built */
    | FromNamed(keyword: string)
      /** `input`'s groups under `pattern` become octets and an sRGB colour */
    | FromHex(pattern: HexPattern, input: string)
      /** `extractor` is called with `name` and `input`; the array goes to `model` */
    | FromFunction(model: Model, extractor: Extractor, name: string, input: string)
      /** `undefined` */
    | NoResult

  /** The properties an object must define to be read as `m`. */
  function RequiredFields(m: Model): set<Field> {
    match m
    case Rgb => {Red, Green, Blue}
    case Hsl => {Hue, Saturation, Lightness}
    case Hwb => {Hue, Whiteness, Blackness}
    case Xyz => {X, Y, Z}
    case Lab => {Lightness, A, B}
    case Lch => {Lightness, Chroma, Hue}
  }

  /** The helper `defined(...)`: every one of `names` holds a value in the object. */
  predicate Defined(props: set<Field>, names: set<Field>) {
    names <= props
  }

  /** The order in which object shapes are tried. */
  const ObjectPriority: seq<Model> := [Rgb, Hsl, Hwb, Xyz, Lab, Lch]

  /** The functional prefixes a normalised string is tested against, in order, with the
      model whose array constructor receives the extracted components. */
  const FunctionPrefixes: seq<(string, Model)> :=
    [("rgb", Rgb), ("hsl", Hsl), ("hwb", Hwb), ("lab", Lab), ("lch", Lch)]

  /** The object half of the dispatcher: the first field triple the object defines. */
  function ObjectModel(props: set<Field>): (r: Option<Model>)
    ensures r.Some? ==> Defined(props, RequiredFields(r.value))
    ensures r.None? <==> forall m: Model :: !Defined(props, RequiredFields(m))
  {
    if Defined(props, RequiredFields(Rgb)) then Some(Rgb)
    else if Defined(props, RequiredFields(Hsl)) then Some(Hsl)
    else if Defined(props, RequiredFields(Hwb)) then Some(Hwb)
    else if Defined(props, RequiredFields(Xyz)) then Some(Xyz)
    else if Defined(props, RequiredFields(Lab)) then Some(Lab)
    else if Defined(props, RequiredFields(Lch)) then Some(Lch)
    else None
  }

  /** The text every string descriptor is reduced to before it is classified: no
      whitespace at either end, no upper-case letter, empty exactly for a blank string. */
  function Normalize(s: string): (n: string)
    ensures Trimmed(n) && |n| <= |s|
    ensures forall i :: 0 <= i < |n| ==> !IsUpper(n[i])
    ensures n == [] <==> AllWhitespace(s)
  {
    LowerPreservesTrimmed(Trim(s));
    ToLower(Trim(s))
  }

  /** The extractor chosen for a functional string: the comma form for `rgb` and `hsl`
      strings that contain a comma, the whitespace form otherwise. */
  function ExtractorFor(m: Model, n: string): Extractor {
    if (m == Rgb || m == Hsl) && ',' in n then CommaGroups else WhitespaceGroups
  }

  /** The string half of the dispatcher, on the normalised text `n`. */
  function StringRoute(n: string, named: set<string>): (r: Route)
    ensures !r.FromObject?
    ensures r.FromNamed? ==> r.keyword == n && n in named
    ensures r.FromHex? ==> r.input == n && "#" <= n && n !in named
    ensures r.FromFunction? ==> r.input == n && r.name <= n && r.model != Xyz
    ensures r.FromFunction? ==> (r.name, r.model) in FunctionPrefixes && r.extractor == ExtractorFor(r.model, n)
  {
    if n in named then FromNamed(n)
    else if "#" <= n then FromHex(if Utf16Length(n) > 5 then HexLong else HexShort, n)
    else if "rgb" <= n then FromFunction(Rgb, ExtractorFor(Rgb, n), "rgb", n)
    else if "hsl" <= n then FromFunction(Hsl, ExtractorFor(Hsl, n), "hsl", n)
    else if "hwb" <= n then FromFunction(Hwb, ExtractorFor(Hwb, n), "hwb", n)
    else if "lab" <= n then FromFunction(Lab, ExtractorFor(Lab, n), "lab", n)
    else if "lch" <= n then FromFunction(Lch, ExtractorFor(Lch, n), "lch", n)
    else NoResult
  }

  /** `color(descriptor)`, given the set of keywords of the named-colour table. */
  function Dispatch(d: Descriptor, named: set<string>): (r: Route)
    ensures d.Obj? ==> r.FromObject? || r == NoResult
    ensures d.Str? ==> !r.FromObject?
    ensures d.Other? ==> r == NoResult
  {
    match d
    case Obj(props) =>
      (match ObjectModel(props)
       case Some(m) => FromObject(m)
       case None => NoResult)
    case Str(s) => StringRoute(Normalize(s), named)
    case Other(_) => NoResult
  }

  // ---------------------------------------------------------------------------
  // Object descriptors

  /** The first model of `order` that passes `matches`: the reference reading of "tested
      in a fixed priority order, first match wins". */
  function FirstMatch(order: seq<Model>, matches: Model -> bool): (r: Option<Model>)
    ensures r.Some? ==> r.value in order && matches(r.value)
    ensures r.None? <==> forall j :: 0 <= j < |order| ==> !matches(order[j])
  {
    if order == [] then None
    else if matches(order[0]) then Some(order[0])
    else FirstMatch(order[1..], matches)
  }

  predicate Distinct(order: seq<Model>) {
    forall j, k :: 0 <= j < k < |order| ==> order[j] != order[k]
  }

  /** In a list without repeats, `order[i]` is the first match exactly when it passes the
      test and no earlier entry does. */
  lemma {:induction false} FirstMatchAt(order: seq<Model>, matches: Model -> bool, i: nat)
    requires Distinct(order) && i < |order|
    ensures FirstMatch(order, matches) == Some(order[i]) <==>
            matches(order[i]) && forall j :: 0 <= j < i ==> !matches(order[j])
  {
    DistinctTail(order);
    var tail := order[1..];
    if i == 0 {
      assert order[0] !in tail;
    } else if matches(order[0]) {
      assert order[0] != order[i];
    } else {
      FirstMatchAt(tail, matches, i - 1);
      assert tail[i - 1] == order[i];
      assert forall j :: 0 < j < i ==> tail[j - 1] == order[j];
    }
  }

  lemma DistinctTail(order: seq<Model>)
    requires Distinct(order) && order != []
    ensures Distinct(order[1..]) && order[0] !in order[1..]
  {
    var tail := order[1..];
    forall j, k | 0 <= j < k < |tail|
      ensures tail[j] != tail[k]
    {
      assert tail[j] == order[j + 1] && tail[k] == order[k + 1];
    }
    forall j | 0 <= j < |tail|
      ensures tail[j] != order[0]
    {
      assert tail[j] == order[j + 1];
    }
  }

  /** The field test of the object branch, as a function of the model. */
  function DefinesFields(props: set<Field>): Model -> bool {
    m => Defined(props, RequiredFields(m))
  }

  /** The if-chain of the dispatcher is the first-match rule over `ObjectPriority`. */
  lemma ObjectModelIsFirstMatch(props: set<Field>)
    ensures ObjectModel(props) == FirstMatch(ObjectPriority, DefinesFields(props))
  {
  }

  /** An object goes to the `i`-th model of the priority order exactly when it defines
      that model's fields and none of an earlier model's. */
  lemma DispatchObjectPriority(props: set<Field>, named: set<string>, i: nat)
    requires i < |ObjectPriority|
    ensures Dispatch(Obj(props), named) == FromObject(ObjectPriority[i]) <==>
            Defined(props, RequiredFields(ObjectPriority[i]))
            && forall j :: 0 <= j < i ==> !Defined(props, RequiredFields(ObjectPriority[j]))
  {
    ObjectModelIsFirstMatch(props);
    ObjectPriorityDistinct();
    FirstMatchAt(ObjectPriority, DefinesFields(props), i);
    assert Dispatch(Obj(props), named) == FromObject(ObjectPriority[i]) <==>
           ObjectModel(props) == Some(ObjectPriority[i]);
  }

  lemma ObjectPriorityDistinct()
    ensures Distinct(ObjectPriority)
  {
  }

  /** An object that defines red, green and blue is an RGB colour, whatever else it has. */
  lemma RgbWins(props: set<Field>, named: set<string>)
    requires {Red, Green, Blue} <= props
    ensures Dispatch(Obj(props), named) == FromObject(Rgb)
  {
  }

  /** An ambiguous object resolves to the earliest model: hue, saturation and lightness
      beside a and b make an HSL colour, not a Lab one. */
  lemma HslBeforeLab(named: set<string>)
    ensures Dispatch(Obj({Hue, Saturation, Lightness, A, B}), named) == FromObject(Hsl)
  {
  }

  /** An object that defines none of the six field triples yields no colour. */
  lemma DispatchObjectUnmatched(props: set<Field>, named: set<string>)
    ensures Dispatch(Obj(props), named) == NoResult <==>
            forall m: Model :: !Defined(props, RequiredFields(m))
  {
  }

  /** A number, boolean, `undefined`, symbol, big integer or function yields no colour,
      whatever properties it carries. */
  lemma DispatchOther(k: Primitive, named: set<string>)
    ensures Dispatch(Other(k), named) == NoResult
  {
  }

  // ---------------------------------------------------------------------------
  // String descriptors

  /** Normalising twice is normalising once. */
  lemma NormalizeIdempotent(s: string)
    ensures Normalize(Normalize(s)) == Normalize(s)
  {
  }

  /** A string routes exactly as its normalised form does. */
  lemma DispatchNormalized(s: string, named: set<string>)
    ensures Dispatch(Str(s), named) == Dispatch(Str(Normalize(s)), named)
  {
    NormalizeIdempotent(s);
  }

  /** Whitespace around a string never changes its route. */
  lemma DispatchIgnoresPadding(p: string, s: string, q: string, named: set<string>)
    requires AllWhitespace(p) && AllWhitespace(q)
    ensures Dispatch(Str(p + s + q), named) == Dispatch(Str(s), named)
  {
    TrimIgnoresPadding(p, s, q);
    assert Normalize(p + s + q) == Normalize(s);
  }

  /** Two strings equal up to letter case route alike. */
  lemma DispatchIgnoresCase(s: string, t: string, named: set<string>)
    requires ToLower(s) == ToLower(t)
    ensures Dispatch(Str(s), named) == Dispatch(Str(t), named)
  {
    TrimToLowerCommute(s);
    TrimToLowerCommute(t);
  }

  /** A normalised string in the named-colour table is looked up there, before any hex
      or functional test. */
  lemma NamedFirst(s: string, named: set<string>)
    requires Normalize(s) in named
    ensures Dispatch(Str(s), named) == FromNamed(Normalize(s))
  {
  }

  /** A `#` string picks the long hex pattern exactly when it is more than five UTF-16
      code units long. */
  lemma HexPatternByLength(s: string, named: set<string>)
    requires Normalize(s) !in named && "#" <= Normalize(s)
    ensures Dispatch(Str(s), named).FromHex?
    ensures Dispatch(Str(s), named).input == Normalize(s)
    ensures Dispatch(Str(s), named).pattern == HexLong <==> Utf16Length(Normalize(s)) > 5
  {
  }

  /** For text within the Basic Multilingual Plane the hex test is on the number of
      characters. */
  lemma HexLengthIsCharCount(n: string)
    requires forall i :: 0 <= i < |n| ==> n[i] as int <= 0xFFFF
    ensures Utf16Length(n) > 5 <==> |n| > 5
  {
  }

  /** The five functional prefixes and `#` are pairwise incompatible: no string starts
      with two of them, so their order of testing never matters. */
  lemma PrefixesExclusive(n: string, i: nat, j: nat)
    requires i < j < |FunctionPrefixes|
    ensures FunctionPrefixes[i].0 <= n ==> !(FunctionPrefixes[j].0 <= n)
    ensures "#" <= n ==> !(FunctionPrefixes[i].0 <= n)
  {
    var P, Q := FunctionPrefixes[i].0, FunctionPrefixes[j].0;
    assert |P| == 3 && |Q| == 3 && P != Q && P[0] != '#';
    if P <= n {
      assert P == n[..3];
    }
    if "#" <= n {
      assert n[0] == '#';
    }
  }

  /** A string that is neither named nor hex and starts with a functional prefix goes to
      that prefix's array constructor, through the extractor called with that very prefix:
      the comma extractor for `rgb` and `hsl` when a comma is present, the whitespace
      extractor otherwise. */
  lemma FunctionalRoute(s: string, named: set<string>, i: nat)
    requires i < |FunctionPrefixes|
    requires Normalize(s) !in named && !("#" <= Normalize(s))
    requires FunctionPrefixes[i].0 <= Normalize(s)
    ensures Dispatch(Str(s), named) ==
            FromFunction(FunctionPrefixes[i].1, ExtractorFor(FunctionPrefixes[i].1, Normalize(s)),
                         FunctionPrefixes[i].0, Normalize(s))
  {
    FunctionalStringRoute(Normalize(s), named, i);
  }

  lemma FunctionalStringRoute(n: string, named: set<string>, i: nat)
    requires i < |FunctionPrefixes|
    requires n !in named && !("#" <= n)
    requires FunctionPrefixes[i].0 <= n
    ensures StringRoute(n, named) ==
            FromFunction(FunctionPrefixes[i].1, ExtractorFor(FunctionPrefixes[i].1, n),
                         FunctionPrefixes[i].0, n)
  {
    forall j | 0 <= j < i
      ensures !(FunctionPrefixes[j].0 <= n)
    {
      PrefixesExclusive(n, j, i);
    }
  }

  /** Conversely, every functional route is one of the five prefixes of the actual text,
      with its own model and extractor rule. */
  lemma FunctionalRouteShape(s: string, named: set<string>)
    requires Dispatch(Str(s), named).FromFunction?
    ensures var r := Dispatch(Str(s), named);
            && r.input == Normalize(s)
            && (r.name, r.model) in FunctionPrefixes
            && r.name <= r.input
            && (r.extractor == CommaGroups <==> (r.model == Rgb || r.model == Hsl) && ',' in r.input)
  {
    var n := Normalize(s);
    assert Dispatch(Str(s), named) == StringRoute(n, named);
    assert StringRoute(n, named).FromFunction?;
  }

  /** A string yields no colour exactly when its normalised form is not a keyword of the
      table and starts with neither `#` nor a functional prefix. */
  lemma DispatchStringUnmatched(s: string, named: set<string>)
    ensures Dispatch(Str(s), named) == NoResult <==>
            && Normalize(s) !in named
            && !("#" <= Normalize(s))
            && forall i :: 0 <= i < |FunctionPrefixes| ==> !(FunctionPrefixes[i].0 <= Normalize(s))
  {
    StringUnmatched(Normalize(s), named);
  }

  lemma StringUnmatched(n: string, named: set<string>)
    ensures StringRoute(n, named) == NoResult <==>
            n !in named && !("#" <= n) && forall i :: 0 <= i < |FunctionPrefixes| ==> !(FunctionPrefixes[i].0 <= n)
  {
    var P := FunctionPrefixes;
    assert P[0].0 == "rgb" && P[1].0 == "hsl" && P[2].0 == "hwb" && P[3].0 == "lab" && P[4].0 == "lch";
  }

  /** Only an object can become an XYZ colour: no string is routed to it. */
  lemma NoStringIsXyz(s: string, named: set<string>)
    ensures Dispatch(Str(s), named) != FromObject(Xyz)
    ensures Dispatch(Str(s), named).FromFunction? ==> Dispatch(Str(s), named).model != Xyz
  {
  }
}
