# Colour descriptor dispatch

This project models `color(descriptor)`, the entry point of a small JavaScript colour
library. The function does one pass over an arbitrary descriptor and decides which
constructor or parser receives it:

- An **object** is tested for six property triples in a fixed order: `red, green, blue`
  (sRGB), `hue, saturation, lightness` (HSL), `hue, whiteness, blackness` (HWB),
  `x, y, z` (XYZ), `lightness, a, b` (Lab) and `lightness, chroma, hue` (LCH). The
  first triple whose properties are all defined wins.
- A **string** is trimmed and lower-cased. It is then routed, in this order, to the
  named-colour table, to hex parsing (when it starts with `#`), or to a functional
  notation extractor (when it starts with `rgb`, `hsl`, `hwb`, `lab` or `lch`).
  The extractor is the comma form for `rgb` and `hsl` strings that contain a comma,
  and the whitespace form otherwise.
- Anything else, and every unrecognised object or string, yields `undefined`.

The model has two modules.

- `JsString` (`js_string.dfy`) gives the JavaScript string built-ins the dispatcher
  uses. `Trim` is `String.prototype.trim` over the ECMA-262 whitespace and line
  terminator set. `ToLower` is the part of `String.prototype.toLowerCase` described
  under "Left out". `Utf16Length` is the `length` property, which counts UTF-16 code
  units.
- `Color` (`color.dfy`) has the descriptor (`Descriptor`), the decision (`Route`) and
  the dispatcher (`Dispatch`), with one lemma per routing rule.

A `Route` records what the dispatcher hands on and to whom:

- `FromObject(model)`: the object goes to that model's constructor.
- `FromNamed(keyword)`: the keyword is looked up in the named-colour table.
- `FromHex(pattern, input)`: the long or short hex pattern is used.
- `FromFunction(model, extractor, name, input)`: the extractor is called with the
  prefix `name`, and the array goes to the model's array constructor.
- `NoResult`: the function returns `undefined`.

An object descriptor is represented by which of the fourteen properties the
dispatcher reads hold a defined value (`Field`). The helper `defined(...)` is
abstracted as the subset test `Defined`. The named-colour table enters as the
parameter `named`, the set of its keywords.

Routing facts that follow from the code as written:

- A function value carrying `red`, `green` and `blue` properties yields no colour,
  because the object branch tests `typeof descriptor === 'object'` (`DispatchOther`).
- `rgba(...)` and `hsla(...)` strings reach the `rgb` and `hsl` extractors, called with
  the names `rgb` and `hsl`.
- The hex length test counts UTF-16 code units, so a character outside the Basic
  Multilingual Plane counts twice.
- No string is ever routed to XYZ (`NoStringIsXyz`).

## Model

| member | source | states |
|---|---|---|
| `JsString.IsWhitespace` | src/color.js:47 | helper: the ECMA-262 WhiteSpace and LineTerminator code points, the set `trim` removes |
| `JsString.Trim` | src/color.js:47 | the result has no whitespace at either end, is no longer than the input, and is empty exactly when the input is all whitespace |
| `JsString.TrimSplit` | src/color.js:47 | every string is some whitespace, then its trimmed form, then some whitespace |
| `JsString.TrimPadded` | src/color.js:47 | trimming a trimmed string surrounded by any whitespace gives back exactly that string, so `Trim` is the unique such infix |
| `JsString.TrimIgnoresPadding` | src/color.js:47 | adding whitespace at either end never changes what `trim` returns |
| `JsString.TrimIdempotent` | src/color.js:47 | trimming twice is trimming once |
| `JsString.LowerChar` | src/color.js:47 | the result is never upper case; a non-upper-case character is unchanged; an upper-case letter becomes a Basic Latin or Latin-1 lower-case letter; whitespace stays whitespace and nothing else becomes whitespace |
| `JsString.ToLower` | src/color.js:47 | same length as the input, and each character is lower-cased in place |
| `JsString.ToLowerIdempotent` | src/color.js:47 | lower-casing an already lower-cased string changes nothing |
| `JsString.TrimToLowerCommute` | src/color.js:47 | trimming then lower-casing equals lower-casing then trimming |
| `JsString.Utf16Length` | src/color.js:62 | the JavaScript length is between the character count and twice it, and equals the character count exactly when no character lies outside the Basic Multilingual Plane |
| `Color.RequiredFields` | src/color.js:21-41 | helper: the three properties each `defined(...)` test reads, one triple per model |
| `Color.Defined` | src/color.js:21-41 | helper: `defined(...)` as "every listed property holds a value" |
| `Color.ObjectModel` | src/color.js:20-43 | a selected model's three properties are all defined; nothing is selected exactly when the object defines none of the six triples |
| `Color.FirstMatchAt` | src/color.js:20-43 | in a priority list without repeats, entry `i` is the first match exactly when it passes the test and no earlier entry does |
| `Color.ObjectModelIsFirstMatch` | src/color.js:21-43 | the if-chain equals the first-match rule over the order rgb, hsl, hwb, xyz, lab, lch |
| `Color.DispatchObjectPriority` | src/color.js:19-43 | an object goes to the `i`-th model of that order exactly when it defines that model's triple and no earlier model's triple |
| `Color.RgbWins` | src/color.js:21-23 | an object defining `red`, `green` and `blue` is routed to sRGB whatever else it defines |
| `Color.HslBeforeLab` | src/color.js:25-39 | an object with `hue`, `saturation`, `lightness`, `a` and `b` is routed to HSL, not Lab |
| `Color.DispatchObjectUnmatched` | src/color.js:20-89 | an object yields no colour exactly when it defines none of the six triples |
| `Color.DispatchOther` | src/color.js:20-89 | a number, boolean, `undefined`, symbol, big integer or function yields no colour |
| `Color.Normalize` | src/color.js:47 | the normalised text has no whitespace at either end, has no upper-case letter, is no longer than the input, and is empty exactly for a blank string |
| `Color.ExtractorFor` | src/color.js:68-85 | helper: the extractor choice of lines 69, 73 and 77-85; the comma rule is proved about routes in `FunctionalRoute` and `FunctionalRouteShape` |
| `Color.StringRoute` | src/color.js:48-86 | a string never goes to an object constructor; a named route needs the keyword in the table; a hex route needs a leading `#` and no table entry; a functional route's name is one of the five prefixes and a prefix of the input, its model is never XYZ, and its extractor follows the comma rule |
| `Color.Dispatch` | src/color.js:19-90 | an object goes to an object constructor or nowhere; a string never goes to an object constructor; any other value yields no colour |
| `Color.NormalizeIdempotent` | src/color.js:47 | normalising twice is normalising once |
| `Color.DispatchNormalized` | src/color.js:46-47 | a string is routed exactly as its trimmed, lower-cased form is |
| `Color.DispatchIgnoresPadding` | src/color.js:47 | surrounding whitespace never changes a string's route |
| `Color.DispatchIgnoresCase` | src/color.js:47 | two strings that agree after lower-casing are routed alike |
| `Color.NamedFirst` | src/color.js:48-59 | a string whose normalised form is a table keyword is routed to the table with that keyword, before any hex or prefix test |
| `Color.HexPatternByLength` | src/color.js:61-62 | an unnamed `#` string goes to hex parsing of its normalised form, with the long pattern exactly when its length exceeds five |
| `Color.HexLengthIsCharCount` | src/color.js:62 | for text inside the Basic Multilingual Plane the length test counts characters |
| `Color.PrefixesExclusive` | src/color.js:61-86 | no string starts with two of the five prefixes, nor with `#` and a prefix, so their testing order is immaterial |
| `Color.FunctionalStringRoute` | src/color.js:68-86 | unnamed, non-hex normalised text starting with the `i`-th prefix goes to that prefix's model and extractor, called with that prefix |
| `Color.FunctionalRoute` | src/color.js:68-86 | the same for any string, through its normalised form: comma extractor for `rgb`/`hsl` exactly when a comma is present, whitespace extractor otherwise |
| `Color.FunctionalRouteShape` | src/color.js:68-86 | every functional route pairs one of the five prefixes with its own model, passes the normalised text, and follows the comma rule in both directions |
| `Color.StringUnmatched` | src/color.js:48-89 | normalised text yields no colour exactly when it is not a keyword and starts with neither `#` nor any of the five prefixes |
| `Color.DispatchStringUnmatched` | src/color.js:46-89 | the same for any string, through its normalised form |
| `Color.NoStringIsXyz` | src/color.js:33-86 | no string is routed to XYZ |

## Left out

- The parsing helpers `extractGroups`, `extractFnCommaGroups`, `extractFnWhitespaceGroups`, `hexToOctet` and the regular expressions `HEX_RE` and `HEX_RE_S` live in files that are not part of this model. A route records which of them is called and with what; their results and their parse errors are not modelled.
- The helper `defined(...)` lives in a file that is not part of this model; it is abstracted as `Defined`, taken to mean that no listed property is `undefined` or `null`. A descriptor's property values are not represented, only which of them are defined.
- The alpha step `round(rgba[3] / 255, 7)` is floating-point division and a rounding helper that is not part of this model.
- The colour classes `sRGBColor`, `XYZColor` and `LabColor` are not part of this model. Neither is their floating-point conversion arithmetic. The named-colour table and `parseNamed` enter only as the set of keywords.
- The re-exports `gray`, `contrast`, `mix` and `mixLab` come from modules that are not part of this model.
- `typeof null === 'object'` is a host-language quirk: `color(null)` throws when it reads a property of `null`. An `Obj` descriptor is never `null`.
- JsString.LowerChar: lower-cases only A–Z, the Latin-1 capitals U+00C0–U+00DE except U+00D7, and KELVIN SIGN U+212A (to `k`). Every other character is left unchanged, although `toLowerCase` lowers every cased letter, including Latin capitals outside Latin-1 such as U+0100, U+0141 and the fullwidth U+FF21, and it turns U+0130 into two characters.
- JsString.ToLower: inherits the gap of `LowerChar`. For a string holding such a letter, the normalised text that every string route carries (`FromNamed.keyword`, `FromHex.input`, `FromFunction.input`) differs from the one JavaScript passes on, and so may the route itself. Because U+0130 lengthens the string in JavaScript, the hex length test can differ as well.
- Color.DispatchIgnoresCase: two strings count as equal up to case only when they agree after `ToLower`, so strings that differ only in a capital outside Basic Latin and Latin-1 are not covered.
- Strings are sequences of Unicode scalar values, so the unpaired surrogates a JavaScript string may hold cannot be represented.
