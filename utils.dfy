/** The shared helpers of `frontend/src/lib/utils.js`: the category colour lookup and
    text truncation. */
module Utils {

  /** The gradient used for any category without an entry of its own. */
  const DefaultColor := "from-gray-500 to-gray-600"

  /** The `colors` table: one Tailwind gradient per known category. */
  const Colors: map<string, string> := map[
    "Billing" := "from-green-500 to-emerald-600",
    "Technical Support" := "from-blue-500 to-cyan-600",
    "Feature Request" := "from-purple-500 to-indigo-600",
    "Bug Report" := "from-red-500 to-pink-600",
    "Account Management" := "from-orange-500 to-yellow-600"
  ]

  /** The colour of a category badge, total over all strings: a known category gets its own
      gradient, which is never the default one, and every other string gets the default. */
  function CategoryColor(category: string): (color: string)
    ensures category in Colors ==> color == Colors[category]
    ensures color == DefaultColor <==> category !in Colors
  {
    if category in Colors then Colors[category] else DefaultColor
  }

  /** No two known categories share a gradient, so the badge colour identifies the category. */
  lemma CategoryColorsDistinct(a: string, b: string)
    requires a in Colors && b in Colors && a != b
    ensures CategoryColor(a) != CategoryColor(b)
  {
  }

  // ---------------------------------------------------------------------------------
  // The lookup as the JavaScript expression `colors[category] || "from-gray-500 ..."`
  // evaluates it. `colors` is an ordinary object literal, so a property read on it also
  // finds the members every object inherits from Object.prototype.
  // ---------------------------------------------------------------------------------

  /** The JavaScript values a property read on `colors` can produce. */
  datatype JsValue =
    | Undefined
    | Str(s: string)
    | Inherited(name: string)  // a member of Object.prototype: a function or an object

  /** The property names every object literal inherits from Object.prototype. */
  const ObjectPrototypeMembers: set<string> := {
    "constructor", "hasOwnProperty", "isPrototypeOf", "propertyIsEnumerable",
    "toLocaleString", "toString", "valueOf", "__proto__",
    "__defineGetter__", "__defineSetter__", "__lookupGetter__", "__lookupSetter__"
  }

  /** JavaScript truthiness, as `||` tests it. */
  predicate Truthy(v: JsValue) {
    match v
    case Undefined => false
    case Str(s) => s != ""
    case Inherited(_) => true
  }

  /** `colors[key]`: an own property first, then the prototype chain, else undefined. */
  function ColorsProperty(key: string): JsValue {
    if key in Colors then Str(Colors[key])
    else if key in ObjectPrototypeMembers then Inherited(key)
    else Undefined
  }

  /** `getCategoryColor` as written. It agrees with `CategoryColor` on every string except
      the inherited member names, for which it yields the inherited member itself rather
      than the default gradient. */
  function CategoryColorAsWritten(category: string): (v: JsValue)
    ensures category !in ObjectPrototypeMembers ==> v == Str(CategoryColor(category))
    ensures category in ObjectPrototypeMembers ==> v == Inherited(category)
  {
    var own := ColorsProperty(category);
    if Truthy(own) then own else Str(DefaultColor)
  }

  /** The input that shows the discrepancy: the category "constructor" yields the inherited
      `Object` constructor, not a gradient string, so the badge does not get the default colour. */
  lemma ConstructorCategoryNotDefaultColor()
    ensures !CategoryColorAsWritten("constructor").Str?
    ensures CategoryColor("constructor") == DefaultColor
  {
  }

  // ---------------------------------------------------------------------------------
  // truncateText
  // ---------------------------------------------------------------------------------

  /** The default of `truncateText`'s `maxLength` parameter. */
  const DefaultMaxLength := 100

  /** What `truncateText` appends to a shortened text. */
  const Ellipsis := "..."

  /** Where `substring(0, end)` stops on a string of length `len`: `end` clamped to [0, len]. */
  function SubstringEnd(end: int, len: nat): (k: nat)
    ensures k <= len
    ensures 0 <= end <= len ==> k == end
  {
    if end < 0 then 0 else if end > len then len else end
  }

  /** `truncateText(text, maxLength)`. A text no longer than `maxLength` comes back unchanged;
      a longer one is cut to its first `maxLength` characters (none when `maxLength` is
      negative) followed by "...". Either way the result starts with the first
      min(|text|, maxLength) characters of `text`. */
  function Truncate(text: string, maxLength: int := DefaultMaxLength): (r: string)
    ensures |text| <= maxLength ==> r == text
    ensures |text| > maxLength && maxLength >= 0 ==>
              |r| == maxLength + |Ellipsis| && r == text[..maxLength] + Ellipsis
    ensures maxLength < 0 ==> r == Ellipsis
    ensures var k := if |text| <= maxLength then |text| else SubstringEnd(maxLength, |text|);
            k <= |r| && r[..k] == text[..k]
  {
    if |text| > maxLength then text[..SubstringEnd(maxLength, |text|)] + Ellipsis else text
  }

  /** Truncating twice with the same limit changes nothing more than truncating once. */
  lemma TruncateIdempotent(text: string, maxLength: int)
    ensures Truncate(Truncate(text, maxLength), maxLength) == Truncate(text, maxLength)
  {
  }

  /** Called with one argument, `truncateText` keeps texts of up to 100 characters whole. */
  lemma TruncateDefaultLimit(text: string)
    ensures |text| <= 100 ==> Truncate(text) == text
    ensures |text| > 100 ==> Truncate(text) == text[..100] + "..."
  {
  }
}
