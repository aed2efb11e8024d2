/**
 * The small piece of JavaScript semantics the screens rely on: the values a
 * form record can hold, truthiness (what `||`, `!!` and `if (x)` test),
 * object spread, and the `[name]: value` merge every change handler performs.
 *
 * Numbers are integers here: the fields the model reads (years, counts, hours)
 * carry whole numbers, and NaN is not a value a modelled record can hold.
 */
module JsValues {

  datatype Option<+T> = None | Some(value: T)

  /** A JavaScript value as it can appear in a form record. */
  datatype Value =
    | Undefined
    | Null
    | Bool(b: bool)
    | Num(n: int)
    | Str(s: string)

  /** JavaScript truthiness: `false`, `0`, `""`, `null` and `undefined` are falsy. */
  predicate Truthy(v: Value) {
    match v
    case Undefined => false
    case Null => false
    case Bool(b) => b
    case Num(n) => n != 0
    case Str(s) => s != ""
  }

  /** A plain object: its own enumerable properties and their values. */
  type Record = map<string, Value>

  /** Property access `o[k]`: a missing property reads as `undefined`. */
  function Get(o: Record, k: string): (v: Value)
    ensures k !in o ==> v == Undefined
    ensures k in o ==> v == o[k]
  {
    if k in o then o[k] else Undefined
  }

  /** `{...base, ...over}`: every property of `over` wins, the others come from `base`. */
  function Spread(base: Record, over: Record): (r: Record)
    ensures r.Keys == base.Keys + over.Keys
    ensures forall k :: k in over ==> r[k] == over[k]
    ensures forall k :: k in base && k !in over ==> r[k] == base[k]
  {
    base + over
  }

  /** Spreading a one-property object over a record is updating that property. */
  lemma SpreadOne(base: Record, k: string, v: Value)
    ensures Spread(base, map[k := v]) == base[k := v]
  {
  }

  /** A present, non-empty string — what `s || fallback` keeps for an optional string. */
  function OrElse(s: Option<string>, fallback: string): (r: string)
    ensures s.Some? && s.value != "" ==> r == s.value
    ensures (s.None? || s.value == "") ==> r == fallback
  {
    if s.Some? && s.value != "" then s.value else fallback
  }

  /** `v || fallback` on a value: `v` when truthy, else the fallback. */
  function ValueOr(v: Value, fallback: Value): (r: Value)
    ensures Truthy(v) ==> r == v
    ensures !Truthy(v) ==> r == fallback
  {
    if Truthy(v) then v else fallback
  }

  /** The fields of `e.target` a change handler reads. */
  datatype InputEvent = InputEvent(name: string, value: string, inputType: string, checked: bool)

  /** `type === 'checkbox' ? checked : value` */
  function ChangedValue(e: InputEvent): (v: Value)
    ensures e.inputType == "checkbox" ==> v == Bool(e.checked)
    ensures e.inputType != "checkbox" ==> v == Str(e.value)
  {
    if e.inputType == "checkbox" then Bool(e.checked) else Str(e.value)
  }

  /**
   * `prev => ({ ...prev, [name]: type === 'checkbox' ? checked : value })`:
   * the named property takes the new value and every other property keeps its own.
   */
  function ApplyChange(prev: Record, e: InputEvent): (r: Record)
    ensures r.Keys == prev.Keys + {e.name}
    ensures r[e.name] == ChangedValue(e)
    ensures forall k :: k in prev && k != e.name ==> r[k] == prev[k]
  {
    prev[e.name := ChangedValue(e)]
  }

  /** Changing a field to the value it already has leaves the record as it was. */
  lemma ApplyChangeIdempotent(prev: Record, e: InputEvent)
    ensures ApplyChange(ApplyChange(prev, e), e) == ApplyChange(prev, e)
  {
  }

  /** Two edits of different fields commute. */
  lemma ApplyChangeCommutes(prev: Record, e1: InputEvent, e2: InputEvent)
    requires e1.name != e2.name
    ensures ApplyChange(ApplyChange(prev, e1), e2) == ApplyChange(ApplyChange(prev, e2), e1)
  {
  }
}
