/** JavaScript values as the frontend handles them: the dynamically typed values a
    component receives, their truthiness, property and index access, and the JSON text
    JSON.stringify makes of them when a request is sent to the backend. */
module JsValues {
  import opened Common

  /** A JavaScript number: NaN or a finite value (infinities are not modelled). */
  datatype JsNumber = NaN | Num(r: real)

  /** A JavaScript value. An object is the ordered list of its own properties, as an
      object literal lists them. */
  datatype JsVal =
    | Undefined
    | Null
    | Bool(b: bool)
    | Number(n: JsNumber)
    | Text(s: String)
    | Array(items: seq<JsVal>)
    | Object(fields: seq<(String, JsVal)>)

  /** JavaScript truthiness: undefined, null, false, NaN, 0 and '' are falsy. */
  predicate JsTruthy(v: JsVal) {
    match v
    case Undefined => false
    case Null => false
    case Bool(b) => b
    case Number(n) => n.Num? && n.r != 0.0
    case Text(s) => s != []
    case Array(_) => true
    case Object(_) => true
  }

  /** `typeof v === 'object'`: null, arrays and objects. */
  predicate IsObject(v: JsVal) {
    v.Null? || v.Array? || v.Object?
  }

  /** Reading a property from a list of properties: the last one with that name, as in
      an object literal; undefined when there is none. */
  function Lookup(fields: seq<(String, JsVal)>, key: String): (v: JsVal)
    ensures (forall i :: 0 <= i < |fields| ==> fields[i].0 != key) ==> v == Undefined
    ensures v != Undefined ==> exists i :: 0 <= i < |fields| && fields[i] == (key, v)
  {
    if fields == [] then Undefined
    else if fields[|fields| - 1].0 == key then fields[|fields| - 1].1
    else Lookup(fields[..|fields| - 1], key)
  }

  /** `v.key`: a property of an object; arrays and primitives give undefined for the
      names read here. */
  function Member(v: JsVal, key: String): (m: JsVal)
    ensures !v.Object? ==> m == Undefined
  {
    if v.Object? then Lookup(v.fields, key) else Undefined
  }

  /** `v[i]` on an array: undefined past its end. */
  function At(v: JsVal, i: nat): (e: JsVal)
    requires v.Array?
    ensures i < |v.items| ==> e == v.items[i]
    ensures i >= |v.items| ==> e == Undefined
  {
    if i < |v.items| then v.items[i] else Undefined
  }

  /** The text of a number as a template literal writes it: "NaN", or the finite
      value's decimal text, which `show` stands for. */
  function NumberText(n: JsNumber, show: real -> String): (t: String)
    ensures n.NaN? ==> t == "NaN"
    ensures n.Num? ==> t == show(n.r)
  {
    match n
    case NaN => "NaN"
    case Num(r) => show(r)
  }

  /** JSON.stringify of a value, as the backend receives it: NaN becomes null, an
      undefined array element becomes null, and an undefined property is omitted. */
  function ToJson(v: JsVal): (j: Json)
    requires v != Undefined
    decreases v, 1
    ensures v == Null || v == Number(NaN) ==> j == JNull
    ensures v.Number? && v.n.Num? ==> j == JNum(v.n.r)
    ensures v.Bool? ==> j == JBool(v.b)
    ensures v.Text? ==> j == JStr(v.s)
    ensures v.Array? ==> j.JList? && |j.items| == |v.items|
  {
    match v
    case Null => JNull
    case Bool(b) => JBool(b)
    case Number(n) => if n.NaN? then JNull else JNum(n.r)
    case Text(s) => JStr(s)
    case Array(items) => JList(ElementsJson(items))
    case Object(_) => JObj(FieldsMap(Entries(v)))
  }

  function ElementsJson(items: seq<JsVal>): (js: seq<Json>)
    ensures |js| == |items|
    ensures forall i :: 0 <= i < |items| && items[i] != Undefined ==> js[i] == ToJson(items[i])
    ensures forall i :: 0 <= i < |items| && items[i] == Undefined ==> js[i] == JNull
    decreases items
  {
    if items == [] then []
    else [if items[0] == Undefined then JNull else ToJson(items[0])] + ElementsJson(items[1..])
  }

  /** The positions, from i on, of the properties whose value is not undefined, in
      increasing order. */
  function DefinedPositions(fields: seq<(String, JsVal)>, i: nat): (ps: seq<nat>)
    requires i <= |fields|
    ensures forall k :: 0 <= k < |ps| ==> i <= ps[k] < |fields| && fields[ps[k]].1 != Undefined
    ensures forall k, l :: 0 <= k < l < |ps| ==> ps[k] < ps[l]
    ensures forall j :: i <= j < |fields| && fields[j].1 != Undefined ==> j in ps
    decreases |fields| - i
  {
    if i == |fields| then []
    else (if fields[i].1 == Undefined then [] else [i]) + DefinedPositions(fields, i + 1)
  }

  /** The properties of an object in order, as the JSON text carries them and as the
      backend's dict iterates them: undefined ones are dropped, and each defined one is
      its name with its value's JSON. */
  function Entries(v: JsVal): (es: seq<(String, Json)>)
    requires v.Object?
    ensures var ps := DefinedPositions(v.fields, 0);
      && |es| == |ps| <= |v.fields|
      && forall k :: 0 <= k < |ps| ==> es[k] == (v.fields[ps[k]].0, ToJson(v.fields[ps[k]].1))
    decreases v, 0
  {
    EntriesFrom(v, 0)
  }

  function EntriesFrom(v: JsVal, i: nat): (es: seq<(String, Json)>)
    requires v.Object? && i <= |v.fields|
    ensures var ps := DefinedPositions(v.fields, i);
      && |es| == |ps| <= |v.fields| - i
      && forall k :: 0 <= k < |ps| ==> es[k] == (v.fields[ps[k]].0, ToJson(v.fields[ps[k]].1))
    decreases v, 0, |v.fields| - i
  {
    if i == |v.fields| then []
    else
      var rest := EntriesFrom(v, i + 1);
      if v.fields[i].1 == Undefined then rest
      else [(v.fields[i].0, ToJson(v.fields[i].1))] + rest
  }

  function FieldsMap(es: seq<(String, Json)>): map<String, Json> {
    if es == [] then map[] else FieldsMap(es[..|es| - 1])[es[|es| - 1].0 := es[|es| - 1].1]
  }
}
