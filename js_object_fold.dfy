/**
 * The counting reducer as JavaScript runs it on a plain `{}` accumulator:
 * `acc[k] = (acc[k] || 0) + 1`. A plain object inherits properties from
 * `Object.prototype`, so for a key such as "constructor" the read finds an inherited
 * function, `+ 1` concatenates text, and the count becomes a string; for "__proto__" the
 * write goes to an accessor that ignores strings, so the record is not counted at all.
 * For every other key the reducer agrees with the count of module Tally.
 */
module JsObjectFold {
  import Tally

  /**
   * The names a plain object inherits from `Object.prototype`: the seven of section 20.1.3
   * of ECMA-262, and the `__proto__` accessor and four legacy methods of its Annex B.2.2.
   */
  const InheritedNames: set<string> := {
    "constructor", "hasOwnProperty", "isPrototypeOf", "propertyIsEnumerable",
    "toLocaleString", "toString", "valueOf", "__proto__",
    "__defineGetter__", "__defineSetter__", "__lookupGetter__", "__lookupSetter__"}

  /** A property value: a number, a string, or an inherited object (shown by its text). */
  datatype JsValue = Num(n: nat) | Str(s: string) | Builtin(text: string)

  /** An object's own properties and the order in which they were created. */
  datatype JsObject = JsObject(own: map<string, JsValue>, order: seq<string>)

  /**
   * What string conversion gives for an inherited property: "[object Object]" for the
   * prototype object behind "__proto__", the source text of a built-in function otherwise
   * (its exact wording is engine-defined; this is the usual form).
   */
  function InheritedText(k: string): string
  {
    if k == "__proto__" then "[object Object]"
    else if k == "constructor" then "function Object() { [native code] }"
    else "function " + k + "() { [native code] }"
  }

  /** `acc[k] || 0`: the own value, else the inherited one, else 0 (own values are never falsy). */
  function ReadOrZero(o: JsObject, k: string): JsValue
  {
    if k in o.own then o.own[k]
    else if k in InheritedNames then Builtin(InheritedText(k))
    else Num(0)
  }

  /** `v + 1`: addition on a number, concatenation of "1" on anything else. */
  function PlusOne(v: JsValue): JsValue
  {
    match v
    case Num(n) => Num(n + 1)
    case Str(s) => Str(s + "1")
    case Builtin(t) => Str(t + "1")
  }

  /**
   * `acc[k] = v`: an own data property is created or overwritten, except that the
   * "__proto__" accessor ignores a value that is not an object.
   */
  function Assign(o: JsObject, k: string, v: JsValue): JsObject
  {
    if k == "__proto__" && !v.Builtin? then o
    else if k in o.own then JsObject(o.own[k := v], o.order)
    else JsObject(o.own[k := v], o.order + [k])
  }

  /** The reducer, as written, folded over `keys` from `{}`. */
  function FoldAsWritten(keys: seq<string>): JsObject
  {
    if keys == [] then JsObject(map[], [])
    else
      var acc := FoldAsWritten(keys[..|keys| - 1]);
      var k := keys[|keys| - 1];
      Assign(acc, k, PlusOne(ReadOrZero(acc, k)))
  }

  /** The numeric counts of a histogram, as property values. */
  function AsNumbers(h: Tally.Histogram): JsObject
  {
    JsObject(map k | k in h.counts :: Num(h.counts[k]), h.order)
  }

  /** With no inherited name among the keys, the reducer computes exactly Tally's counts. */
  lemma {:induction false} AgreesWithoutInheritedNames(keys: seq<string>)
    requires forall i :: 0 <= i < |keys| ==> keys[i] !in InheritedNames
    ensures FoldAsWritten(keys) == AsNumbers(Tally.Tally(keys))
  {
    if keys != [] {
      var p, k := keys[..|keys| - 1], keys[|keys| - 1];
      AgreesWithoutInheritedNames(p);
      var h := Tally.Tally(p);
      var acc := FoldAsWritten(p);
      assert acc.own.Keys == h.counts.Keys;
      if k in h.counts {
        assert ReadOrZero(acc, k) == Num(h.counts[k]);
      } else {
        assert ReadOrZero(acc, k) == Num(0);
      }
      assert FoldAsWritten(keys).own == AsNumbers(Tally.Tally(keys)).own;
    }
  }

  /** A record of type "constructor" gets the string "function Object() { … }1", not 1. */
  lemma ConstructorKeyCounterexample()
    ensures "constructor" in FoldAsWritten(["constructor"]).own
    ensures FoldAsWritten(["constructor"]).own["constructor"] ==
      Str("function Object() { [native code] }1")
    ensures FoldAsWritten(["constructor"]).own["constructor"] !=
      AsNumbers(Tally.Tally(["constructor"])).own["constructor"]
  {
    assert ["constructor"][..0] == [];
    assert Tally.Tally(["constructor"]).counts == map["constructor" := 1] by {
      assert ["constructor"][..0] == [];
    }
  }

  /** A record of severity "__proto__" is not counted at all: the object stays empty. */
  lemma ProtoKeyDropped()
    ensures FoldAsWritten(["__proto__"]) == JsObject(map[], [])
    ensures Tally.Tally(["__proto__"]).order == ["__proto__"]
  {
    assert ["__proto__"][..0] == [];
  }
}
