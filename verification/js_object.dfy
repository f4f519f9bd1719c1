/** Reading a property of a JavaScript object literal, `obj[key]`, and the
    `obj[key] || fallback` idiom the display tables are written with. */
module JsObject {
  import opened Common

  /** The members every object literal inherits from `Object.prototype`.
      `obj[key]` finds them even though the literal never declares them. */
  const PrototypeMembers: set<string> := {
    "constructor", "hasOwnProperty", "isPrototypeOf", "propertyIsEnumerable",
    "toLocaleString", "toString", "valueOf", "__proto__",
    "__defineGetter__", "__defineSetter__", "__lookupGetter__", "__lookupSetter__"
  }

  /** What `obj[key]` evaluates to for a literal with string-valued own
      properties: one of them, an inherited member, or `undefined`. */
  datatype Value = Str(s: string) | Inherited(name: string) | Undefined

  function Read(own: map<string, string>, key: string): (v: Value)
    ensures v.Str? <==> key in own
    ensures v.Inherited? <==> key !in own && key in PrototypeMembers
    ensures v.Str? ==> v.s == own[key]
    ensures v.Inherited? ==> v.name == key
  {
    if key in own then Str(own[key])
    else if key in PrototypeMembers then Inherited(key)
    else Undefined
  }

  /** JavaScript truthiness: '' and `undefined` are falsy; an inherited
      member (a function or `Object.prototype` itself) is truthy. */
  predicate IsTruthy(v: Value) {
    match v
    case Str(s) => s != ""
    case Inherited(_) => true
    case Undefined => false
  }

  /** `obj[key] || fallback`, exactly as JavaScript evaluates it. */
  function ReadOr(own: map<string, string>, key: string, fallback: string): Value {
    var v := Read(own, key);
    if IsTruthy(v) then v else Str(fallback)
  }

  /** `obj[key] || fallback` looking at the literal's own properties only. */
  function OwnOr(own: map<string, string>, key: string, fallback: string): string {
    OrElse(if key in own then Some(own[key]) else None, fallback)
  }

  /** Off the prototype's member names, or on an own key, the lookup as
      written and the own-property reading agree. */
  lemma ReadOrOffPrototype(own: map<string, string>, key: string, fallback: string)
    requires key !in PrototypeMembers || key in own
    ensures ReadOr(own, key, fallback) == Str(OwnOr(own, key, fallback))
  {
  }

  /** A prototype member name the literal does not declare yields the
      inherited member, so the fallback is never reached. */
  lemma ReadOrOnPrototype(own: map<string, string>, key: string, fallback: string)
    requires key in PrototypeMembers && key !in own
    ensures ReadOr(own, key, fallback) == Inherited(key)
  {
  }
}
