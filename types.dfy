/** Value types shared by the request-building model of HttpProxy.Options. */
module Types {

  /** A Java reference that may be null. */
  datatype Option<+T> = None | Some(value: T) {
    function GetOr(default: T): T {
      match this
      case Some(v) => v
      case None => default
    }
  }

  /** A parameter value (a Java Object): null, or an object whose toString() is `text`. */
  datatype Value = Null | Obj(text: string)

  /** Java's String.valueOf(Object), which StringBuffer.append(Object) also uses. */
  function ValueOf(v: Value): (r: string)
    ensures v.Obj? ==> r == v.text
    ensures v.Null? ==> r == "null"
  {
    match v
    case Null => "null"
    case Obj(text) => text
  }

  /** `order` is one iteration order of the keys of `m`: every key exactly once. */
  predicate IsEnumeration<V>(order: seq<string>, m: map<string, V>) {
    && (forall i, j :: 0 <= i < j < |order| ==> order[i] != order[j])
    && (forall k :: k in order ==> k in m)
    && (forall k :: k in m ==> k in order)
  }

  /** The first name of an iteration order is a key of the map. */
  lemma EnumerationHead<V>(order: seq<string>, m: map<string, V>)
    requires IsEnumeration(order, m)
    ensures order != [] ==> order[0] in m
  {
    if order != [] {
      assert order[0] in order;
    }
  }
}
