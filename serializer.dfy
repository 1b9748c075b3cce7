/** Serialization helpers. */
module Serializer {

  /** `omit(obj, keys)`: builds a new object, field by field, holding every
      field of `obj` whose name is not listed in `keys`. `obj` is a value
      here, so it cannot be changed by the copy. */
  method Omit<V>(obj: map<string, V>, keys: seq<string>) returns (copy: map<string, V>)
    ensures forall k :: k in keys ==> k !in copy
    ensures forall k :: k in obj && k !in keys ==> k in copy
    ensures forall k :: k in copy ==> k in obj && copy[k] == obj[k]
  {
    copy := map[];
    var restantes := obj.Keys;
    while restantes != {}
      invariant restantes <= obj.Keys
      invariant forall k :: k in copy ==> k in obj && k !in keys && k !in restantes && copy[k] == obj[k]
      invariant forall k :: k in obj && k !in keys && k !in restantes ==> k in copy
      decreases restantes
    {
      var k :| k in restantes;
      if k !in keys {
        copy := copy[k := obj[k]];
      }
      restantes := restantes - {k};
    }
  }
}
