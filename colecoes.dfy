/** The JavaScript `Set` and `Map` the source stores its data in. Both keep
    their elements in first-insertion order, and `Array.from` / `values()`
    list them in that order, so a set is a sequence without repetitions and a
    map is such a sequence of keys together with the key-to-value map. */
module Colecoes {

  import opened Wrappers

  predicate SemRepeticao<T(==)>(s: seq<T>)
  {
    forall i, j :: 0 <= i < j < |s| ==> s[i] != s[j]
  }

  /** The elements of a set, without their order. */
  function Elementos<T>(s: seq<T>): set<T>
  {
    set x | x in s
  }

  /** `set.size`: without repetitions, the length is the number of distinct
      elements. */
  lemma {:induction false} TamanhoSemRepeticao<T>(s: seq<T>)
    requires SemRepeticao(s)
    ensures |Elementos(s)| == |s|
  {
    if s != [] {
      assert SemRepeticao(s[1..]);
      TamanhoSemRepeticao(s[1..]);
      assert Elementos(s) == {s[0]} + Elementos(s[1..]);
      assert s[0] !in Elementos(s[1..]);
    }
  }

  /** `set.add(x)`: appends `x` unless it is already there. */
  function Adicionar<T(==)>(s: seq<T>, x: T): (r: seq<T>)
    requires SemRepeticao(s)
    ensures SemRepeticao(r)
    ensures Elementos(r) == Elementos(s) + {x}
    ensures x in s ==> r == s
    ensures x !in s ==> r == s + [x]
  {
    if x in s then s else s + [x]
  }

  /** `set.delete(x)`: removes `x`, keeping the others in order. */
  function Remover<T(==)>(s: seq<T>, x: T): (r: seq<T>)
    ensures Elementos(r) == Elementos(s) - {x}
    ensures SemRepeticao(s) ==> SemRepeticao(r)
    ensures x !in s ==> r == s
    ensures |r| <= |s|
  {
    if s == [] then []
    else if s[0] == x then Remover(s[1..], x)
    else
      var resto := Remover(s[1..], x);
      assert Elementos(s) == {s[0]} + Elementos(s[1..]);
      assert Elementos([s[0]] + resto) == {s[0]} + Elementos(resto);
      assert SemRepeticao(s) ==> SemRepeticao(s[1..]) && s[0] !in Elementos(resto);
      [s[0]] + resto
  }

  /** Removing a present element from a set takes out its one position and
      keeps the others in their order. */
  lemma {:induction false} RemoverMantemOrdem<T>(s: seq<T>, x: T, i: nat)
    requires SemRepeticao(s) && i < |s| && s[i] == x
    ensures Remover(s, x) == s[..i] + s[i+1..]
  {
    if i == 0 {
      assert x !in s[1..];
      assert s[..0] + s[1..] == s[1..];
    } else {
      assert s[0] != x;
      assert SemRepeticao(s[1..]) && s[1..][i-1] == x;
      RemoverMantemOrdem(s[1..], x, i - 1);
      assert s[..i] == [s[0]] + s[1..][..i-1];
      assert s[i+1..] == s[1..][i..];
    }
  }

  /** `r` is `s` with some of its elements left out and the rest in their
      order. */
  predicate Subsequencia<T(==)>(r: seq<T>, s: seq<T>)
  {
    r == [] ||
    (s != [] && ((r[0] == s[0] && Subsequencia(r[1..], s[1..])) || Subsequencia(r, s[1..])))
  }

  /** Adding an element twice is the same as adding it once. */
  lemma AdicionarIdempotente<T>(s: seq<T>, x: T)
    requires SemRepeticao(s)
    ensures Adicionar(Adicionar(s, x), x) == Adicionar(s, x)
  {
  }

  /** Removing what was just added, when it was not there, restores the set. */
  lemma {:induction false} RemoverDesfazAdicionar<T>(s: seq<T>, x: T)
    requires SemRepeticao(s) && x !in s
    ensures Remover(Adicionar(s, x), x) == s
  {
    RemoverAoFinal(s, x);
  }

  lemma {:induction false} RemoverAoFinal<T>(s: seq<T>, x: T)
    requires x !in s
    ensures Remover(s + [x], x) == s
  {
    if s == [] {
      assert [x][1..] == [];
    } else {
      assert (s + [x])[1..] == s[1..] + [x];
      RemoverAoFinal(s[1..], x);
    }
  }

  /** A JavaScript `Map`: the keys in first-insertion order, and the entries. */
  datatype InsertionMap<K(==), V(==)> = InsertionMap(ordem: seq<K>, entradas: map<K, V>)
  {
    ghost predicate Valid()
    {
      && SemRepeticao(ordem)
      && entradas.Keys == Elementos(ordem)
    }

    /** `map.set(k, v)`: an existing key keeps its place, a new one goes last. */
    function Put(k: K, v: V): (r: InsertionMap<K, V>)
      requires Valid()
      ensures r.Valid()
      ensures r.entradas == entradas[k := v]
      ensures r.ordem == Adicionar(ordem, k)
    {
      InsertionMap(Adicionar(ordem, k), entradas[k := v])
    }

    /** `map.delete(k)`: absent keys are ignored. */
    function Remove(k: K): (r: InsertionMap<K, V>)
      requires Valid()
      ensures r.Valid()
      ensures r.entradas == entradas - {k}
      ensures r.ordem == Remover(ordem, k)
    {
      InsertionMap(Remover(ordem, k), entradas - {k})
    }

    /** `map.get(k)`, with `undefined` as `None`. */
    function Get(k: K): (r: Option<V>)
      ensures r.Some? <==> k in entradas
      ensures r.Some? ==> r.value == entradas[k]
    {
      if k in entradas then Some(entradas[k]) else None
    }

    /** `Array.from(map.values())`: one value per key, in key order. */
    function Values(): (r: seq<V>)
      requires Valid()
      ensures |r| == |ordem| == |entradas|
      ensures forall i :: 0 <= i < |r| ==> r[i] == entradas[ordem[i]]
      ensures Elementos(r) == entradas.Values
    {
      TamanhoSemRepeticao(ordem);
      var r := seq(|ordem|, i requires 0 <= i < |ordem| => entradas[ordem[i]]);
      assert entradas.Values <= Elementos(r) by {
        forall v | v in entradas.Values ensures v in r {
          var k :| k in entradas && entradas[k] == v;
          var i :| 0 <= i < |ordem| && ordem[i] == k;
          assert r[i] == v;
        }
      }
      r
    }
  }

  /** After `set(k, v)`, `get(k)` yields `v` and every other key is as before. */
  lemma PutGet<K, V>(m: InsertionMap<K, V>, k: K, v: V, outra: K)
    requires m.Valid()
    ensures m.Put(k, v).Get(k) == Some(v)
    ensures outra != k ==> m.Put(k, v).Get(outra) == m.Get(outra)
  {
  }

  /** After `delete(k)`, `get(k)` is undefined and every other key is as before. */
  lemma RemoveGet<K, V>(m: InsertionMap<K, V>, k: K, outra: K)
    requires m.Valid()
    ensures m.Remove(k).Get(k) == None
    ensures outra != k ==> m.Remove(k).Get(outra) == m.Get(outra)
  {
  }

  /** Setting a key to the value it already holds changes nothing, order
      included. */
  lemma PutMesmoValor<K, V>(m: InsertionMap<K, V>, k: K)
    requires m.Valid() && k in m.entradas
    ensures m.Put(k, m.entradas[k]) == m
  {
  }
}
