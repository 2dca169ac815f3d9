/** Sorting by a two-part key. Both home screens sort with a comparator that
    is a lexicographic order on two numbers; the model sorts by that key with
    insertion sort and ties each screen's comparator to its key separately. */
module Ordenacao {

  /** A sort key compared first on `primaria`, then on `secundaria`. */
  datatype Chave = Chave(primaria: int, secundaria: int)

  predicate MenorIgual(a: Chave, b: Chave)
  {
    a.primaria < b.primaria || (a.primaria == b.primaria && a.secundaria <= b.secundaria)
  }

  /** Keys never decrease from left to right. */
  predicate Ordenada<T>(chave: T -> Chave, s: seq<T>)
  {
    forall i, j :: 0 <= i < j < |s| ==> MenorIgual(chave(s[i]), chave(s[j]))
  }

  /** Inserts `x` into a sorted sequence just before the first element whose
      key is not below `x`'s. */
  function Inserir<T(==)>(chave: T -> Chave, x: T, s: seq<T>): (r: seq<T>)
    requires Ordenada(chave, s)
    ensures |r| == |s| + 1
    ensures Ordenada(chave, r)
    ensures multiset(r) == multiset(s) + multiset{x}
  {
    if |s| == 0 then [x]
    else if MenorIgual(chave(x), chave(s[0])) then [x] + s
    else
      var resto := Inserir(chave, x, s[1..]);
      assert s == [s[0]] + s[1..];
      forall j | 0 <= j < |resto|
        ensures MenorIgual(chave(s[0]), chave(resto[j]))
      {
        assert resto[j] in multiset(resto);
        if resto[j] != x {
          assert resto[j] in multiset(s[1..]);
          var k :| 0 <= k < |s[1..]| && s[1..][k] == resto[j];
          assert s[k + 1] == resto[j];
        }
      }
      [s[0]] + resto
  }

  /** Insertion sort by `chave`: the result is sorted and a permutation of `s`. */
  function Ordenar<T(==)>(chave: T -> Chave, s: seq<T>): (r: seq<T>)
    ensures |r| == |s|
    ensures Ordenada(chave, r)
    ensures multiset(r) == multiset(s)
  {
    if |s| == 0 then []
    else
      assert s == [s[0]] + s[1..];
      Inserir(chave, s[0], Ordenar(chave, s[1..]))
  }
}
