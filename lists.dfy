/**
 * The java.util.List and stream operations the data-access objects use:
 * filter, findFirst, anyMatch, count, List.set at the first match,
 * List.remove / removeIf, a stable sort in descending order of a key,
 * limit, and the sum / min / max of a numeric key.
 */
module Lists {
  import opened Common

  /** The matching elements of s, in order: the recursion behind Filter, without its contract. */
  function Seleccion<T>(s: seq<T>, p: T -> bool): seq<T>
  {
    if s == [] then [] else (if p(s[0]) then [s[0]] else []) + Seleccion(s[1..], p)
  }

  /** Seleccion keeps at most the elements it is given, only matching ones, each as often as in s. */
  lemma {:induction false} SeleccionContrato<T(!new)>(s: seq<T>, p: T -> bool)
    ensures |Seleccion(s, p)| <= |s|
    ensures forall i :: 0 <= i < |Seleccion(s, p)| ==> p(Seleccion(s, p)[i])
    ensures forall x :: multiset(Seleccion(s, p))[x] == if p(x) then multiset(s)[x] else 0
  {
    if s != [] {
      SeleccionContrato(s[1..], p);
      assert s == [s[0]] + s[1..];
    }
  }

  /** stream().filter(p).collect(toList()): the matching elements, in order, each as often as in s. */
  function Filter<T(!new)>(s: seq<T>, p: T -> bool): (r: seq<T>)
    ensures |r| <= |s|
    ensures forall i :: 0 <= i < |r| ==> p(r[i])
    ensures forall x :: multiset(r)[x] == if p(x) then multiset(s)[x] else 0
  {
    SeleccionContrato(s, p);
    Seleccion(s, p)
  }

  /** The position of the first element satisfying p, or |s| when there is none. */
  function IndexWhere<T>(s: seq<T>, p: T -> bool): (i: nat)
    ensures i <= |s|
    ensures i < |s| ==> p(s[i])
    ensures forall j :: 0 <= j < i ==> !p(s[j])
  {
    if s == [] then 0
    else if p(s[0]) then 0
    else 1 + IndexWhere(s[1..], p)
  }

  /** stream().anyMatch(p) */
  predicate Any<T>(s: seq<T>, p: T -> bool)
  {
    exists i :: 0 <= i < |s| && p(s[i])
  }

  /** stream().filter(p).findFirst() */
  function FindFirst<T>(s: seq<T>, p: T -> bool): (r: Option<T>)
    ensures r.Some? <==> Any(s, p)
    ensures r.Some? ==> r.value in s && p(r.value)
    ensures r.Some? ==> forall j :: 0 <= j < |s| && p(s[j]) ==> r.value == s[IndexWhere(s, p)]
  {
    var i := IndexWhere(s, p);
    if i < |s| then Some(s[i]) else None
  }

  /** The indexed loop `if (match) { list.set(i, x); break; }`: the first match replaced by x. */
  function ReplaceFirst<T>(s: seq<T>, p: T -> bool, x: T): (r: seq<T>)
    ensures |r| == |s|
    ensures Any(s, p) ==> r[IndexWhere(s, p)] == x
    ensures forall j :: 0 <= j < |s| && j != IndexWhere(s, p) ==> r[j] == s[j]
    ensures !Any(s, p) ==> r == s
  {
    var i := IndexWhere(s, p);
    if i < |s| then s[i := x] else s
  }

  /** List.remove(o) with an equals() expressed by p: the first match dropped. */
  function RemoveFirst<T>(s: seq<T>, p: T -> bool): (r: seq<T>)
    ensures Any(s, p) ==> |r| == |s| - 1
    ensures !Any(s, p) ==> r == s
    ensures var i := IndexWhere(s, p); i < |s| ==> r == s[..i] + s[i + 1..]
  {
    var i := IndexWhere(s, p);
    if i < |s| then s[..i] + s[i + 1..] else s
  }

  /** The negation of p, the filter that removeIf keeps. */
  function Negar<T>(p: T -> bool): T -> bool
  {
    x => !p(x)
  }

  /** removeIf(p): the elements not satisfying p, in order. */
  function RemoveAll<T(!new)>(s: seq<T>, p: T -> bool): (r: seq<T>)
    ensures |r| <= |s|
    ensures |r| < |s| <==> Any(s, p)
    ensures forall i :: 0 <= i < |r| ==> !p(r[i])
    ensures forall x :: multiset(r)[x] == if p(x) then 0 else multiset(s)[x]
  {
    RemoveAllShrinks(s, p);
    Filter(s, Negar(p))
  }

  /** Something in a non-empty sequence matches exactly when its head or something in its tail does. */
  lemma AnyCons<T>(s: seq<T>, p: T -> bool)
    requires s != []
    ensures Any(s, p) <==> p(s[0]) || Any(s[1..], p)
  {
    if Any(s[1..], p) {
      var i :| 0 <= i < |s[1..]| && p(s[1..][i]);
      assert s[i + 1] == s[1..][i];
    }
    if Any(s, p) && !p(s[0]) {
      var i :| 0 <= i < |s| && p(s[i]);
      assert s[1..][i - 1] == s[i];
    }
  }

  /** removeIf removes something exactly when something matches. */
  lemma {:induction false} RemoveAllShrinks<T(!new)>(s: seq<T>, p: T -> bool)
    ensures |Filter(s, Negar(p))| < |s| <==> Any(s, p)
  {
    if s != [] {
      RemoveAllShrinks(s[1..], p);
      AnyCons(s, p);
      assert |Filter(s, Negar(p))| == (if p(s[0]) then 0 else 1) + |Filter(s[1..], Negar(p))|;
    }
  }

  /** count() of the filtered stream */
  function Count<T(!new)>(s: seq<T>, p: T -> bool): (n: nat)
    ensures n <= |s|
    ensures n == 0 <==> !Any(s, p)
  {
    FilterVacio(s, p);
    |Filter(s, p)|
  }

  /** filter(p) keeps nothing exactly when nothing matches. */
  lemma {:induction false} FilterVacio<T(!new)>(s: seq<T>, p: T -> bool)
    ensures |Filter(s, p)| == 0 <==> !Any(s, p)
  {
    if s != [] {
      FilterVacio(s[1..], p);
      AnyCons(s, p);
    }
  }

  /** stream().limit(n) */
  function Limit<T>(s: seq<T>, n: nat): (r: seq<T>)
    ensures |r| == if n < |s| then n else |s|
    ensures r == s[..|r|]
  {
    if n < |s| then s[..n] else s
  }

  /** Non-increasing in key: the order of a comparator `comparing(key).reversed()`. */
  predicate SortedDesc<T>(s: seq<T>, key: T -> real)
  {
    forall i, j :: 0 <= i < j < |s| ==> key(s[i]) >= key(s[j])
  }

  /** Inserts x after every element whose key is greater and before those whose key is equal, so x goes first among its equals. */
  function InsertDesc<T>(x: T, s: seq<T>, key: T -> real): (r: seq<T>)
    requires SortedDesc(s, key)
    ensures SortedDesc(r, key)
    ensures multiset(r) == multiset(s) + multiset{x}
    ensures |r| == |s| + 1
  {
    if s == [] then [x]
    else if key(s[0]) > key(x) then
      var t := InsertDesc(x, s[1..], key);
      assert s == [s[0]] + s[1..];
      AcotadoPorMultiset(t, s[1..], x, key(s[0]), key);
      AnteponerOrdenado(s[0], t, key);
      [s[0]] + t
    else
      AnteponerOrdenado(x, s, key);
      [x] + s
  }

  /** Every key of t is at most cota when t holds the elements of u and x, whose keys are. */
  lemma AcotadoPorMultiset<T>(t: seq<T>, u: seq<T>, x: T, cota: real, key: T -> real)
    requires multiset(t) == multiset(u) + multiset{x}
    requires forall k :: 0 <= k < |u| ==> key(u[k]) <= cota
    requires key(x) <= cota
    ensures forall k :: 0 <= k < |t| ==> key(t[k]) <= cota
  {
    forall k | 0 <= k < |t|
      ensures key(t[k]) <= cota
    {
      assert t[k] in multiset(t);
      if t[k] != x {
        assert t[k] in multiset(u);
        var j :| 0 <= j < |u| && u[j] == t[k];
      }
    }
  }

  /** A key at least every key of a sorted sequence can go in front of it. */
  lemma AnteponerOrdenado<T>(a: T, t: seq<T>, key: T -> real)
    requires SortedDesc(t, key)
    requires forall k :: 0 <= k < |t| ==> key(t[k]) <= key(a)
    ensures SortedDesc([a] + t, key)
  {
    var r := [a] + t;
    forall i, j | 0 <= i < j < |r|
      ensures key(r[i]) >= key(r[j])
    {
      assert r[j] == t[j - 1];
      if i > 0 {
        assert r[i] == t[i - 1];
      }
    }
  }

  /** The first k elements of a sequence sorted in descending order have keys at least those of the rest. */
  lemma PrefijoDeOrdenado<T>(s: seq<T>, k: nat, key: T -> real)
    requires SortedDesc(s, key) && k <= |s|
    ensures forall x, y :: x in s[..k] && y in multiset(s[k..]) ==> key(y) <= key(x)
  {
    forall x, y | x in s[..k] && y in multiset(s[k..])
      ensures key(y) <= key(x)
    {
      var i :| 0 <= i < k && s[..k][i] == x;
      var j :| 0 <= j < |s[k..]| && s[k..][j] == y;
      assert s[i] == x && s[k + j] == y;
    }
  }

  /** sorted(comparing(key).reversed()): largest key first; `SortDescEstable` shows equal keys keep their order. */
  function SortDesc<T>(s: seq<T>, key: T -> real): (r: seq<T>)
    ensures SortedDesc(r, key)
    ensures multiset(r) == multiset(s)
    ensures |r| == |s|
  {
    if s == [] then []
    else
      assert s == [s[0]] + s[1..];
      InsertDesc(s[0], SortDesc(s[1..], key), key)
  }

  /** The elements whose key is k. */
  function ConClave<T>(key: T -> real, k: real): T -> bool
  {
    x => key(x) == k
  }

  /** Seleccion over a non-empty sequence: the head if it matches, then the selected tail. */
  lemma SeleccionCons<T>(x: T, s: seq<T>, p: T -> bool)
    ensures Seleccion([x] + s, p) == (if p(x) then [x] else []) + Seleccion(s, p)
  {
    assert ([x] + s)[0] == x && ([x] + s)[1..] == s;
  }

  /** Inserting x into a sorted sequence puts it first among the elements of its key, and leaves the other keys' order alone. */
  lemma {:induction false} InsertDescEstable<T>(x: T, s: seq<T>, key: T -> real, k: real)
    requires SortedDesc(s, key)
    ensures Seleccion(InsertDesc(x, s, key), ConClave(key, k)) ==
            (if key(x) == k then [x] else []) + Seleccion(s, ConClave(key, k))
  {
    var p := ConClave(key, k);
    var ex := if p(x) then [x] else [];
    if s == [] {
      SeleccionCons(x, [], p);
    } else {
      InsertDescPaso(x, s, key);
      if key(s[0]) > key(x) {
        InsertDescEstable(x, s[1..], key, k);
        AnteponerNoCoincidente(s[0], InsertDesc(x, s[1..], key), s[1..], ex, p);
        assert s == [s[0]] + s[1..];
      } else {
        SeleccionCons(x, s, p);
      }
    }
  }

  /** One step of InsertDesc on a non-empty sequence. */
  lemma InsertDescPaso<T>(x: T, s: seq<T>, key: T -> real)
    requires SortedDesc(s, key) && s != []
    ensures SortedDesc(s[1..], key)
    ensures InsertDesc(x, s, key) == if key(s[0]) > key(x) then [s[0]] + InsertDesc(x, s[1..], key) else [x] + s
  {
  }

  /**
   * Putting y in front of two sequences whose selections differ by a prefix
   * ex keeps that difference, when y is not selected whenever ex is not empty.
   */
  lemma AnteponerNoCoincidente<T>(y: T, t: seq<T>, u: seq<T>, ex: seq<T>, p: T -> bool)
    requires Seleccion(t, p) == ex + Seleccion(u, p)
    requires ex != [] ==> !p(y)
    ensures Seleccion([y] + t, p) == ex + Seleccion([y] + u, p)
  {
    SeleccionCons(y, t, p);
    SeleccionCons(y, u, p);
  }

  /** The sort is stable: for every key, the elements with that key come out in their input order. */
  lemma {:induction false} SortDescEstable<T>(s: seq<T>, key: T -> real, k: real)
    ensures Seleccion(SortDesc(s, key), ConClave(key, k)) == Seleccion(s, ConClave(key, k))
  {
    if s != [] {
      assert s == [s[0]] + s[1..];
      SortDescEstable(s[1..], key, k);
      InsertDescEstable(s[0], SortDesc(s[1..], key), key, k);
      SeleccionCons(s[0], s[1..], ConClave(key, k));
    }
  }

  /** SortDescEstable for every key at once, stated with Filter. */
  lemma OrdenEstable<T(!new)>(s: seq<T>, key: T -> real)
    ensures forall k :: Filter(SortDesc(s, key), ConClave(key, k)) == Filter(s, ConClave(key, k))
  {
    forall k
      ensures Filter(SortDesc(s, key), ConClave(key, k)) == Filter(s, ConClave(key, k))
    {
      SortDescEstable(s, key, k);
    }
  }

  /** The first n elements of the sorted sequence keep, for every key, a prefix of that key's elements in input order. */
  lemma PrefijoEstable<T(!new)>(s: seq<T>, key: T -> real, n: nat)
    requires n <= |s|
    ensures forall k :: Filter(SortDesc(s, key)[..n], ConClave(key, k)) <= Filter(s, ConClave(key, k))
  {
    forall k
      ensures Filter(SortDesc(s, key)[..n], ConClave(key, k)) <= Filter(s, ConClave(key, k))
    {
      FilterPrefijo(SortDesc(s, key), n, ConClave(key, k));
      SortDescEstable(s, key, k);
    }
  }

  /** Seleccion distributes over concatenation. */
  lemma {:induction false} SeleccionConcat<T>(a: seq<T>, b: seq<T>, p: T -> bool)
    ensures Seleccion(a + b, p) == Seleccion(a, p) + Seleccion(b, p)
  {
    if a == [] {
      assert a + b == b;
    } else {
      var cabeza := if p(a[0]) then [a[0]] else [];
      calc {
        Seleccion(a + b, p);
        { assert a + b == [a[0]] + (a[1..] + b); SeleccionCons(a[0], a[1..] + b, p); }
        cabeza + Seleccion(a[1..] + b, p);
        { SeleccionConcat(a[1..], b, p); }
        cabeza + (Seleccion(a[1..], p) + Seleccion(b, p));
        (cabeza + Seleccion(a[1..], p)) + Seleccion(b, p);
        { assert a == [a[0]] + a[1..]; SeleccionCons(a[0], a[1..], p); }
        Seleccion(a, p) + Seleccion(b, p);
      }
    }
  }

  /** Filtering a prefix gives a prefix of the filtered sequence. */
  lemma FilterPrefijo<T(!new)>(s: seq<T>, n: nat, p: T -> bool)
    requires n <= |s|
    ensures Filter(s[..n], p) <= Filter(s, p)
  {
    assert s == s[..n] + s[n..];
    SeleccionConcat(s[..n], s[n..], p);
  }

  /** mapToDouble(key).sum() */
  function Sum<T>(s: seq<T>, key: T -> real): real
  {
    if s == [] then 0.0 else key(s[0]) + Sum(s[1..], key)
  }

  /** mapToDouble(key).min(): the least key, which occurs in the sequence. */
  function Min<T>(s: seq<T>, key: T -> real): (m: real)
    requires s != []
    ensures forall i :: 0 <= i < |s| ==> m <= key(s[i])
    ensures exists i :: 0 <= i < |s| && m == key(s[i])
  {
    if |s| == 1 then key(s[0])
    else
      var m := Min(s[1..], key);
      assert forall i :: 1 <= i < |s| ==> key(s[i]) == key(s[1..][i - 1]);
      if key(s[0]) <= m then key(s[0]) else m
  }

  /** mapToDouble(key).max(): the greatest key, which occurs in the sequence. */
  function Max<T>(s: seq<T>, key: T -> real): (m: real)
    requires s != []
    ensures forall i :: 0 <= i < |s| ==> key(s[i]) <= m
    ensures exists i :: 0 <= i < |s| && m == key(s[i])
  {
    if |s| == 1 then key(s[0])
    else
      var m := Max(s[1..], key);
      assert forall i :: 1 <= i < |s| ==> key(s[i]) == key(s[1..][i - 1]);
      if key(s[0]) >= m then key(s[0]) else m
  }

  /** If every key is at least lo, the sum of n keys is at least n * lo. */
  lemma {:induction false} SumAtLeast<T>(s: seq<T>, key: T -> real, lo: real)
    requires forall i :: 0 <= i < |s| ==> lo <= key(s[i])
    ensures |s| as real * lo <= Sum(s, key)
  {
    if s != [] {
      var t := s[1..];
      assert forall i :: 0 <= i < |t| ==> lo <= key(t[i]) by {
        forall i | 0 <= i < |t|
          ensures lo <= key(t[i])
        {
          assert t[i] == s[i + 1];
        }
      }
      SumAtLeast(t, key, lo);
      Distribute(|t| as real, lo);
      assert |s| as real == |t| as real + 1.0;
    }
  }

  /** If every key is at most hi, the sum of n keys is at most n * hi. */
  lemma {:induction false} SumAtMost<T>(s: seq<T>, key: T -> real, hi: real)
    requires forall i :: 0 <= i < |s| ==> key(s[i]) <= hi
    ensures Sum(s, key) <= |s| as real * hi
  {
    if s != [] {
      var t := s[1..];
      assert forall i :: 0 <= i < |t| ==> key(t[i]) <= hi by {
        forall i | 0 <= i < |t|
          ensures key(t[i]) <= hi
        {
          assert t[i] == s[i + 1];
        }
      }
      SumAtMost(t, key, hi);
      Distribute(|t| as real, hi);
      assert |s| as real == |t| as real + 1.0;
    }
  }

  lemma Distribute(n: real, a: real)
    ensures (n + 1.0) * a == n * a + a
  {
  }

  /** A mean over a positive count, multiplied back by the count, gives the sum. */
  lemma CocienteExacto(media: real, suma: real, n: real)
    requires n > 0.0 && media == suma / n
    ensures media * n == suma
  {
  }

  /** m is the mean of the keys of s: m times the number of elements is their sum. */
  predicate EsMedia<T>(m: real, s: seq<T>, key: T -> real)
  {
    m * |s| as real == Sum(s, key)
  }

  /** mapToDouble(key).average() of a non-empty list: the mean, which times the count is the sum. */
  function Media<T>(s: seq<T>, key: T -> real): (m: real)
    requires s != []
    ensures EsMedia(m, s, key)
  {
    CocienteExacto(Sum(s, key) / |s| as real, Sum(s, key), |s| as real);
    Sum(s, key) / |s| as real
  }

  /** A sum between n * lo and n * hi gives a mean between lo and hi. */
  lemma CocienteAcotado(suma: real, n: real, lo: real, hi: real)
    requires n > 0.0 && n * lo <= suma <= n * hi
    ensures lo <= suma / n <= hi
  {
    var q := suma / n;
    assert q * n == suma;
    assert (q - lo) * n == suma - n * lo >= 0.0;
    assert (hi - q) * n == n * hi - suma >= 0.0;
  }

  /** Keys between lo and hi give a sum between n * lo and n * hi. */
  lemma CotasDeSuma<T>(s: seq<T>, key: T -> real, lo: real, hi: real)
    requires forall i :: 0 <= i < |s| ==> lo <= key(s[i]) <= hi
    ensures |s| as real * lo <= Sum(s, key) <= |s| as real * hi
  {
    SumAtLeast(s, key, lo);
    SumAtMost(s, key, hi);
  }

  /** Keys between lo and hi give a mean between lo and hi. */
  lemma MediaEntreCotas<T>(s: seq<T>, key: T -> real, lo: real, hi: real)
    requires s != []
    requires forall i :: 0 <= i < |s| ==> lo <= key(s[i]) <= hi
    ensures lo <= Sum(s, key) / |s| as real <= hi
  {
    CotasDeSuma(s, key, lo, hi);
    CocienteAcotado(Sum(s, key), |s| as real, lo, hi);
  }

  /** The mean of the keys lies between the least and the greatest key. */
  lemma MediaEntreExtremos<T>(s: seq<T>, key: T -> real)
    requires s != []
    ensures Min(s, key) <= Sum(s, key) / |s| as real <= Max(s, key)
    ensures Min(s, key) <= Media(s, key) <= Max(s, key)
  {
    MediaEntreCotas(s, key, Min(s, key), Max(s, key));
  }

  /** No two elements share a key: the set semantics of a list kept free of equals() duplicates. */
  predicate SinRepetidos<T, K(==)>(s: seq<T>, key: T -> K)
  {
    forall i, j :: 0 <= i < j < |s| ==> key(s[i]) != key(s[j])
  }

  /** Appending an element whose key is new keeps the keys distinct. */
  lemma SinRepetidosAgregar<T, K>(s: seq<T>, x: T, key: T -> K)
    requires SinRepetidos(s, key)
    requires forall i :: 0 <= i < |s| ==> key(s[i]) != key(x)
    ensures SinRepetidos(s + [x], key)
  {
  }

  /** Dropping the first match keeps the keys distinct. */
  lemma SinRepetidosQuitar<T, K>(s: seq<T>, p: T -> bool, key: T -> K)
    requires SinRepetidos(s, key)
    ensures SinRepetidos(RemoveFirst(s, p), key)
  {
    var k := IndexWhere(s, p);
    if k < |s| {
      var r := RemoveFirst(s, p);
      forall i, j | 0 <= i < j < |r|
        ensures key(r[i]) != key(r[j])
      {
        var i', j' := if i < k then i else i + 1, if j < k then j else j + 1;
        assert r[i] == s[i'] && r[j] == s[j'];
      }
    }
  }

  /**
   * When p picks out the elements of one key and the keys are distinct,
   * dropping the first match leaves no match at all.
   */
  lemma QuitarUnico<T, K>(s: seq<T>, p: T -> bool, key: T -> K, clave: K)
    requires SinRepetidos(s, key)
    requires forall i :: 0 <= i < |s| ==> (p(s[i]) <==> key(s[i]) == clave)
    ensures !Any(RemoveFirst(s, p), p)
  {
    var k := IndexWhere(s, p);
    if k < |s| {
      var r := RemoveFirst(s, p);
      forall i | 0 <= i < |r|
        ensures !p(r[i])
      {
        if i >= k {
          assert r[i] == s[i + 1];
          assert key(s[k]) != key(s[i + 1]);
        }
      }
    }
  }

  /** Appending a match to a list without one and dropping the first match gives the list back. */
  lemma QuitarAgregado<T>(s: seq<T>, x: T, p: T -> bool)
    requires !Any(s, p) && p(x)
    ensures RemoveFirst(s + [x], p) == s
  {
    var t := s + [x];
    assert forall j :: 0 <= j < |s| ==> t[j] == s[j] && !p(t[j]);
    assert t[|s|] == x;
    assert IndexWhere(t, p) == |s|;
    assert t[..|s|] == s;
  }

  /** An element appended to a list with no match is the first match of the longer list. */
  lemma PrimeroAgregado<T>(s: seq<T>, x: T, p: T -> bool)
    requires !Any(s, p) && p(x)
    ensures IndexWhere(s + [x], p) == |s|
    ensures FindFirst(s + [x], p) == Some(x)
  {
    var t := s + [x];
    assert forall j :: 0 <= j < |s| ==> t[j] == s[j] && !p(t[j]);
    assert t[|s|] == x;
  }
}
