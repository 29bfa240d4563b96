/** Small shared vocabulary: optional values, machine integers and duplicate-free lists. */
module Base {
  datatype Option<+T> = None | Some(value: T)

  const MAX_INT64: int := 0x7fff_ffff_ffff_ffff
  const TWO_64: int := 0x1_0000_0000_0000_0000

  /** Go's `big.Int.Uint64`: the low 64 bits of the magnitude. */
  function Uint64(n: int): (u: int)
    ensures 0 <= u < TWO_64
    ensures 0 <= n < TWO_64 ==> u == n
  {
    (if n < 0 then -n else n) % TWO_64
  }

  /** Go's `big.Int.Int64`: the low 64 bits of the magnitude, negated for a negative number; two's complement. */
  function Int64(n: int): (i: int)
    ensures -MAX_INT64 - 1 <= i <= MAX_INT64
    ensures -MAX_INT64 - 1 <= n <= MAX_INT64 ==> i == n
  {
    var u := n % TWO_64;
    if u <= MAX_INT64 then u else u - TWO_64
  }

  /** Only whole multiples of 2^64 are lost. */
  lemma WordsAreCongruent(n: int)
    ensures ((if n < 0 then -n else n) - Uint64(n)) % TWO_64 == 0
    ensures (n - Int64(n)) % TWO_64 == 0
  {
  }

  predicate Distinct<T(==)>(s: seq<T>) {
    forall i, j :: 0 <= i < j < |s| ==> s[i] != s[j]
  }

  predicate Apart<T(==)>(a: seq<T>, b: seq<T>) {
    forall i :: 0 <= i < |a| ==> a[i] !in b
  }

  /** Appending unless already present: the shape of AppendCompletedState and AppendFailedState. */
  function AppendNew<T(==, !new)>(s: seq<T>, x: T): (r: seq<T>)
    ensures x in r && forall y :: y in r <==> y in s || y == x
    ensures Distinct(s) ==> Distinct(r)
  {
    if x in s then s else s + [x]
  }

  /** The list without every occurrence of one element. */
  function Without<T(==, !new)>(s: seq<T>, x: T): (r: seq<T>)
    ensures forall y :: y in r <==> y in s && y != x
    ensures x !in s ==> r == s
    ensures |r| <= |s|
  {
    if s == [] then []
    else
      var rest := Without(s[..|s| - 1], x);
      if s[|s| - 1] == x then rest else rest + [s[|s| - 1]]
  }

  lemma WithoutGrows<T(!new)>(s: seq<T>, i: nat, x: T)
    requires i < |s|
    ensures Without(s[..i + 1], x) == if s[i] == x then Without(s[..i], x) else Without(s[..i], x) + [s[i]]
  {
    assert s[..i + 1][..i] == s[..i];
  }

  /** What is left out of two lists joined is what is left out of each. */
  lemma {:induction false} WithoutJoins<T(!new)>(a: seq<T>, b: seq<T>, x: T)
    ensures Without(a + b, x) == Without(a, x) + Without(b, x)
  {
    if b == [] {
      assert a + b == a;
    } else {
      var front, all := b[..|b| - 1], a + b;
      WithoutJoins(a, front, x);
      assert all[..|all| - 1] == a + front && all[|all| - 1] == b[|b| - 1];
      if b[|b| - 1] != x {
        assert Without(all, x) == Without(a + front, x) + [b[|b| - 1]];
      }
    }
  }

  lemma WithoutOne<T(!new)>(y: T, x: T)
    ensures Without([y], x) == if y == x then [] else [y]
  {
    assert [y][..0] == [];
  }
}
