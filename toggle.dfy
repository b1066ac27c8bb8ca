/** The expand/collapse toggle both tables use for their state lists:
    `prev.includes(x) ? prev.filter((y) => y !== x) : [...prev, x]`. */
module Toggle {

  /** `prev.filter((y) => y !== x)` */
  function Without<T(==)>(prev: seq<T>, x: T): (r: seq<T>)
    ensures x !in r
    ensures forall k :: 0 <= k < |r| ==> r[k] in prev
    ensures forall k :: 0 <= k < |prev| && prev[k] != x ==> prev[k] in r
    decreases |prev|
  {
    if prev == [] then []
    else (if prev[0] == x then [] else [prev[0]]) + Without(prev[1..], x)
  }

  lemma {:induction false} WithoutAbsent<T>(prev: seq<T>, x: T)
    requires x !in prev
    ensures Without(prev, x) == prev
    decreases |prev|
  {
    if prev != [] {
      WithoutAbsent(prev[1..], x);
    }
  }

  function Toggle<T(==,!new)>(prev: seq<T>, x: T): (r: seq<T>)
    ensures x in r <==> x !in prev
    ensures forall y :: y != x ==> (y in r <==> y in prev)
  {
    if x in prev then Without(prev, x) else prev + [x]
  }

  /** Toggling the same key twice restores what is expanded. */
  lemma ToggleTwice<T(!new)>(prev: seq<T>, x: T)
    ensures forall y :: y in Toggle(Toggle(prev, x), x) <==> y in prev
  {
  }

  /** Opening a closed entry and closing it again restores the list itself. */
  lemma {:induction false} ToggleOpenThenClose<T(!new)>(prev: seq<T>, x: T)
    requires x !in prev
    ensures Toggle(Toggle(prev, x), x) == prev
  {
    assert Toggle(prev, x) == prev + [x];
    WithoutAppendLast(prev, x);
  }

  lemma {:induction false} WithoutAppendLast<T>(prev: seq<T>, x: T)
    requires x !in prev
    ensures Without(prev + [x], x) == prev
    decreases |prev|
  {
    if prev == [] {
      assert [] + [x] == [x];
      assert [x][1..] == [];
    } else {
      assert (prev + [x])[1..] == prev[1..] + [x];
      WithoutAppendLast(prev[1..], x);
    }
  }
}
