/**
 * The list updates behind the checkboxes: `xs.filter(item => item !== v)`,
 * `[...xs, v]`, the search page's check/uncheck handlers and the signup
 * wizards' membership toggle.
 */
module Lists {

  /** `xs.filter(item => item !== v)` */
  function RemoveAll(xs: seq<string>, v: string): (r: seq<string>)
    ensures v !in r
    ensures forall x :: x in r <==> x in xs && x != v
    ensures |r| <= |xs|
  {
    if xs == [] then [] else (if xs[0] == v then [] else [xs[0]]) + RemoveAll(xs[1..], v)
  }

  /** Filtering distributes over concatenation; together with the one-element
      case this says the kept items stay in their original order. */
  lemma {:induction false} RemoveAllAppend(a: seq<string>, b: seq<string>, v: string)
    ensures RemoveAll(a + b, v) == RemoveAll(a, v) + RemoveAll(b, v)
  {
    if a != [] {
      assert (a + b)[1..] == a[1..] + b;
      RemoveAllAppend(a[1..], b, v);
    } else {
      assert a + b == b;
    }
  }

  lemma RemoveAllSingle(x: string, v: string)
    ensures RemoveAll([x], v) == if x == v then [] else [x]
  {
    assert [x][1..] == [];
  }

  /** Removing an item that is not there changes nothing. */
  lemma {:induction false} RemoveAllAbsent(xs: seq<string>, v: string)
    requires v !in xs
    ensures RemoveAll(xs, v) == xs
  {
    if xs != [] {
      RemoveAllAbsent(xs[1..], v);
    }
  }

  /** Every occurrence of `v` goes, and each other item keeps its multiplicity. */
  lemma {:induction false} RemoveAllCounts(xs: seq<string>, v: string, x: string)
    ensures multiset(RemoveAll(xs, v))[x] == if x == v then 0 else multiset(xs)[x]
  {
    if xs != [] {
      RemoveAllCounts(xs[1..], v, x);
      assert xs == [xs[0]] + xs[1..];
      var head := if xs[0] == v then [] else [xs[0]];
      assert RemoveAll(xs, v) == head + RemoveAll(xs[1..], v);
      assert multiset(RemoveAll(xs, v)) == multiset(head) + multiset(RemoveAll(xs[1..], v));
      assert multiset(xs) == multiset([xs[0]]) + multiset(xs[1..]);
    }
  }

  /** The search page's `checked ? [...xs, item] : xs.filter(i => i !== item)`. */
  function SetChecked(xs: seq<string>, item: string, checked: bool): (r: seq<string>)
    ensures checked ==> r == xs + [item]
    ensures !checked ==> item !in r && forall x :: x != item ==> (x in r <==> x in xs)
    ensures !checked ==> r == RemoveAll(xs, item)
  {
    if checked then xs + [item] else RemoveAll(xs, item)
  }

  /** Checking an unchecked item and unchecking it again restores the list. */
  lemma CheckThenUncheck(xs: seq<string>, item: string)
    requires item !in xs
    ensures SetChecked(SetChecked(xs, item, true), item, false) == xs
  {
    RemoveAllAppend(xs, [item], item);
    RemoveAllAbsent(xs, item);
    RemoveAllSingle(item, item);
  }

  /** The signup wizards' `includes(value) ? filter(...) : [...xs, value]`. */
  function Toggle(xs: seq<string>, value: string): (r: seq<string>)
    ensures value in r <==> value !in xs
    ensures value in xs ==> r == RemoveAll(xs, value)
    ensures value !in xs ==> r == xs + [value]
  {
    if value in xs then RemoveAll(xs, value) else xs + [value]
  }

  /** Toggling an absent value twice gives the original list back. */
  lemma ToggleTwiceAbsent(xs: seq<string>, value: string)
    requires value !in xs
    ensures Toggle(Toggle(xs, value), value) == xs
  {
    CheckThenUncheck(xs, value);
  }

  /** Toggling a present value twice removes every copy and puts one back at the end. */
  lemma ToggleTwicePresent(xs: seq<string>, value: string)
    requires value in xs
    ensures Toggle(Toggle(xs, value), value) == RemoveAll(xs, value) + [value]
  {
  }
}
