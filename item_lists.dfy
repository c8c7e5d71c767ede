/**
 * The line-item list operations the modals share. The react2 modals address
 * an item by its position; the older React modals address it by its `id`.
 * Each component instantiates these with its own item record.
 */
module ItemLists {
  import Seqs

  /** `[...items, blank]`: the new item goes last and nothing before it moves. */
  function Appended<T>(items: seq<T>, blank: T): (r: seq<T>)
    ensures |r| == |items| + 1
    ensures r[..|items|] == items && r[|items|] == blank
  {
    items + [blank]
  }

  /**
   * `if (items.length > 1) items.filter((_, i) => i !== index)`: removal by
   * position, refused while only one item is left.
   */
  function RemovedKeepingOne<T>(items: seq<T>, index: nat): (r: seq<T>)
    ensures |items| <= 1 || index >= |items| ==> r == items
    ensures |items| > 1 && index < |items| ==>
      |r| == |items| - 1 && r[..index] == items[..index] && r[index..] == items[index + 1..]
    ensures |items| >= 1 ==> |r| >= 1
  {
    if |items| > 1 then Seqs.RemoveAt(items, index) else items
  }

  /** `items.map((item, i) => i === index ? edit(item) : item)`. */
  function UpdatedAt<T>(items: seq<T>, index: nat, edit: T -> T): (r: seq<T>)
    ensures |r| == |items|
    ensures forall j :: 0 <= j < |items| && j != index ==> r[j] == items[j]
    ensures index < |items| ==> r[index] == edit(items[index])
  {
    if index < |items| then Seqs.ReplaceAt(items, index, edit(items[index])) else items
  }

  /** `items.map(item => matches(item) ? edit(item) : item)`. */
  function UpdatedWhere<T>(items: seq<T>, matches: T -> bool, edit: T -> T): (r: seq<T>)
    ensures |r| == |items|
    ensures forall j :: 0 <= j < |items| && matches(items[j]) ==> r[j] == edit(items[j])
    ensures forall j :: 0 <= j < |items| && !matches(items[j]) ==> r[j] == items[j]
  {
    seq(|items|, j requires 0 <= j < |items| => if matches(items[j]) then edit(items[j]) else items[j])
  }

  /** The negation of a key predicate. */
  function Not<T>(matches: T -> bool): T -> bool
  {
    x => !matches(x)
  }

  /** A term function that counts 0 for the matching items. */
  function Masked<T>(matches: T -> bool, f: T -> real): T -> real
  {
    x => if matches(x) then 0.0 else f(x)
  }

  /** `items.filter(item => !matches(item))`. */
  function RemovedWhere<T>(items: seq<T>, matches: T -> bool): seq<T>
  {
    Seqs.Filter(items, Not(matches))
  }

  /** The sum over a list with one more item grows by exactly that item's term. */
  lemma SumAppended<T>(items: seq<T>, blank: T, f: T -> real)
    ensures Seqs.Sum(Appended(items, blank), f) == Seqs.Sum(items, f) + f(blank)
  {
    Seqs.SumPush(items, blank, f);
  }

  /** A removal that happens takes exactly the removed item's term out of the sum. */
  lemma SumRemovedKeepingOne<T>(items: seq<T>, index: nat, f: T -> real)
    requires |items| > 1 && index < |items|
    ensures Seqs.Sum(RemovedKeepingOne(items, index), f) == Seqs.Sum(items, f) - f(items[index])
  {
    Seqs.SumRemoveAt(items, index, f);
  }

  /** Editing one position swaps that item's term for the edited item's term. */
  lemma SumUpdatedAt<T>(items: seq<T>, index: nat, edit: T -> T, f: T -> real)
    requires index < |items|
    ensures Seqs.Sum(UpdatedAt(items, index, edit), f) == Seqs.Sum(items, f) - f(items[index]) + f(edit(items[index]))
  {
    Seqs.SumReplaceAt(items, index, edit(items[index]), f);
  }

  /** An edit that leaves every item's term as it was leaves the sum as it was. */
  lemma SumUpdatedWhere<T>(items: seq<T>, matches: T -> bool, edit: T -> T, f: T -> real)
    requires forall x :: matches(x) ==> f(edit(x)) == f(x)
    ensures Seqs.Sum(UpdatedWhere(items, matches, edit), f) == Seqs.Sum(items, f)
  {
    var r := UpdatedWhere(items, matches, edit);
    SumOfPointwiseEqual(r, items, f);
  }

  /** Two lists of the same length whose items have equal terms position by position have the same sum. */
  lemma {:induction false} SumOfPointwiseEqual<T>(a: seq<T>, b: seq<T>, f: T -> real)
    requires |a| == |b|
    requires forall j :: 0 <= j < |a| ==> f(a[j]) == f(b[j])
    ensures Seqs.Sum(a, f) == Seqs.Sum(b, f)
  {
    if a != [] {
      SumOfPointwiseEqual(a[..|a| - 1], b[..|b| - 1], f);
    }
  }

  /** Removing by a key drops exactly the matching items and keeps the others in order. */
  lemma RemovedWhereSpec<T>(items: seq<T>, matches: T -> bool)
    ensures forall x :: x in RemovedWhere(items, matches) <==> x in items && !matches(x)
    ensures Seqs.IsSubsequence(RemovedWhere(items, matches), items)
  {
    forall x ensures x in RemovedWhere(items, matches) <==> x in items && !matches(x) {
      Seqs.FilterMembership(items, Not(matches), x);
    }
    Seqs.FilterIsSubsequence(items, Not(matches));
  }

  /** Removing by key takes the matching items' terms out of the sum and keeps everyone else's. */
  lemma SumRemovedWhere<T>(items: seq<T>, matches: T -> bool, f: T -> real)
    ensures Seqs.Sum(RemovedWhere(items, matches), f) == Seqs.Sum(items, Masked(matches, f))
  {
    Seqs.SumFilter(items, Not(matches), f);
    var g := Seqs.Where(Not(matches), f);
    assert forall i :: 0 <= i < |items| ==> g(items[i]) == Masked(matches, f)(items[i]);
    Seqs.SumCongruent(items, g, Masked(matches, f));
  }

  /**
   * When exactly one item matches, removing by key shortens the list by
   * one; so with distinct ids and more than one item the list never
   * becomes empty.
   */
  lemma {:induction false} RemovedWhereUnique<T>(items: seq<T>, matches: T -> bool, k: nat)
    requires k < |items| && matches(items[k])
    requires forall j :: 0 <= j < |items| && j != k ==> !matches(items[j])
    ensures |RemovedWhere(items, matches)| == |items| - 1
  {
    var init := items[..|items| - 1];
    if k == |items| - 1 {
      Seqs.FilterKeepsAll(init, Not(matches));
    } else {
      RemovedWhereUnique(init, matches, k);
    }
  }

  /** An edit by key that matches nothing leaves the list as it was. */
  lemma UpdatedWhereNoMatch<T>(items: seq<T>, matches: T -> bool, edit: T -> T)
    requires forall j :: 0 <= j < |items| ==> !matches(items[j])
    ensures UpdatedWhere(items, matches, edit) == items
  {
    var r := UpdatedWhere(items, matches, edit);
    assert forall j :: 0 <= j < |items| ==> r[j] == items[j];
  }

  /**
   * Two edits by the same key, where the first keeps the key and the
   * second overwrites everything the first wrote: the second alone gives
   * the same list.
   */
  lemma UpdatedWhereTwice<T>(items: seq<T>, matches: T -> bool, first: T -> T, second: T -> T)
    requires forall x :: matches(x) ==> matches(first(x)) && second(first(x)) == second(x)
    ensures UpdatedWhere(UpdatedWhere(items, matches, first), matches, second) == UpdatedWhere(items, matches, second)
  {
    var once := UpdatedWhere(items, matches, first);
    var twice := UpdatedWhere(once, matches, second);
    var direct := UpdatedWhere(items, matches, second);
    forall j | 0 <= j < |items| ensures twice[j] == direct[j] {
      if matches(items[j]) {
        assert once[j] == first(items[j]);
      }
    }
  }
}
