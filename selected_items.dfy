/**
 * The list of selected item-category ids of the create-point form
 * (`selectedItems`) and the toggle a click on an item applies to it.
 * The list is a JavaScript array of numbers; ids are modelled as `int`.
 */
module SelectedItems {

  /** No id occurs twice in `s`. */
  predicate NoDuplicates(s: seq<int>) {
    forall i, j :: 0 <= i < j < |s| ==> s[i] != s[j]
  }

  /** `Array.prototype.findIndex` with the test `item === id`:
    * the index of the first occurrence of `id`, or -1 when there is none. */
  function FindIndex(s: seq<int>, id: int): (r: int)
    ensures -1 <= r < |s|
    ensures r >= 0 ==> s[r] == id && forall j :: 0 <= j < r ==> s[j] != id
    ensures r < 0 <==> id !in s
  {
    if s == [] then -1
    else if s[0] == id then 0
    else
      var k := FindIndex(s[1..], id);
      assert s == [s[0]] + s[1..];
      if k < 0 then -1 else k + 1
  }

  /** `Array.prototype.filter` with the test `item !== id`: every occurrence
    * of `id` dropped, everything else kept. */
  function RemoveAll(s: seq<int>, id: int): (r: seq<int>)
    ensures forall x :: x in r <==> x in s && x != id
    ensures multiset(r) == multiset(s)[id := 0]
  {
    if s == [] then []
    else
      var rest := RemoveAll(s[1..], id);
      assert s == [s[0]] + s[1..];
      if s[0] == id then rest else [s[0]] + rest
  }

  /** The new value of `selectedItems` after a click on item `id`:
    * a selected id is removed (every occurrence of it), an unselected
    * id is appended at the end. */
  function Toggle(s: seq<int>, id: int): (r: seq<int>)
    ensures id !in s ==> r == s + [id]
    ensures id in s ==> id !in r && multiset(r) == multiset(s)[id := 0]
    ensures forall x :: x in r <==> (x in s) != (x == id)
  {
    if FindIndex(s, id) >= 0 then RemoveAll(s, id) else s + [id]
  }

  /** Filtering a list that does not contain `id` gives the list back. */
  lemma {:induction false} RemoveAllAbsent(s: seq<int>, id: int)
    requires id !in s
    ensures RemoveAll(s, id) == s
  {
    if s != [] {
      RemoveAllAbsent(s[1..], id);
    }
  }

  /** Filtering distributes over concatenation. */
  lemma {:induction false} RemoveAllAppend(a: seq<int>, b: seq<int>, id: int)
    ensures RemoveAll(a + b, id) == RemoveAll(a, id) + RemoveAll(b, id)
  {
    if a == [] {
      assert a + b == b;
    } else {
      assert (a + b)[1..] == a[1..] + b;
      RemoveAllAppend(a[1..], b, id);
    }
  }

  /** A kept element `s[i]` lands at the position given by the number of kept
    * elements before it. */
  lemma RemoveAllKeptAt(s: seq<int>, id: int, i: int)
    requires 0 <= i < |s| && s[i] != id
    ensures |RemoveAll(s[..i], id)| < |RemoveAll(s, id)|
    ensures RemoveAll(s, id)[|RemoveAll(s[..i], id)|] == s[i]
  {
    assert s == s[..i] + ([s[i]] + s[i + 1..]);
    RemoveAllAppend(s[..i], [s[i]] + s[i + 1..], id);
    RemoveAllAppend([s[i]], s[i + 1..], id);
  }

  /** Filtering keeps the remaining elements in their original relative order:
    * two kept elements `s[i]` and `s[j]` with `i < j` appear in the result at
    * positions `p < q`. */
  lemma RemoveAllKeepsOrder(s: seq<int>, id: int, i: int, j: int)
    requires 0 <= i < j < |s| && s[i] != id && s[j] != id
    ensures var r, p, q := RemoveAll(s, id), |RemoveAll(s[..i], id)|, |RemoveAll(s[..j], id)|;
      p < q < |r| && r[p] == s[i] && r[q] == s[j]
  {
    RemoveAllKeptAt(s, id, i);
    RemoveAllKeptAt(s, id, j);
    var t := s[..j];
    assert t[..i] == s[..i];
    RemoveAllKeptAt(t, id, i);
  }

  /** Filtering a duplicate-free list gives a duplicate-free list. */
  lemma {:induction false} RemoveAllKeepsNoDuplicates(s: seq<int>, id: int)
    requires NoDuplicates(s)
    ensures NoDuplicates(RemoveAll(s, id))
  {
    if s != [] {
      assert NoDuplicates(s[1..]) by {
        forall i, j | 0 <= i < j < |s[1..]| ensures s[1..][i] != s[1..][j] {
          assert s[1..][i] == s[i + 1] && s[1..][j] == s[j + 1];
        }
      }
      RemoveAllKeepsNoDuplicates(s[1..], id);
      assert s[0] !in s[1..] by {
        forall k | 0 <= k < |s[1..]| ensures s[1..][k] != s[0] {
          assert s[1..][k] == s[k + 1];
        }
      }
    }
  }

  /** A click never introduces a duplicate into a duplicate-free selection. */
  lemma ToggleKeepsNoDuplicates(s: seq<int>, id: int)
    requires NoDuplicates(s)
    ensures NoDuplicates(Toggle(s, id))
  {
    if id in s {
      RemoveAllKeepsNoDuplicates(s, id);
    }
  }

  /** A click on a selected item keeps the other elements in their relative
    * order: two remaining elements `s[i]` and `s[j]` with `i < j` appear in
    * the new selection at positions `p < q`. */
  lemma ToggleKeepsOrderPresent(s: seq<int>, id: int, i: int, j: int)
    requires id in s
    requires 0 <= i < j < |s| && s[i] != id && s[j] != id
    ensures var r, p, q := Toggle(s, id), |RemoveAll(s[..i], id)|, |RemoveAll(s[..j], id)|;
      p < q < |r| && r[p] == s[i] && r[q] == s[j]
  {
    RemoveAllKeepsOrder(s, id, i, j);
  }

  /** Clicking the same item twice restores the membership of every id. */
  lemma ToggleTwiceRestoresMembership(s: seq<int>, id: int, x: int)
    ensures x in Toggle(Toggle(s, id), id) <==> x in s
  {
  }

  /** Clicking an unselected item twice restores the exact list. */
  lemma ToggleTwiceRestoresAbsent(s: seq<int>, id: int)
    requires id !in s
    ensures Toggle(Toggle(s, id), id) == s
  {
    RemoveAllAppend(s, [id], id);
    RemoveAllAbsent(s, id);
  }

  /** Clicking a selected item twice need not restore the list: the id comes
    * back at the end. */
  lemma ToggleTwiceMayReorder()
    ensures Toggle(Toggle([1, 2], 1), 1) == [2, 1]
  {
    assert RemoveAll([1, 2], 1) == [2];
  }

  /** The selection after clicking the items `ids` in order. */
  function ToggleAll(s: seq<int>, ids: seq<int>): (r: seq<int>)
    decreases ids
  {
    if ids == [] then s else ToggleAll(Toggle(s, ids[0]), ids[1..])
  }

  /** After a run of clicks, an id is selected exactly when it was selected
    * before and clicked an even number of times, or was not selected and
    * clicked an odd number of times. */
  lemma {:induction false} ToggleAllParity(s: seq<int>, ids: seq<int>, x: int)
    ensures x in ToggleAll(s, ids) <==> (x in s) != (multiset(ids)[x] % 2 == 1)
    decreases ids
  {
    if ids != [] {
      ToggleAllParity(Toggle(s, ids[0]), ids[1..], x);
      assert ids == [ids[0]] + ids[1..];
      assert multiset(ids) == multiset([ids[0]]) + multiset(ids[1..]);
    }
  }
}
