/**
 * The colour-match puzzle of src/app/page2/page.tsx: eight cards, four
 * colours each appearing twice; a pair of clicks on two cards of the same
 * colour adds both to the matched list.
 */
module ColorMatch {
  import opened Wrappers

  const Colors: seq<string> := ["#00d4ff", "#ff6b9d", "#ffd700", "#98fb98"]

  /** The deck shuffled by a random comparator: some arrangement of the colours, doubled. */
  predicate IsDeck(puzzle: seq<string>)
  {
    multiset(puzzle) == multiset(Colors + Colors)
  }

  predicate NoDuplicates(s: seq<nat>)
  {
    forall i, j :: 0 <= i < j < |s| ==> s[i] != s[j]
  }

  /** Each colour is on exactly two cards of any deck. */
  lemma EachColourTwice(puzzle: seq<string>, c: string)
    requires IsDeck(puzzle)
    ensures c in Colors ==> multiset(puzzle)[c] == 2
    ensures c !in Colors ==> multiset(puzzle)[c] == 0
    ensures |puzzle| == 8
  {
    assert |multiset(puzzle)| == |multiset(Colors + Colors)|;
  }

  class Puzzle {
    const puzzle: seq<string>
    var selected: Option<nat>
    var matched: seq<nat>

    ghost predicate Valid()
      reads this
    {
      && IsDeck(puzzle)
      && |puzzle| == 8
      && (forall k :: 0 <= k < |matched| ==> matched[k] < |puzzle|)
      && NoDuplicates(matched)
      && |matched| % 2 == 0
      && (forall k :: 0 <= k < |matched| && k % 2 == 0 ==> puzzle[matched[k]] == puzzle[matched[k + 1]])
      && (selected.Some? ==> selected.value < |puzzle| && selected.value !in matched)
    }

    constructor (deck: seq<string>)
      requires IsDeck(deck)
      ensures Valid() && puzzle == deck && selected.None? && matched == []
    {
      EachColourTwice(deck, Colors[0]);
      puzzle := deck;
      selected := None;
      matched := [];
    }

    /** `handleColorClick(index)` on one of the eight cards. */
    method HandleColorClick(index: nat)
      requires Valid() && index < |puzzle|
      modifies this
      ensures Valid()
      ensures index in old(matched) ==> selected == old(selected) && matched == old(matched)
      ensures index !in old(matched) && old(selected).None? ==> selected == Some(index) && matched == old(matched)
      ensures index !in old(matched) && old(selected).Some? ==>
                selected.None? &&
                matched == (if puzzle[old(selected).value] == puzzle[index] && old(selected).value != index
                            then old(matched) + [old(selected).value, index]
                            else old(matched))
    {
      if index in matched {
        return;
      }
      if selected.None? {
        selected := Some(index);
      } else {
        var selectedIndex := selected.value;
        if puzzle[selectedIndex] == puzzle[index] && selectedIndex != index {
          matched := matched + [selectedIndex, index];
        }
        selected := None;
      }
    }

    /** The success message is shown exactly when every card is matched. */
    predicate AllMatched()
      reads this
    {
      |matched| == |puzzle|
    }

    lemma AllMatchedMeansEveryCard()
      requires Valid()
      ensures AllMatched() <==> forall i :: 0 <= i < |puzzle| ==> i in matched
    {
      if AllMatched() {
        AllCardsCovered(matched, |puzzle|);
      } else {
        if forall i :: 0 <= i < |puzzle| ==> i in matched {
          CoveredHasAllCards(matched, |puzzle|);
          DistinctCount(matched);
          SubsetSize(Elements(matched), Range(|puzzle|));
        }
      }
    }
  }

  /** The indices 0 .. n-1 as a set. */
  function Range(n: nat): (r: set<nat>)
    ensures forall i :: i in r <==> 0 <= i < n
    ensures |r| == n
  {
    if n == 0 then {} else Range(n - 1) + {n - 1}
  }

  /** n distinct indices below n cover every index below n. */
  lemma AllCardsCovered(s: seq<nat>, n: nat)
    requires |s| == n && NoDuplicates(s) && forall k :: 0 <= k < |s| ==> s[k] < n
    ensures forall i :: 0 <= i < n ==> i in s
  {
    var present := Elements(s);
    DistinctCount(s);
    assert present <= Range(n);
    if exists i :: 0 <= i < n && i !in s {
      var i :| 0 <= i < n && i !in s;
      assert i in Range(n) && i !in present;
      SubsetSize(present, Range(n) - {i});
      assert false;
    }
  }

  /** A list containing every index below n, with no repeats, has at least n entries. */
  lemma CoveredHasAllCards(s: seq<nat>, n: nat)
    requires NoDuplicates(s) && forall i :: 0 <= i < n ==> i in s
    ensures |s| >= n
  {
    var present := Elements(s);
    DistinctCount(s);
    SubsetSize(Range(n), present);
  }

  lemma SubsetSize(a: set<nat>, b: set<nat>)
    requires a <= b
    ensures |a| <= |b|
  {
    assert b == a + (b - a);
    assert a * (b - a) == {};
  }

  function Elements(s: seq<nat>): set<nat>
  {
    set x: nat | x in s
  }

  /** A list without repeats has as many distinct elements as entries. */
  lemma {:induction false} DistinctCount(s: seq<nat>)
    requires NoDuplicates(s)
    ensures |Elements(s)| == |s|
  {
    if |s| > 0 {
      var init, last := s[..|s| - 1], s[|s| - 1];
      assert s == init + [last];
      assert NoDuplicates(init);
      DistinctCount(init);
      var before := Elements(init);
      assert (Elements(s)) == before + {last};
      assert last !in before;
      assert |before + {last}| == |before| + 1;
    } else {
      assert (Elements(s)) == {};
    }
  }
}
