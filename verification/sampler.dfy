/** Card sampling (`random_cards`): resolve the theme's sub-types, keep the
    cards of those sub-types, reorder them, and take a prefix. The reordering
    that `sort(() => Math.random() - 0.5)` produces is an input permutation;
    nothing is claimed about how likely each permutation is. */
module Sampler {
  import opened Results
  import opened Seqs
  import opened Deck
  import opened Catalog

  /** The filter of `random_cards`: `type` defined and one of the sub-types. */
  predicate Eligible(card: CardInfo, subTypes: seq<string>) {
    card.cardType.Some? && card.cardType.value in subTypes
  }

  /** `Object.values(allCards).filter(...)`, in the deck's enumeration order. */
  function ValidCards(deck: seq<CardInfo>, subTypes: seq<string>): seq<CardInfo> {
    Filter(deck, c => Eligible(c, subTypes))
  }

  function Range(n: nat): seq<nat> {
    seq(n, i => i)
  }

  /** `perm` lists each position `0 .. n-1` exactly once. */
  predicate IsPermutation(perm: seq<nat>, n: nat) {
    multiset(perm) == multiset(Range(n))
  }

  lemma PermutationBounds(perm: seq<nat>, n: nat)
    requires IsPermutation(perm, n)
    ensures |perm| == n
    ensures forall i :: 0 <= i < |perm| ==> perm[i] < n
  {
    assert |multiset(perm)| == |perm|;
    forall i | 0 <= i < |perm|
      ensures perm[i] < n
    {
      assert perm[i] in multiset(perm);
      assert perm[i] in Range(n);
    }
  }

  /** The array after the sort: position `i` holds the element that started
      at `perm[i]`. */
  function Reorder<T>(xs: seq<T>, perm: seq<nat>): (r: seq<T>)
    requires IsPermutation(perm, |xs|)
    ensures |r| == |xs|
  {
    PermutationBounds(perm, |xs|);
    seq(|perm|, i requires 0 <= i < |perm| => xs[perm[i]])
  }

  /** Removing the largest position from a permutation of `0 .. n` leaves a
      permutation of `0 .. n-1`. */
  lemma RemoveLast(perm: seq<nat>, n: nat, j: nat)
    requires IsPermutation(perm, n + 1)
    requires j < |perm| && perm[j] == n
    ensures IsPermutation(perm[..j] + perm[j + 1..], n)
  {
    var rest := perm[..j] + perm[j + 1..];
    assert perm == perm[..j] + [n] + perm[j + 1..];
    assert Range(n + 1) == Range(n) + [n];
    forall x
      ensures multiset(rest)[x] == multiset(Range(n))[x]
    {
      assert multiset(perm)[x] == multiset(rest)[x] + multiset{n}[x];
      assert multiset(Range(n + 1))[x] == multiset(Range(n))[x] + multiset{n}[x];
    }
    assert multiset(rest) == multiset(Range(n));
  }

  /** Reordering `xs` by `perm` is reordering all but the last element by
      `perm` without the last position, with the last element put back at
      the place `j` where `perm` named it. */
  lemma ReorderSplit<T>(xs: seq<T>, perm: seq<nat>, j: nat)
    requires |xs| > 0 && IsPermutation(perm, |xs|)
    requires j < |perm| && perm[j] == |xs| - 1
    ensures IsPermutation(perm[..j] + perm[j + 1..], |xs| - 1)
    ensures var q := Reorder(xs[..|xs| - 1], perm[..j] + perm[j + 1..]);
      Reorder(xs, perm) == q[..j] + [xs[|xs| - 1]] + q[j..]
  {
    var n := |xs| - 1;
    var rest := perm[..j] + perm[j + 1..];
    RemoveLast(perm, n, j);
    PermutationBounds(rest, n);
    var p := Reorder(xs, perm);
    var q := Reorder(xs[..n], rest);
    forall i | 0 <= i < |p|
      ensures p[i] == (q[..j] + [xs[n]] + q[j..])[i]
    {
      if i < j {
        assert rest[i] == perm[i];
      } else if i > j {
        assert rest[i - 1] == perm[i];
      }
    }
  }

  /** Reordering by a permutation keeps every element, as often as before. */
  lemma {:induction false} ReorderMultiset<T>(xs: seq<T>, perm: seq<nat>)
    requires IsPermutation(perm, |xs|)
    ensures multiset(Reorder(xs, perm)) == multiset(xs)
    decreases |xs|
  {
    PermutationBounds(perm, |xs|);
    if |xs| > 0 {
      var n := |xs| - 1;
      assert n in multiset(perm) by {
        assert Range(n + 1)[n] == n;
      }
      var j :| 0 <= j < |perm| && perm[j] == n;
      var rest := perm[..j] + perm[j + 1..];
      ReorderSplit(xs, perm, j);
      ReorderMultiset(xs[..n], rest);
      var q := Reorder(xs[..n], rest);
      assert q == q[..j] + q[j..];
      assert xs == xs[..n] + [xs[n]];
    }
  }

  /** End index of `slice(0, num)` on an array of length `len`: a negative
      `num` counts from the end, and the result is clamped to `0 .. len`. */
  function SliceEnd(len: nat, num: int): (e: nat)
    ensures e <= len
  {
    if num < 0 then (if len + num < 0 then 0 else len + num)
    else if num < len then num else len
  }

  /** `shuffled.slice(0, num)` of the reordered `xs`: a sub-multiset of `xs`,
      and all of it once the slice reaches the end. */
  function Draw<T>(xs: seq<T>, perm: seq<nat>, num: int): (r: seq<T>)
    requires IsPermutation(perm, |xs|)
    ensures |r| == SliceEnd(|xs|, num)
    ensures multiset(r) <= multiset(xs)
    ensures |r| == |xs| ==> multiset(r) == multiset(xs)
  {
    var shuffled := Reorder(xs, perm);
    ReorderMultiset(xs, perm);
    var end := SliceEnd(|shuffled|, num);
    assert shuffled == shuffled[..end] + shuffled[end..];
    shuffled[..end]
  }

  /** `random_cards(allCards, theme, num)` with the sort's permutation `perm`. */
  function RandomCards(deck: seq<CardInfo>, fs: FileSystem, theme: string, perm: seq<nat>, num: int)
    : (r: Result<seq<CardInfo>, Error>)
    requires IsPermutation(perm, |ValidCards(deck, PickSubTypes(fs, theme))|)
    ensures r.Failure? <==> PickSubTypes(fs, theme) == []
    ensures r.Failure? ==> r.error == NoSubTypes(theme)
    ensures r.Success? ==> forall c :: c in r.value ==>
      c.cardType.Some? && c.cardType.value in PickSubTypes(fs, theme)
    ensures r.Success? ==> multiset(r.value) <= multiset(deck)
    ensures r.Success? ==> var valid := |ValidCards(deck, PickSubTypes(fs, theme))|;
      |r.value| == if 0 <= num <= valid then num else if num > valid then valid
                   else if valid + num >= 0 then valid + num else 0
    ensures r.Success? && num >= |ValidCards(deck, PickSubTypes(fs, theme))| ==>
      forall c :: Eligible(c, PickSubTypes(fs, theme)) ==> multiset(r.value)[c] == multiset(deck)[c]
  {
    var subTypes := PickSubTypes(fs, theme);
    if |subTypes| == 0 then Failure(NoSubTypes(theme))
    else
      var valid := ValidCards(deck, subTypes);
      var drawn := Draw(valid, perm, num);
      assert forall c :: c in drawn ==> Eligible(c, subTypes) by {
        forall c | c in drawn
          ensures Eligible(c, subTypes)
        {
          assert multiset(drawn)[c] > 0;
          assert c in valid;
        }
      }
      Success(drawn)
  }

  /** `random_cards` on the sub-type lookup as written. An inherited member
      of length 0 is taken for an empty sub-type list. Any other inherited
      member has no `includes` method: the filter throws at the first card
      whose `type` is defined, and yields no card when there is none. */
  function RandomCardsAsWritten(deck: seq<CardInfo>, fs: FileSystem, theme: string, perm: seq<nat>, num: int)
    : (r: Result<seq<CardInfo>, Error>)
    requires theme !in InheritedKeys ==> IsPermutation(perm, |ValidCards(deck, PickSubTypes(fs, theme))|)
    ensures theme !in InheritedKeys ==> r == RandomCards(deck, fs, theme, perm, num)
    ensures theme in InheritedKeys ==> (r == Failure(NoSubTypes(theme)) <==> theme in ZeroLengthKeys)
    ensures theme in InheritedKeys && theme !in ZeroLengthKeys ==>
      && (r.Failure? <==> exists c :: c in deck && c.cardType.Some?)
      && (r.Failure? ==> r.error == SubTypesNotAList(theme))
      && (r.Success? ==> r.value == [])
  {
    match PickSubTypesAsWritten(fs, theme)
    case Listed(_) => RandomCards(deck, fs, theme, perm, num)
    case Inherited(key) =>
      if key in ZeroLengthKeys then Failure(NoSubTypes(theme))
      else if exists c :: c in deck && c.cardType.Some? then Failure(SubTypesNotAList(theme))
      else Success([])
  }

  /** A custom theme directory called `constructor` holding a `Cups`
      directory, and one `Cups` card: as written the draw throws, because
      the lookup yields the `Object` function, while the own-key lookup
      draws the card. */
  lemma ConstructorThemeThrows(card: CardInfo)
    requires card.cardType == Some("Cups")
    ensures var fs := map[[] := [Entry("constructor", true)], ["constructor"] := [Entry("Cups", true)]];
      && RandomCardsAsWritten([card], fs, "constructor", [0], 1) == Failure(SubTypesNotAList("constructor"))
      && IsPermutation([0], |ValidCards([card], PickSubTypes(fs, "constructor"))|)
      && RandomCards([card], fs, "constructor", [0], 1) == Success([card])
  {
    var fs := map[[] := [Entry("constructor", true)], ["constructor"] := [Entry("Cups", true)]];
    var entries := fs[["constructor"]];
    assert PickSubTypes(fs, "constructor") == ["Cups"] by {
      assert Filter(entries, IsSubTypeDir) == entries by {
        assert entries[1..] == [];
      }
    }
    assert ValidCards([card], ["Cups"]) == [card] by {
      assert [card][1..] == [];
    }
    assert Range(1) == [0];
    assert Reorder([card], [0]) == [card];
  }

  /** The `TouhouTarot` theme only ever yields major arcana. */
  lemma TouhouDrawsMajorArcana(deck: seq<CardInfo>, fs: FileSystem, perm: seq<nat>, num: int)
    requires IsPermutation(perm, |ValidCards(deck, PickSubTypes(fs, "TouhouTarot"))|)
    ensures RandomCards(deck, fs, "TouhouTarot", perm, num).Success?
    ensures forall c :: c in RandomCards(deck, fs, "TouhouTarot", perm, num).value ==>
      c.cardType == Some("MajorArcana")
  {
    assert PickSubTypes(fs, "TouhouTarot") == ["MajorArcana"];
  }
}
