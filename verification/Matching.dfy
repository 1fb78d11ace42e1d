// Matching a limit order: greedily take the largest opposite offers at the order's price that still fit.
module Matching {
  import opened Bags
  import opened SwapTypes
  import opened Offers
  import opened OfferBook
  import opened Sorting

  // Largest base amount first.
  predicate Larger(x: Entry, y: Entry) { x.offer.base > y.offer.base }

  function Greedy(s: seq<Entry>, left: int): (seq<Entry>, int) {
    if s == [] then ([], left)
    else if left >= s[0].offer.base then
      var (taken, rest) := Greedy(s[1..], left - s[0].offer.base);
      ([s[0]] + taken, rest)
    else Greedy(s[1..], left)
  }

  // The offers an order takes from a book, and the amount it could not fill.
  function Matches(book: Book, price: real, kind: OfferType, amount: int): (seq<Entry>, int) {
    Greedy(Sort(book.Opposite(price, kind), Larger), amount)
  }

  method MatchLimit(offers: OfferBook, price: real, kind: OfferType, amount: int) returns (taken: seq<Entry>, left: int)
    requires offers.Valid()
    ensures (taken, left) == Matches(offers.Value(), price, kind, amount)
  {
    var matching := offers.GetOffersByPrice(price, kind);
    matching := Sort(matching, Larger);
    taken, left := [], amount;
    assert matching[0..] == matching && [] + Greedy(matching, amount).0 == Greedy(matching, amount).0;
    for i := 0 to |matching|
      invariant (taken + Greedy(matching[i..], left).0, Greedy(matching[i..], left).1) == Greedy(matching, amount)
    {
      var offer := matching[i];
      assert matching[i..][1..] == matching[i + 1..];
      if left >= offer.offer.base {
        assert taken + ([offer] + Greedy(matching[i + 1..], left - offer.offer.base).0)
            == taken + [offer] + Greedy(matching[i + 1..], left - offer.offer.base).0;
        taken := taken + [offer];
        left := left - offer.offer.base;
      }
    }
    assert matching[|matching|..] == [] && taken + [] == taken;
  }

  // --- what greed achieves ---------------------------------------------------------------------------------

  ghost predicate AllAbove(m: multiset<Entry>, amount: int) { forall e :: e in m ==> e.offer.base > amount }

  function Total(s: seq<Entry>): int { if s == [] then 0 else s[0].offer.base + Total(s[1..]) }

  lemma {:induction false} TotalIsSum(s: seq<Entry>)
    ensures Total(s) == Sum(multiset(s), BaseAmount) >= 0
  {
    if s != [] {
      TotalIsSum(s[1..]);
      assert s == [s[0]] + s[1..];
      assert multiset(s) == multiset(s[1..]) + multiset{s[0]};
      SumAdd(multiset(s[1..]), BaseAmount, s[0]);
    }
  }

  // Taken and left over make up the amount; only offers of the list are taken; what stays would not fit.
  lemma {:induction false} GreedyFills(s: seq<Entry>, amount: int)
    ensures var (taken, left) := Greedy(s, amount);
            && Total(taken) + left == amount
            && left <= amount && (0 <= amount ==> 0 <= left)
            && (amount <= 0 ==> taken == [])
            && multiset(taken) <= multiset(s)
            && AllAbove(multiset(s) - multiset(taken), left)
  {
    if s != [] {
      assert s == [s[0]] + s[1..];
      var rest := if amount >= s[0].offer.base then amount - s[0].offer.base else amount;
      GreedyFills(s[1..], rest);
      var (taken, left) := Greedy(s[1..], rest);
      TakingFirst(s, taken);
      SkippingFirst(s, taken, left);
    }
  }

  // After 'before' has been taken and nothing larger remains: either all that stays is larger than the whole
  // amount, or more than half of it gets filled.
  lemma {:induction false} GreedyHalves(s: seq<Entry>, before: int, left: int)
    requires Ordered(s, Larger) && 0 <= before
    requires 0 < before ==> forall e :: e in s ==> e.offer.base <= before
    ensures var taken := Greedy(s, left).0;
            || AllAbove(multiset(s) - multiset(taken), before + left)
            || 2 * (before + Total(taken)) > before + left
  {
    if s != [] {
      FirstIsLargest(s);
      var first := s[0];
      if left >= first.offer.base {
        GreedyHalves(s[1..], before + first.offer.base, left - first.offer.base);
        TakingFirst(s, Greedy(s[1..], left - first.offer.base).0);
      } else {
        GreedyHalves(s[1..], before, left);
        TotalIsSum(Greedy(s[1..], left).0);
        SkippingFirst(s, Greedy(s[1..], left).0, before + left);
      }
    }
  }

  lemma FirstIsLargest(s: seq<Entry>)
    requires Ordered(s, Larger) && s != []
    ensures Ordered(s[1..], Larger) && forall e :: e in s ==> e.offer.base <= s[0].offer.base
    ensures forall e :: e in s[1..] ==> e in s
  {
    forall e | e in s ensures e.offer.base <= s[0].offer.base {
      var i :| 0 <= i < |s| && s[i] == e;
      if 0 < i { assert !Larger(s[i], s[0]); }
    }
  }

  lemma TakingFirst(s: seq<Entry>, taken: seq<Entry>)
    requires s != []
    ensures multiset(s) - multiset([s[0]] + taken) == multiset(s[1..]) - multiset(taken)
    ensures Total([s[0]] + taken) == s[0].offer.base + Total(taken)
  {
    assert s == [s[0]] + s[1..];
    assert ([s[0]] + taken)[1..] == taken;
  }

  lemma SkippingFirst(s: seq<Entry>, taken: seq<Entry>, amount: int)
    requires s != []
    ensures s[0].offer.base > amount && AllAbove(multiset(s[1..]) - multiset(taken), amount)
            ==> AllAbove(multiset(s) - multiset(taken), amount)
  {
    assert s == [s[0]] + s[1..];
    assert forall e :: e in multiset(s) - multiset(taken) ==> e == s[0] || e in multiset(s[1..]) - multiset(taken);
  }

  lemma LargerIsOrder()
    ensures StrictWeakOrder(Larger)
  {
  }

  // Every order, every book: either all offers that stay in the book at this price are larger than the order, or
  // more than half of the order is filled.
  lemma MatchTakesAllOrHalf(book: Book, price: real, kind: OfferType, amount: int)
    requires 0 <= amount
    ensures var (taken, left) := Matches(book, price, kind, amount);
            var all := multiset(book.Opposite(price, kind));
            || AllAbove(all - multiset(taken), amount)
            || 2 * (amount - left) > amount
  {
    var offers := book.Opposite(price, kind);
    LargerIsOrder();
    SortHolds(offers, Larger);
    GreedyHalves(Sort(offers, Larger), 0, amount);
    GreedyFills(Sort(offers, Larger), amount);
  }

  // No choice among the matching offers that fits the order fills more than twice what was taken.
  lemma MatchWithinTwice(book: Book, price: real, kind: OfferType, amount: int, choice: multiset<Entry>)
    requires choice <= multiset(book.Opposite(price, kind)) && Sum(choice, BaseAmount) <= amount
    ensures Sum(choice, BaseAmount) <= 2 * Total(Matches(book, price, kind, amount).0)
  {
    var offers := book.Opposite(price, kind);
    var (taken, left) := Matches(book, price, kind, amount);
    SumNonNegative(choice, BaseAmount);
    MatchTakesAllOrHalf(book, price, kind, amount);
    if AllAbove(multiset(offers) - multiset(taken), amount) {
      ChoiceIsTaken(choice, multiset(offers), taken, amount);
      TotalIsSum(taken);
    } else {
      GreedyFills(Sort(offers, Larger), amount);
    }
  }

  // When all offers not taken are too large for the amount, whatever fits the amount was taken.
  lemma ChoiceIsTaken(choice: multiset<Entry>, offers: multiset<Entry>, taken: seq<Entry>, amount: int)
    requires choice <= offers && Sum(choice, BaseAmount) <= amount && AllAbove(offers - multiset(taken), amount)
    ensures Sum(choice, BaseAmount) <= Sum(multiset(taken), BaseAmount)
  {
    forall e | e in choice ensures choice[e] <= multiset(taken)[e] {
      FitsAlone(choice, e);
      assert e !in offers - multiset(taken);
    }
    SumMonotone(choice, multiset(taken), BaseAmount);
  }

  lemma FitsAlone(choice: multiset<Entry>, e: Entry)
    requires e in choice
    ensures e.offer.base <= Sum(choice, BaseAmount)
  {
    SumRemove(choice, BaseAmount, e);
    SumNonNegative(choice - multiset{e}, BaseAmount);
  }

  // The factor cannot be improved: offers of k+1, k and k at one price, and an order for 2k.
  function OfferOf(id: OfferId, base: Positive): Entry {
    Entry(BasicOffer(id, Sell, base, base, 0), 0, Proof(0, 0, 0, id))
  }

  lemma OfferOfPrice(id: OfferId, base: Positive)
    ensures Price(OfferOf(id, base).offer) == 1.0
  {
    var b := base as real;
    assert b > 0.0;
    assert b / b == 1.0;
  }

  lemma AllAtPrice(large: Entry, small: Entry, other: Entry)
    requires Price(large.offer) == Price(small.offer) == Price(other.offer) == 1.0
    ensures AtPrice([large, small, other], 1.0) == [large, small, other]
  {
    assert AtPrice([other], 1.0) == [other];
    assert [small, other][1..] == [other] && [large, small, other][1..] == [small, other];
    assert AtPrice([small, other], 1.0) == [small, other];
  }

  lemma AlreadySorted(large: Entry, small: Entry, other: Entry)
    requires large.offer.base >= small.offer.base >= other.offer.base
    ensures Sort([large, small, other], Larger) == [large, small, other]
  {
    assert [small, other][1..] == [other] && [large, small, other][1..] == [small, other];
    assert Sort([other], Larger) == [other];
    assert Sort([small, other], Larger) == [small, other];
  }

  lemma TwiceIsTight(k: Positive)
    ensures var large, small, other := OfferOf(0, k + 1), OfferOf(1, k), OfferOf(2, k);
            var book := Book([], [large, small, other]);
            && Sorted(book.sells)
            && Matches(book, 1.0, Buy, 2 * k) == ([large], k - 1)
            && multiset{small, other} <= multiset(book.Opposite(1.0, Buy))
            && Sum(multiset{small, other}, BaseAmount) == 2 * k
  {
    var large, small, other := OfferOf(0, k + 1), OfferOf(1, k), OfferOf(2, k);
    OfferOfPrice(0, k + 1);
    OfferOfPrice(1, k);
    OfferOfPrice(2, k);
    AllAtPrice(large, small, other);
    AlreadySorted(large, small, other);
    assert [small, other][1..] == [other] && [large, small, other][1..] == [small, other];
    assert Greedy([other], k - 1) == ([], k - 1);
    assert Greedy([small, other], k - 1) == ([], k - 1);
    assert [large] + Greedy([small, other], k - 1).0 == [large];
    SumOfTwo(small, other);
  }

  lemma SumOfTwo(x: Entry, y: Entry)
    ensures Sum(multiset{x, y}, BaseAmount) == x.offer.base + y.offer.base
  {
    SumAdd(multiset{x}, BaseAmount, y);
    SumAdd(multiset{}, BaseAmount, x);
    assert multiset{x, y} == multiset{x} + multiset{y} && multiset{} + multiset{x} == multiset{x};
  }
}
