// What holds of a node over every run of handlers that return normally.
module NodeLaws {
  import opened Bags
  import opened SwapTypes
  import opened Offers
  import opened OfferBook
  import opened OfferMachine
  import opened OfferDeals
  import opened Sorting
  import opened Matching
  import opened Node

  // --- the book and the registry ---------------------------------------------------------------------------

  predicate InBook(b: Book, e: Entry) { e in b.buys || e in b.sells }

  // Both sides sorted and of their own kind, and every id at most once.
  ghost predicate BookInv(b: Book) {
    && Sorted(b.buys) && Sorted(b.sells)
    && (forall e :: e in b.buys ==> e.offer.kind == Buy)
    && (forall e :: e in b.sells ==> e.offer.kind == Sell)
    && (forall e, f :: InBook(b, e) && InBook(b, f) && e.offer.id == f.offer.id ==> e == f)
  }

  lemma RemoveHolds(b: Book, id: OfferId)
    requires BookInv(b)
    ensures BookInv(b.Remove(id))
    ensures forall e :: InBook(b.Remove(id), e) <==> InBook(b, e) && e.offer.id != id
    ensures forall i :: b.Remove(id).Contains(i) <==> b.Contains(i) && i != id
  {
    WithoutHolds(b.buys, id);
    WithoutHolds(b.sells, id);
    if Has(b.buys, id) {
      var e :| e in b.buys && e.offer.id == id;
      assert InBook(b, e);
      forall f | f in b.sells ensures f.offer.id != id { assert InBook(b, f); }
    }
    var b' := b.Remove(id);
    assert forall e :: InBook(b', e) <==> InBook(b, e) && e.offer.id != id;
    ContainsMeans(b);
    ContainsMeans(b');
  }

  lemma ContainsMeans(b: Book)
    ensures forall id :: b.Contains(id) <==> exists e :: InBook(b, e) && e.offer.id == id
  {
    forall id ensures b.Contains(id) <==> exists e :: InBook(b, e) && e.offer.id == id {
      if Has(b.buys, id) { var e :| e in b.buys && e.offer.id == id; assert InBook(b, e); }
      if Has(b.sells, id) { var e :| e in b.sells && e.offer.id == id; assert InBook(b, e); }
    }
  }

  lemma InsertHoldsInBook(b: Book, e: Entry)
    requires BookInv(b) && !b.Contains(e.offer.id)
    ensures BookInv(b.Insert(e))
    ensures forall f :: InBook(b.Insert(e), f) <==> InBook(b, f) || f == e
    ensures forall i :: b.Insert(e).Contains(i) <==> b.Contains(i) || i == e.offer.id
  {
    PutHolds(if e.offer.kind.Buy? then b.buys else b.sells, e);
    ContainsMeans(b);
    forall f | InBook(b, f) ensures f.offer.id != e.offer.id {}
    var b' := b.Insert(e);
    assert forall f :: InBook(b', f) <==> InBook(b, f) || f == e;
    ContainsMeans(b');
    assert InBook(b', e);
  }

  // --- taking offers -----------------------------------------------------------------------------------------

  predicate DistinctIds(s: seq<Entry>) { forall i, j :: 0 <= i < j < |s| ==> s[i].offer.id != s[j].offer.id }

  function Ids(s: seq<Entry>): seq<OfferId> { seq(|s|, i requires 0 <= i < |s| => s[i].offer.id) }

  // An offer just taken, and its match.
  function TakenOffer(e: Entry): Held { Held(e.offer, Taker, Unproved, None) }
  function TakenMatch(e: Entry): Match { Match(Taker, e.initiator, e.proof) }

  // The keys gained and what they hold; nothing else changed.
  ghost predicate Gained<T>(m: map<OfferId, T>, m': map<OfferId, T>, taken: seq<Entry>, value: Entry -> T) {
    && (forall id :: id in m' <==> id in m || id in Ids(taken))
    && (forall e :: e in taken ==> e.offer.id in m' && m'[e.offer.id] == value(e))
    && (forall id :: id in m && id !in Ids(taken) ==> id in m' && m'[id] == m[id])
  }

  ghost predicate Lost(b: Book, b': Book, taken: seq<Entry>) {
    BookInv(b') && forall e :: InBook(b', e) <==> InBook(b, e) && e.offer.id !in Ids(taken)
  }

  // n' is n after the order took these entries out of the book.
  ghost predicate Took(n: Node, n': Node, order: OrderId, taken: seq<Entry>)
    requires order in n.orders
  {
    && Gained(n.offers, n'.offers, taken, TakenOffer)
    && Gained(n.matches, n'.matches, taken, TakenMatch)
    && Lost(n.book, n'.book, taken)
    && n'.orders == n.orders[order := n.orders[order].(offers := n.orders[order].offers + Ids(taken))]
    && (forall id :: id !in Ids(taken) ==> (CanRenew(n', id) <==> CanRenew(n, id)))
  }

  lemma TakenInIds(taken: seq<Entry>)
    ensures forall e :: e in taken ==> e.offer.id in Ids(taken)
  {
    forall e | e in taken ensures e.offer.id in Ids(taken) {
      var i :| 0 <= i < |taken| && taken[i] == e;
      assert Ids(taken)[i] == e.offer.id;
    }
  }

  lemma IdsOfLast(taken: seq<Entry>)
    requires taken != [] && DistinctIds(taken)
    ensures var front, last := taken[..|taken| - 1], taken[|taken| - 1];
            && Ids(taken) == Ids(front) + [last.offer.id] && last.offer.id !in Ids(front) && DistinctIds(front)
            && (forall e :: e in taken <==> e in front || e == last)
            && (forall e :: e in front ==> e.offer.id in Ids(front))
  {
    var front := taken[..|taken| - 1];
    assert taken == front + [taken[|taken| - 1]];
    TakenInIds(front);
  }

  lemma GainOne<T>(m: map<OfferId, T>, m1: map<OfferId, T>, taken: seq<Entry>, value: Entry -> T)
    requires taken != [] && DistinctIds(taken) && Gained(m, m1, taken[..|taken| - 1], value)
    ensures Gained(m, m1[taken[|taken| - 1].offer.id := value(taken[|taken| - 1])], taken, value)
  {
    IdsOfLast(taken);
  }

  lemma LoseOne(b: Book, b1: Book, taken: seq<Entry>)
    requires taken != [] && DistinctIds(taken) && Lost(b, b1, taken[..|taken| - 1])
    ensures Lost(b, b1.Remove(taken[|taken| - 1].offer.id), taken)
  {
    IdsOfLast(taken);
    RemoveHolds(b1, taken[|taken| - 1].offer.id);
  }

  lemma TakeOneHolds(n: Node, n1: Node, order: OrderId, taken: seq<Entry>)
    requires order in n.orders && taken != [] && DistinctIds(taken) && Took(n, n1, order, taken[..|taken| - 1])
    requires InBook(n1.book, taken[|taken| - 1]) && CanRenew(n1, taken[|taken| - 1].offer.id)
    ensures TakeOne(n1, order, taken[|taken| - 1]).Some?
    ensures Took(n, TakeOne(n1, order, taken[|taken| - 1]).value, order, taken)
  {
    var e := taken[|taken| - 1];
    ContainsMeans(n1.book);
    assert n1.book.Contains(e.offer.id);
    var n2 := TakeOne(n1, order, e).value;
    GainOne(n.offers, n1.offers, taken, TakenOffer);
    GainOne(n.matches, n1.matches, taken, TakenMatch);
    LoseOne(n.book, n1.book, taken);
    TakeOneRest(n, n1, n2, order, taken);
  }

  lemma TakeOneRest(n: Node, n1: Node, n2: Node, order: OrderId, taken: seq<Entry>)
    requires order in n.orders && taken != [] && DistinctIds(taken) && Took(n, n1, order, taken[..|taken| - 1])
    requires TakeOne(n1, order, taken[|taken| - 1]) == Some(n2)
    ensures n2.orders == n.orders[order := n.orders[order].(offers := n.orders[order].offers + Ids(taken))]
    ensures forall id :: id !in Ids(taken) ==> (CanRenew(n2, id) <==> CanRenew(n, id))
  {
    IdsOfLast(taken);
    assert n2.orders[order].offers == n.orders[order].offers + Ids(taken);
  }

  // Taking succeeds exactly when no taken offer's timeout has run out already.
  lemma {:induction false} TakeAllHolds(n: Node, order: OrderId, taken: seq<Entry>)
    requires order in n.orders && BookInv(n.book)
    requires DistinctIds(taken) && forall e :: e in taken ==> InBook(n.book, e)
    ensures TakeAll(n, order, taken).Some? <==> forall e :: e in taken ==> CanRenew(n, e.offer.id)
    ensures TakeAll(n, order, taken).Some? ==> Took(n, TakeAll(n, order, taken).value, order, taken)
    decreases |taken|
  {
    if taken == [] {
      assert n.orders[order].offers + [] == n.orders[order].offers;
      assert n.orders[order := n.orders[order]] == n.orders;
    } else {
      IdsOfLast(taken);
      var front, last := taken[..|taken| - 1], taken[|taken| - 1];
      TakeAllHolds(n, order, front);
      if TakeAll(n, order, front).Some? && CanRenew(n, last.offer.id) {
        TakeOneHolds(n, TakeAll(n, order, front).value, order, taken);
      }
    }
  }

  lemma OthersStayNew(n: Node, order: OrderId, taken: seq<Entry>, e: Entry)
    requires order in n.orders && BookInv(n.book) && e.offer.id !in n.offers && InBook(n.book, e)
    requires DistinctIds(taken) && forall f :: f in taken ==> InBook(n.book, f)
    requires TakeAll(n, order, taken).Some? && e.offer.id !in Ids(taken)
    ensures e.offer.id !in TakeAll(n, order, taken).value.offers
    ensures TakeAll(n, order, taken).value.book.Contains(e.offer.id)
  {
    TakeAllHolds(n, order, taken);
    var n' := TakeAll(n, order, taken).value;
    assert InBook(n'.book, e);
    ContainsMeans(n'.book);
  }

  // --- order conservation --------------------------------------------------------------------------------------

  // Base amounts of these offers of the node, and those of them that completed.
  function Bases(offers: map<OfferId, Held>, ids: seq<OfferId>): int {
    if ids == [] then 0
    else Bases(offers, ids[..|ids| - 1]) + (if ids[|ids| - 1] in offers then offers[ids[|ids| - 1]].terms.base else 0)
  }

  lemma {:induction false} BasesOfTaken(offers: map<OfferId, Held>, taken: seq<Entry>)
    requires DistinctIds(taken)
    requires forall e :: e in taken ==> e.offer.id in offers && offers[e.offer.id].terms == e.offer
    ensures Bases(offers, Ids(taken)) == Total(taken)
  {
    if taken != [] {
      var front, last := taken[..|taken| - 1], taken[|taken| - 1];
      IdsOfLast(taken);
      BasesOfTaken(offers, front);
      assert Ids(taken)[..|Ids(taken)| - 1] == Ids(front);
      TotalIsSum(taken);
      TotalIsSum(front);
      assert taken == front + [last];
      assert multiset(taken) == multiset(front) + multiset{last};
      SumAdd(multiset(front), BaseAmount, last);
    }
  }

  lemma {:induction false} BasesDepend(m: map<OfferId, Held>, m': map<OfferId, Held>, ids: seq<OfferId>)
    requires forall id :: id in ids ==> id in m && id in m' && m'[id].terms == m[id].terms
    ensures Bases(m', ids) == Bases(m, ids)
  {
    if ids != [] {
      assert forall id :: id in ids[..|ids| - 1] ==> id in ids;
      BasesDepend(m, m', ids[..|ids| - 1]);
    }
  }

  lemma TwiceCounts(s: seq<Entry>, i: nat, j: nat)
    requires i < j < |s| && s[i] == s[j]
    ensures 2 <= multiset(s)[s[i]]
  {
    assert s == s[..j] + s[j..];
    assert s[..j][i] == s[i] && s[j..][0] == s[j];
    assert s[i] in multiset(s[..j]) && s[j] in multiset(s[j..]);
  }

  lemma {:induction false} AscendingOnce(s: seq<Entry>, e: Entry)
    requires IdsAscend(s)
    ensures multiset(s)[e] <= 1
  {
    if s != [] {
      AscendingOnce(s[1..], e);
      assert s == [s[0]] + s[1..];
      if s[0] == e { assert e !in s[1..]; }
    }
  }

  lemma SubsetDistinct(taken: seq<Entry>, s: seq<Entry>)
    requires IdsAscend(s) && multiset(taken) <= multiset(s)
    ensures DistinctIds(taken) && forall e :: e in taken ==> e in s
  {
    forall e | e in taken ensures e in s { assert e in multiset(taken); }
    forall i, j | 0 <= i < j < |taken| ensures taken[i].offer.id != taken[j].offer.id {
      if taken[i].offer.id == taken[j].offer.id {
        assert taken[i] in s && taken[j] in s;
        var k :| 0 <= k < |s| && s[k] == taken[i];
        var l :| 0 <= l < |s| && s[l] == taken[j];
        assert k == l;
        TwiceCounts(taken, i, j);
        AscendingOnce(s, taken[i]);
      }
    }
  }

  // A negative amount asks for nothing.
  function Asked(amount: int): nat { if amount < 0 then 0 else amount }

  // What an order finds in the book.
  lemma MatchesHold(b: Book, price: real, kind: OfferType, amount: int)
    requires BookInv(b)
    ensures var (taken, left) := Matches(b, price, kind, amount);
            && DistinctIds(taken) && Total(taken) + left == amount && left <= amount
            && (if 0 <= amount then 0 <= left else taken == [])
            && (forall e :: e in taken ==> InBook(b, e) && Price(e.offer) == price && e.offer.kind == kind.Opposite())
            && AllAbove(multiset(b.Opposite(price, kind)) - multiset(taken), left)
  {
    var side := if kind.Sell? then b.buys else b.sells;
    var all := b.Opposite(price, kind);
    AtPriceHolds(side, price);
    LargerIsOrder();
    SortHolds(all, Larger);
    GreedyFills(Sort(all, Larger), amount);
    SubsetDistinct(Matches(b, price, kind, amount).0, all);
  }

  // After the takes, what is left at the price is too large for the remainder.
  lemma NothingLeftFits(b: Book, b': Book, price: real, kind: OfferType, taken: seq<Entry>, left: int)
    requires BookInv(b) && Lost(b, b', taken)
    requires AllAbove(multiset(b.Opposite(price, kind)) - multiset(taken), left)
    ensures AllAbove(multiset(b'.Opposite(price, kind)), left)
  {
    var side, side' := if kind.Sell? then b.buys else b.sells, if kind.Sell? then b'.buys else b'.sells;
    AtPriceHolds(side, price);
    AtPriceHolds(side', price);
    TakenInIds(taken);
    forall e | e in multiset(b'.Opposite(price, kind)) ensures e.offer.base > left {
      assert e in b'.Opposite(price, kind) && InBook(b', e);
      assert e in side && e in b.Opposite(price, kind);
      assert e !in taken;
      assert e in multiset(b.Opposite(price, kind)) - multiset(taken);
    }
  }

  predicate FreshId(n: Node, id: OfferId) { id !in n.offers && id !in n.timeouts && !n.book.Contains(id) }

  // The order's offers are the takes and what it makes; their amounts, the matches and the book fit.
  ghost predicate Conserves(n: Node, n': Node, o: Order, taken: seq<Entry>, left: int, makes: seq<OfferId>) {
    && o.id in n'.orders
    && n'.orders[o.id].offers == Ids(taken) + makes
    && Bases(n'.offers, n'.orders[o.id].offers) == Total(taken) + (if makes == [] then 0 else left)
    && Gained(n.matches, n'.matches, taken, TakenMatch)
    && Lost(n.book, n'.book, taken)
    && AllAbove(multiset(n'.book.Opposite(o.price, o.kind)), left)
  }

  ghost predicate AllRenewable(n: Node, taken: seq<Entry>) { forall e :: e in taken ==> CanRenew(n, e.offer.id) }

  // An order, as processed with a fresh id for the offer it may make: it goes through exactly when no matching
  // offer it takes has a timeout that already ran out, and then its offers add up to its amount, the book loses
  // and the matches gain exactly the takes, and nothing left at its price would fit in the remainder.
  lemma OrderConserved(n: Node, o: Order, makeId: OfferId, timeoutDate: int, taken: seq<Entry>, left: int)
    requires BookInv(n.book) && o.offers == [] && FreshId(n, makeId)
    requires Matches(n.book, o.price, o.kind, o.amount) == (taken, left)
    ensures ProcessOrder(n, o, makeId, timeoutDate).Some? <==> AllRenewable(n, taken)
    ensures AllRenewable(n, taken) ==>
              var n' := ProcessOrder(n, o, makeId, timeoutDate).value;
              && Conserves(n, n', o, taken, left, if left > 0 then [makeId] else [])
              && Bases(n'.offers, n'.orders[o.id].offers) == Asked(o.amount)
  {
    OrderRuns(n, o, makeId, timeoutDate, taken, left);
    if AllRenewable(n, taken) { OrderFits(n, o, makeId, timeoutDate, taken, left); }
  }

  lemma OrderRuns(n: Node, o: Order, makeId: OfferId, timeoutDate: int, taken: seq<Entry>, left: int)
    requires BookInv(n.book) && o.offers == [] && FreshId(n, makeId)
    requires Matches(n.book, o.price, o.kind, o.amount) == (taken, left)
    ensures ProcessOrder(n, o, makeId, timeoutDate).Some? <==> AllRenewable(n, taken)
  {
    var n1 := n.(orders := n.orders[o.id := o]);
    MatchesHold(n.book, o.price, o.kind, o.amount);
    OrderTakes(n, n1, o, taken);
    if AllRenewable(n, taken) { MakeIdRenews(n, n1, TakeAll(n1, o.id, taken).value, o.id, taken, makeId); }
  }

  lemma MakeIdRenews(n: Node, n1: Node, n2: Node, order: OrderId, taken: seq<Entry>, makeId: OfferId)
    requires order in n1.orders && Took(n1, n2, order, taken) && n1.timeouts == n.timeouts && FreshId(n, makeId)
    requires forall e :: e in taken ==> InBook(n.book, e)
    ensures CanRenew(n2, makeId) && makeId !in Ids(taken)
  {
    ContainsMeans(n.book);
    forall i | 0 <= i < |taken| ensures Ids(taken)[i] != makeId { assert taken[i] in taken; }
    assert CanRenew(n1, makeId);
  }

  lemma OrderFits(n: Node, o: Order, makeId: OfferId, timeoutDate: int, taken: seq<Entry>, left: int)
    requires BookInv(n.book) && o.offers == [] && FreshId(n, makeId)
    requires Matches(n.book, o.price, o.kind, o.amount) == (taken, left)
    requires ProcessOrder(n, o, makeId, timeoutDate).Some? && AllRenewable(n, taken)
    ensures var n' := ProcessOrder(n, o, makeId, timeoutDate).value;
            && Conserves(n, n', o, taken, left, if left > 0 then [makeId] else [])
            && Bases(n'.offers, n'.orders[o.id].offers) == Asked(o.amount)
  {
    var n1 := n.(orders := n.orders[o.id := o]);
    MatchesHold(n.book, o.price, o.kind, o.amount);
    OrderTakes(n, n1, o, taken);
    var n2 := TakeAll(n1, o.id, taken).value;
    TakingConserves(n, n1, n2, o, taken, left);
    if left > 0 { MakingConserves(n, n1, n2, o, taken, left, makeId, timeoutDate); }
    MakingAddsUp(n, ProcessOrder(n, o, makeId, timeoutDate).value, o, taken, left, if left > 0 then [makeId] else []);
  }

  lemma MakingAddsUp(n: Node, n': Node, o: Order, taken: seq<Entry>, left: int, makes: seq<OfferId>)
    requires Conserves(n, n', o, taken, left, makes) && Total(taken) + left == o.amount
    requires if makes == [] then left == 0 || (taken == [] && left < 0) else 0 < left
    ensures Bases(n'.offers, n'.orders[o.id].offers) == Asked(o.amount)
  {
    TotalIsSum(taken);
  }

  lemma OrderTakes(n: Node, n1: Node, o: Order, taken: seq<Entry>)
    requires BookInv(n.book) && n1 == n.(orders := n.orders[o.id := o])
    requires DistinctIds(taken) && forall e :: e in taken ==> InBook(n.book, e)
    ensures TakeAll(n1, o.id, taken).Some? <==> AllRenewable(n, taken)
    ensures AllRenewable(n, taken) ==> Took(n1, TakeAll(n1, o.id, taken).value, o.id, taken)
  {
    TakeAllHolds(n1, o.id, taken);
    assert forall e :: e in taken ==> (CanRenew(n1, e.offer.id) <==> CanRenew(n, e.offer.id));
  }

  lemma TakingConserves(n: Node, n1: Node, n2: Node, o: Order, taken: seq<Entry>, left: int)
    requires BookInv(n.book) && DistinctIds(taken)
    requires n1 == n.(orders := n.orders[o.id := o]) && o.offers == [] && Took(n1, n2, o.id, taken)
    requires AllAbove(multiset(n.book.Opposite(o.price, o.kind)) - multiset(taken), left)
    ensures Conserves(n, n2, o, taken, left, [])
  {
    EmptyEnds(Ids(taken));
    NothingLeftFits(n.book, n2.book, o.price, o.kind, taken, left);
    TakenBases(n1.offers, n2.offers, taken);
  }

  lemma EmptyEnds<T>(s: seq<T>)
    ensures [] + s == s && s + [] == s
  {
  }

  lemma TakenBases(m: map<OfferId, Held>, m': map<OfferId, Held>, taken: seq<Entry>)
    requires DistinctIds(taken) && Gained(m, m', taken, TakenOffer)
    ensures Bases(m', Ids(taken)) == Total(taken)
  {
    GainedTerms(m, m', taken);
    BasesOfTaken(m', taken);
  }

  lemma GainedTerms(m: map<OfferId, Held>, m': map<OfferId, Held>, taken: seq<Entry>)
    requires Gained(m, m', taken, TakenOffer)
    ensures forall e :: e in taken ==>
              e.offer.id in m' && m'[e.offer.id].terms == e.offer && m'[e.offer.id].state == Unproved
  {
  }

  lemma MakingConserves(n: Node, n1: Node, n2: Node, o: Order, taken: seq<Entry>, left: Positive, makeId: OfferId,
                        timeoutDate: int)
    requires o.id in n1.orders && Took(n1, n2, o.id, taken) && n1.timeouts == n.timeouts
    requires Conserves(n, n2, o, taken, left, []) && FreshId(n, makeId)
    requires forall e :: e in taken ==> InBook(n.book, e)
    ensures MakeOffer(n2, o.id, left, makeId, timeoutDate).Some?
    ensures Conserves(n, MakeOffer(n2, o.id, left, makeId, timeoutDate).value, o, taken, left, [makeId])
  {
    MakeIdRenews(n, n1, n2, o.id, taken, makeId);
    var n3 := MakeOffer(n2, o.id, left, makeId, timeoutDate).value;
    var ids := n3.orders[o.id].offers;
    assert n2.orders[o.id].offers == Ids(taken) + [] == Ids(taken);
    assert ids == Ids(taken) + [makeId] && ids[..|ids| - 1] == Ids(taken);
    BasesDepend(n2.offers, n3.offers, Ids(taken));
  }

  // --- an order that raises ----------------------------------------------------------------------------------

  // The first take that raises, and what is left then.
  lemma {:induction false} FirstRaise(n: Node, order: OrderId, taken: seq<Entry>) returns (i: nat)
    requires order in n.orders && TakeAll(n, order, taken).None?
    ensures i < |taken| && TakeAll(n, order, taken[..i]).Some? && TakeAll(n, order, taken[..i + 1]).None?
    ensures LeftByTakes(n, order, taken) == Abandoned(TakeAll(n, order, taken[..i]).value, taken[i])
    decreases |taken|
  {
    var front := taken[..|taken| - 1];
    if TakeAll(n, order, front).Some? {
      i := |front|;
      assert taken[..i + 1] == taken;
    } else {
      i := FirstRaise(n, order, front);
      assert front[..i] == taken[..i] && front[..i + 1] == taken[..i + 1];
    }
  }

  lemma PrefixHolds(taken: seq<Entry>, i: nat)
    requires i <= |taken| && DistinctIds(taken)
    ensures DistinctIds(taken[..i]) && (forall e :: e in taken[..i] ==> e in taken)
    ensures i < |taken| ==> taken[i] in taken && taken[i].offer.id !in Ids(taken[..i])
  {
    if i < |taken| {
      forall k | 0 <= k < i ensures Ids(taken[..i])[k] != taken[i].offer.id {}
    }
  }

  lemma AbandonedTwice(n: Node, e: Entry)
    requires InBook(n.book, e)
    ensures Abandoned(n, e).book.Contains(e.offer.id) && !Registry(Abandoned(n, e))
  {
    ContainsMeans(n.book);
    assert e.offer.id in Abandoned(n, e).offers;
  }

  lemma RaisesAt(n: Node, n1: Node, o: Order, taken: seq<Entry>) returns (i: nat, n2: Node)
    requires BookInv(n.book) && n1 == n.(orders := n.orders[o.id := o])
    requires DistinctIds(taken) && forall e :: e in taken ==> InBook(n.book, e)
    requires TakeAll(n1, o.id, taken).None?
    ensures i < |taken| && AllRenewable(n, taken[..i]) && !CanRenew(n, taken[i].offer.id)
    ensures Took(n1, n2, o.id, taken[..i]) && LeftByTakes(n1, o.id, taken) == Abandoned(n2, taken[i])
    ensures InBook(n2.book, taken[i])
  {
    i := FirstRaise(n1, o.id, taken);
    n2 := TakeAll(n1, o.id, taken[..i]).value;
    PrefixHolds(taken, i);
    OrderTakes(n, n1, o, taken[..i]);
    RaisesWhenRunOut(n, n1, o, taken, i);
  }

  // An order raises at the first take whose timeout has run out: the takes before it are done, and the offer in
  // question is left both in the book and among the node's own, so the registry is broken.
  lemma RaisingLeavesHalf(n: Node, o: Order, makeId: OfferId, timeoutDate: int, taken: seq<Entry>, left: int)
    returns (i: nat, n2: Node)
    requires BookInv(n.book) && o.offers == [] && FreshId(n, makeId)
    requires Matches(n.book, o.price, o.kind, o.amount) == (taken, left)
             && ProcessOrder(n, o, makeId, timeoutDate).None?
    ensures i < |taken| && AllRenewable(n, taken[..i]) && !CanRenew(n, taken[i].offer.id)
    ensures Took(n.(orders := n.orders[o.id := o]), n2, o.id, taken[..i])
    ensures LeftByOrder(n, o, makeId, timeoutDate) == Abandoned(n2, taken[i])
    ensures LeftByOrder(n, o, makeId, timeoutDate).book.Contains(taken[i].offer.id)
    ensures !Registry(LeftByOrder(n, o, makeId, timeoutDate))
  {
    var n1 := n.(orders := n.orders[o.id := o]);
    MatchesHold(n.book, o.price, o.kind, o.amount);
    OrderRuns(n, o, makeId, timeoutDate, taken, left);
    OrderTakes(n, n1, o, taken);
    i, n2 := RaisesAt(n, n1, o, taken);
    AbandonedTwice(n2, taken[i]);
  }

  lemma RaisesWhenRunOut(n: Node, n1: Node, o: Order, taken: seq<Entry>, i: nat)
    requires BookInv(n.book) && n1 == n.(orders := n.orders[o.id := o]) && i < |taken|
    requires DistinctIds(taken) && forall e :: e in taken ==> InBook(n.book, e)
    requires TakeAll(n1, o.id, taken[..i]).Some? && TakeAll(n1, o.id, taken[..i + 1]).None?
    ensures !CanRenew(n, taken[i].offer.id)
  {
    PrefixHolds(taken, i);
    PrefixHolds(taken, i + 1);
    OrderTakes(n, n1, o, taken[..i]);
    OrderTakes(n, n1, o, taken[..i + 1]);
    assert forall e :: e in taken[..i + 1] <==> e in taken[..i] || e == taken[i];
  }

  // --- every run -------------------------------------------------------------------------------------------------

  // Past the proof there is a proof, in a deal there is a match.
  predicate DealInv(d: Deal) {
    && (d.state == Proved || d.state == Published || InDeal(d.state) ==> d.proof.Some?)
    && (InDeal(d.state) ==> d.matched.Some?)
  }

  // No id is both in the book and the node's own; every match belongs to an offer of its own.
  ghost predicate Registry(n: Node) {
    && BookInv(n.book)
    && (forall id :: id in n.offers ==> n.offers[id].terms.id == id && !n.book.Contains(id))
    && (forall id :: id in n.matches ==> id in n.offers)
  }

  ghost predicate DealsInv(n: Node) { forall id :: id in n.offers ==> DealInv(DealOf(n, id)) }

  ghost predicate OrderInv(n: Node, o: OrderId)
    requires o in n.orders
  {
    && (forall id :: id in n.orders[o].offers ==> id in n.offers)
    && Bases(n.offers, n.orders[o].offers) == Asked(n.orders[o].amount)
  }

  ghost predicate NodeInv(n: Node) {
    Registry(n) && DealsInv(n) && forall o :: o in n.orders ==> OrderInv(n, o)
  }

  // What the news must not do: reuse ids. An own id is fresh, and a published id is new to the book.
  predicate FreshNews(n: Node, c: Change) {
    match c
    case OrderPlaced(id, _, _, _, _, makeId, _) => id !in n.orders && FreshId(n, makeId)
    case OfferPublished(e) => e.offer.id in n.offers || !n.book.Contains(e.offer.id)
    case _ => true
  }

  // An offer goes on: a pending one stays pending or completes, a completed one stays so.
  predicate GoesOn(s: OfferState, s': OfferState) {
    && (StatusOf(s) == Pending ==> StatusOf(s') == Pending || StatusOf(s') == Done)
    && (s == Completed ==> s' == Completed)
  }

  ghost predicate Progress(n: Node, n': Node) {
    && (forall id :: id in n.offers ==>
          && id in n'.offers && n'.offers[id].terms == n.offers[id].terms
          && GoesOn(n.offers[id].state, n'.offers[id].state))
    && (forall o :: o in n.orders ==> o in n'.orders && n'.orders[o] == n.orders[o])
  }

  // News of one offer; if the offer is the node's own, its state machine hears of it.
  predicate OfOneOffer(c: Change) { !c.OrderPlaced? && !c.TimeoutFired? && !c.OfferTaken? }

  // The response of the node's handlers to news of one of its offers.
  function Respond(d: Deal, c: Change): Reaction
    requires OfOneOffer(c)
  {
    match c
    case OfferTimeout(_) => OnTimeout(d)
    case CommitmentProofCame(proof) => OnCommitmentProof(d, proof)
    case CancellationProofCame(_) => OnCancellationProof(d)
    case OfferPublished(_) => OnPublished(d)
    case TakerCalled(_, initiator, proof) => OnTakerCall(d, initiator, proof)
    case TransferReceived(_) => OnTransfer(d)
  }

  lemma ResponseKeeps(d: Deal, c: Change)
    requires OfOneOffer(c) && DealInv(d) && Respond(d, c).Reacts?
    ensures DealInv(Respond(d, c).deal) && GoesOn(d.state, Respond(d, c).deal.state)
    ensures d.matched.Some? ==> Respond(d, c).deal.matched.Some?
  {
  }

  lemma WithDealKeeps(n: Node, id: OfferId, d: Deal, ds: seq<Dispatch>)
    requires NodeInv(n) && id in n.offers && DealInv(d) && GoesOn(n.offers[id].state, d.state)
    requires id in n.matches ==> d.matched.Some?
    ensures NodeInv(WithDeal(n, id, d, ds)) && Progress(n, WithDeal(n, id, d, ds))
  {
    var n' := WithDeal(n, id, d, ds);
    forall i | i in n'.offers ensures DealInv(DealOf(n', i)) {
      if i != id { assert DealOf(n', i) == DealOf(n, i); }
    }
    forall o | o in n'.orders ensures OrderInv(n', o) {
      assert OrderInv(n, o);
      BasesDepend(n.offers, n'.offers, n.orders[o].offers);
    }
  }

  lemma SameButTimeouts(n: Node, timeouts: map<OfferId, bool>)
    requires NodeInv(n)
    ensures NodeInv(n.(timeouts := timeouts)) && Progress(n, n.(timeouts := timeouts))
  {
    var n' := n.(timeouts := timeouts);
    forall i | i in n'.offers ensures DealInv(DealOf(n', i)) { assert DealOf(n', i) == DealOf(n, i); }
    forall o | o in n'.orders ensures OrderInv(n', o) { assert OrderInv(n, o); }
  }

  lemma OwnNewsKeeps(n: Node, id: OfferId, c: Change)
    requires NodeInv(n) && id in n.offers && OfOneOffer(c)
    requires Respond(DealOf(n, id), c).Reacts?
    ensures var r := Respond(DealOf(n, id), c);
            NodeInv(WithDeal(n, id, r.deal, r.dispatched)) && Progress(n, WithDeal(n, id, r.deal, r.dispatched))
  {
    ResponseKeeps(DealOf(n, id), c);
    var r := Respond(DealOf(n, id), c);
    WithDealKeeps(n, id, r.deal, r.dispatched);
  }

  lemma BookChangeKeeps(n: Node, book: Book)
    requires NodeInv(n) && BookInv(book) && forall id :: id in n.offers ==> !book.Contains(id)
    ensures NodeInv(n.(book := book)) && Progress(n, n.(book := book))
  {
    var n' := n.(book := book);
    forall i | i in n'.offers ensures DealInv(DealOf(n', i)) { assert DealOf(n', i) == DealOf(n, i); }
    forall o | o in n'.orders ensures OrderInv(n', o) { assert OrderInv(n, o); }
  }

  // A new offer of the node's own, still unproved, joins its order.
  ghost predicate Joined(n: Node, n': Node, ids: seq<OfferId>) {
    && (forall id :: id in n'.offers <==> id in n.offers || id in ids)
    && (forall id :: id in ids ==> id !in n.offers && id in n'.offers && n'.offers[id].state == Unproved
                                   && n'.offers[id].terms.id == id && !n'.book.Contains(id))
    && (forall id :: id in n.offers ==> n'.offers[id] == n.offers[id])
    && (forall id :: id in n.matches ==> id in n'.matches && n'.matches[id] == n.matches[id])
    && (forall id :: id in n'.matches ==> id in n.matches || id in ids)
    && BookInv(n'.book) && (forall id :: n'.book.Contains(id) ==> n.book.Contains(id))
  }

  lemma JoiningKeeps(n: Node, n': Node, ids: seq<OfferId>)
    requires NodeInv(n) && Joined(n, n', ids)
    ensures Registry(n') && DealsInv(n')
    ensures forall id :: id in n.offers ==> id in n'.offers && GoesOn(n.offers[id].state, n'.offers[id].state)
  {
    forall i | i in n'.offers ensures DealInv(DealOf(n', i)) {
      if i in n.offers { assert DealInv(DealOf(n, i)); }
    }
  }

  lemma TakingJoins(n: Node, n1: Node, n2: Node, o: OrderId, taken: seq<Entry>)
    requires Registry(n) && n1 == n.(orders := n1.orders) && o in n1.orders && Took(n1, n2, o, taken)
    requires DistinctIds(taken) && forall e :: e in taken ==> InBook(n.book, e)
    ensures Joined(n, n2, Ids(taken))
  {
    ContainsMeans(n.book);
    ContainsMeans(n2.book);
    forall id | id in Ids(taken)
      ensures id !in n.offers && id in n2.offers && n2.offers[id].state == Unproved && n2.offers[id].terms.id == id
              && !n2.book.Contains(id)
    {
      var i :| 0 <= i < |Ids(taken)| && Ids(taken)[i] == id;
      assert taken[i] in taken;
      assert n2.offers[id] == TakenOffer(taken[i]);
    }
  }

  lemma MakingJoins(n: Node, n2: Node, n3: Node, o: OrderId, ids: seq<OfferId>, left: Positive, makeId: OfferId,
                    timeoutDate: int)
    requires Joined(n, n2, ids) && o in n2.orders && FreshId(n, makeId) && makeId !in ids
    requires MakeOffer(n2, o, left, makeId, timeoutDate) == Some(n3)
    ensures Joined(n, n3, ids + [makeId])
  {
  }

  // The node after the takes; the rest, if any, is the offer made.
  lemma OrderStages(n: Node, o: Order, makeId: OfferId, timeoutDate: int, taken: seq<Entry>, left: int)
    returns (n2: Node)
    requires BookInv(n.book) && o.offers == [] && FreshId(n, makeId)
    requires Matches(n.book, o.price, o.kind, o.amount) == (taken, left)
             && ProcessOrder(n, o, makeId, timeoutDate).Some?
    ensures Took(n.(orders := n.orders[o.id := o]), n2, o.id, taken) && DistinctIds(taken) && makeId !in Ids(taken)
    ensures TakeAll(n.(orders := n.orders[o.id := o]), o.id, taken) == Some(n2)
    ensures forall e :: e in taken ==> InBook(n.book, e)
    ensures ProcessOrder(n, o, makeId, timeoutDate)
            == if left > 0 then MakeOffer(n2, o.id, left, makeId, timeoutDate) else Some(n2)
  {
    var n1 := n.(orders := n.orders[o.id := o]);
    MatchesHold(n.book, o.price, o.kind, o.amount);
    OrderRuns(n, o, makeId, timeoutDate, taken, left);
    OrderTakes(n, n1, o, taken);
    n2 := TakeAll(n1, o.id, taken).value;
    ContainsMeans(n.book);
    forall i | 0 <= i < |taken| ensures Ids(taken)[i] != makeId { assert taken[i] in taken; }
  }

  lemma OrderJoins(n: Node, o: Order, makeId: OfferId, timeoutDate: int, taken: seq<Entry>, left: int)
    requires Registry(n) && o.offers == [] && FreshId(n, makeId)
    requires Matches(n.book, o.price, o.kind, o.amount) == (taken, left)
             && ProcessOrder(n, o, makeId, timeoutDate).Some?
    ensures Joined(n, ProcessOrder(n, o, makeId, timeoutDate).value, Ids(taken) + (if left > 0 then [makeId] else []))
  {
    var n2 := OrderStages(n, o, makeId, timeoutDate, taken, left);
    TakingJoins(n, n.(orders := n.orders[o.id := o]), n2, o.id, taken);
    if left > 0 {
      MakingJoins(n, n2, MakeOffer(n2, o.id, left, makeId, timeoutDate).value, o.id, Ids(taken), left, makeId,
                  timeoutDate);
    } else {
      assert Ids(taken) + [] == Ids(taken);
    }
  }

  lemma OrderJoinsOthers(n: Node, o: Order, makeId: OfferId, timeoutDate: int, taken: seq<Entry>, left: int)
    requires BookInv(n.book) && o.offers == [] && FreshId(n, makeId)
    requires Matches(n.book, o.price, o.kind, o.amount) == (taken, left)
             && ProcessOrder(n, o, makeId, timeoutDate).Some?
    ensures var n' := ProcessOrder(n, o, makeId, timeoutDate).value;
            && (forall p :: p in n'.orders <==> p in n.orders || p == o.id)
            && (forall p :: p in n.orders && p != o.id ==> n'.orders[p] == n.orders[p])
            && n'.orders[o.id].amount == o.amount
  {
    var n2 := OrderStages(n, o, makeId, timeoutDate, taken, left);
  }

  // An order takes from the opposite side and makes on its own.
  predicate OnItsSide(h: Held, kind: OfferType) {
    (h.role == Taker && h.terms.kind == kind.Opposite()) || (h.role == Maker && h.terms.kind == kind)
  }

  lemma OrderSides(n: Node, o: Order, makeId: OfferId, timeoutDate: int, id: OfferId)
    requires Registry(n) && o.offers == [] && FreshId(n, makeId)
    requires ProcessOrder(n, o, makeId, timeoutDate).Some?
    requires id in ProcessOrder(n, o, makeId, timeoutDate).value.orders[o.id].offers
    ensures id in ProcessOrder(n, o, makeId, timeoutDate).value.offers
    ensures OnItsSide(ProcessOrder(n, o, makeId, timeoutDate).value.offers[id], o.kind)
  {
    var (taken, left) := Matches(n.book, o.price, o.kind, o.amount);
    var n1 := n.(orders := n.orders[o.id := o]);
    var n2 := OrderStages(n, o, makeId, timeoutDate, taken, left);
    MatchesHold(n.book, o.price, o.kind, o.amount);
    assert n2.orders[o.id].offers == [] + Ids(taken);
    forall i | i in Ids(taken) ensures i in n2.offers && OnItsSide(n2.offers[i], o.kind) {
      TakenSide(n1, n2, o, taken, i);
    }
    if left > 0 { MadeSide(n2, o, left, makeId, timeoutDate, id); }
  }

  lemma TakenSide(n1: Node, n2: Node, o: Order, taken: seq<Entry>, id: OfferId)
    requires o.id in n1.orders && Took(n1, n2, o.id, taken) && id in Ids(taken)
    requires forall e :: e in taken ==> e.offer.kind == o.kind.Opposite()
    ensures id in n2.offers && OnItsSide(n2.offers[id], o.kind)
  {
    var i :| 0 <= i < |Ids(taken)| && Ids(taken)[i] == id;
    assert taken[i] in taken && n2.offers[id] == TakenOffer(taken[i]);
  }

  lemma MadeSide(n2: Node, o: Order, left: Positive, makeId: OfferId, timeoutDate: int, id: OfferId)
    requires o.id in n2.orders && n2.orders[o.id].kind == o.kind && MakeOffer(n2, o.id, left, makeId, timeoutDate).Some?
    requires forall i :: i in n2.orders[o.id].offers ==> i in n2.offers && OnItsSide(n2.offers[i], o.kind)
    requires id in MakeOffer(n2, o.id, left, makeId, timeoutDate).value.orders[o.id].offers
    ensures var n' := MakeOffer(n2, o.id, left, makeId, timeoutDate).value;
            id in n'.offers && OnItsSide(n'.offers[id], o.kind)
  {
  }

  lemma OrderKeepsOrders(n: Node, n': Node, o: Order)
    requires NodeInv(n) && o.id !in n.orders && o.id in n'.orders && OrderInv(n', o.id)
    requires forall p :: p in n'.orders <==> p in n.orders || p == o.id
    requires forall p :: p in n.orders && p != o.id ==> n'.orders[p] == n.orders[p]
    requires forall id :: id in n.offers ==> id in n'.offers && n'.offers[id] == n.offers[id]
    ensures forall p :: p in n'.orders ==> OrderInv(n', p)
  {
    forall p | p in n'.orders ensures OrderInv(n', p) {
      if p in n.orders {
        assert OrderInv(n, p);
        BasesDepend(n.offers, n'.offers, n.orders[p].offers);
      }
    }
  }

  lemma OrderKeeps(n: Node, o: Order, makeId: OfferId, timeoutDate: int)
    requires NodeInv(n) && o.offers == [] && FreshId(n, makeId) && o.id !in n.orders
    requires ProcessOrder(n, o, makeId, timeoutDate).Some?
    ensures NodeInv(ProcessOrder(n, o, makeId, timeoutDate).value)
    ensures Progress(n, ProcessOrder(n, o, makeId, timeoutDate).value)
  {
    var (taken, left) := Matches(n.book, o.price, o.kind, o.amount);
    var n' := ProcessOrder(n, o, makeId, timeoutDate).value;
    var ids := Ids(taken) + (if left > 0 then [makeId] else []);
    OrderConserved(n, o, makeId, timeoutDate, taken, left);
    OrderJoins(n, o, makeId, timeoutDate, taken, left);
    OrderJoinsOthers(n, o, makeId, timeoutDate, taken, left);
    JoiningKeeps(n, n', ids);
    OrderKeepsOrders(n, n', o);
  }

  lemma ProgressChains(n: Node, n1: Node, n2: Node)
    requires Progress(n, n1) && Progress(n1, n2)
    ensures Progress(n, n2)
  {
  }

  lemma TimeoutKeeps(n: Node, id: OfferId)
    requires NodeInv(n) && Handle(n, OfferTimeout(id)).Some?
    ensures NodeInv(Handle(n, OfferTimeout(id)).value) && Progress(n, Handle(n, OfferTimeout(id)).value)
  {
    var n1: Node;
    if id in n.offers {
      var r := OnTimeout(DealOf(n, id));
      n1 := WithDeal(n, id, r.deal, r.dispatched);
      OwnNewsKeeps(n, id, OfferTimeout(id));
    } else if n.book.Contains(id) {
      n1 := n.(book := n.book.Remove(id));
      RemoveHolds(n.book, id);
      BookChangeKeeps(n, n1.book);
    } else {
      n1 := n;
      SameButTimeouts(n, n.timeouts);
    }
    SameButTimeouts(n1, n1.timeouts - {id});
    ProgressChains(n, n1, n1.(timeouts := n1.timeouts - {id}));
  }

  lemma PublishedKeeps(n: Node, e: Entry)
    requires NodeInv(n) && FreshNews(n, OfferPublished(e)) && Handle(n, OfferPublished(e)).Some?
    ensures NodeInv(Handle(n, OfferPublished(e)).value) && Progress(n, Handle(n, OfferPublished(e)).value)
  {
    if e.offer.id in n.offers {
      OwnNewsKeeps(n, e.offer.id, OfferPublished(e));
    } else {
      InsertHoldsInBook(n.book, e);
      var n1 := n.(book := n.book.Insert(e));
      BookChangeKeeps(n, n1.book);
      SameButTimeouts(n1, n1.timeouts[e.offer.id := true]);
      ProgressChains(n, n1, n1.(timeouts := n1.timeouts[e.offer.id := true]));
    }
  }

  lemma TransferKeeps(n: Node, id: OfferId)
    requires NodeInv(n) && Handle(n, TransferReceived(id)).Some?
    ensures NodeInv(Handle(n, TransferReceived(id)).value) && Progress(n, Handle(n, TransferReceived(id)).value)
  {
    OwnNewsKeeps(n, id, TransferReceived(id));
    var r := OnTransfer(DealOf(n, id));
    var n1 := WithDeal(n, id, r.deal, r.dispatched);
    SameButTimeouts(n1, n1.timeouts - {id});
    ProgressChains(n, n1, n1.(timeouts := n1.timeouts - {id}));
  }

  lemma HandleKeeps(n: Node, c: Change)
    requires NodeInv(n) && FreshNews(n, c) && Handle(n, c).Some?
    ensures NodeInv(Handle(n, c).value) && Progress(n, Handle(n, c).value)
  {
    match c
    case OrderPlaced(id, kind, amount, price, lifetime, makeId, timeoutDate) =>
      OrderKeeps(n, Order(id, kind, amount, price, lifetime, []), makeId, timeoutDate);
    case OfferTimeout(id) => TimeoutKeeps(n, id);
    case CommitmentProofCame(proof) => OwnNewsKeeps(n, proof.offerId, c);
    case CancellationProofCame(id) => OwnNewsKeeps(n, id, c);
    case OfferPublished(e) => PublishedKeeps(n, e);
    case TakerCalled(id, _, _) => OwnNewsKeeps(n, id, c);
    case TransferReceived(id) => TransferKeeps(n, id);
    case TimeoutFired(id) =>
      SameButTimeouts(n, if id in n.timeouts then n.timeouts[id := false] else n.timeouts);
    case OfferTaken(id) =>
      RemoveHolds(n.book, id);
      BookChangeKeeps(n, if n.book.Contains(id) then n.book.Remove(id) else n.book);
  }

  // A run of handlers that all return normally, on news that reuses no ids.
  ghost predicate Runs(n: Node, cs: seq<Change>, n': Node)
    decreases |cs|
  {
    if cs == [] then n' == n
    else FreshNews(n, cs[0]) && Handle(n, cs[0]).Some? && Runs(Handle(n, cs[0]).value, cs[1..], n')
  }

  // Registry: over every such run no id is both in the book and among the node's offers, and every match key is
  // an offer of the node; offers only go on.
  lemma {:induction false} RunKeeps(n: Node, cs: seq<Change>, n': Node)
    requires NodeInv(n) && Runs(n, cs, n')
    ensures NodeInv(n') && Progress(n, n')
    decreases |cs|
  {
    if cs != [] {
      HandleKeeps(n, cs[0]);
      RunKeeps(Handle(n, cs[0]).value, cs[1..], n');
      ProgressChains(n, Handle(n, cs[0]).value, n');
    }
  }

  lemma EmptyHolds()
    ensures NodeInv(EMPTY)
  {
  }

  lemma OneEntryMatches(e: Entry)
    ensures var book := Book([], []).Insert(e);
            Matches(book, Price(e.offer), e.offer.kind.Opposite(), e.offer.base).0 == [e]
  {
    var offers := Book([], []).Insert(e).Opposite(Price(e.offer), e.offer.kind.Opposite());
    assert Put([], e) == [e] && AtPrice([e][1..], Price(e.offer)) == [];
    assert offers == [e] && [e][1..] == [];
    assert Sort([e], Larger) == [e];
    assert Greedy([e], e.offer.base).0 == [e] + Greedy([], 0).0;
  }

  // From the empty node: an offer is published and its timeout runs out; before that news is handled, an order for it
  // is placed, and raises.
  lemma RaisingIsReachable(e: Entry, id: OrderId, lifetime: int, makeId: OfferId, timeoutDate: int) returns (n: Node)
    requires makeId != e.offer.id
    ensures Runs(EMPTY, [OfferPublished(e), TimeoutFired(e.offer.id)], n)
    ensures Price(e.offer) >= 0.0
    ensures var c := OrderPlaced(id, e.offer.kind.Opposite(), e.offer.base, Price(e.offer), lifetime, makeId,
                                 timeoutDate);
            FreshNews(n, c) && Handle(n, c).None?
  {
    var cs := [OfferPublished(e), TimeoutFired(e.offer.id)];
    var n1 := Handle(EMPTY, cs[0]).value;
    n := Handle(n1, cs[1]).value;
    assert cs[1..] == [cs[1]] && cs[1..][1..] == [];
    assert Runs(n, [], n) && Runs(n1, cs[1..], n);
    assert Price(e.offer) >= 0.0;
    var o := Order(id, e.offer.kind.Opposite(), e.offer.base, Price(e.offer), lifetime, []);
    OneEntryMatches(e);
    RunKeeps(EMPTY, cs, n);
    OrderConserved(n, o, makeId, timeoutDate, [e], Matches(n.book, o.price, o.kind, o.amount).1);
    assert e in [e];
  }

  // --- fills --------------------------------------------------------------------------------------------------------

  // LimitOrder.amount_traded: base amounts of the order's completed offers.
  function Traded(offers: map<OfferId, Held>, ids: seq<OfferId>): int {
    if ids == [] then 0
    else
      var id := ids[|ids| - 1];
      Traded(offers, ids[..|ids| - 1])
        + (if id in offers && offers[id].state == Completed then offers[id].terms.base else 0)
  }

  lemma {:induction false} TradedGrows(n: Node, n': Node, ids: seq<OfferId>)
    requires Progress(n, n') && forall id :: id in ids ==> id in n.offers
    ensures 0 <= Traded(n.offers, ids) <= Traded(n'.offers, ids) <= Bases(n.offers, ids)
  {
    if ids != [] {
      assert forall id :: id in ids[..|ids| - 1] ==> id in ids;
      TradedGrows(n, n', ids[..|ids| - 1]);
    }
  }

  // Over every run the traded amount of an order never falls and never exceeds the order.
  lemma FillsOnlyGrow(n: Node, cs: seq<Change>, n': Node, o: OrderId)
    requires NodeInv(n) && Runs(n, cs, n') && o in n.orders
    ensures o in n'.orders && n'.orders[o] == n.orders[o]
    ensures 0 <= Traded(n.offers, n.orders[o].offers) <= Traded(n'.offers, n'.orders[o].offers)
            <= Asked(n.orders[o].amount)
  {
    RunKeeps(n, cs, n');
    assert OrderInv(n, o);
    TradedGrows(n, n', n.orders[o].offers);
  }

  // A pending offer is never canceled or reopened, and a completed one has its proof and its match.
  lemma PendingOnlyCompletes(n: Node, cs: seq<Change>, n': Node, id: OfferId)
    requires NodeInv(n) && Runs(n, cs, n') && id in n.offers
    ensures id in n'.offers
    ensures StatusOf(n.offers[id].state) == Pending ==> StatusOf(n'.offers[id].state) in {Pending, Done}
    ensures n'.offers[id].state == Completed ==> n'.offers[id].proof.Some? && id in n'.matches
  {
    RunKeeps(n, cs, n');
    assert DealInv(DealOf(n', id));
  }

  // --- how an offer completes ---------------------------------------------------------------------------------------

  function OfferOf(c: Change): OfferId
    requires OfOneOffer(c)
  {
    match c
    case OfferTimeout(id) => id
    case CommitmentProofCame(proof) => proof.offerId
    case CancellationProofCame(id) => id
    case OfferPublished(e) => e.offer.id
    case TakerCalled(id, _, _) => id
    case TransferReceived(id) => id
  }

  predicate Concerns(c: Change, id: OfferId) { OfOneOffer(c) && OfferOf(c) == id }

  // Inbound payments an offer has had.
  function Paid(s: OfferState): nat { if s == Completed then 2 else if s == WaitForRefund then 1 else 0 }

  predicate PastProof(s: OfferState) { s == Proved || s == Published || InDeal(s) }

  function LevelOf(n: Node, id: OfferId): nat { if id in n.offers then Paid(n.offers[id].state) else 0 }

  predicate IsPastProof(n: Node, id: OfferId) { id in n.offers && PastProof(n.offers[id].state) }

  lemma ResponsePays(d: Deal, c: Change)
    requires OfOneOffer(c) && Respond(d, c).Reacts?
    ensures Paid(Respond(d, c).deal.state) == Paid(d.state) + (if c.TransferReceived? then 1 else 0)
    ensures PastProof(Respond(d, c).deal.state) ==> PastProof(d.state) || c.CommitmentProofCame?
  {
  }

  // Only news of an offer moves it, and a new offer is unproved.
  ghost predicate MovedBy(n: Node, n': Node, c: Change, id: OfferId) {
    if id in n.offers then
      && id in n'.offers
      && (if Concerns(c, id) then
            var r := Respond(DealOf(n, id), c);
            r.Reacts? && n'.offers[id] == n.offers[id].(state := r.deal.state, proof := r.deal.proof)
          else n'.offers[id] == n.offers[id])
    else c != TransferReceived(id) && (id in n'.offers ==> n'.offers[id].state == Unproved)
  }

  lemma OrderMoves(n: Node, o: Order, makeId: OfferId, timeoutDate: int, c: Change, id: OfferId)
    requires Registry(n) && o.offers == [] && FreshId(n, makeId) && c.OrderPlaced?
    requires ProcessOrder(n, o, makeId, timeoutDate).Some?
    ensures MovedBy(n, ProcessOrder(n, o, makeId, timeoutDate).value, c, id)
  {
    var (taken, left) := Matches(n.book, o.price, o.kind, o.amount);
    OrderJoins(n, o, makeId, timeoutDate, taken, left);
  }

  lemma NewsMoves(n: Node, c: Change, id: OfferId)
    requires OfOneOffer(c) && Handle(n, c).Some?
    ensures MovedBy(n, Handle(n, c).value, c, id)
  {
  }

  lemma OfferMoves(n: Node, c: Change, id: OfferId)
    requires NodeInv(n) && FreshNews(n, c) && Handle(n, c).Some?
    ensures MovedBy(n, Handle(n, c).value, c, id)
  {
    if OfOneOffer(c) {
      NewsMoves(n, c, id);
    } else if c.OrderPlaced? {
      OrderMoves(n, Order(c.id, c.kind, c.amount, c.price, c.lifetime, []), c.makeId, c.timeoutDate, c, id);
    }
  }

  lemma StepPays(n: Node, c: Change, id: OfferId)
    requires NodeInv(n) && FreshNews(n, c) && Handle(n, c).Some?
    ensures LevelOf(Handle(n, c).value, id) == LevelOf(n, id) + (if c == TransferReceived(id) then 1 else 0)
    ensures IsPastProof(Handle(n, c).value, id)
            ==> IsPastProof(n, id) || (c.CommitmentProofCame? && c.proof.offerId == id)
  {
    OfferMoves(n, c, id);
    if id in n.offers && Concerns(c, id) { ResponsePays(DealOf(n, id), c); }
  }

  function Transfers(cs: seq<Change>, id: OfferId): nat {
    if cs == [] then 0 else (if cs[0] == TransferReceived(id) then 1 else 0) + Transfers(cs[1..], id)
  }

  // Over every run the payments an offer has had grow by the inbound payments handled for it.
  lemma {:induction false} PaymentsCount(n: Node, cs: seq<Change>, n': Node, id: OfferId)
    requires NodeInv(n) && Runs(n, cs, n')
    ensures LevelOf(n', id) == LevelOf(n, id) + Transfers(cs, id)
    decreases |cs|
  {
    if cs != [] {
      HandleKeeps(n, cs[0]);
      StepPays(n, cs[0], id);
      PaymentsCount(Handle(n, cs[0]).value, cs[1..], n', id);
    }
  }

  // The commitment proof of this offer is handled at i, and no payment to it before.
  predicate ProvedAt(cs: seq<Change>, i: nat, id: OfferId) {
    i < |cs| && cs[i].CommitmentProofCame? && cs[i].proof.offerId == id && Transfers(cs[..i], id) == 0
  }

  lemma {:induction false} ProofComesFirst(n: Node, cs: seq<Change>, n': Node, id: OfferId) returns (i: nat)
    requires NodeInv(n) && Runs(n, cs, n') && !IsPastProof(n, id) && IsPastProof(n', id)
    ensures ProvedAt(cs, i, id)
    decreases |cs|
  {
    if cs == [] {
      assert false;
    } else {
      HandleKeeps(n, cs[0]);
      StepPays(n, cs[0], id);
      i := 0;
      if !IsPastProof(Handle(n, cs[0]).value, id) {
        var j := ProofComesFirst(Handle(n, cs[0]).value, cs[1..], n', id);
        i := j + 1;
        assert cs[..i][0] == cs[0] && cs[..i][1..] == cs[1..][..j];
      }
    }
  }

  // An offer that the node does not have yet, or that has no proof yet, completes over a run exactly when the run
  // handles two inbound payments for it; and then its commitment proof was handled before both.
  lemma CompletedWasProvedAndPaid(n: Node, cs: seq<Change>, n': Node, id: OfferId)
    requires NodeInv(n) && Runs(n, cs, n') && !IsPastProof(n, id)
    ensures id in n'.offers && n'.offers[id].state == Completed <==> Transfers(cs, id) == 2
    ensures Transfers(cs, id) <= 2
    ensures Transfers(cs, id) > 0 ==> exists i :: 0 <= i < |cs| && ProvedAt(cs, i, id)
  {
    PaymentsCount(n, cs, n', id);
    if Transfers(cs, id) > 0 {
      var i := ProofComesFirst(n, cs, n', id);
      assert ProvedAt(cs, i, id);
    }
  }
}
