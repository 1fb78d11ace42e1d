// Grouping trades by price, time bin and type, a chunk of groups at a time.
module Grouping {
  import opened Bags
  import opened SwapTypes
  import opened Offers
  import opened Sorting
  import opened Trades

  datatype Key = Key(price: int, bin: int, kind: OfferType)

  datatype Group = Group(key: Key, amount: int)

  datatype Grid = Grid(scale: Positive, interval: Positive)

  function KeyOf(t: Trade, grid: Grid): Key {
    Key(Quantized(Price(t.offer), grid.scale), FindTimeBin(t.timestamp, grid.interval).0, t.offer.kind)
  }

  // Groups are kept in the order of their first trades.
  function Find(gs: seq<Group>, k: Key): nat { if gs == [] || gs[0].key == k then 0 else 1 + Find(gs[1..], k) }

  function AddTrade(gs: seq<Group>, k: Key, amount: int): seq<Group> {
    var i := Find(gs, k);
    if i < |gs| then gs[i := Group(k, gs[i].amount + amount)] else gs + [Group(k, amount)]
  }

  function GroupsOf(ts: seq<Trade>, grid: Grid): seq<Group> {
    if ts == [] then []
    else AddTrade(GroupsOf(ts[..|ts| - 1], grid), KeyOf(ts[|ts| - 1], grid), ts[|ts| - 1].offer.base)
  }

  predicate Earlier(x: Group, y: Group) {
    x.key.bin < y.key.bin || (x.key.bin == y.key.bin && x.key.price < y.key.price)
  }

  // --- what grouping means ---------------------------------------------------------------------------------

  function VolumeAt(ts: seq<Trade>, k: Key, grid: Grid): int {
    if ts == [] then 0
    else VolumeAt(ts[..|ts| - 1], k, grid) + (if KeyOf(ts[|ts| - 1], grid) == k then ts[|ts| - 1].offer.base else 0)
  }

  predicate DistinctKeys(gs: seq<Group>) { forall i, j :: 0 <= i < j < |gs| ==> gs[i].key != gs[j].key }

  predicate HasKey(gs: seq<Group>, k: Key) { exists i :: 0 <= i < |gs| && gs[i].key == k }

  lemma {:induction false} FindHolds(gs: seq<Group>, k: Key)
    ensures Find(gs, k) <= |gs|
    ensures Find(gs, k) < |gs| ==> gs[Find(gs, k)].key == k
    ensures forall i :: 0 <= i < Find(gs, k) ==> gs[i].key != k
  {
    if gs != [] { FindHolds(gs[1..], k); }
  }

  // One group for every key that occurs, no other, with the volume of exactly its trades.
  lemma {:induction false} GroupsAreExact(ts: seq<Trade>, grid: Grid)
    ensures var gs := GroupsOf(ts, grid);
            && DistinctKeys(gs)
            && (forall g :: g in gs ==> g.amount == VolumeAt(ts, g.key, grid))
            && (forall k :: HasKey(gs, k) <==> exists t :: t in ts && KeyOf(t, grid) == k)
  {
    if ts != [] {
      var front, last := ts[..|ts| - 1], ts[|ts| - 1];
      var gs, k := GroupsOf(front, grid), KeyOf(last, grid);
      GroupsAreExact(front, grid);
      FindHolds(gs, k);
      AddingKeys(gs, k, last.offer.base);
      AddingAmounts(front, last, grid);
      assert forall t :: t in ts <==> t in front || t == last;
    }
  }

  lemma AddingKeys(gs: seq<Group>, k: Key, amount: int)
    requires DistinctKeys(gs)
    ensures DistinctKeys(AddTrade(gs, k, amount))
    ensures forall l :: HasKey(AddTrade(gs, k, amount), l) <==> HasKey(gs, l) || l == k
    ensures |AddTrade(gs, k, amount)| == |gs| + (if HasKey(gs, k) then 0 else 1)
  {
    FindHolds(gs, k);
    var gs' := AddTrade(gs, k, amount);
    forall l ensures HasKey(gs', l) <==> HasKey(gs, l) || l == k {
      if HasKey(gs, l) { var i :| 0 <= i < |gs| && gs[i].key == l; assert gs'[i].key == l; }
      assert gs'[Find(gs, k)].key == k;
    }
  }

  lemma AddingAmounts(front: seq<Trade>, last: Trade, grid: Grid)
    requires DistinctKeys(GroupsOf(front, grid))
    requires forall g :: g in GroupsOf(front, grid) ==> g.amount == VolumeAt(front, g.key, grid)
    requires forall k :: HasKey(GroupsOf(front, grid), k) <==> exists t :: t in front && KeyOf(t, grid) == k
    ensures forall g :: g in AddTrade(GroupsOf(front, grid), KeyOf(last, grid), last.offer.base) ==>
              g.amount == VolumeAt(front + [last], g.key, grid)
  {
    var gs, k := GroupsOf(front, grid), KeyOf(last, grid);
    assert (front + [last])[..|front|] == front;
    FindHolds(gs, k);
    if Find(gs, k) == |gs| {
      assert !HasKey(gs, k);
      NoVolume(front, k, grid);
    }
  }

  lemma {:induction false} NoVolume(ts: seq<Trade>, k: Key, grid: Grid)
    requires forall t :: t in ts ==> KeyOf(t, grid) != k
    ensures VolumeAt(ts, k, grid) == 0
  {
    if ts != [] {
      assert ts[|ts| - 1] in ts;
      assert forall t :: t in ts[..|ts| - 1] ==> t in ts;
      NoVolume(ts[..|ts| - 1], k, grid);
    }
  }

  lemma {:induction false} AmountsAddUp(ts: seq<Trade>, grid: Grid)
    ensures Amounts(GroupsOf(ts, grid)) == Volume(ts)
  {
    if ts != [] {
      AmountsAddUp(ts[..|ts| - 1], grid);
      AddingAmount(GroupsOf(ts[..|ts| - 1], grid), KeyOf(ts[|ts| - 1], grid), ts[|ts| - 1].offer.base);
    }
  }

  function Amounts(gs: seq<Group>): int { if gs == [] then 0 else gs[0].amount + Amounts(gs[1..]) }

  lemma {:induction false} AddingAmount(gs: seq<Group>, k: Key, amount: int)
    ensures Amounts(AddTrade(gs, k, amount)) == Amounts(gs) + amount
  {
    FindHolds(gs, k);
    if gs == [] {
      assert Amounts([Group(k, amount)][1..]) == 0;
    } else if gs[0].key == k {
      assert AddTrade(gs, k, amount)[1..] == gs[1..];
    } else {
      AddingAmount(gs[1..], k, amount);
      FindHolds(gs[1..], k);
      assert AddTrade(gs, k, amount) == [gs[0]] + AddTrade(gs[1..], k, amount);
      assert AddTrade(gs, k, amount)[1..] == AddTrade(gs[1..], k, amount);
    }
  }

  // --- groups, told by the trades' own fields ---------------------------------------------------------------------

  // A trade of this type, in the bin that starts at q intervals, at this many whole quanta.
  predicate Describes(kind: OfferType, q: int, quanta: int, t: Trade, grid: Grid) {
    && t.offer.kind == kind
    && q * grid.interval <= t.timestamp < (q + 1) * grid.interval
    && quanta as real <= Price(t.offer) * grid.scale as real < quanta as real + 1.0
  }

  lemma KeyDescribes(t: Trade, grid: Grid, kind: OfferType, q: int, quanta: int)
    ensures KeyOf(t, grid) == Key(quanta, q * grid.interval, kind) <==> Describes(kind, q, quanta, t, grid)
  {
    TimeBinIs(t.timestamp, grid.interval, q);
    QuantaAre(Price(t.offer), grid.scale, quanta);
    TimeBinHolds(t.timestamp, grid.interval);
    assert (q + 1) * grid.interval == q * grid.interval + grid.interval;
  }

  // Two trades share a group exactly when one description of type, bin and quanta fits both.
  lemma SameGroup(t: Trade, u: Trade, grid: Grid)
    ensures KeyOf(t, grid) == KeyOf(u, grid) <==>
              exists kind, q, quanta :: Describes(kind, q, quanta, t, grid) && Describes(kind, q, quanta, u, grid)
  {
    var q, quanta := t.timestamp / grid.interval, Quantized(Price(t.offer), grid.scale);
    KeyDescribes(t, grid, t.offer.kind, q, quanta);
    KeyDescribes(u, grid, t.offer.kind, q, quanta);
    forall kind, p, r | Describes(kind, p, r, t, grid) && Describes(kind, p, r, u, grid)
      ensures KeyOf(t, grid) == KeyOf(u, grid)
    {
      KeyDescribes(t, grid, kind, p, r);
      KeyDescribes(u, grid, kind, p, r);
    }
  }

  function VolumeOf(ts: seq<Trade>, kind: OfferType, q: int, quanta: int, grid: Grid): int {
    if ts == [] then 0
    else
      var last := ts[|ts| - 1];
      VolumeOf(ts[..|ts| - 1], kind, q, quanta, grid)
      + (if Describes(kind, q, quanta, last, grid) then last.offer.base else 0)
  }

  lemma {:induction false} VolumesAgree(ts: seq<Trade>, kind: OfferType, q: int, quanta: int, grid: Grid)
    ensures VolumeAt(ts, Key(quanta, q * grid.interval, kind), grid) == VolumeOf(ts, kind, q, quanta, grid)
  {
    if ts != [] {
      VolumesAgree(ts[..|ts| - 1], kind, q, quanta, grid);
      KeyDescribes(ts[|ts| - 1], grid, kind, q, quanta);
    }
  }

  // A group starts at a whole number of intervals, and its amount is the volume of the trades of its type in the
  // interval from there, at its quanta.
  ghost predicate Described(ts: seq<Trade>, grid: Grid, g: Group) {
    exists q :: g.key.bin == q * grid.interval && g.amount == VolumeOf(ts, g.key.kind, q, g.key.price, grid)
  }

  lemma GroupDescribes(ts: seq<Trade>, grid: Grid, g: Group)
    requires g in GroupsOf(ts, grid)
    ensures Described(ts, grid, g)
  {
    GroupsAreExact(ts, grid);
    var i :| 0 <= i < |GroupsOf(ts, grid)| && GroupsOf(ts, grid)[i] == g;
    assert HasKey(GroupsOf(ts, grid), g.key);
    var t :| t in ts && KeyOf(t, grid) == g.key;
    var q := t.timestamp / grid.interval;
    VolumesAgree(ts, g.key.kind, q, g.key.price, grid);
  }

  // --- a chunk of groups -------------------------------------------------------------------------------------

  // The longest prefix whose trades have at most this many keys.
  predicate LongestWithin(ts: seq<Trade>, n: nat, k: nat, grid: Grid) {
    && n <= |ts|
    && |GroupsOf(ts[..n], grid)| <= k
    && (n < |ts| ==> |GroupsOf(ts[..n + 1], grid)| > k)
  }

  function Remove(gs: seq<Group>, k: Key): seq<Group> {
    var i := Find(gs, k);
    if i < |gs| then gs[..i] + gs[i + 1..] else gs
  }

  // A trade with a new key adds one group at the end, and taking that key out again restores the groups.
  lemma RollingBack(gs: seq<Group>, k: Key, amount: int)
    requires DistinctKeys(gs) && |AddTrade(gs, k, amount)| == |gs| + 1
    ensures Remove(AddTrade(gs, k, amount), k) == gs
  {
    FindHolds(gs, k);
    var gs' := AddTrade(gs, k, amount);
    FindHolds(gs', k);
    assert gs'[|gs|].key == k && Find(gs', k) == |gs|;
  }

  // How many trades are grouped: without a chunk size, or with a negative one, all of them; otherwise those of the
  // longest prefix that has at most chunk keys.
  predicate Chunk(ts: seq<Trade>, n: nat, chunk: Option<int>, grid: Grid) {
    if chunk.None? || chunk.value < 0 then n == |ts| else LongestWithin(ts, n, chunk.value, grid)
  }

  method GroupTrades(ts: seq<Trade>, chunk: Option<int>, grid: Grid) returns (groups: seq<Group>)
    ensures exists n :: 0 <= n <= |ts| && Chunk(ts, n, chunk, grid) && groups == Sort(GroupsOf(ts[..n], grid), Earlier)
  {
    groups := [];
    ghost var n := 0;
    assert ts[..0] == [];
    for i := 0 to |ts|
      invariant n == i && groups == GroupsOf(ts[..i], grid)
      invariant chunk.Some? && 0 <= chunk.value ==> |groups| <= chunk.value
    {
      var key := KeyOf(ts[i], grid);
      ghost var before := groups;
      assert ts[..i + 1][..i] == ts[..i];
      GroupsAreExact(ts[..i], grid);
      AddingKeys(groups, key, ts[i].offer.base);
      groups := AddTrade(groups, key, ts[i].offer.base);
      if chunk.Some? && |groups| == chunk.value + 1 {
        RollingBack(before, key, ts[i].offer.base);
        groups := Remove(groups, key);
        break;
      }
      n := i + 1;
    }
    assert ts[..|ts|] == ts;
    assert Chunk(ts, n, chunk, grid);
    groups := Sort(groups, Earlier);
  }

  lemma EarlierIsOrder()
    ensures StrictWeakOrder(Earlier)
  {
  }

  predicate ByBinThenPrice(gs: seq<Group>) {
    forall i, j :: 0 <= i < j < |gs| ==>
      gs[i].key.bin < gs[j].key.bin || (gs[i].key.bin == gs[j].key.bin && gs[i].key.price <= gs[j].key.price)
  }

  // What is returned is sorted by time bin and then by price, has one exact group for each key of the prefix, and adds
  // up to its volume.
  lemma ChunkIsExact(ts: seq<Trade>, n: nat, grid: Grid)
    requires n <= |ts|
    ensures var sorted := Sort(GroupsOf(ts[..n], grid), Earlier);
            && ByBinThenPrice(sorted) && multiset(sorted) == multiset(GroupsOf(ts[..n], grid))
            && Amounts(sorted) == Volume(ts[..n])
            && (forall g :: g in sorted ==> g.amount == VolumeAt(ts[..n], g.key, grid) && Described(ts[..n], grid, g))
  {
    var gs := GroupsOf(ts[..n], grid);
    EarlierIsOrder();
    SortHolds(gs, Earlier);
    GroupsAreExact(ts[..n], grid);
    AmountsAddUp(ts[..n], grid);
    AmountsAreSum(gs);
    AmountsAreSum(Sort(gs, Earlier));
    forall i, j | 0 <= i < j < |gs|
      ensures !Earlier(Sort(gs, Earlier)[j], Sort(gs, Earlier)[i])
    {
    }
    forall g | g in Sort(gs, Earlier) ensures g in gs && Described(ts[..n], grid, g) {
      assert g in multiset(Sort(gs, Earlier));
      GroupDescribes(ts[..n], grid, g);
    }
  }

  function AmountOf(g: Group): int { g.amount }

  lemma {:induction false} AmountsAreSum(gs: seq<Group>)
    ensures Amounts(gs) == Sum(multiset(gs), AmountOf)
  {
    if gs != [] {
      AmountsAreSum(gs[1..]);
      assert gs == [gs[0]] + gs[1..];
      assert multiset(gs) == multiset(gs[1..]) + multiset{gs[0]};
      SumAdd(multiset(gs[1..]), AmountOf, gs[0]);
    }
  }

  // The number of keys only grows, so there is only one such prefix.
  lemma ChunkIsUnique(ts: seq<Trade>, n: nat, m: nat, chunk: Option<int>, grid: Grid)
    requires Chunk(ts, n, chunk, grid) && Chunk(ts, m, chunk, grid)
    ensures n == m
  {
    if n < m {
      KeysOnlyGrow(ts, n + 1, m, grid);
    } else if m < n {
      KeysOnlyGrow(ts, m + 1, n, grid);
    }
  }

  lemma {:induction false} KeysOnlyGrow(ts: seq<Trade>, n: nat, m: nat, grid: Grid)
    requires n <= m <= |ts|
    ensures |GroupsOf(ts[..n], grid)| <= |GroupsOf(ts[..m], grid)|
    decreases m - n
  {
    if n < m {
      KeysOnlyGrow(ts, n, m - 1, grid);
      assert ts[..m][..m - 1] == ts[..m - 1];
    }
  }
}
