// The offer book: every side keeps its entries sorted by price and id, and indexed by id.
module OfferBook {
  import opened SwapTypes
  import opened Offers

  // --- a sorted side, as a sequence ---------------------------------------------------------------------

  predicate Before(x: Entry, y: Entry) {
    Price(x.offer) < Price(y.offer) || (Price(x.offer) == Price(y.offer) && x.offer.id < y.offer.id)
  }

  predicate SameKey(x: Entry, y: Entry) { Price(x.offer) == Price(y.offer) && x.offer.id == y.offer.id }

  predicate Sorted(s: seq<Entry>) { forall i, j :: 0 <= i < j < |s| ==> Before(s[i], s[j]) }

  // Writing a key of a sorted dictionary: an equal key is overwritten, a new one goes where it belongs.
  function Put(s: seq<Entry>, e: Entry): seq<Entry> {
    if s == [] then [e]
    else if Before(s[0], e) then [s[0]] + Put(s[1..], e)
    else if SameKey(s[0], e) then [e] + s[1..]
    else [e] + s
  }

  function Without(s: seq<Entry>, id: OfferId): seq<Entry> {
    if s == [] then []
    else if s[0].offer.id == id then Without(s[1..], id)
    else [s[0]] + Without(s[1..], id)
  }

  function AtPrice(s: seq<Entry>, price: real): seq<Entry> {
    if s == [] then []
    else (if Price(s[0].offer) == price then [s[0]] else []) + AtPrice(s[1..], price)
  }

  lemma {:induction false} PutMembers(s: seq<Entry>, e: Entry, x: Entry)
    requires Sorted(s)
    ensures x in Put(s, e) <==> x == e || (x in s && !SameKey(x, e))
  {
    if s != [] {
      assert x in s <==> x == s[0] || x in s[1..];
      if Before(s[0], e) {
        PutMembers(s[1..], e, x);
      } else if x in s[1..] {
        assert Before(s[0], x);
      }
    }
  }

  lemma {:induction false} PutSorted(s: seq<Entry>, e: Entry)
    requires Sorted(s)
    ensures Sorted(Put(s, e))
  {
    if s != [] && Before(s[0], e) {
      PutSorted(s[1..], e);
      forall x | x in Put(s[1..], e) ensures Before(s[0], x) { PutMembers(s[1..], e, x); }
    } else if s != [] && !SameKey(s[0], e) {
      forall x | x in s ensures Before(e, x) {}
    }
  }

  lemma PutHolds(s: seq<Entry>, e: Entry)
    requires Sorted(s)
    ensures Sorted(Put(s, e)) && e in Put(s, e)
    ensures forall x :: x in Put(s, e) <==> x == e || (x in s && !SameKey(x, e))
  {
    PutSorted(s, e);
    forall x ensures x in Put(s, e) <==> x == e || (x in s && !SameKey(x, e)) { PutMembers(s, e, x); }
  }

  lemma {:induction false} WithoutHolds(s: seq<Entry>, id: OfferId)
    requires Sorted(s)
    ensures Sorted(Without(s, id))
    ensures forall x :: x in Without(s, id) <==> x in s && x.offer.id != id
  {
    if s != [] {
      WithoutHolds(s[1..], id);
      assert forall x :: x in s <==> x == s[0] || x in s[1..];
    }
  }

  predicate IdsAscend(s: seq<Entry>) { forall i, j :: 0 <= i < j < |s| ==> s[i].offer.id < s[j].offer.id }

  lemma {:induction false} AtPriceHolds(s: seq<Entry>, price: real)
    requires Sorted(s)
    ensures IdsAscend(AtPrice(s, price))
    ensures forall x :: x in AtPrice(s, price) <==> x in s && Price(x.offer) == price
  {
    if s != [] {
      AtPriceHolds(s[1..], price);
      assert forall x :: x in s <==> x == s[0] || x in s[1..];
    }
  }

  // What the early exit relies on.
  lemma {:induction false} NoneBeyond(s: seq<Entry>, price: real)
    requires Sorted(s) && s != [] && Price(s[0].offer) > price
    ensures AtPrice(s, price) == []
    decreases |s|
  {
    if |s| > 1 { NoneBeyond(s[1..], price); }
  }

  lemma {:induction false} AtPriceConcat(s: seq<Entry>, t: seq<Entry>, price: real)
    ensures AtPrice(s + t, price) == AtPrice(s, price) + AtPrice(t, price)
  {
    if s == [] {
      assert s + t == t;
    } else {
      var first := if Price(s[0].offer) == price then [s[0]] else [];
      AtPriceConcat(s[1..], t, price);
      assert (s + t)[0] == s[0] && (s + t)[1..] == s[1..] + t;
      assert first + (AtPrice(s[1..], price) + AtPrice(t, price))
             == (first + AtPrice(s[1..], price)) + AtPrice(t, price);
    }
  }

  lemma AtPriceNext(s: seq<Entry>, i: nat, price: real)
    requires i < |s|
    ensures AtPrice(s[..i + 1], price) == AtPrice(s[..i], price) + (if Price(s[i].offer) == price then [s[i]] else [])
  {
    assert s[..i + 1] == s[..i] + [s[i]];
    AtPriceConcat(s[..i], [s[i]], price);
  }

  // The scan may stop at the first higher price.
  lemma AtPriceStops(s: seq<Entry>, i: nat, price: real)
    requires Sorted(s) && i <= |s| && (i < |s| ==> Price(s[i].offer) > price)
    ensures AtPrice(s, price) == AtPrice(s[..i], price)
  {
    assert s == s[..i] + s[i..];
    AtPriceConcat(s[..i], s[i..], price);
    if i < |s| { NoneBeyond(s[i..], price); }
  }

  lemma {:induction false} PutSkips(s: seq<Entry>, i: nat, e: Entry)
    requires i <= |s| && forall j :: 0 <= j < i ==> Before(s[j], e)
    ensures Put(s, e) == s[..i] + Put(s[i..], e)
    decreases i
  {
    if i == 0 {
      assert s[0..] == s;
    } else {
      PutSkips(s[1..], i - 1, e);
      assert s[1..][i - 1..] == s[i..] && [s[0]] + s[1..][..i - 1] == s[..i];
    }
  }

  lemma {:induction false} WithoutSkips(s: seq<Entry>, i: nat, id: OfferId)
    requires i <= |s| && forall j :: 0 <= j < i ==> s[j].offer.id != id
    ensures Without(s, id) == s[..i] + Without(s[i..], id)
    decreases i
  {
    if i == 0 {
      assert s[0..] == s;
    } else {
      WithoutSkips(s[1..], i - 1, id);
      assert s[1..][i - 1..] == s[i..] && [s[0]] + s[1..][..i - 1] == s[..i];
    }
  }

  lemma {:induction false} NothingLeft(s: seq<Entry>, id: OfferId)
    requires forall x :: x in s ==> x.offer.id != id
    ensures Without(s, id) == s
  {
    if s != [] { NothingLeft(s[1..], id); }
  }

  // --- the two indexes --------------------------------------------------------------------------------------

  // The sorted index and the id index hold the same entries, each id once.
  predicate Agree(entries: seq<Entry>, byId: map<OfferId, Entry>) {
    && Sorted(entries)
    && (forall e :: e in entries ==> e.offer.id in byId && byId[e.offer.id] == e)
    && (forall id :: id in byId ==> byId[id] in entries && byId[id].offer.id == id)
  }

  // Adding an entry leaves the indexes in agreement exactly when its id is unused or used at the same price:
  // otherwise the old entry stays behind in the sorted index.
  lemma AddingAgreesIff(entries: seq<Entry>, byId: map<OfferId, Entry>, e: Entry)
    requires Agree(entries, byId)
    ensures Agree(Put(entries, e), byId[e.offer.id := e])
            <==> (e.offer.id !in byId || Price(byId[e.offer.id].offer) == Price(e.offer))
  {
    PutHolds(entries, e);
    var after := byId[e.offer.id := e];
    if e.offer.id in byId && Price(byId[e.offer.id].offer) != Price(e.offer) {
      var stale := byId[e.offer.id];
      assert stale in Put(entries, e) && after[stale.offer.id] == e;
    } else {
      forall x | x in Put(entries, e) ensures x.offer.id in after && after[x.offer.id] == x {
        if x != e { assert byId[x.offer.id] == x; }
      }
    }
  }

  lemma RemovingAgrees(entries: seq<Entry>, byId: map<OfferId, Entry>, id: OfferId)
    requires Agree(entries, byId)
    ensures Agree(Without(entries, id), byId - {id})
  {
    WithoutHolds(entries, id);
  }

  // --- every run of a side ----------------------------------------------------------------------------------

  datatype Operation = Add(entry: Entry) | Drop(id: OfferId)

  datatype Side = Side(entries: seq<Entry>, byId: map<OfferId, Entry>) {
    function Apply(op: Operation): Side {
      match op
      case Add(e) => Side(Put(entries, e), byId[e.offer.id := e])
      case Drop(id) => Side(Without(entries, id), byId - {id})
    }
  }

  function After(ops: seq<Operation>): Side {
    if ops == [] then Side([], map[]) else After(ops[..|ops| - 1]).Apply(ops[|ops| - 1])
  }

  // What a plain set of entries would hold after the run.
  function Surviving(ops: seq<Operation>): set<Entry> {
    if ops == [] then {}
    else
      var before := Surviving(ops[..|ops| - 1]);
      match ops[|ops| - 1]
      case Add(e) => before + {e}
      case Drop(id) => set e | e in before && e.offer.id != id
  }

  // Every entry is added under an id that is not in use.
  predicate IdsUnused(ops: seq<Operation>) {
    ops != [] ==>
      && IdsUnused(ops[..|ops| - 1])
      && (ops[|ops| - 1].Add? ==>
            forall e :: e in Surviving(ops[..|ops| - 1]) ==> e.offer.id != ops[|ops| - 1].entry.offer.id)
  }

  ghost predicate Holds(side: Side, es: set<Entry>) {
    Agree(side.entries, side.byId) && forall e :: e in side.entries <==> e in es
  }

  lemma ApplyHolds(side: Side, es: set<Entry>, op: Operation, es': set<Entry>)
    requires Holds(side, es) && (op.Add? ==> forall e :: e in es ==> e.offer.id != op.entry.offer.id)
    requires forall e :: e in es' <==> if op.Add? then e in es || e == op.entry else e in es && e.offer.id != op.id
    ensures Holds(side.Apply(op), es')
  {
    match op
    case Add(e) =>
      PutHolds(side.entries, e);
      assert forall id :: id in side.byId ==> side.byId[id] in es;
      AddingAgreesIff(side.entries, side.byId, e);
    case Drop(id) =>
      WithoutHolds(side.entries, id);
      RemovingAgrees(side.entries, side.byId, id);
  }

  // After any run the two indexes agree on the surviving entries.
  lemma {:induction false} RunHolds(ops: seq<Operation>)
    requires IdsUnused(ops)
    ensures Holds(After(ops), Surviving(ops))
  {
    if ops != [] {
      var before := ops[..|ops| - 1];
      RunHolds(before);
      ApplyHolds(After(before), Surviving(before), ops[|ops| - 1], Surviving(ops));
    }
  }

  // So after any run the scan finds the surviving entries at the price, all of them, by ascending id.
  lemma ScanFindsSurvivors(ops: seq<Operation>, price: real)
    requires IdsUnused(ops)
    ensures IdsAscend(AtPrice(After(ops).entries, price))
    ensures forall e :: e in AtPrice(After(ops).entries, price) <==> e in Surviving(ops) && Price(e.offer) == price
  {
    RunHolds(ops);
    AtPriceHolds(After(ops).entries, price);
  }

  // An entry, and one under the same id at twice the price.
  const CHEAP := Entry(BasicOffer(0, Sell, 1, 1, 0), 0, Proof(0, 0, 0, 0))
  const DEAR := Entry(BasicOffer(0, Sell, 1, 2, 0), 0, Proof(0, 0, 0, 0))

  // Added one after the other, the first stays in the sorted index alone.
  lemma StaleEntryStays()
    ensures var side := After([Add(CHEAP), Add(DEAR)]);
            CHEAP in side.entries && side.byId[0] == DEAR && !Agree(side.entries, side.byId)
  {
    assert Price(CHEAP.offer) == 1.0 && Price(DEAR.offer) == 2.0;
    var once, twice := [Add(CHEAP)], [Add(CHEAP), Add(DEAR)];
    assert once[..0] == [] && twice[..1] == once;
    assert After(once) == Side([CHEAP], map[0 := CHEAP]);
    AddingAgreesIff([CHEAP], map[0 := CHEAP], DEAR);
    PutHolds([CHEAP], DEAR);
  }

  class OfferView {
    var entries: seq<Entry>
    var byId: map<OfferId, Entry>

    predicate Valid()
      reads this
    {
      Agree(entries, byId)
    }

    function Value(): Side
      reads this
    {
      Side(entries, byId)
    }

    constructor ()
      ensures Valid() && Value() == After([])
    {
      entries, byId := [], map[];
    }

    // entries[(price, id)] = entry
    method SetItem(e: Entry)
      modifies this`entries
      ensures entries == Put(old(entries), e)
    {
      var i := 0;
      while i < |entries| && Before(entries[i], e)
        invariant 0 <= i <= |entries|
        invariant forall j :: 0 <= j < i ==> Before(entries[j], e)
      {
        i := i + 1;
      }
      PutSkips(entries, i, e);
      if i < |entries| && SameKey(entries[i], e) {
        entries := entries[..i] + [e] + entries[i + 1..];
      } else {
        entries := entries[..i] + [e] + entries[i..];
      }
    }

    method AddOffer(e: Entry)
      requires Valid()
      modifies this
      ensures Value() == old(Value()).Apply(Add(e))
      ensures Valid() <==> e.offer.id !in old(byId) || Price(old(byId)[e.offer.id].offer) == Price(e.offer)
    {
      AddingAgreesIff(entries, byId, e);
      SetItem(e);
      byId := byId[e.offer.id := e];
    }

    // del entries[(price, id)]
    method DeleteItem(e: Entry)
      requires Valid() && e in entries
      modifies this`entries
      ensures entries == Without(old(entries), e.offer.id)
    {
      var i := 0;
      while !SameKey(entries[i], e)
        invariant 0 <= i < |entries|
        invariant forall j :: 0 <= j < i ==> entries[j].offer.id != e.offer.id
        invariant e in entries[i..]
        decreases |entries| - i
      {
        i := i + 1;
      }
      WithoutSkips(entries, i, e.offer.id);
      NothingLeft(entries[i + 1..], e.offer.id);
      entries := entries[..i] + entries[i + 1..];
    }

    method RemoveOffer(id: OfferId)
      requires Valid()
      modifies this
      ensures Valid() && Value() == old(Value()).Apply(Drop(id))
    {
      RemovingAgrees(entries, byId, id);
      if id in byId {
        DeleteItem(byId[id]);
        byId := byId - {id};
      } else {
        NothingLeft(entries, id);
      }
    }

    // The scan stops at the first higher price and misses nothing.
    method GetOffersByPrice(price: real) returns (matched: seq<Entry>)
      requires Valid()
      ensures matched == AtPrice(entries, price)
      ensures IdsAscend(matched)
      ensures forall e :: e in matched <==> (e.offer.id in byId && byId[e.offer.id] == e && Price(e.offer) == price)
    {
      matched := [];
      var i := 0;
      while i < |entries|
        invariant 0 <= i <= |entries|
        invariant matched == AtPrice(entries[..i], price)
      {
        AtPriceNext(entries, i, price);
        if Price(entries[i].offer) == price {
          matched := matched + [entries[i]];
        }
        if Price(entries[i].offer) > price {
          break;
        }
        i := i + 1;
      }
      AtPriceStops(entries, i, price);
      AtPriceHolds(entries, price);
    }
  }

  // --- both sides of the market -------------------------------------------------------------------------------

  datatype Book = Book(buys: seq<Entry>, sells: seq<Entry>) {
    predicate Contains(id: OfferId) { Has(buys, id) || Has(sells, id) }

    // Offers an order of this type could take, at its price.
    function Opposite(price: real, kind: OfferType): seq<Entry> {
      AtPrice(if kind.Sell? then buys else sells, price)
    }

    function Insert(e: Entry): Book {
      if e.offer.kind.Buy? then this.(buys := Put(buys, e)) else this.(sells := Put(sells, e))
    }

    function Remove(id: OfferId): Book {
      if Has(buys, id) then this.(buys := Without(buys, id)) else this.(sells := Without(sells, id))
    }
  }

  predicate Has(s: seq<Entry>, id: OfferId) { exists e :: e in s && e.offer.id == id }

  class OfferBook {
    const buys: OfferView
    const sells: OfferView

    constructor ()
      ensures Valid() && Value() == Book([], []) && fresh(buys) && fresh(sells)
    {
      buys := new OfferView();
      sells := new OfferView();
    }

    predicate Valid()
      reads this, buys, sells
    {
      buys != sells && buys.Valid() && sells.Valid()
    }

    function Value(): Book
      reads this, buys, sells
    {
      Book(buys.entries, sells.entries)
    }

    // Keeps the indexes in agreement exactly when the id is new to its side, or known there at the same price.
    method InsertOffer(e: Entry)
      requires Valid()
      modifies buys, sells
      ensures Value() == old(Value()).Insert(e)
      ensures var byId := old(if e.offer.kind.Buy? then buys.byId else sells.byId);
              Valid() <==> e.offer.id !in byId || Price(byId[e.offer.id].offer) == Price(e.offer)
    {
      if e.offer.kind == Buy {
        buys.AddOffer(e);
      } else {
        sells.AddOffer(e);
      }
    }

    method Contains(id: OfferId) returns (found: bool)
      requires Valid()
      ensures found <==> Value().Contains(id)
    {
      found := id in buys.byId || id in sells.byId;
    }

    // An unknown id raises.
    method RemoveOffer(id: OfferId) returns (known: bool)
      requires Valid()
      modifies buys, sells
      ensures Valid() && known == old(Value()).Contains(id)
      ensures Value() == if known then old(Value()).Remove(id) else old(Value())
    {
      known := true;
      if id in buys.byId {
        buys.RemoveOffer(id);
      } else if id in sells.byId {
        sells.RemoveOffer(id);
      } else {
        known := false;
      }
    }

    method GetOffersByPrice(price: real, kind: OfferType) returns (matched: seq<Entry>)
      requires Valid()
      ensures matched == Value().Opposite(price, kind)
    {
      if kind == Sell {
        matched := buys.GetOffersByPrice(price);
      } else {
        matched := sells.GetOffersByPrice(price);
      }
    }
  }
}
