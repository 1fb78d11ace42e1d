// One-shot event filters: an event is handed to every filter, and a filter that matched is gone.
module RaidenListener {
  import opened SwapTypes

  datatype RaidenEvent =
    | PaymentReceived(initiator: Address, amount: nat, identifier: OfferId)
    | ChannelStatus(data: nat)

  datatype EventFilter = TransferReceivedFilter(initiator: Address, identifier: OfferId) | ChannelFilter(rawData: nat)

  datatype StateChange = TransferReceived(event: RaidenEvent) | ChannelStatusChanged(data: nat)

  predicate Fits(f: EventFilter, e: RaidenEvent) {
    match f
    case TransferReceivedFilter(initiator, identifier) =>
      e.PaymentReceived? && e.initiator == initiator && e.identifier == identifier
    case ChannelFilter(_) => e.ChannelStatus?
  }

  function Transformed(e: RaidenEvent): StateChange {
    if e.PaymentReceived? then TransferReceived(e) else ChannelStatusChanged(e.data)
  }

  function Process(f: EventFilter, e: RaidenEvent): Option<StateChange> {
    if Fits(f, e) then Some(Transformed(e)) else None
  }

  // The filters an event leaves in place, and those it uses up, both in order.
  function Surviving(fs: seq<EventFilter>, e: RaidenEvent): seq<EventFilter> {
    if fs == [] then [] else (if Fits(fs[0], e) then [] else [fs[0]]) + Surviving(fs[1..], e)
  }

  function Used(fs: seq<EventFilter>, e: RaidenEvent): seq<EventFilter> {
    if fs == [] then [] else (if Fits(fs[0], e) then [fs[0]] else []) + Used(fs[1..], e)
  }

  // list.remove: the first occurrence goes.
  function RemoveFirst(fs: seq<EventFilter>, f: EventFilter): seq<EventFilter> {
    if fs == [] then [] else if fs[0] == f then fs[1..] else [fs[0]] + RemoveFirst(fs[1..], f)
  }

  lemma {:induction false} RemoveAfter(before: seq<EventFilter>, f: EventFilter, after: seq<EventFilter>)
    requires f !in before
    ensures RemoveFirst(before + [f] + after, f) == before + after
  {
    if before == [] {
      assert [] + [f] + after == [f] + after && ([f] + after)[1..] == after;
    } else {
      RemoveAfter(before[1..], f, after);
      assert (before + [f] + after)[1..] == before[1..] + [f] + after;
      assert [before[0]] + (before[1..] + after) == before + after;
    }
  }

  lemma Dropping(kept: seq<EventFilter>, fs: seq<EventFilter>, e: RaidenEvent)
    requires fs != [] && Fits(fs[0], e) && forall f :: f in kept ==> !Fits(f, e)
    ensures RemoveFirst(kept + fs, fs[0]) == kept + fs[1..]
    ensures Surviving(fs, e) == Surviving(fs[1..], e) && |Used(fs, e)| == 1 + |Used(fs[1..], e)|
  {
    RemoveAfter(kept, fs[0], fs[1..]);
    assert kept + fs == kept + [fs[0]] + fs[1..];
  }

  lemma Keeping(kept: seq<EventFilter>, fs: seq<EventFilter>, e: RaidenEvent)
    requires fs != [] && !Fits(fs[0], e)
    ensures kept + fs == kept + [fs[0]] + fs[1..]
    ensures kept + Surviving(fs, e) == kept + [fs[0]] + Surviving(fs[1..], e) && |Used(fs, e)| == |Used(fs[1..], e)|
  {
    assert fs == [fs[0]] + fs[1..];
    Associate(kept, [fs[0]], fs[1..]);
    Associate(kept, [fs[0]], Surviving(fs[1..], e));
  }

  lemma Associate(a: seq<EventFilter>, b: seq<EventFilter>, c: seq<EventFilter>)
    ensures a + (b + c) == a + b + c
  {
  }

  // A filter fires on nothing but its own: a transfer filter on a payment of its initiator for its identifier, which
  // becomes the news of that payment; a channel filter on a channel event, which becomes the news of its data.
  lemma {:induction false} FiresOnItsOwn(fs: seq<EventFilter>, e: RaidenEvent, f: EventFilter)
    ensures f in Used(fs, e) <==> f in fs && match f
              case TransferReceivedFilter(initiator, identifier) =>
                exists amount :: e == PaymentReceived(initiator, amount, identifier)
              case ChannelFilter(_) => exists data :: e == ChannelStatus(data)
    ensures f in Surviving(fs, e) <==> f in fs && f !in Used(fs, e)
    ensures Transformed(e) == match e
              case PaymentReceived(_, _, _) => TransferReceived(e)
              case ChannelStatus(data) => ChannelStatusChanged(data)
  {
    if fs != [] {
      FiresOnItsOwn(fs[1..], e, f);
      if f.TransferReceivedFilter? && e.PaymentReceived? {
        assert e == PaymentReceived(e.initiator, e.amount, e.identifier);
      }
      if e.ChannelStatus? { assert e == ChannelStatus(e.data); }
    }
  }

  // The survivors keep their order: those of two lists after each other are those of the one and then of the other.
  lemma {:induction false} SurvivorsInOrder(fs: seq<EventFilter>, gs: seq<EventFilter>, e: RaidenEvent)
    ensures Surviving(fs + gs, e) == Surviving(fs, e) + Surviving(gs, e)
  {
    if fs == [] {
      assert fs + gs == gs && [] + Surviving(gs, e) == Surviving(gs, e);
    } else {
      SurvivorsInOrder(fs[1..], gs, e);
      assert (fs + gs)[0] == fs[0] && (fs + gs)[1..] == fs[1..] + gs;
      Associate(if Fits(fs[0], e) then [] else [fs[0]], Surviving(fs[1..], e), Surviving(gs, e));
    }
  }

  class RaidenListener {
    var eventFilters: seq<EventFilter>

    constructor ()
      ensures eventFilters == []
    {
      eventFilters := [];
    }

    method AddEventFilter(f: EventFilter)
      modifies this
      ensures eventFilters == old(eventFilters) + [f]
    {
      eventFilters := eventFilters + [f];
    }

    // The survivors are exactly the filters that do not fit, in their order, and every one that fits yields one
    // state change.
    method NewRaidenEvent(e: RaidenEvent) returns (changes: seq<StateChange>)
      modifies this
      ensures eventFilters == Surviving(old(eventFilters), e)
      ensures |changes| == |Used(old(eventFilters), e)| && forall c :: c in changes ==> c == Transformed(e)
    {
      var copied := eventFilters;
      ghost var kept: seq<EventFilter> := [];
      changes := [];
      assert copied[0..] == copied;
      for i := 0 to |copied|
        invariant eventFilters == kept + copied[i..]
        invariant kept + Surviving(copied[i..], e) == Surviving(copied, e)
        invariant forall f :: f in kept ==> !Fits(f, e)
        invariant |changes| + |Used(copied[i..], e)| == |Used(copied, e)|
        invariant forall c :: c in changes ==> c == Transformed(e)
      {
        assert copied[i..][0] == copied[i] && copied[i..][1..] == copied[i + 1..];
        var change := Process(copied[i], e);
        if change.Some? {
          Dropping(kept, copied[i..], e);
          changes := changes + [change.value];
          eventFilters := RemoveFirst(eventFilters, copied[i]);
        } else {
          Keeping(kept, copied[i..], e);
          kept := kept + [copied[i]];
        }
      }
    }
  }

  // --- every run of registrations and events -----------------------------------------------------------------

  datatype Op = Register(filter: EventFilter) | Event(event: RaidenEvent)

  // The filters left, and those that fired, one state change each.
  function After(ops: seq<Op>): (seq<EventFilter>, seq<EventFilter>) {
    if ops == [] then ([], [])
    else
      var (left, fired) := After(ops[..|ops| - 1]);
      match ops[|ops| - 1]
      case Register(f) => (left + [f], fired)
      case Event(e) => (Surviving(left, e), fired + Used(left, e))
  }

  function Registered(ops: seq<Op>): multiset<EventFilter> {
    if ops == [] then multiset{}
    else
      var before := Registered(ops[..|ops| - 1]);
      match ops[|ops| - 1]
      case Register(f) => before + multiset{f}
      case Event(_) => before
  }

  lemma {:induction false} Partition(fs: seq<EventFilter>, e: RaidenEvent)
    ensures multiset(Surviving(fs, e)) + multiset(Used(fs, e)) == multiset(fs)
  {
    if fs != [] {
      Partition(fs[1..], e);
      assert fs == [fs[0]] + fs[1..];
    }
  }

  // Every registered filter is either still waiting or fired exactly once.
  lemma {:induction false} FiltersFireOnce(ops: seq<Op>)
    ensures var (left, fired) := After(ops); multiset(left) + multiset(fired) == Registered(ops)
  {
    if ops != [] {
      FiltersFireOnce(ops[..|ops| - 1]);
      var (left, fired) := After(ops[..|ops| - 1]);
      match ops[|ops| - 1]
      case Register(f) => assert multiset(left + [f]) == multiset(left) + multiset{f};
      case Event(e) => Partition(left, e);
    }
  }
}
