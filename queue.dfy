/**
 * `PriorityQueue` (src/interceptor/api.ts:63-157): requests waiting for a
 * token refresh, in three FIFO tiers with a size counter and a capacity.
 * The tiers as a value and the operations on that value come first; the
 * class keeps the tiers in fields and its methods are tied to those
 * functions.
 */
module RequestQueue {
  import opened Wrappers
  import opened Http

  datatype Tier = High | Normal | Low

  /** The `switch` of `add`: "high" and "low" name their tier, anything else is normal. */
  function TierOf(priority: string): Tier {
    if priority == "high" then High else if priority == "low" then Low else Normal
  }

  /** A waiting caller: an abstract id standing for its promise, and the config to reissue. */
  datatype Item = Item(id: nat, config: Config)

  datatype Tiers = Tiers(high: seq<Item>, normal: seq<Item>, low: seq<Item>)

  const NoTiers := Tiers([], [], [])

  function Size(t: Tiers): nat {
    |t.high| + |t.normal| + |t.low|
  }

  /** The order in which `getNext` hands the items out. */
  function Order(t: Tiers): seq<Item> {
    t.high + t.normal + t.low
  }

  /** How many items fit: a negative `maxSize` admits nothing. */
  function Capacity(maxSize: int): nat {
    if maxSize < 0 then 0 else maxSize
  }

  /** `push` onto the tail of one tier. */
  function Push(t: Tiers, item: Item, tier: Tier): (u: Tiers)
    ensures Size(u) == Size(t) + 1
  {
    match tier
    case High => t.(high := t.high + [item])
    case Normal => t.(normal := t.normal + [item])
    case Low => t.(low := t.low + [item])
  }

  datatype Admission = Admission(added: bool, evicted: Option<Item>, after: Tiers)

  const OverflowMessage := "Request queue overflow"
  const ClearedMessage := "Queue cleared"

  /** `add` (lines 83-120) on the tiers: at capacity the head of `low` makes room, or nothing is added. */
  function Admit(t: Tiers, maxSize: int, item: Item, tier: Tier): Admission {
    if Size(t) >= maxSize then
      if |t.low| > 0 then Admission(true, Some(t.low[0]), Push(t.(low := t.low[1..]), item, tier))
      else Admission(false, None, t)
    else Admission(true, None, Push(t, item, tier))
  }

  /** `getNext` (lines 122-126) on the tiers: the head of high, else of normal, else of low. */
  function Take(t: Tiers): (Option<Item>, Tiers) {
    if |t.high| > 0 then (Some(t.high[0]), t.(high := t.high[1..]))
    else if |t.normal| > 0 then (Some(t.normal[0]), t.(normal := t.normal[1..]))
    else if |t.low| > 0 then (Some(t.low[0]), t.(low := t.low[1..]))
    else (None, t)
  }

  /** `add` keeps the bound, grows by one unless it evicted, and refuses only at capacity with `low` empty. */
  lemma AdmitBound(t: Tiers, maxSize: int, item: Item, tier: Tier)
    requires Size(t) <= Capacity(maxSize)
    ensures var a := Admit(t, maxSize, item, tier);
      Size(a.after) <= Capacity(maxSize)
      && (!a.added <==> Size(t) >= maxSize && t.low == [])
      && (!a.added ==> a.after == t && a.evicted == None)
      && (a.added && a.evicted.None? ==> Size(a.after) == Size(t) + 1)
      && (a.evicted.Some? ==> Size(a.after) == Size(t) == Capacity(maxSize))
  {
  }

  /** At capacity with a low item, exactly the oldest low item goes and the new item is appended to its tier. */
  lemma AdmitEvictsOldestLow(t: Tiers, maxSize: int, item: Item, tier: Tier)
    requires Size(t) >= maxSize && t.low != []
    ensures var a := Admit(t, maxSize, item, tier);
      a.added && a.evicted == Some(t.low[0])
      && a.after == Push(Tiers(t.high, t.normal, t.low[1..]), item, tier)
  {
  }

  /** `getNext` hands out the head of `Order` and leaves the rest in order; on empty tiers nothing. */
  lemma TakeIsHeadOfOrder(t: Tiers)
    ensures Take(t).0.None? <==> Order(t) == []
    ensures Order(t) != [] ==> Take(t).0 == Some(Order(t)[0]) && Order(Take(t).1) == Order(t)[1..]
    ensures Order(t) != [] ==> Size(Take(t).1) + 1 == Size(t)
  {
    if |t.high| > 0 {
      assert Order(t) == [t.high[0]] + (t.high[1..] + t.normal + t.low);
    } else if |t.normal| > 0 {
      assert Order(t) == [t.normal[0]] + (t.normal[1..] + t.low);
    }
  }

  /** Repeated `getNext` until empty, as the drain loop does it. */
  function Drain(t: Tiers): seq<Item>
    decreases Size(t)
  {
    if Size(t) == 0 then [] else
      var (item, rest) := Take(t);
      [item.value] + Drain(rest)
  }

  /** Draining yields all of high, then all of normal, then all of low, each first-in first-out. */
  lemma {:induction false} DrainIsOrder(t: Tiers)
    ensures Drain(t) == Order(t)
    decreases Size(t)
  {
    if Size(t) != 0 {
      TakeIsHeadOfOrder(t);
      DrainIsOrder(Take(t).1);
    }
  }

  /** Items enqueued as low, high, normal, high leave as high, high, normal, low. */
  lemma ScenarioOrder(a: Item, b: Item, c: Item, d: Item)
    ensures var t := Push(Push(Push(Push(NoTiers, a, Low), b, High), c, Normal), d, High);
      Drain(t) == [b, d, c, a]
  {
    var t := Push(Push(Push(Push(NoTiers, a, Low), b, High), c, Normal), d, High);
    DrainIsOrder(t);
  }

  class PriorityQueue {
    var high: seq<Item>
    var normal: seq<Item>
    var low: seq<Item>
    const maxSize: int
    var currentSize: int

    /** `currentSize` counts the items of the three tiers, and never passes the capacity. */
    ghost predicate Valid()
      reads this
    {
      currentSize == Size(Contents()) && currentSize <= Capacity(maxSize)
    }

    function Contents(): Tiers
      reads this
    {
      Tiers(high, normal, low)
    }

    constructor (maxSize: int)
      ensures Valid() && Contents() == NoTiers && this.maxSize == maxSize
    {
      high, normal, low := [], [], [];
      this.maxSize := maxSize;
      currentSize := 0;
    }

    /**
     * `add`: the item goes to the tail of the tier its priority names; when
     * full, the head of `low` is evicted first and returned so the caller
     * rejects it with `OverflowMessage`, and with `low` empty nothing changes
     * and `added` is false.
     */
    method Add(item: Item, priority: string) returns (added: bool, evicted: Option<Item>)
      requires Valid()
      modifies this
      ensures Valid()
      ensures Admit(old(Contents()), maxSize, item, TierOf(priority)) == Admission(added, evicted, Contents())
    {
      ghost var before := Contents();
      evicted := None;
      if currentSize >= maxSize {
        if |low| > 0 {
          evicted := Some(low[0]);
          low := low[1..];
          currentSize := currentSize - 1;
        } else {
          return false, None;
        }
      }
      match TierOf(priority) {
        case High => high := high + [item];
        case Low => low := low + [item];
        case Normal => normal := normal + [item];
      }
      currentSize := currentSize + 1;
      added := true;
      AdmitBound(before, maxSize, item, TierOf(priority));
    }

    /** `getNext`: the head of high, else normal, else low; on an empty queue nothing, and the size stays 0. */
    method GetNext() returns (item: Option<Item>)
      requires Valid()
      modifies this
      ensures Valid()
      ensures (item, Contents()) == Take(old(Contents()))
    {
      if |high| > 0 {
        item := Some(high[0]);
        high := high[1..];
      } else if |normal| > 0 {
        item := Some(normal[0]);
        normal := normal[1..];
      } else if |low| > 0 {
        item := Some(low[0]);
        low := low[1..];
      } else {
        item := None;
      }
      if item.Some? {
        currentSize := currentSize - 1;
      }
    }

    /** `isEmpty`: all three tiers are empty, which is a size of 0. */
    predicate IsEmpty()
      requires Valid()
      reads this
      ensures IsEmpty() <==> Order(Contents()) == [] && currentSize == 0
    {
      |high| == 0 && |normal| == 0 && |low| == 0
    }

    /** `clear`: every item is returned, high then normal then low, to be rejected with `ClearedMessage`; the queue is then empty. */
    method Clear() returns (rejected: seq<Item>)
      requires Valid()
      modifies this
      ensures Valid()
      ensures rejected == Order(old(Contents()))
      ensures Contents() == NoTiers && currentSize == 0
    {
      rejected := high + normal + low;
      high, normal, low := [], [], [];
      currentSize := 0;
    }

    /** `getSize`: the number of waiting items. */
    function GetSize(): (n: int)
      requires Valid()
      reads this
      ensures n == |Order(Contents())|
    {
      currentSize
    }
  }

  /**
   * A queue of two at capacity: a further low item evicts the oldest low
   * item; once only high items fill it, a further item is refused.
   */
  method OverflowScenario(a: Item, b: Item, c: Item, d: Item, e: Item) {
    var q := new PriorityQueue(2);
    var ok, ev := q.Add(a, "low");
    ok, ev := q.Add(b, "low");
    ok, ev := q.Add(c, "low");
    assert ok && ev == Some(a) && q.low == [b, c] && q.currentSize == 2;
    var cleared := q.Clear();
    assert cleared == [b, c];
    ok, ev := q.Add(a, "high");
    ok, ev := q.Add(b, "high");
    ok, ev := q.Add(d, "high");
    assert !ok && ev == None && q.high == [a, b];
    ok, ev := q.Add(e, "whatever");
    assert !ok;
  }
}
