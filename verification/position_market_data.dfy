/**
 * Market data for the position engine: a fan-out and de-duplication cache over
 * the upstream market-data feed. Per symbol it holds the registered listeners,
 * one latest-tick reference and one market-statistic reference acquired from the
 * feed, and the last trade price and closing price seen, and it notifies a
 * symbol's listeners only when one of those prices actually changes.
 *
 * Locking is left out: every operation runs to completion on single-owner state.
 */
module PositionMarketData {
  import opened Wrappers

  type Symbol = string
  /** Decimal prices as fixed-point integers; two prices are equal when numerically equal. */
  type Price = int
  /** Points in time; the calendar day of one is given by an injected function. */
  type Instant = int

  /** A registered observer, compared by identity. */
  datatype Listener = Listener(id: nat)
  /** A reference handed out by the market-data feed, released by disposing it. */
  datatype Ref = Ref(id: nat)

  /** The fields of a market statistic that the closing price is derived from. */
  datatype Marketstat = Marketstat(
    closePrice: Option<Price>, closeDate: Option<Instant>,
    previousClosePrice: Option<Price>, previousCloseDate: Option<Instant>)

  /** One callback made on a listener: `symbolTraded` or `closePriceChanged`, with the new price. */
  datatype Notice =
    | SymbolTraded(listener: Listener, symbol: Symbol, price: Option<Price>)
    | ClosePriceChanged(listener: Listener, symbol: Symbol, price: Option<Price>)

  // ---------------------------------------------------------------------------
  // Change notifications from the feed's model objects

  /** The event type code of a plain attribute change. */
  const SET: int := 1

  datatype Feature =
    | LatestTickPrice
    | MarketstatCloseDate | MarketstatClosePrice
    | MarketstatPreviousCloseDate | MarketstatPreviousClosePrice
    | OtherFeature(name: string)

  datatype Notification = Notification(isTouch: bool, eventType: int, feature: Feature)

  /** The latest-tick adapter reacts to a real change of the price only. */
  function TickAdapterAccepts(msg: Notification): (accepted: bool)
    ensures msg.isTouch || msg.eventType != SET ==> !accepted
    ensures accepted ==> msg.feature == LatestTickPrice
  {
    !msg.isTouch && msg.eventType == SET && msg.feature == LatestTickPrice
  }

  /** The closing-price adapter reacts to a real change of one of the four close attributes. */
  function StatAdapterAccepts(msg: Notification): (accepted: bool)
    ensures msg.isTouch || msg.eventType != SET ==> !accepted
    ensures msg.feature == LatestTickPrice || msg.feature.OtherFeature? ==> !accepted
  {
    !msg.isTouch && msg.eventType == SET
    && msg.feature in {MarketstatCloseDate, MarketstatClosePrice, MarketstatPreviousCloseDate, MarketstatPreviousClosePrice}
  }

  // ---------------------------------------------------------------------------
  // The listener set-multimap: a symbol with no listener has no key

  type Multimap = map<Symbol, set<Listener>>

  ghost predicate NoEmptySets(m: Multimap)
  {
    forall s | s in m :: m[s] != {}
  }

  /** The (possibly empty) listener set of a symbol. */
  function Get(m: Multimap, s: Symbol): set<Listener>
  {
    if s in m then m[s] else {}
  }

  /** `put`: set semantics, so a pair already present is not added twice. */
  function Put(m: Multimap, s: Symbol, l: Listener): (r: Multimap)
    ensures Get(r, s) == Get(m, s) + {l}
    ensures forall t | t != s :: Get(r, t) == Get(m, t)
    ensures r.Keys == m.Keys + {s}
    ensures NoEmptySets(m) ==> NoEmptySets(r)
  {
    m[s := Get(m, s) + {l}]
  }

  /** `remove` through the `get(s)` view: the key goes when its last listener does. */
  function Remove(m: Multimap, s: Symbol, l: Listener): (r: Multimap)
    ensures Get(r, s) == Get(m, s) - {l}
    ensures forall t | t != s :: Get(r, t) == Get(m, t)
    ensures r.Keys == if Get(m, s) - {l} == {} then m.Keys - {s} else m.Keys
    ensures NoEmptySets(m) ==> NoEmptySets(r)
  {
    var rest := Get(m, s) - {l};
    if rest == {} then m - {s} else m[s := rest]
  }

  /** Registering a registered pair again changes nothing. */
  lemma PutRegistered(m: Multimap, s: Symbol, l: Listener)
    requires l in Get(m, s)
    ensures Put(m, s, l) == m
  {
    assert Get(m, s) + {l} == m[s];
  }

  /** Removing a pair that is not registered changes nothing. */
  lemma RemoveUnregistered(m: Multimap, s: Symbol, l: Listener)
    requires NoEmptySets(m) && l !in Get(m, s)
    ensures Remove(m, s, l) == m
  {
    if s in m {
      assert m[s] - {l} == m[s];
    } else {
      assert m - {s} == m;
    }
  }

  /** Removing a pair just registered restores the multimap. */
  lemma RemoveAfterPut(m: Multimap, s: Symbol, l: Listener)
    requires NoEmptySets(m) && l !in Get(m, s)
    ensures Remove(Put(m, s, l), s, l) == m
  {
    var r := Remove(Put(m, s, l), s, l);
    assert Get(r, s) == Get(m, s);
    assert r.Keys == m.Keys;
    forall t | t in m ensures r[t] == m[t] {
      assert Get(r, t) == Get(m, t);
    }
  }

  /** All (symbol, listener) pairs of the multimap. */
  function Entries(m: Multimap): set<(Symbol, Listener)>
  {
    set s, l | s in m && l in m[s] :: (s, l)
  }

  lemma EntriesRemove(m: Multimap, s: Symbol, l: Listener)
    ensures Entries(Remove(m, s, l)) == Entries(m) - {(s, l)}
  {
    var r := Remove(m, s, l);
    forall e | e in Entries(r) ensures e in Entries(m) - {(s, l)} {
      assert e.1 in Get(r, e.0);
    }
    forall e | e in Entries(m) - {(s, l)} ensures e in Entries(r) {
      assert e.1 in Get(m, e.0);
      assert e.1 in Get(r, e.0);
    }
  }

  lemma NoEntriesIsEmpty(m: Multimap)
    requires NoEmptySets(m) && Entries(m) == {}
    ensures m == map[]
  {
    assert forall s, l | s in m && l in m[s] :: (s, l) in Entries(m);
    assert m.Keys == {};
  }

  // ---------------------------------------------------------------------------
  // The subscription registry: listeners and the two reference maps

  datatype Registry = Registry(listeners: Multimap, tickRefs: map<Symbol, Ref>, statRefs: map<Symbol, Ref>)
  {
    /** Always kept: a statistic reference exactly for the symbols with listeners, a tick reference at least for those. */
    ghost predicate Valid()
    {
      && NoEmptySets(listeners)
      && statRefs.Keys == listeners.Keys
      && listeners.Keys <= tickRefs.Keys
    }

    /** Kept while the feed never fails an acquisition: both references exactly for the symbols with listeners. */
    ghost predicate Paired()
    {
      Valid() && tickRefs.Keys == listeners.Keys
    }
  }

  /** Whether `addSymbolChangeListener` gets through both acquisitions (a held reference is not re-acquired). */
  predicate AddSucceeds(r: Registry, s: Symbol, newTickRef: Option<Ref>, newStatRef: Option<Ref>)
  {
    (s in r.tickRefs || newTickRef.Some?) && (s in r.statRefs || newStatRef.Some?)
  }

  /**
   * The registry after `addSymbolChangeListener(s, l)`, where the feed would hand out
   * `newTickRef` and `newStatRef` (None: the acquisition throws). A tick reference
   * acquired before a failing statistic acquisition is kept: there is no rollback.
   */
  function Added(r: Registry, s: Symbol, l: Listener, newTickRef: Option<Ref>, newStatRef: Option<Ref>): (r': Registry)
    // An add releases nothing, and acquires and registers for `s` only.
    ensures r.listeners.Keys <= r'.listeners.Keys <= r.listeners.Keys + {s}
    ensures r.tickRefs.Keys <= r'.tickRefs.Keys <= r.tickRefs.Keys + {s}
    ensures r.statRefs.Keys <= r'.statRefs.Keys <= r.statRefs.Keys + {s}
    ensures forall t | t in r.tickRefs :: r'.tickRefs[t] == r.tickRefs[t]
    ensures forall t | t in r.statRefs :: r'.statRefs[t] == r.statRefs[t]
  {
    var ticks := if s in r.tickRefs || newTickRef.None? then r.tickRefs else r.tickRefs[s := newTickRef.value];
    if !AddSucceeds(r, s, newTickRef, newStatRef) then r.(tickRefs := ticks)
    else
      var stats := if s in r.statRefs then r.statRefs else r.statRefs[s := newStatRef.value];
      Registry(Put(r.listeners, s, l), ticks, stats)
  }

  /** The registry after `removeSymbolChangeListener(s, l)`: both references go with the last listener. */
  function Removed(r: Registry, s: Symbol, l: Listener): (r': Registry)
    // A remove acquires nothing, and unregisters and releases for `s` only.
    ensures r.listeners.Keys - {s} <= r'.listeners.Keys <= r.listeners.Keys
    ensures r.tickRefs.Keys - {s} <= r'.tickRefs.Keys <= r.tickRefs.Keys
    ensures r.statRefs.Keys - {s} <= r'.statRefs.Keys <= r.statRefs.Keys
  {
    var rest := Get(r.listeners, s) - {l};
    Registry(
      Remove(r.listeners, s, l),
      if rest == {} then r.tickRefs - {s} else r.tickRefs,
      if rest == {} then r.statRefs - {s} else r.statRefs)
  }

  /** The references `removeSymbolChangeListener(s, l)` disposes, tick before statistic. */
  function Released(r: Registry, s: Symbol, l: Listener): (disposed: seq<Ref>)
    ensures |disposed| <= 2
  {
    if Get(r.listeners, s) - {l} != {} then []
    else (if s in r.tickRefs then [r.tickRefs[s]] else []) + (if s in r.statRefs then [r.statRefs[s]] else [])
  }

  /** A remove disposes exactly the references it stops holding, each once. */
  lemma ReleasedAreDropped(r: Registry, s: Symbol, l: Listener)
    ensures var r' := Removed(r, s, l);
      Released(r, s, l) ==
        (if s in r.tickRefs && s !in r'.tickRefs then [r.tickRefs[s]] else [])
        + (if s in r.statRefs && s !in r'.statRefs then [r.statRefs[s]] else [])
    ensures var r' := Removed(r, s, l);
      && (forall t | t in r'.tickRefs :: t in r.tickRefs && r'.tickRefs[t] == r.tickRefs[t])
      && (forall t | t in r'.statRefs :: t in r.statRefs && r'.statRefs[t] == r.statRefs[t])
  {
  }

  /**
   * No tick reference without listeners for `s`: an orphan is left only by an add
   * whose statistic acquisition failed.
   */
  predicate NoOrphanTick(r: Registry, s: Symbol)
  {
    s in r.tickRefs ==> s in r.listeners
  }

  /** Removing a symbol's last listener disposes both of its references. */
  lemma ReleasedWithLastListener(r: Registry, s: Symbol, l: Listener)
    requires r.Valid() && Get(r.listeners, s) == {l}
    ensures Released(r, s, l) == [r.tickRefs[s], r.statRefs[s]]
  {
    assert s in r.listeners;
  }

  /** A successful add registers the pair and leaves the symbol holding both references; held ones are reused. */
  lemma AddedRegisters(r: Registry, s: Symbol, l: Listener, newTickRef: Option<Ref>, newStatRef: Option<Ref>)
    requires AddSucceeds(r, s, newTickRef, newStatRef)
    ensures var r' := Added(r, s, l, newTickRef, newStatRef);
      && Get(r'.listeners, s) == Get(r.listeners, s) + {l}
      && (forall t | t != s :: Get(r'.listeners, t) == Get(r.listeners, t))
      && s in r'.tickRefs && s in r'.statRefs
      && (s in r.tickRefs ==> r'.tickRefs[s] == r.tickRefs[s])
      && (s in r.statRefs ==> r'.statRefs[s] == r.statRefs[s])
  {
  }

  lemma AddedValid(r: Registry, s: Symbol, l: Listener, newTickRef: Option<Ref>, newStatRef: Option<Ref>)
    requires r.Valid()
    ensures Added(r, s, l, newTickRef, newStatRef).Valid()
    ensures r.Paired() && AddSucceeds(r, s, newTickRef, newStatRef) ==> Added(r, s, l, newTickRef, newStatRef).Paired()
  {
    var r' := Added(r, s, l, newTickRef, newStatRef);
    if AddSucceeds(r, s, newTickRef, newStatRef) {
      assert r'.listeners.Keys == r.listeners.Keys + {s};
      assert r'.statRefs.Keys == r.statRefs.Keys + {s};
      assert r'.tickRefs.Keys == r.tickRefs.Keys + {s};
    } else {
      assert r'.listeners == r.listeners && r'.statRefs == r.statRefs;
    }
  }

  /** When the statistic acquisition fails for a new symbol, its fresh tick reference is left without a listener. */
  lemma AddedOrphanTick(r: Registry, s: Symbol, l: Listener, t: Ref)
    requires r.Paired() && s !in r.tickRefs
    ensures var r' := Added(r, s, l, Some(t), None);
      && r'.listeners == r.listeners && r'.statRefs == r.statRefs
      && r'.tickRefs.Keys == r'.listeners.Keys + {s}
      && !r'.Paired()
  {
    var r' := Added(r, s, l, Some(t), None);
    assert s !in r.statRefs;
    assert s in r'.tickRefs && s !in r'.listeners;
  }

  /** Registering a registered pair again changes nothing and acquires nothing. */
  lemma AddRegisteredIsNoop(r: Registry, s: Symbol, l: Listener, newTickRef: Option<Ref>, newStatRef: Option<Ref>)
    requires r.Valid() && l in Get(r.listeners, s)
    ensures AddSucceeds(r, s, newTickRef, newStatRef)
    ensures Added(r, s, l, newTickRef, newStatRef) == r
  {
    PutRegistered(r.listeners, s, l);
  }

  lemma RemovedValid(r: Registry, s: Symbol, l: Listener)
    requires r.Valid()
    ensures Removed(r, s, l).Valid()
    ensures r.Paired() ==> Removed(r, s, l).Paired()
  {
    var r' := Removed(r, s, l);
    if Get(r.listeners, s) - {l} == {} {
      assert r'.listeners.Keys == r.listeners.Keys - {s};
      assert r'.statRefs.Keys == r.statRefs.Keys - {s};
      assert r'.tickRefs.Keys == r.tickRefs.Keys - {s};
    }
  }

  /** Removing an unregistered pair changes nothing, unless `s` holds an orphan tick reference (which it disposes). */
  lemma RemoveUnregisteredIsNoop(r: Registry, s: Symbol, l: Listener)
    requires r.Valid() && NoOrphanTick(r, s) && l !in Get(r.listeners, s)
    ensures Removed(r, s, l) == r
  {
    RemoveUnregistered(r.listeners, s, l);
    if Get(r.listeners, s) - {l} == {} {
      assert s !in r.listeners;
      assert r.tickRefs - {s} == r.tickRefs;
      assert r.statRefs - {s} == r.statRefs;
    }
  }

  /**
   * Adding a new pair and removing it again restores the registry, references included,
   * whether the add succeeded or not: a failed add's orphan tick goes with the remove.
   */
  lemma RemoveAfterAdd(r: Registry, s: Symbol, l: Listener, newTickRef: Option<Ref>, newStatRef: Option<Ref>)
    requires r.Valid() && NoOrphanTick(r, s) && l !in Get(r.listeners, s)
    ensures Removed(Added(r, s, l, newTickRef, newStatRef), s, l) == r
  {
    var r' := Added(r, s, l, newTickRef, newStatRef);
    if !AddSucceeds(r, s, newTickRef, newStatRef) {
      assert s !in r.listeners && s !in r.tickRefs && s !in r.statRefs;
      assert r'.listeners == r.listeners && r'.statRefs == r.statRefs;
      RemoveUnregistered(r.listeners, s, l);
      assert r'.tickRefs - {s} == r.tickRefs;
      return;
    }
    RemoveAfterPut(r.listeners, s, l);
    if Get(r.listeners, s) == {} {
      assert s !in r.tickRefs && s !in r.statRefs;
      assert r'.tickRefs - {s} == r.tickRefs;
      assert r'.statRefs - {s} == r.statRefs;
    } else {
      assert Get(r'.listeners, s) - {l} != {};
      assert r'.tickRefs == r.tickRefs && r'.statRefs == r.statRefs;
    }
  }

  /** The references the first listener of a symbol acquires are the ones its removal disposes. */
  lemma RemoveAfterAddReleasesAcquired(r: Registry, s: Symbol, l: Listener, tick: Ref, stat: Ref)
    requires r.Valid() && NoOrphanTick(r, s) && Get(r.listeners, s) == {}
    ensures Released(Added(r, s, l, Some(tick), Some(stat)), s, l) == [tick, stat]
  {
    var r' := Added(r, s, l, Some(tick), Some(stat));
    assert s !in r.listeners && s !in r.statRefs && s !in r.tickRefs;
    assert Get(r'.listeners, s) == {l};
  }

  // ---------------------------------------------------------------------------
  // Acquisitions and releases over a run of calls

  /** One call on the registry, with what the feed would hand out for it. */
  datatype Call =
    | AddCall(symbol: Symbol, listener: Listener, newTickRef: Option<Ref>, newStatRef: Option<Ref>)
    | RemoveCall(symbol: Symbol, listener: Listener)

  function Apply(r: Registry, c: Call): Registry
  {
    match c
    case AddCall(s, l, t, st) => Added(r, s, l, t, st)
    case RemoveCall(s, l) => Removed(r, s, l)
  }

  function Run(r: Registry, calls: seq<Call>): Registry
    decreases calls
  {
    if calls == [] then r else Run(Apply(r, calls[0]), calls[1..])
  }

  datatype Kind = Tick | Stat

  function Refs(r: Registry, k: Kind): map<Symbol, Ref>
  {
    if k == Tick then r.tickRefs else r.statRefs
  }

  /** Whether the call asks the feed for a reference of kind `k` for `s`, and gets it. */
  predicate Acquires(r: Registry, c: Call, k: Kind, s: Symbol)
  {
    && c.AddCall? && c.symbol == s && s !in Refs(r, k)
    && if k == Tick then c.newTickRef.Some? else AddSucceeds(r, s, c.newTickRef, c.newStatRef)
  }

  /** Whether the call disposes the reference of kind `k` held for `s`. */
  predicate Releases(r: Registry, c: Call, k: Kind, s: Symbol)
  {
    c.RemoveCall? && c.symbol == s && s in Refs(r, k) && Get(r.listeners, s) - {c.listener} == {}
  }

  function AcquisitionCount(r: Registry, calls: seq<Call>, k: Kind, s: Symbol): nat
    decreases calls
  {
    if calls == [] then 0
    else (if Acquires(r, calls[0], k, s) then 1 else 0) + AcquisitionCount(Apply(r, calls[0]), calls[1..], k, s)
  }

  function ReleaseCount(r: Registry, calls: seq<Call>, k: Kind, s: Symbol): nat
    decreases calls
  {
    if calls == [] then 0
    else (if Releases(r, calls[0], k, s) then 1 else 0) + ReleaseCount(Apply(r, calls[0]), calls[1..], k, s)
  }

  /** A call takes a reference exactly when it acquires one, and drops one exactly when it disposes it. */
  lemma ApplyHolds(r: Registry, c: Call, k: Kind, s: Symbol)
    ensures s in Refs(Apply(r, c), k) <==> (s in Refs(r, k) && !Releases(r, c, k, s)) || Acquires(r, c, k, s)
    ensures !(Acquires(r, c, k, s) && Releases(r, c, k, s))
  {
  }

  /** Over any run of calls, acquisitions and releases of each kind balance against the references held. */
  lemma {:induction false} ReferenceBalance(r: Registry, calls: seq<Call>, k: Kind, s: Symbol)
    ensures AcquisitionCount(r, calls, k, s) + (if s in Refs(r, k) then 1 else 0)
      == ReleaseCount(r, calls, k, s) + (if s in Refs(Run(r, calls), k) then 1 else 0)
    decreases calls
  {
    if calls != [] {
      ApplyHolds(r, calls[0], k, s);
      ReferenceBalance(Apply(r, calls[0]), calls[1..], k, s);
    }
  }

  lemma {:induction false} RunValid(r: Registry, calls: seq<Call>)
    requires r.Valid()
    ensures Run(r, calls).Valid()
    decreases calls
  {
    if calls != [] {
      match calls[0] {
        case AddCall(s, l, t, st) => AddedValid(r, s, l, t, st);
        case RemoveCall(s, l) => RemovedValid(r, s, l);
      }
      RunValid(Apply(r, calls[0]), calls[1..]);
    }
  }

  /**
   * From the empty registry, acquisitions minus releases per symbol is 0 or 1 for
   * either kind, and for statistic references it is 1 exactly while the symbol has listeners.
   */
  lemma OutstandingReferences(calls: seq<Call>, s: Symbol)
    ensures var empty := Registry(map[], map[], map[]);
      && AcquisitionCount(empty, calls, Tick, s) - ReleaseCount(empty, calls, Tick, s) in {0, 1}
      && AcquisitionCount(empty, calls, Stat, s) - ReleaseCount(empty, calls, Stat, s)
         == if Get(Run(empty, calls).listeners, s) == {} then 0 else 1
  {
    var empty := Registry(map[], map[], map[]);
    ReferenceBalance(empty, calls, Tick, s);
    ReferenceBalance(empty, calls, Stat, s);
    RunValid(empty, calls);
  }

  // ---------------------------------------------------------------------------
  // The price caches: no entry, or the NULL sentinel (None), both read as null

  type Cache = map<Symbol, Option<Price>>

  /** `getCachedValue`: the last price written for the symbol, or None. */
  function CachedValue(cache: Cache, s: Symbol): (price: Option<Price>)
    ensures price.Some? ==> s in cache && cache[s] == price
    ensures s !in cache ==> price.None?
  {
    if s in cache then cache[s] else None
  }

  /** A write is read back, and leaves every other symbol's value as it was. */
  lemma CachedValueAfterWrite(cache: Cache, s: Symbol, p: Option<Price>, t: Symbol)
    ensures CachedValue(cache[s := p], t) == if t == s then p else CachedValue(cache, t)
  {
  }

  /** The two early returns of `fireIfChanged`: both absent, or both present and numerically equal. */
  predicate Unchanged(oldPrice: Option<Price>, newPrice: Option<Price>)
  {
    || (oldPrice.None? && newPrice.None?)
    || (oldPrice.Some? && newPrice.Some? && oldPrice.value == newPrice.value)
  }

  lemma UnchangedIsEquality(oldPrice: Option<Price>, newPrice: Option<Price>)
    ensures Unchanged(oldPrice, newPrice) <==> oldPrice == newPrice
  {
  }

  // ---------------------------------------------------------------------------
  // The closing price

  /**
   * The closing price for the session starting at `sessionStart`: the close price
   * when the close date is on the session's day, otherwise the previous close
   * price when the previous close date is, otherwise absent.
   */
  function ComputeClosingPrice(sessionStart: Option<Instant>, stat: Marketstat, day: Instant -> int)
    : (closing: Option<Price>)
    ensures sessionStart.None? ==> closing.None?
    ensures sessionStart.Some? && stat.closeDate.Some? && day(stat.closeDate.value) == day(sessionStart.value)
      ==> closing == stat.closePrice
    ensures sessionStart.Some? && !(stat.closeDate.Some? && day(stat.closeDate.value) == day(sessionStart.value))
      && stat.previousCloseDate.Some? && day(stat.previousCloseDate.value) == day(sessionStart.value)
      ==> closing == stat.previousClosePrice
    ensures sessionStart.Some?
      && !(stat.closeDate.Some? && day(stat.closeDate.value) == day(sessionStart.value))
      && !(stat.previousCloseDate.Some? && day(stat.previousCloseDate.value) == day(sessionStart.value))
      ==> closing.None?
  {
    if sessionStart.None? then None
    else if stat.closeDate.Some? && day(stat.closeDate.value) == day(sessionStart.value) then stat.closePrice
    else if stat.previousCloseDate.Some? && day(stat.previousCloseDate.value) == day(sessionStart.value) then
      stat.previousClosePrice
    else None
  }

  /** Only the calendar day of the session start matters, not the instant. */
  lemma ClosingPriceDependsOnDayOnly(a: Instant, b: Instant, stat: Marketstat, day: Instant -> int)
    requires day(a) == day(b)
    ensures ComputeClosingPrice(Some(a), stat, day) == ComputeClosingPrice(Some(b), stat, day)
  {
  }

  // ---------------------------------------------------------------------------
  // Fan-out

  function Notify(l: Listener, symbol: Symbol, traded: bool, price: Option<Price>): Notice
  {
    if traded then SymbolTraded(l, symbol, price) else ClosePriceChanged(l, symbol, price)
  }

  /** `sent` calls every listener of `ls` exactly once, with the same callback and price. */
  ghost predicate IsFanout(sent: seq<Notice>, ls: set<Listener>, symbol: Symbol, traded: bool, price: Option<Price>)
  {
    && (forall i | 0 <= i < |sent| :: sent[i].listener in ls && sent[i] == Notify(sent[i].listener, symbol, traded, price))
    && (forall l | l in ls :: Notify(l, symbol, traded, price) in sent)
    && (forall i, j | 0 <= i < j < |sent| :: sent[i] != sent[j])
  }

  /** Calls every listener of a symbol, in the (unspecified) iteration order of its set. */
  method Fanout(ls: set<Listener>, symbol: Symbol, traded: bool, price: Option<Price>) returns (sent: seq<Notice>)
    ensures IsFanout(sent, ls, symbol, traded, price)
    ensures |sent| == |ls|
  {
    sent := [];
    var rest, done := ls, {};
    while rest != {}
      invariant rest !! done && rest + done == ls
      invariant IsFanout(sent, done, symbol, traded, price) && |sent| == |done|
      decreases rest
    {
      var l :| l in rest;
      FanoutStep(sent, done, l, symbol, traded, price);
      sent := sent + [Notify(l, symbol, traded, price)];
      rest, done := rest - {l}, done + {l};
    }
  }

  /** Calling one more listener extends a fan-out to it. */
  lemma FanoutStep(sent: seq<Notice>, done: set<Listener>, l: Listener, symbol: Symbol, traded: bool, price: Option<Price>)
    requires IsFanout(sent, done, symbol, traded, price) && |sent| == |done| && l !in done
    ensures IsFanout(sent + [Notify(l, symbol, traded, price)], done + {l}, symbol, traded, price)
    ensures |sent + [Notify(l, symbol, traded, price)]| == |done + {l}|
  {
    var sent' := sent + [Notify(l, symbol, traded, price)];
    forall i | 0 <= i < |sent| ensures sent'[i] == sent[i] && sent[i].listener != l {
    }
  }

  // ---------------------------------------------------------------------------

  class PhotonPositionMarketData {
    /** The calendar day of an instant, in the session provider's time zone. */
    const day: Instant -> int
    /** The session provider's current session start. */
    var sessionStart: Option<Instant>

    /** The registered listeners per symbol. */
    var listeners: Multimap
    /** The latest-tick and market-statistic references held per symbol. */
    var tickRefs: map<Symbol, Ref>
    var statRefs: map<Symbol, Ref>
    /** The last trade price and the last closing price seen per symbol. */
    var tickCache: Cache
    var closeCache: Cache

    function Subscriptions(): Registry
      reads this
    {
      Registry(listeners, tickRefs, statRefs)
    }

    /** The registry invariant: see `Registry.Valid`. */
    ghost predicate Valid()
      reads this
    {
      Subscriptions().Valid()
    }

    ghost predicate Paired()
      reads this
    {
      Valid() && Subscriptions().Paired()
    }

    function ListenersOf(symbol: Symbol): set<Listener>
      reads this
    {
      Get(listeners, symbol)
    }

    /** `getLastTradePrice`: only an already cached value, never a new data flow. */
    function LastTradePrice(symbol: Symbol): (price: Option<Price>)
      reads this
      ensures price.Some? ==> symbol in tickCache && tickCache[symbol] == price
      ensures symbol !in tickCache ==> price.None?
    {
      CachedValue(tickCache, symbol)
    }

    /** `getClosingPrice`: only an already cached value, never a new data flow. */
    function ClosingPrice(symbol: Symbol): (price: Option<Price>)
      reads this
      ensures price.Some? ==> symbol in closeCache && closeCache[symbol] == price
      ensures symbol !in closeCache ==> price.None?
    {
      CachedValue(closeCache, symbol)
    }

    constructor (day: Instant -> int, sessionStart: Option<Instant>)
      ensures this.day == day && this.sessionStart == sessionStart
      ensures listeners == map[] && tickRefs == map[] && statRefs == map[]
      ensures tickCache == map[] && closeCache == map[]
      ensures Paired()
    {
      this.day := day;
      this.sessionStart := sessionStart;
      listeners, tickRefs, statRefs := map[], map[], map[];
      tickCache, closeCache := map[], map[];
    }

    /**
     * `addSymbolChangeListener`. `newTickRef` and `newStatRef` are what the feed
     * hands out if asked, None when it fails; a failure is reported as `ok == false`.
     */
    method AddSymbolChangeListener(symbol: Symbol, listener: Listener, newTickRef: Option<Ref>, newStatRef: Option<Ref>)
      returns (ok: bool)
      requires Valid()
      modifies this`listeners, this`tickRefs, this`statRefs
      ensures ok == AddSucceeds(old(Subscriptions()), symbol, newTickRef, newStatRef)
      ensures Subscriptions() == Added(old(Subscriptions()), symbol, listener, newTickRef, newStatRef)
      ensures Valid()
      ensures old(Paired()) && ok ==> Paired()
    {
      ghost var r0 := Subscriptions();
      AddedValid(r0, symbol, listener, newTickRef, newStatRef);
      ok := true;
      if symbol !in tickRefs {
        if newTickRef.Some? {
          tickRefs := tickRefs[symbol := newTickRef.value];
        } else {
          ok := false;
        }
      }
      if ok && symbol !in statRefs {
        if newStatRef.Some? {
          statRefs := statRefs[symbol := newStatRef.value];
        } else {
          ok := false;
        }
      }
      if ok {
        listeners := Put(listeners, symbol, listener);
      }
      assert Subscriptions() == Added(r0, symbol, listener, newTickRef, newStatRef);
    }

    /**
     * `removeSymbolChangeListener`: when the symbol's listener set becomes empty,
     * both references are removed and disposed. The caches are never cleared.
     */
    method RemoveSymbolChangeListener(symbol: Symbol, listener: Listener) returns (disposed: seq<Ref>)
      requires Valid()
      modifies this`listeners, this`tickRefs, this`statRefs
      ensures Subscriptions() == Removed(old(Subscriptions()), symbol, listener)
      ensures disposed == Released(old(Subscriptions()), symbol, listener)
      ensures tickCache == old(tickCache) && closeCache == old(closeCache)
      ensures Valid()
      ensures old(Paired()) ==> Paired()
    {
      ghost var r0 := Subscriptions();
      RemovedValid(r0, symbol, listener);
      disposed := [];
      var rest := Get(listeners, symbol) - {listener};
      listeners := Remove(listeners, symbol, listener);
      if rest == {} {
        if symbol in tickRefs {
          disposed := disposed + [tickRefs[symbol]];
          tickRefs := tickRefs - {symbol};
        }
        if symbol in statRefs {
          disposed := disposed + [statRefs[symbol]];
          statRefs := statRefs - {symbol};
        }
      }
      assert Subscriptions() == Removed(r0, symbol, listener);
    }

    /**
     * `dispose`: removes every registered (symbol, listener) pair, iterating over a
     * snapshot of the entries. The symbols with listeners lose their last one in
     * some order (`order`), each exactly once, and each then has its tick and its
     * statistic reference disposed; nothing else is disposed.
     */
    method Dispose() returns (disposed: seq<Ref>, ghost order: seq<Symbol>)
      requires Valid()
      modifies this`listeners, this`tickRefs, this`statRefs
      ensures Valid()
      ensures listeners == map[] && statRefs == map[]
      ensures tickRefs == old(tickRefs) - old(listeners).Keys
      ensures Enumerates(order, old(listeners).Keys)
      ensures Held(order, old(tickRefs), old(statRefs)) && disposed == Disposals(order, old(tickRefs), old(statRefs))
      ensures tickCache == old(tickCache) && closeCache == old(closeCache)
      ensures old(Paired()) ==> Paired() && tickRefs == map[]
    {
      ghost var keys0, ticks0, stats0 := listeners.Keys, tickRefs, statRefs;
      disposed, order := [], [];
      var rest := Entries(listeners);
      while rest != {}
        invariant Valid()
        invariant Entries(listeners) == rest
        invariant listeners.Keys <= keys0
        invariant tickRefs == ticks0 - (keys0 - listeners.Keys)
        invariant statRefs == stats0 - (keys0 - listeners.Keys)
        invariant Enumerates(order, keys0 - listeners.Keys)
        invariant Held(order, ticks0, stats0) && disposed == Disposals(order, ticks0, stats0)
        decreases rest
      {
        var e :| e in rest;
        ghost var before := Subscriptions();
        EntriesRemove(before.listeners, e.0, e.1);
        var more := RemoveSymbolChangeListener(e.0, e.1);
        DisposeStepMaps(before, e.0, e.1, keys0, ticks0, stats0);
        DisposeStepRelease(before, e.0, e.1, keys0, ticks0, stats0);
        if more != [] {
          EnumeratesGrows(order, keys0 - before.listeners.Keys, e.0);
          DisposalsGrow(order, e.0, ticks0, stats0);
          order := order + [e.0];
        } else {
          assert disposed + more == disposed;
        }
        disposed := disposed + more;
        rest := rest - {e};
      }
      NoEntriesIsEmpty(listeners);
      assert statRefs.Keys == {};
      assert keys0 - listeners.Keys == keys0;
    }

    /**
     * `fireIfChanged`: always stores the new price (the sentinel for null), then
     * notifies every listener of the symbol if and only if the price changed.
     */
    method FireIfChanged(symbol: Symbol, newPrice: Option<Price>, traded: bool) returns (sent: seq<Notice>)
      modifies this`tickCache, this`closeCache
      ensures traded ==> tickCache == old(tickCache)[symbol := newPrice] && closeCache == old(closeCache)
      ensures !traded ==> closeCache == old(closeCache)[symbol := newPrice] && tickCache == old(tickCache)
      ensures traded ==> LastTradePrice(symbol) == newPrice
      ensures !traded ==> ClosingPrice(symbol) == newPrice
      ensures var before := CachedValue(if traded then old(tickCache) else old(closeCache), symbol);
        if before == newPrice then sent == [] else IsFanout(sent, ListenersOf(symbol), symbol, traded, newPrice)
    {
      var oldPrice: Option<Price>;
      if traded {
        oldPrice := CachedValue(tickCache, symbol);
        tickCache := tickCache[symbol := newPrice];
      } else {
        oldPrice := CachedValue(closeCache, symbol);
        closeCache := closeCache[symbol := newPrice];
      }
      UnchangedIsEquality(oldPrice, newPrice);
      if Unchanged(oldPrice, newPrice) {
        return [];
      }
      sent := Fanout(ListenersOf(symbol), symbol, traded, newPrice);
    }

    /** `fireClosingPriceChange`: the derived closing price goes through the closing-price cache. */
    method FireClosingPriceChange(symbol: Symbol, stat: Marketstat) returns (sent: seq<Notice>)
      modifies this`tickCache, this`closeCache
      ensures tickCache == old(tickCache)
      ensures closeCache == old(closeCache)[symbol := ComputeClosingPrice(sessionStart, stat, day)]
      ensures var closing := ComputeClosingPrice(sessionStart, stat, day);
        if CachedValue(old(closeCache), symbol) == closing then sent == []
        else IsFanout(sent, ListenersOf(symbol), symbol, false, closing)
    {
      sent := FireIfChanged(symbol, ComputeClosingPrice(sessionStart, stat, day), false);
    }

    /** The latest-tick adapter: a real price change of `symbol`'s tick is fired as a trade. */
    method OnLatestTickChanged(msg: Notification, symbol: Symbol, price: Option<Price>) returns (sent: seq<Notice>)
      modifies this`tickCache, this`closeCache
      ensures closeCache == old(closeCache)
      ensures !TickAdapterAccepts(msg) ==> sent == [] && tickCache == old(tickCache)
      ensures TickAdapterAccepts(msg) ==> tickCache == old(tickCache)[symbol := price]
      ensures TickAdapterAccepts(msg) ==>
        if CachedValue(old(tickCache), symbol) == price then sent == []
        else IsFanout(sent, ListenersOf(symbol), symbol, true, price)
    {
      sent := [];
      if TickAdapterAccepts(msg) {
        sent := FireIfChanged(symbol, price, true);
      }
    }

    /** The closing-price adapter: a real change of a close attribute re-derives the closing price. */
    method OnMarketstatChanged(msg: Notification, symbol: Symbol, stat: Marketstat) returns (sent: seq<Notice>)
      modifies this`tickCache, this`closeCache
      ensures tickCache == old(tickCache)
      ensures !StatAdapterAccepts(msg) ==> sent == [] && closeCache == old(closeCache)
      ensures StatAdapterAccepts(msg) ==>
        closeCache == old(closeCache)[symbol := ComputeClosingPrice(sessionStart, stat, day)]
      ensures StatAdapterAccepts(msg) ==>
        var closing := ComputeClosingPrice(sessionStart, stat, day);
        if CachedValue(old(closeCache), symbol) == closing then sent == []
        else IsFanout(sent, ListenersOf(symbol), symbol, false, closing)
    {
      sent := [];
      if StatAdapterAccepts(msg) {
        sent := FireClosingPriceChange(symbol, stat);
      }
    }

    /**
     * The session-start listener: re-derives the closing price of every symbol
     * holding a statistic reference, from `current`, the statistic each reference
     * now yields, and notifies where the derived price changed.
     */
    method OnSessionStartChanged(newStart: Option<Instant>, current: Symbol -> Marketstat) returns (sent: seq<Notice>)
      modifies this`sessionStart, this`tickCache, this`closeCache
      ensures sessionStart == newStart
      ensures tickCache == old(tickCache)
      ensures closeCache == Rederived(old(closeCache), statRefs.Keys, newStart, current, day)
      ensures SessionNotices(sent, statRefs.Keys, listeners, old(closeCache), newStart, current, day)
    {
      sessionStart := newStart;
      sent := [];
      var rest, done := statRefs.Keys, {};
      while rest != {}
        invariant rest !! done && rest + done == statRefs.Keys
        invariant sessionStart == newStart && tickCache == old(tickCache)
        invariant closeCache == Rederived(old(closeCache), done, newStart, current, day)
        invariant SessionNotices(sent, done, listeners, old(closeCache), newStart, current, day)
        decreases rest
      {
        var s :| s in rest;
        RederivedStep(old(closeCache), done, s, newStart, current, day);
        var more := FireClosingPriceChange(s, current(s));
        SessionStep(sent, more, done, s, listeners, old(closeCache), newStart, current, day);
        sent := sent + more;
        rest, done := rest - {s}, done + {s};
      }
    }
  }

  /** The closing-price cache once the symbols of `keys` have their closing price re-derived. */
  function Rederived(cache: Cache, keys: set<Symbol>, newStart: Option<Instant>, current: Symbol -> Marketstat, day: Instant -> int)
    : (cache': Cache)
    ensures forall s | s in keys :: CachedValue(cache', s) == ComputeClosingPrice(newStart, current(s), day)
    ensures forall s | s !in keys :: CachedValue(cache', s) == CachedValue(cache, s)
  {
    cache + map s | s in keys :: ComputeClosingPrice(newStart, current(s), day)
  }

  /**
   * The notices of a session-start change over the symbols of `done`: exactly one
   * `closePriceChanged` per listener of each symbol whose re-derived closing price
   * differs from the one cached before.
   */
  ghost predicate SessionNotices(
    sent: seq<Notice>, done: set<Symbol>, listeners: Multimap, cache: Cache,
    newStart: Option<Instant>, current: Symbol -> Marketstat, day: Instant -> int)
  {
    && (forall n :: n in sent <==>
      && n.ClosePriceChanged?
      && n.symbol in done
      && n.listener in Get(listeners, n.symbol)
      && n.price == ComputeClosingPrice(newStart, current(n.symbol), day)
      && n.price != CachedValue(cache, n.symbol))
    && (forall i, j | 0 <= i < j < |sent| :: sent[i] != sent[j])
  }

  lemma RederivedStep(
    cache: Cache, done: set<Symbol>, s: Symbol,
    newStart: Option<Instant>, current: Symbol -> Marketstat, day: Instant -> int)
    requires s !in done
    ensures CachedValue(Rederived(cache, done, newStart, current, day), s) == CachedValue(cache, s)
    ensures Rederived(cache, done, newStart, current, day)[s := ComputeClosingPrice(newStart, current(s), day)]
      == Rederived(cache, done + {s}, newStart, current, day)
  {
  }

  // ---------------------------------------------------------------------------
  // Helper lemmas for the loops

  /** `order` lists the symbols of `done`, each exactly once. */
  ghost predicate Enumerates(order: seq<Symbol>, done: set<Symbol>)
  {
    && (forall s :: s in order <==> s in done)
    && (forall i, j | 0 <= i < j < |order| :: order[i] != order[j])
  }

  lemma EnumeratesGrows(order: seq<Symbol>, done: set<Symbol>, s: Symbol)
    requires Enumerates(order, done) && s !in done
    ensures Enumerates(order + [s], done + {s})
  {
    var order' := order + [s];
    forall i, j | 0 <= i < j < |order'| ensures order'[i] != order'[j] {
      if j == |order| {
        assert order'[i] == order[i];
      }
    }
  }

  /** Every symbol of `order` holds both references in the maps given. */
  predicate Held(order: seq<Symbol>, ticks: map<Symbol, Ref>, stats: map<Symbol, Ref>)
  {
    forall i | 0 <= i < |order| :: order[i] in ticks && order[i] in stats
  }

  /** The references disposed when the symbols of `order` lose their last listener in that order. */
  function Disposals(order: seq<Symbol>, ticks: map<Symbol, Ref>, stats: map<Symbol, Ref>): (disposed: seq<Ref>)
    requires Held(order, ticks, stats)
    ensures |disposed| == 2 * |order|
    ensures forall i | 0 <= i < |order| :: disposed[2 * i] == ticks[order[i]] && disposed[2 * i + 1] == stats[order[i]]
  {
    if order == [] then []
    else
      var last := order[|order| - 1];
      Disposals(order[..|order| - 1], ticks, stats) + [ticks[last], stats[last]]
  }

  lemma DisposalsGrow(order: seq<Symbol>, s: Symbol, ticks: map<Symbol, Ref>, stats: map<Symbol, Ref>)
    requires Held(order, ticks, stats) && s in ticks && s in stats
    ensures Held(order + [s], ticks, stats)
    ensures Disposals(order + [s], ticks, stats) == Disposals(order, ticks, stats) + [ticks[s], stats[s]]
  {
    assert (order + [s])[..|order|] == order;
  }

  /** One removal of `dispose`'s loop: the reference maps lose exactly the symbols whose listeners are gone. */
  lemma DisposeStepMaps(r: Registry, s: Symbol, l: Listener, keys0: set<Symbol>, ticks0: map<Symbol, Ref>, stats0: map<Symbol, Ref>)
    requires r.Valid() && l in Get(r.listeners, s) && r.listeners.Keys <= keys0
    requires r.tickRefs == ticks0 - (keys0 - r.listeners.Keys)
    requires r.statRefs == stats0 - (keys0 - r.listeners.Keys)
    ensures var r' := Removed(r, s, l);
      && r'.listeners.Keys <= keys0
      && r'.tickRefs == ticks0 - (keys0 - r'.listeners.Keys)
      && r'.statRefs == stats0 - (keys0 - r'.listeners.Keys)
  {
    var r' := Removed(r, s, l);
    if Get(r.listeners, s) - {l} == {} {
      assert r'.listeners.Keys == r.listeners.Keys - {s};
      assert keys0 - r'.listeners.Keys == (keys0 - r.listeners.Keys) + {s};
    } else {
      assert r'.listeners.Keys == r.listeners.Keys;
    }
  }

  /** One removal of `dispose`'s loop disposes both references of its symbol when its last listener goes, else nothing. */
  lemma DisposeStepRelease(
    r: Registry, s: Symbol, l: Listener, keys0: set<Symbol>, ticks0: map<Symbol, Ref>, stats0: map<Symbol, Ref>)
    requires r.Valid() && l in Get(r.listeners, s)
    requires r.tickRefs == ticks0 - (keys0 - r.listeners.Keys)
    requires r.statRefs == stats0 - (keys0 - r.listeners.Keys)
    ensures Released(r, s, l) == [] <==> Removed(r, s, l).listeners.Keys == r.listeners.Keys
    ensures Released(r, s, l) != [] ==>
      && s in r.listeners && s in ticks0 && s in stats0
      && Removed(r, s, l).listeners.Keys == r.listeners.Keys - {s}
      && Released(r, s, l) == [ticks0[s], stats0[s]]
  {
    if Get(r.listeners, s) - {l} == {} {
      assert s in r.listeners && s in r.statRefs && s in r.tickRefs;
      assert Removed(r, s, l).listeners.Keys == r.listeners.Keys - {s};
    }
  }

  /** The notices of one more symbol extend those of the symbols done so far. */
  lemma SessionStep(
    sent: seq<Notice>, more: seq<Notice>, done: set<Symbol>, s: Symbol, listeners: Multimap, cache: Cache,
    newStart: Option<Instant>, current: Symbol -> Marketstat, day: Instant -> int)
    requires SessionNotices(sent, done, listeners, cache, newStart, current, day) && s !in done
    requires var closing := ComputeClosingPrice(newStart, current(s), day);
      if CachedValue(cache, s) == closing then more == []
      else IsFanout(more, Get(listeners, s), s, false, closing)
    ensures SessionNotices(sent + more, done + {s}, listeners, cache, newStart, current, day)
  {
    var closing := ComputeClosingPrice(newStart, current(s), day);
    var sent' := sent + more;
    forall n ensures n in sent' <==>
      && n.ClosePriceChanged?
      && n.symbol in done + {s}
      && n.listener in Get(listeners, n.symbol)
      && n.price == ComputeClosingPrice(newStart, current(n.symbol), day)
      && n.price != CachedValue(cache, n.symbol)
    {
      if n.symbol == s && n.ClosePriceChanged? && n.listener in Get(listeners, s) && n.price == closing
        && closing != CachedValue(cache, s) {
        assert n == Notify(n.listener, s, false, closing);
      }
    }
    forall i, j | 0 <= i < j < |sent'| ensures sent'[i] != sent'[j] {
      if j >= |sent| && i < |sent| {
        assert sent'[i] in sent;
        assert sent'[j] == more[j - |sent|];
      } else if i >= |sent| {
        assert sent'[i] == more[i - |sent|];
      }
    }
  }
}
