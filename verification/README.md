# Marketcetera position market data, marks and trade types in Dafny

This project models three pieces of the Marketcetera platform and proves properties of the models.

- **`PhotonPositionMarketData`** (`position_market_data.dfy`, module `PositionMarketData`) is the market-data fan-out and de-duplication cache used by the Photon position engine. Per symbol it holds:
  - a set-multimap of registered `SymbolChangeListener`s;
  - one latest-tick reference and one market-statistic reference acquired from the market-data feed;
  - a last-trade-price cache and a closing-price cache.

  It notifies a symbol's listeners only when one of those prices actually changes. The class `PhotonPositionMarketData` keeps these five pieces of state as fields. Its methods update them in place. A pure `Registry` value (listeners plus the two reference maps) and the functions `Added`, `Removed` and `Released` specify what adding and removing a listener does to them. `Registry.Valid` is the invariant: a statistic reference exactly for the symbols with listeners, and a tick reference at least for those. `Registry.Paired` is the stronger form: both references exactly for the symbols with listeners. Every successful add keeps `Paired`, and so do every remove and `dispose`.
- **`Mark`** (`mark.dfy`, module `Marks`) is the trade-database record of a dated value for an equity. It has its `validate` rules, its `before_create` default date and its one-line error report `pretty_print_errors`. The report follows Ruby 1.8 and Rails 2 semantics:
  - `errors[attr]` is nil, a single message, or an Array when an attribute has several;
  - string interpolation of an Array concatenates its elements;
  - `blank?` on a String means "only whitespace".
- **`TradesHelper.get_human_trade_type`** (`trades_helper.dfy`, module `TradesHelper`) maps the trade-type codes `T`, `R`, `E` and `C` to display text. Any other code gets the text `Unknown: ` followed by the code.

`wrappers.dfy` holds the `Option` type. It stands in for Java's `null` and Ruby's `nil`.

Modelling choices:
- Prices are integers (fixed-point decimals). BigDecimal `compareTo == 0` therefore becomes integer equality.
- The price caches map a symbol to `Option<Price>`. `None` plays the part of the `NULL` sentinel, so "never written", "null written" and the sentinel all read back as `None`.
- The calendar day of an instant is an injected function `day`, given at construction. Ruby's `Date.today` is a `today` parameter.
- The feed's reference acquisitions are parameters of `AddSymbolChangeListener`: `newTickRef` and `newStatRef`, with `None` when the acquisition fails. `ref.dispose()` calls are the `disposed` results of `RemoveSymbolChangeListener` and `Dispose`.
- A listener callback is a `Notice` value. A fan-out returns the sequence of notices in the order the listeners were called.
- The feed's model-object notifications are `Notification(isTouch, eventType, feature)` records, with `SET` = 1 as in EMF.

Where one might expect otherwise, the model follows the code:
- `addSymbolChangeListener` does not roll back (`PhotonPositionMarketData.java:125-136`). When the statistic acquisition fails after the tick acquisition succeeded, the tick reference stays without a listener (`AddedOrphanTick`). This is why `Registry.Valid` only asks for tick references "at least" for the symbols with listeners.
- The caches are never cleared when listeners go, as the `TODO: Cache cleanup` at `PhotonPositionMarketData.java:38` says.
- Registering the same (symbol, listener) pair twice is a no-op, because the listener multimap is a `HashMultimap` (`PhotonPositionMarketData.java:55`).
- `dispose` (`PhotonPositionMarketData.java:233-238`) only visits symbols with listeners, so it leaves orphan tick references in place.

## Model

| member | source | states |
|---|---|---|
| TradesHelper.HumanTradeType | source/tradebase/app/helpers/trades_helper.rb:3-21 | T, R, E and C give "Trade", "Reconciliation", "Exercise or expire" and "Corporate action", each in both directions; any other code gives "Unknown: " followed by the code, and only the four known codes give a text not starting with "Unknown: " |
| TradesHelper.TradeTypeOfText | source/tradebase/app/helpers/trades_helper.rb:8-21 | the partial inverse: a recovered code always maps back to the text |
| TradesHelper.TextRoundTrip | source/tradebase/app/helpers/trades_helper.rb:8-21 | every code is recovered from its text |
| TradesHelper.HumanTradeTypeInjective | source/tradebase/app/helpers/trades_helper.rb:8-21 | two codes with the same text are the same code |
| Marks.ValidationErrorsChecks | source/tradebase/app/models/mark.rb:12-16 | `validate` adds the mark_value error iff the value is missing or negative, the symbol error iff the symbol root is missing or blank, and the mark_date error iff the date is missing or after today; it adds nothing else and no attribute twice |
| Marks.Mark.EquitySymbolRoot | source/tradebase/app/models/mark.rb:24-26 | the root is present iff the equity, its m_symbol and the root all are, and is then the m_symbol's root |
| Marks.Mark.Validate | source/tradebase/app/models/mark.rb:12-16 | appends exactly the errors of the three checks, in value, symbol, date order, to the errors already recorded |
| Marks.Mark.BeforeCreate | source/tradebase/app/models/mark.rb:18-22 | a missing mark date becomes today; a present one is kept |
| Marks.Messages | source/tradebase/app/models/mark.rb:32-45 | `errors[a]` is nil (no messages) exactly when nothing was added for attribute a |
| Marks.MessagesMembers | source/tradebase/app/models/mark.rb:32-45 | `errors[a]` holds a message iff that message was added for attribute a |
| Marks.MessagesAppend | source/tradebase/app/models/mark.rb:13-15 | messages added later come after the earlier ones for the same attribute |
| Marks.Mark.PrettyPrintErrors | source/tradebase/app/models/mark.rb:29-49 | the accumulated string equals the report `PrettyErrors(errors)` |
| Marks.PrettyErrors | source/tradebase/app/models/mark.rb:30-48 | the report always starts with `{` and ends with `}` |
| Marks.PrettyErrorsEmpty | source/tradebase/app/models/mark.rb:30-48 | the report is exactly `{}` iff no section is shown, and always with no errors |
| Marks.PrettyErrorsIgnoresOtherAttributes | source/tradebase/app/models/mark.rb:31-46 | errors on an attribute whose name is not symbol, mark_value or mark_date never change the report |
| Marks.PrettyErrorsPrintsFirstValueOnly | source/tradebase/app/models/mark.rb:36-43 | once the Value section is shown, further mark_value messages leave the report unchanged: only the first is printed |
| Marks.ValidationMessages | source/tradebase/app/models/mark.rb:12-16 | after `validate` each of the three attributes holds its one message when its check failed and none otherwise |
| Marks.ValidatedReport | source/tradebase/app/models/mark.rb:12-49 | the report of a freshly validated mark lists the failed checks in Symbol, Value, Date order with their messages, inside braces |
| PositionMarketData.TickAdapterAccepts | source/photon/plugins/org.marketcetera.photon/src/main/java/org/marketcetera/photon/PhotonPositionMarketData.java:243-245 | a touch or a non-SET notification is never accepted, and an accepted one is about the latest-tick price |
| PositionMarketData.StatAdapterAccepts | source/photon/plugins/org.marketcetera.photon/src/main/java/org/marketcetera/photon/PhotonPositionMarketData.java:256-264 | a touch or a non-SET notification is never accepted, nor one about the tick price or any feature other than the four close attributes |
| PositionMarketData.Put | source/photon/plugins/org.marketcetera.photon/src/main/java/org/marketcetera/photon/PhotonPositionMarketData.java:137 | the symbol's set gains the listener, every other symbol's set is unchanged, the symbol becomes a key, and no key is left with an empty set |
| PositionMarketData.Remove | source/photon/plugins/org.marketcetera.photon/src/main/java/org/marketcetera/photon/PhotonPositionMarketData.java:146-148 | the symbol's set loses the listener, other sets are unchanged, the key goes exactly when its set becomes empty |
| PositionMarketData.PutRegistered | source/photon/plugins/org.marketcetera.photon/src/main/java/org/marketcetera/photon/PhotonPositionMarketData.java:55 | registering a registered pair leaves the multimap unchanged (set semantics) |
| PositionMarketData.RemoveUnregistered | source/photon/plugins/org.marketcetera.photon/src/main/java/org/marketcetera/photon/PhotonPositionMarketData.java:146-148 | removing an unregistered pair leaves the multimap unchanged |
| PositionMarketData.RemoveAfterPut | source/photon/plugins/org.marketcetera.photon/src/main/java/org/marketcetera/photon/PhotonPositionMarketData.java:137-148 | removing a pair just put restores the multimap |
| PositionMarketData.EntriesRemove | source/photon/plugins/org.marketcetera.photon/src/main/java/org/marketcetera/photon/PhotonPositionMarketData.java:233-238 | removing a pair removes exactly that pair from the entries |
| PositionMarketData.NoEntriesIsEmpty | source/photon/plugins/org.marketcetera.photon/src/main/java/org/marketcetera/photon/PhotonPositionMarketData.java:233-238 | a multimap without entries has no keys |
| PositionMarketData.Added | source/photon/plugins/org.marketcetera.photon/src/main/java/org/marketcetera/photon/PhotonPositionMarketData.java:122-139 | an add releases nothing; it registers and acquires for its own symbol only, and keeps every held reference as it was |
| PositionMarketData.Removed | source/photon/plugins/org.marketcetera.photon/src/main/java/org/marketcetera/photon/PhotonPositionMarketData.java:142-168 | a remove acquires nothing; it unregisters and releases for its own symbol only |
| PositionMarketData.Released | source/photon/plugins/org.marketcetera.photon/src/main/java/org/marketcetera/photon/PhotonPositionMarketData.java:149-166 | a remove disposes at most two references |
| PositionMarketData.ReleasedAreDropped | source/photon/plugins/org.marketcetera.photon/src/main/java/org/marketcetera/photon/PhotonPositionMarketData.java:149-166 | a remove disposes exactly the references it stops holding, tick before statistic, and keeps every other reference as it was |
| PositionMarketData.ReleasedWithLastListener | source/photon/plugins/org.marketcetera.photon/src/main/java/org/marketcetera/photon/PhotonPositionMarketData.java:142-168 | in any valid registry, when the symbol's last listener goes, both of its references are disposed, tick first |
| PositionMarketData.AddedRegisters | source/photon/plugins/org.marketcetera.photon/src/main/java/org/marketcetera/photon/PhotonPositionMarketData.java:122-139 | a successful add registers the pair and leaves both references for the symbol; held references are reused, not re-acquired |
| PositionMarketData.AddedValid | source/photon/plugins/org.marketcetera.photon/src/main/java/org/marketcetera/photon/PhotonPositionMarketData.java:122-139 | every add keeps `Registry.Valid`; a successful one keeps `Registry.Paired` |
| PositionMarketData.AddedOrphanTick | source/photon/plugins/org.marketcetera.photon/src/main/java/org/marketcetera/photon/PhotonPositionMarketData.java:125-136 | a failed statistic acquisition for a new symbol keeps the fresh tick reference without a listener and breaks `Paired` (no rollback) |
| PositionMarketData.AddRegisteredIsNoop | source/photon/plugins/org.marketcetera.photon/src/main/java/org/marketcetera/photon/PhotonPositionMarketData.java:122-139 | adding a registered pair succeeds and changes nothing |
| PositionMarketData.RemovedValid | source/photon/plugins/org.marketcetera.photon/src/main/java/org/marketcetera/photon/PhotonPositionMarketData.java:142-168 | every remove keeps `Registry.Valid` and `Registry.Paired` |
| PositionMarketData.RemoveUnregisteredIsNoop | source/photon/plugins/org.marketcetera.photon/src/main/java/org/marketcetera/photon/PhotonPositionMarketData.java:142-168 | in a valid registry, removing an unregistered pair changes nothing, provided the symbol holds no tick reference without listeners (an orphan left by a failed add is disposed by such a remove, as ReleasedAreDropped covers) |
| PositionMarketData.RemoveAfterAdd | source/photon/plugins/org.marketcetera.photon/src/main/java/org/marketcetera/photon/PhotonPositionMarketData.java:122-168 | in a valid registry where the symbol holds no tick reference without listeners, adding a new pair and removing it restores the registry, references included, whether the add succeeded or failed part-way (the remove disposes the orphan tick) |
| PositionMarketData.RemoveAfterAddReleasesAcquired | source/photon/plugins/org.marketcetera.photon/src/main/java/org/marketcetera/photon/PhotonPositionMarketData.java:122-168 | in a valid registry where the symbol has no listeners and no tick reference, the references acquired for its first listener are the ones disposed when it goes |
| PositionMarketData.ApplyHolds | source/photon/plugins/org.marketcetera.photon/src/main/java/org/marketcetera/photon/PhotonPositionMarketData.java:122-168 | a call comes to hold a reference exactly when it acquires one, and stops holding it exactly when it disposes it |
| PositionMarketData.ReferenceBalance | source/photon/plugins/org.marketcetera.photon/src/main/java/org/marketcetera/photon/PhotonPositionMarketData.java:122-168 | over any run of adds and removes, acquisitions plus the initial holding equal releases plus the final holding, per symbol and kind |
| PositionMarketData.RunValid | source/photon/plugins/org.marketcetera.photon/src/main/java/org/marketcetera/photon/PhotonPositionMarketData.java:122-168 | any run of adds and removes keeps `Registry.Valid` |
| PositionMarketData.OutstandingReferences | source/photon/plugins/org.marketcetera.photon/src/main/java/org/marketcetera/photon/PhotonPositionMarketData.java:122-168 | from the empty state, acquisitions minus releases per symbol is 0 or 1, and for statistic references it is 1 exactly while the symbol has listeners |
| PositionMarketData.CachedValue | source/photon/plugins/org.marketcetera.photon/src/main/java/org/marketcetera/photon/PhotonPositionMarketData.java:116-119 | a price is read only for a symbol that has a cache entry, and is that entry; a symbol never written reads as none |
| PositionMarketData.PhotonPositionMarketData.LastTradePrice | source/photon/plugins/org.marketcetera.photon/src/main/java/org/marketcetera/photon/PhotonPositionMarketData.java:101-106 | reads only the trade-price cache: a price only for a symbol whose trade price was written, and then the value written |
| PositionMarketData.PhotonPositionMarketData.ClosingPrice | source/photon/plugins/org.marketcetera.photon/src/main/java/org/marketcetera/photon/PhotonPositionMarketData.java:108-114 | reads only the closing-price cache: a price only for a symbol whose closing price was written, and then the value written |
| PositionMarketData.CachedValueAfterWrite | source/photon/plugins/org.marketcetera.photon/src/main/java/org/marketcetera/photon/PhotonPositionMarketData.java:116-119 | a cached write is read back, and other symbols read as before |
| PositionMarketData.UnchangedIsEquality | source/photon/plugins/org.marketcetera.photon/src/main/java/org/marketcetera/photon/PhotonPositionMarketData.java:186-192 | the two early returns of `fireIfChanged` fire exactly when old and new price are equal, absent counting as one value |
| PositionMarketData.ComputeClosingPrice | source/photon/plugins/org.marketcetera.photon/src/main/java/org/marketcetera/photon/PhotonPositionMarketData.java:207-231 | no session start gives none; a close date on the session day gives the close price; otherwise a previous-close date on that day gives the previous close price; otherwise none |
| PositionMarketData.ClosingPriceDependsOnDayOnly | source/photon/plugins/org.marketcetera.photon/src/main/java/org/marketcetera/photon/PhotonPositionMarketData.java:207-231 | two session starts on the same day give the same closing price |
| PositionMarketData.Fanout | source/photon/plugins/org.marketcetera.photon/src/main/java/org/marketcetera/photon/PhotonPositionMarketData.java:196-204 | every listener of the set is called exactly once, with the trade or close callback and the new price, and nobody else |
| PositionMarketData.Rederived | source/photon/plugins/org.marketcetera.photon/src/main/java/org/marketcetera/photon/PhotonPositionMarketData.java:91-95 | the symbols re-derived read their new closing price; all others read as before |
| PositionMarketData.Disposals | source/photon/plugins/org.marketcetera.photon/src/main/java/org/marketcetera/photon/PhotonPositionMarketData.java:233-238 | two disposals per emptied symbol, its tick then its statistic reference, in the order the symbols were emptied |
| PositionMarketData.PhotonPositionMarketData.constructor | source/photon/plugins/org.marketcetera.photon/src/main/java/org/marketcetera/photon/PhotonPositionMarketData.java:81-98 | starts with no listeners, references or cached prices, in the paired state |
| PositionMarketData.PhotonPositionMarketData.AddSymbolChangeListener | source/photon/plugins/org.marketcetera.photon/src/main/java/org/marketcetera/photon/PhotonPositionMarketData.java:121-139 | the new state is `Added` of the old one; success iff each missing reference could be acquired; keeps the invariant, and a successful add keeps the paired state |
| PositionMarketData.PhotonPositionMarketData.RemoveSymbolChangeListener | source/photon/plugins/org.marketcetera.photon/src/main/java/org/marketcetera/photon/PhotonPositionMarketData.java:141-168 | the new state is `Removed` of the old one; disposes `Released` of it; never touches the caches; keeps the invariant and the paired state |
| PositionMarketData.PhotonPositionMarketData.Dispose | source/photon/plugins/org.marketcetera.photon/src/main/java/org/marketcetera/photon/PhotonPositionMarketData.java:233-238 | no listeners or statistic references remain; only orphan tick references stay; every symbol that had listeners has its two references disposed exactly once, in some order, and nothing else is disposed; caches untouched |
| PositionMarketData.PhotonPositionMarketData.FireIfChanged | source/photon/plugins/org.marketcetera.photon/src/main/java/org/marketcetera/photon/PhotonPositionMarketData.java:178-205 | always stores the new price in the chosen cache so that it reads back; notifies the symbol's listeners exactly once each iff the cached price differed, else nobody |
| PositionMarketData.PhotonPositionMarketData.FireClosingPriceChange | source/photon/plugins/org.marketcetera.photon/src/main/java/org/marketcetera/photon/PhotonPositionMarketData.java:174-176 | the derived closing price goes through the closing-price cache and its change detection |
| PositionMarketData.PhotonPositionMarketData.OnLatestTickChanged | source/photon/plugins/org.marketcetera.photon/src/main/java/org/marketcetera/photon/PhotonPositionMarketData.java:240-251 | ignores everything but a real SET of the tick price; that one is fired as a trade |
| PositionMarketData.PhotonPositionMarketData.OnMarketstatChanged | source/photon/plugins/org.marketcetera.photon/src/main/java/org/marketcetera/photon/PhotonPositionMarketData.java:253-269 | ignores everything but a real SET of one of the four close attributes; that one re-derives and fires the closing price |
| PositionMarketData.PhotonPositionMarketData.OnSessionStartChanged | source/photon/plugins/org.marketcetera.photon/src/main/java/org/marketcetera/photon/PhotonPositionMarketData.java:86-97 | re-derives the closing price of exactly the symbols holding a statistic reference; sends one close-price notice to each listener of each symbol whose price changed, and nothing else |

## Left out

- Locking: the `synchronized` methods and blocks and the concurrent maps serve thread safety only. Every operation is modelled as running to completion on single-owner state.
- EMF adapter registration (`eAdapters().add/remove`) and the feed calls `getLatestTick`/`getMarketstat` are not modelled as calls. Acquisitions are parameters; disposals are results.
- The null guards on `ref.get()` and `statRef.get()` in `removeSymbolChangeListener` are not modelled. The model takes every held reference to yield its item, as `addSymbolChangeListener` itself assumes. A reference whose item is gone would not be removed or disposed in the source.
- `Validate.noNullElements` / `Validate.notNull` argument checks, and their `IllegalArgumentException`, are left out: symbols and listeners are never null in the model.
- PositionMarketData.PhotonPositionMarketData.Dispose: iterates over a snapshot of the entries, not over the live `entries()` view that the source removes from while iterating (`PhotonPositionMarketData.java:235-236`). Guava's multimap iterators are fail-fast. So with two or more entries, the source's loop would most likely throw `ConcurrentModificationException` on the `next()` after the first removal, leaving a partial teardown: one listener removed and possibly its references disposed, the rest untouched. The model describes the complete teardown that the loop evidently aims at. The order in which symbols are emptied is left open (ghost `order`).
- PositionMarketData.Fanout: the iteration order of a listener set is unspecified, so the contract fixes who is called and how often, not the order.
- PositionMarketData.PhotonPositionMarketData.OnSessionStartChanged: `current` gives the statistic each held reference yields now. Its symbol is taken to be the key the reference is held under.
- The constructor's registration of the session-start listener is not modelled as a call: `OnSessionStartChanged` is that listener, and the provider's session start is the `sessionStart` field.
- BigDecimal scale, and the calendar and time-zone computation behind `DateUtils.isSameDay`, are out of scope: prices are integers and the day of an instant is the injected `day` function.
- The `NULL` sentinel's reference identity is not modelled: an `Option` cache has no separate sentinel value.
- `mark.rb` lines 7-8 and 10 (uniqueness of the mark date per equity, numericality of the value) are database and ActiveRecord checks and are not modelled. Neither are the `belongs_to` association, `MARK_TYPES`, or the asset-type constants of `trades_helper.rb`.
- Marks.Mark.Validate: `mark_value` and `mark_date` are modelled as present-or-absent values. Ruby's `blank?` on a number or a date is false, so only nil is blank for them.
- Marks.PrettyErrorsIgnoresOtherAttributes: only for attribute names other than `symbol`, `mark_value` and `mark_date` (`IsCoreName`). Rails keys errors by the attribute's name, so an error under one of those names is an error on that attribute, and the model writes it with `SymbolAttr`, `MarkValueAttr` or `MarkDateAttr`.
- TradesHelper.HumanTradeType: the code is taken as a string. A nil code behaves as the empty string through `to_s`; other Ruby types are not modelled.
