# pricestream: a verified model

pricestream polls several exchanges for quotes, consolidates them into one price per instrument, detects cross-venue
arbitrage, pushes each new price to WebSocket clients, and, in a separate service fed through Kafka, builds OHLC bars of one
minute, five minutes and one hour. This project models those parts in Dafny and proves what they guarantee.

| file | what it holds |
|---|---|
| `Numbers.dfy` | exact sums, means and extremes of lists of reals |
| `Buckets.dfy` | the arithmetic of `_bucket_start`, with UTC offsets and truncation towards zero |
| `Bars.dfy`, `Rounding.dfy` | the bar table: one update, any run of updates, storage rounding |
| `RollUp.dfy`, `ArrivalOrder.dfy` | when the three intervals agree, and how instruments may be interleaved |
| `Recovery.dfy`, `Partitions.dfy` | redelivery, replay and crashes between the three transactions of an event, for one log and for each instrument on its own |
| `KafkaConsumer.dfy` | the consumer service: payloads, the event handler and the loop, as a class over the table |
| `Aggregator.dfy`, `ArbitrageScan.dfy` | the staleness gate, consolidation, and the quadratic arbitrage scan |
| `StoredPrices.dfy`, `Stats.dfy` | published prices as rows give them back, and the rolling statistics over a window of them |
| `LiveFeed.dfy` | the publication protocol: one worker, any number of clients, cache expiry, as a step relation |
| `Transcripts.dfy` | the order in which clients see prices, and which instruments they can follow |
| `KafkaProducer.dfy` | the lazily built producer: double-checked locking by any number of threads, as a step relation |
| `FetchRound.dfy` | the polling task, as a class over its stores, tied to a run of the publication protocol |
| `EndToEnd.dfy` | from the quotes that rounds store to the bars that the consumer builds of them |

`dafny verify dfyconfig.toml` checks the project.

## How the model reads the program

* A timestamp is a `Stamp`: an instant in microseconds since 1970 and the UTC offset it is written with. The bucket epoch is
  midnight of 1970 in that offset, as in the code. What holds only on the UTC grid carries `OnGrid` (not before the epoch, offset
  a multiple of the interval), which the producer's own messages meet (`PublishedQuoteAccepted`).
* Prices are exact reals. What the columns of the bar table do to a price is any monotone and idempotent rounding; rounding to
  ten places is proved to be one.
* An event makes three separate transactions. A `Pass` is one attempt at an event that commits the first 0, 1, 2 or 3 of them;
  a run of the consumer is any list of passes. `Recovery` adds the rule for resuming: never past the first event that was not
  handled completely, but possibly at any earlier one.
* The clock is re-read for every quote that the staleness gate examines; it is a list with one reading per quote. Ages are in
  microseconds.
* `LiveFeed` and `KafkaProducer` let the steps of all processes interleave freely. `Run` maps a list of steps to the state it
  leads to, or to None if a step is not possible there; theorems range over every list with a state. Row numbers, the
  broadcasts made so far (`sent`) and the point at which a client joined (`joined`) are recorded for the theorems only.
* `FetchRound.Service` has one ghost field, the list of `LiveFeed` steps its methods have performed, with cache entries lapsing
  between any two of them. Clients do not disturb these steps (`LiveFeed.WorkerAlone`), so whatever clients are interleaved
  with them see the service's stores (`FetchRound.ClientsSeeStoredPrices`).

## What the proofs say about the code

* Every bar is the first, greatest, least and last mid and the number of the events committed to it, for any stream with
  redelivery and crashes. If the consumer, for each instrument, always resumes at an unfinished event or before it, the prices
  of the undisturbed run come back once it has caught up, and only tick counts are inflated, by an amount that is stated exactly.
* In an undisturbed run over stamps on the UTC grid, high, low, volume and tick count of the three intervals agree. An attempt
  that is cut short leaves them different until its event is handled again. Open and close agree exactly if the prices at the
  two ends of a bucket round alike; and, whatever the prices, exactly if the first arrival in a coarse bucket lies in its
  earliest fine bucket with an event and the last arrival in the latest one. A late event breaks the roll-up only if it
  violates that.
* `_bucket_start` (`apps/pricing/kafka_consumer.py:30-36`) puts an instant outside its own bucket for fractional
  timestamps before 1970 just below a boundary, and off the UTC grid for offsets that are not multiples of the interval. Both
  conditions are exact (`BucketContains`, `BucketOnUtcGrid`, `NestingNeedsGridOffset`).
* A live client never misses a broadcast, but its transcript can step back: exactly if, when it reads the cache, its queue holds
  a row already and the cache a newer one. That row is then seen as the snapshot first, and again after older ones.
* The route admits letters, digits and hyphens (`apps/pricing/routing.py:6`) and `connect` upper-cases the symbol
  (`apps/pricing/consumers.py:18`), while the task broadcasts under the symbol as it stands (`apps/pricing/tasks.py:150`). So an
  instrument has a reachable feed exactly if its symbol is not empty and has only capitals, digits and hyphens; `btc-usd` and
  `BTC-USD_PERP` have none.
* On a crossed book the arbitrage scan reports nothing exactly if one venue crosses it alone, and it reports the best bid
  against the best ask exactly if those are at different venues. It maximises the absolute spread
  (`apps/pricing/aggregator.py:107`). That trade has the largest relative spread too if the bests are at different venues. If
  they are at one venue only, let B and A be the best bid and ask of the others: it has it if B + A exceeds the sum of the bests;
  on equal sums, if the best ask is scanned before A; and on a smaller sum, exactly if the product of B and A does not exceed
  that of the bests.
* The bound of 20000 basis points on published spreads does not survive storage. A row whose bid rounds to zero can exceed
  it, at any level of prices, but by no more than one unit of the tenth place makes of its mid: 30000 is reached at a mid of
  one unit only. `StoredSpreadBound` names the rows that reach 20000, and `DustRow` attains the bound at every mid.
* `docs/architecture.md:42-44` speaks of a staleness gate as something that a production system would add. The code has one
  (`apps/pricing/aggregator.py:43-45`), and the model follows the code.

## Model

| member | source | states |
|---|---|---|
| Buckets.BucketContains | apps/pricing/kafka_consumer.py:30-36 | A bucket contains its instant if and only if the stamp is not before the (local) epoch, or is a whole second, or is not within the last second before a boundary |
| Buckets.BucketOnUtcGrid | apps/pricing/kafka_consumer.py:32-36 | Bucket starts are multiples of the interval in UTC if and only if the stamp's offset is such a multiple |
| Buckets.GridBucketIsTheBucket | apps/pricing/kafka_consumer.py:30-36 | On the grid the bucket is the unique multiple of the interval whose interval holds the instant; bucketing again changes nothing; later instants never get earlier buckets |
| Buckets.NestingNeedsGridOffset | apps/pricing/kafka_consumer.py:23-36 | Fine buckets lie inside coarse ones at every instant if and only if the offset is a multiple of the coarse interval |
| Buckets.RoundingInStages | apps/pricing/kafka_consumer.py:23-36 | The hour of the five minutes of the minute of a stamp is the hour of the stamp, before 1970 too |
| Buckets.JustBeforeTheEpoch | apps/pricing/kafka_consumer.py:33-36 | Concrete stamp outside its bucket: truncation towards zero moves the microsecond before 1970 into the first minute of 1970 |
| Buckets.HalfHourOffset | apps/pricing/kafka_consumer.py:32-36 | Concrete instant that is filed under two different hours, depending on the offset it is written with |
| Buckets.SevenPastOne | apps/pricing/kafka_consumer.py:23-36 | Half a second after 01:07:30 is filed under 01:07, 01:05 and 01:00 |
| Bars.RecordExtendsSummary | apps/pricing/kafka_consumer.py:41-60 | Updating a stored, rounded bar gives the first, greatest, least, last and number of the longer list of prices, each rounded once: rounding on every save is harmless |
| Bars.PlayIsSummary | apps/pricing/kafka_consumer.py:39-60 | After any list of updates to any rows, each row is the summary of exactly the prices written to its key |
| Bars.TableMeaning | apps/pricing/kafka_consumer.py:110-134 | After any run, with redelivery and attempts cut short, a row exists if and only if an event was committed to its key, and it summarises the mids of the events committed to it |
| Bars.TableInWords | apps/pricing/kafka_consumer.py:39-60 | After any run a row exists exactly if some attempt, given by its position, committed to its instrument, interval and bucket; its open and close are the first and last of their mids, its high and low a greatest and a least one, rounded, its volume is zero and its tick count their number |
| Rounding.TenPlacesIsStorageRounding | apps/pricing/models.py:106-110 | Rounding to the ten places of the columns is monotone and idempotent, as the table theorems need |
| Rounding.TenPlacesStays | apps/pricing/models.py:106-110 | Rounding to ten places gives a multiple of the last place, at most half of it away |
| Rounding.TieAway | apps/pricing/models.py:106-110 | A value halfway between two of the tenth place is stored as the one farther from zero |
| Rounding.FourPlacesStays | apps/pricing/tasks.py:111 | Quantizing to four places moves a value by at most half a unit of the last place and keeps it between whole numbers |
| Rounding.TieToEven | apps/pricing/tasks.py:111 | A value halfway between two of the fourth place is quantized to the even one |
| RollUp.CompleteTable | apps/pricing/kafka_consumer.py:110-134 | In an undisturbed run each row is the first, greatest, least, last and number of the mids of the events in its bucket |
| RollUp.RollUpInOrder | apps/pricing/kafka_consumer.py:30-60 | If each instrument's events arrive in time order, every 5m bar is the time-ordered merge of its 1m bars and every 1h bar of its 5m bars and of its 1m bars, missing bars included |
| RollUp.RollUpAnyOrder | apps/pricing/kafka_consumer.py:54-60 | In any order of arrival, existence, high, low, volume and tick count of a coarse bar are those of its fine bars together |
| RollUp.LateEventBreaksRollUp | apps/pricing/kafka_consumer.py:47-60 | Two events arriving in the wrong order for which the 5m bar and the merge of its 1m bars open differently, under any rounding that keeps 1 and 2 apart |
| ArrivalOrder.RollUpExactly | apps/pricing/kafka_consumer.py:39-60 | In any order of arrival, a coarse bar is the merge of its fine bars if and only if no event is in it, or its first price rounds like the first one of its earliest fine bar and its last price like the last one of its latest fine bar |
| ArrivalOrder.AgreeByArrivals | apps/pricing/kafka_consumer.py:39-60 | The same condition in terms of the positions, in the log, of the arrivals at the two ends of the coarse bucket and of its outermost fine buckets |
| ArrivalOrder.RollUpForAllPrices | apps/pricing/kafka_consumer.py:30-60 | Whatever the events are priced at, a coarse bar is the merge of its fine bars, if and only if the first arrival in its bucket lies in the earliest fine bucket that has an event, and the last one in the latest |
| ArrivalOrder.MergedEnds | apps/pricing/kafka_consumer.py:47-60 | The merge of consecutive bars opens as the earliest of them that exists and closes as the latest |
| ArrivalOrder.LateButHarmless | apps/pricing/kafka_consumer.py:39-60 | Two events out of order within one minute, whose 1m bars still merge to the 5m bar |
| RollUp.SplitInOrder | apps/pricing/kafka_consumer.py:133-134 | In time order, the prices of two adjacent ranges of buckets come one range after the other |
| RollUp.PartitionIndependence | apps/pricing/kafka_producer.py:56-61 | Two logs that agree on each instrument's own order build the same table, so keying messages by symbol is enough |
| Recovery.CaughtUpTable | apps/pricing/kafka_consumer.py:71-85 | However often the consumer crashed between transactions and was set back, once it has caught up every bar of every interval exists as in the undisturbed run, with the same open, high, low, close and volume and at least its ticks |
| Recovery.ResumesMore | apps/pricing/kafka_consumer.py:72 | A run that resumes may go on exactly at the event after its last one, at that one if it was cut short, or at any earlier one, and begins at the first |
| Partitions.RowOfInstrument | apps/pricing/kafka_producer.py:56-61 | In any run with redelivery and crashes, a row depends on the attempts at its own instrument's events only, whatever they are interleaved with |
| Partitions.PartitionsCatchUp | apps/pricing/kafka_consumer.py:71-85 | If for each instrument the attempts resume and catch up over that instrument's own events, in any interleaving, every row shows the prices of the undisturbed run over the whole log, with at least its ticks |
| Recovery.SuffixReplay | apps/pricing/kafka_consumer.py:54-60 | Handling a suffix of a handled log again changes no price of any bar and raises its tick count by exactly the replayed events in it |
| Recovery.CrashTickLaw | apps/pricing/kafka_consumer.py:133-134 | Over an hour, in any interrupted run, the 1m ticks exceed the 5m ticks by the attempts stopped after one transaction, and those exceed the 1h ticks by the attempts stopped after two; with none of them the three agree |
| Recovery.TicksConserved | apps/pricing/kafka_consumer.py:41-60 | The tick counts of all bars of an interval add up to the number of committed events of that interval |
| KafkaConsumer.OhlcBuilder.constructor | apps/pricing/models.py:95-115 | A fresh builder over an empty bar table, keyed by instrument, interval and bucket |
| KafkaConsumer.OhlcBuilder.UpdateBar | apps/pricing/kafka_consumer.py:39-60 | The branches of get-or-create and widen-and-save perform the one table update that the theorems are about, on the stamp's bucket, and touch no other row |
| KafkaConsumer.OhlcBuilder.HandleEvent | apps/pricing/kafka_consumer.py:110-134 | A payload without a known instrument or without two readable prices changes nothing; with a price that is read but not finite it raises, and nothing is committed; otherwise, for the first 0 to 3 intervals, exactly the row of the bucket of its own time, or of the time of handling if it has none, is made or widened by the midpoint of its prices |
| KafkaConsumer.KnownInstrumentsOnly | apps/pricing/kafka_consumer.py:115-118 | However the handler is called, from an empty table no row is ever made for an instrument that is not known |
| KafkaConsumer.LoopKnowsInstruments | apps/pricing/kafka_consumer.py:115-118 | Nor is one by any run of the loop |
| KafkaConsumer.OhlcBuilder.RunConsumer | apps/pricing/kafka_consumer.py:63-107 | The loop handles exactly the deliveries of the specified prefix, in order, tells their number, and ends by an exception exactly if the specification says so |
| KafkaConsumer.HandledMessages | apps/pricing/kafka_consumer.py:88-107 | The handled deliveries are a prefix of the messages among the polls, none of them raises, and their number keeps the bound, which lets one through even if it is below one; an exception ends the loop exactly at a message that raises; without signal and exception it stops only when the bound is reached, and while it goes on all messages are handled |
| KafkaConsumer.SignalStops | apps/pricing/kafka_consumer.py:77-89 | A stop signal ends the loop with its turn: nothing after it is handled, and its own message still is, unless that raises |
| KafkaConsumer.HandleAllIsComplete | apps/pricing/kafka_consumer.py:88-107 | A run of the loop leaves what an undisturbed run over its accepted events leaves, from any table |
| KafkaConsumer.RunMeaning | apps/pricing/kafka_consumer.py:63-134 | From an empty table the loop leaves, in every row, the summary of the mids of the accepted events of that row |
| KafkaConsumer.CallsBuildTheTable | apps/pricing/kafka_consumer.py:110-134 | Any calls of the handler, crashes and ignored payloads included, build what the passes of the accepted events build |
| EndToEnd.BarsOfRounds | apps/pricing/tasks.py:47-68 | After any rounds, once the consumer has handled the quotes that the broker accepted, with instruments interleaved in any way, each bar of a known instrument is the first, greatest, least and last mid and the number of those quotes in its bucket |
| EndToEnd.BarsOfRoundsRecover | apps/pricing/kafka_consumer.py:63-134 | With crashes and redelivery, if for each instrument the handler resumes and catches up over its messages, the bar shows the prices of those quotes and at least their number of ticks |
| EndToEnd.PricesOfTopic | apps/pricing/kafka_producer.py:47-62 | What the consumer files under a row, of deliveries that carry a topic, are the mids of the topic's quotes whose own symbol and time belong to the row, in order |
| Aggregator.EarlierClocksAcceptMore | apps/pricing/aggregator.py:43-45 | Clock readings that are no later let through, in order, everything that later ones do |
| Aggregator.GateUnderMovingClock | apps/pricing/aggregator.py:57-59 | The accepted quotes are a subsequence of the positive quotes fresh at entry and contain, in order, every positive quote still fresh at exit |
| Aggregator.CandidatesByPosition | apps/pricing/aggregator.py:57-59 | The candidates are, in order, exactly the quotes with positive bid and ask whose age, when the clock is read for them, is at most the limit |
| Aggregator.Sources | apps/pricing/aggregator.py:73 | The source list is strictly ascending and names exactly the venues of the candidates |
| Aggregator.SourcesInWords | apps/pricing/aggregator.py:73-74 | The published source list names exactly the venues of the candidates, each after those that precede it character by character |
| Aggregator.AscendingIsUnique | apps/pricing/aggregator.py:73 | A strictly ascending list is determined by the names in it |
| Aggregator.SpreadBound | apps/pricing/aggregator.py:48-74 | Consolidation yields nothing if and only if no quote passes the gate; otherwise 0 < bid <= mid <= ask and the spread is at least 0 and below 20000 basis points, below 10000 on a crossed book |
| Aggregator.SpreadBoundIsTight | apps/pricing/aggregator.py:63-71 | Below 20000, no smaller bound holds: a single positive quote exceeds it |
| Aggregator.CrossedBoundIsTight | apps/pricing/aggregator.py:66-69 | Below 10000, no smaller bound holds on crossed books: two positive quotes that cross exceed it |
| Aggregator.UncrossedShape | apps/pricing/aggregator.py:63-71 | On an uncrossed book bid and ask are quotes of candidates that no candidate betters, and the mid is halfway |
| Aggregator.CrossedInWords | apps/pricing/aggregator.py:63-66 | The fallback is taken exactly if some candidate bids more than some candidate asks |
| Aggregator.CrossedMid | apps/pricing/aggregator.py:67 | On a crossed book the mid times the number of candidates is the sum of their midpoints |
| Aggregator.CrossedShape | apps/pricing/aggregator.py:66-69 | On a crossed book the mid lies between the least and greatest midpoint, the bid is the best bid or, if that is above the mid, the mid, and so for the ask; the book closes to a point if and only if the mid lies between the crossed best quotes |
| Aggregator.CandidateOrderIrrelevant | apps/pricing/aggregator.py:63-74 | Candidates that are permutations of each other consolidate to the same mid, bid, ask and source list |
| Aggregator.OrderAndNoiseIndependence | apps/pricing/aggregator.py:57-74 | At a fixed clock, rounds with the same positive fresh quotes consolidate alike, whatever their order and whatever stale or non-positive quotes are mixed in |
| ArbitrageScan.DetectArbitrage | apps/pricing/aggregator.py:77-109 | The nested loop reports nothing if and only if no two positive quotes of the round at different venues have bid above ask. Otherwise it names the venue and ask of one such quote and the venue and bid of another, the difference as spread, and that spread relative to the midpoint in basis points; no such pair of the round earns more, and none that comes earlier in the scan as much |
| ArbitrageScan.ScanFindsBest | apps/pricing/aggregator.py:89-109 | From any pair on, the scan ends with the pair that no other beats and no earlier one equals, or with none if none earns |
| ArbitrageScan.ReportIsUnique | apps/pricing/aggregator.py:107-108 | That description determines the report |
| ArbitrageScan.ReportInWords | apps/pricing/aggregator.py:84-109 | The same of every report of the scan of a round, in plain arithmetic on the quotes of the round and their positions |
| ArbitrageScan.ReportedSpreadBound | apps/pricing/aggregator.py:94-98 | A report is between two venues and its spread is positive and below 20000 basis points; quantized to four places it is at most 20000 and off by at most half of the last place, so it fits the column of twelve digits and four places |
| ArbitrageScan.ScanFindsCrossing | apps/pricing/aggregator.py:89-109 | The scan reports something if and only if best bid exceeds best ask and no venue crosses the book alone, that is, without a quote of another venue that bids above the best ask or asks below the best bid |
| ArbitrageScan.ScanIsMaxMinusMin | apps/pricing/aggregator.py:89-109 | The scan sells at the best bid and buys at the best ask, and its spread is their difference, if and only if the book is crossed and they are quoted by different venues |
| ArbitrageScan.UncrossedVenues | apps/pricing/aggregator.py:91-96 | A crossed book on which no venue crosses itself, in particular with one sound quote per venue, meets both of these conditions |
| ArbitrageScan.RelativeSpreadOrder | apps/pricing/aggregator.py:97-98 | Two trades are ordered by relative spread exactly as by ratio of bid to ask |
| ArbitrageScan.LargestByRatio | apps/pricing/aggregator.py:94-108 | The reported trade has the largest relative spread of all cross-venue pairs if and only if it has the largest ratio of bid to ask |
| ArbitrageScan.ReportMaximisesBps | apps/pricing/aggregator.py:94-108 | Told from the quotes alone: it has it if and only if best bid and best ask are quoted by different venues, or both by one venue only and, of the others' best bid and ask, the sum exceeds that of the bests, or equals it and the best ask is scanned before theirs, or is smaller and their product does not exceed that of the bests |
| ArbitrageScan.BestsApartMaximisesBps | apps/pricing/aggregator.py:94-108 | It has that ratio whenever best bid and best ask are quoted by different venues |
| ArbitrageScan.DetectionMatchesFallback | apps/pricing/aggregator.py:63-69 | With all positive quotes fresh, an arbitrage is reported if and only if consolidation takes its crossed-book branch and no venue crosses the book alone; its spread is the best bid less the best ask if and only if they are also at different venues; both hold on a crossed book on which no venue crosses itself |
| ArbitrageScan.ReportMeansCrossed | apps/pricing/aggregator.py:94-96 | Without any condition on venues, a report means that the book is crossed, by at least the reported spread |
| ArbitrageScan.SelfCrossedVenue | apps/pricing/aggregator.py:91-92 | A book crossed by one venue alone, with nothing to report |
| ArbitrageScan.SelfCrossedButTraded | apps/pricing/aggregator.py:91-96 | A venue that crosses itself, and the best bid and best ask are reported all the same |
| ArbitrageScan.LargestSpreadNotLargestBps | apps/pricing/aggregator.py:107 | A round in which the reported trade is not the one with the largest relative spread |
| Stats.ComputeRollingStats | apps/pricing/stats.py:48-99 | Over the rows of the instrument since the start of the window: none if and only if there is none; the last mid is that of a newest one; the extremes are mids of rows that none exceeds; the average times the number of rows is the sum of their mids and lies between the extremes; the variance times that number is the sum of the squared distances of the mids from the average, it is at most (max - average)(average - min) and a quarter of the squared range, and zero if and only if all mids are the same; the average spread exists if and only if some mid is positive, and stands for the relative spreads of exactly those rows; over published prices it is in [0, 20000), over stored ones in [0, 30000], and below 20000 without dust |
| Stats.AnswerExists | apps/pricing/stats.py:51-56 | Every table has a list of the selected rows in the order of their times |
| Stats.VarianceBound | apps/pricing/stats.py:71-80 | The mean lies between the extremes, and the variance is at most (max - mean)(mean - min) and at most a quarter of the squared range |
| Stats.NoVariance | apps/pricing/stats.py:78-80 | The variance is zero if and only if all mids of the window are the same |
| Stats.SpreadsBelow | apps/pricing/aggregator.py:63-74 | Every price as published, before it is stored, has a relative spread, at least 0 and below 20000 |
| StoredPrices.StoredSpreadBound | apps/pricing/stats.py:72-75 | A published price as read back from columns of ten places has 0 <= bid <= mid <= ask <= twice the mid and one unit; with a positive mid its spread is at most 20000 basis points and 10000 times one unit over the mid, which is 30000 at a mid of one unit only, and it is below 20000 if and only if its bid is not zero under an ask of twice the mid or more, and it is not the row of one, one and three units |
| Stats.AverageOfStored | apps/pricing/stats.py:82-87 | The average spread over stored rows is at most 30000, and below 20000 if no row with a positive mid is such dust |
| StoredPrices.DustRow | apps/pricing/stats.py:72-75 | For every number of units a quote whose stored row has that mid, a bid of zero and exactly the largest spread that the bound allows |
| Stats.AverageSpreadBound | apps/pricing/stats.py:82-87 | In exact arithmetic, over prices as published, the average spread exists and is at least 0 and below 20000 basis points |
| LiveFeed.StepKeeps | apps/pricing/tasks.py:74-99 | Every step of worker, clients and cache expiry keeps the invariant of the protocol |
| LiveFeed.NoGap | apps/pricing/consumers.py:17-31 | In every interleaving a client's transcript is at most one snapshot and then a contiguous run, in order, of the broadcasts since it joined; a live client's queue is exactly the rest; broadcasts lag creation by at most one row |
| LiveFeed.SnapshotNotStale | apps/pricing/consumers.py:20-25 | A snapshot is a created row, not older than the last broadcast before the client joined |
| LiveFeed.CaughtUpClientIsCurrent | apps/pricing/tasks.py:88-99 | With the worker idle and the queue drained, the last message of a live client is the newest row; a client without any message has missed none |
| LiveFeed.CacheShowsNewest | apps/pricing/tasks.py:88-98 | Between publications a cache entry is the newest row of its symbol |
| LiveFeed.CacheAfterInWords | apps/pricing/tasks.py:88-98 | After a publication the cache has its price, unless that lapsed since it was set, and of the other entries exactly those that did not lapse, unchanged |
| Transcripts.ConnectCompletes | apps/pricing/consumers.py:17-25 | A client whose connect runs undisturbed is sent what the cache has for its symbol, if anything, is live after it, and gets every broadcast from then on |
| Transcripts.LiveCanMove | apps/pricing/consumers.py:27-31 | A live client is sent the next row of its queue exactly if there is one, and can always leave |
| Transcripts.DisconnectIsFinal | apps/pricing/consumers.py:27-28 | However a run goes on after a client has left, its queue and transcript stay as they were, it is in no group, and no handler of it runs again |
| Transcripts.TranscriptOrder | apps/pricing/consumers.py:20-31 | In any run in which a client reads the cache and later receives an update, its transcript steps back in time if and only if, at that reading, its queue holds a row and the cache one that is newer than the first of the queue |
| Transcripts.TranscriptCanStepBack | apps/pricing/consumers.py:20-31 | A run in which a client of BTC-USD sees the second row before the first |
| LiveFeed.WorkerAlone | apps/pricing/tasks.py:74-99 | Without the steps of its clients any run is still one, with the same rows, broadcasts, cache and worker |
| Transcripts.FeedReachable | apps/pricing/consumers.py:18-20 | Some client can be in the group of an instrument if and only if its symbol is not empty and has only capitals, digits and hyphens |
| Transcripts.UnreachableFeeds | apps/pricing/routing.py:6 | No run puts a client into the group of btc-usd or of BTC-USD_PERP |
| Transcripts.UpperInWords | apps/pricing/consumers.py:18 | Upper-casing keeps the length and changes exactly the small letters, each to its capital |
| KafkaProducer.RunKeeps | apps/pricing/kafka_producer.py:22-39 | In every interleaving exactly the lock's holder is inside, a constructed producer is stored or about to be stored by it, and nothing returns before that |
| KafkaProducer.AtMostOneProducer | apps/pricing/kafka_producer.py:22-39 | In every interleaving, with constructions that raise, at most one producer is constructed and every call that returns yields that one |
| KafkaProducer.SomeThreadCanMove | apps/pricing/kafka_producer.py:26-39 | No deadlock: whenever some thread is unfinished, it or the holder of the lock can take a step |
| KafkaProducer.StoredNeedsNoLock | apps/pricing/kafka_producer.py:24-25 | Once the producer is stored, a call goes past the lock, whoever holds it |
| KafkaProducer.StoredIsReturned | apps/pricing/kafka_producer.py:24-25 | A call that finds the producer stored returns it in two steps, whoever holds the lock |
| KafkaProducer.NewIsReturned | apps/pricing/kafka_producer.py:26-39 | A call that finds nothing stored and the lock free, and is left alone, constructs one producer, stores it, releases the lock and returns it |
| KafkaProducer.OnlyConstructionFails | apps/pricing/kafka_producer.py:28-38 | A call fails only if its own construction raised |
| FetchRound.FetchedOrFailed | apps/pricing/tasks.py:48-67 | In a round the stored quotes and the failed fetches add up to clients times instruments |
| FetchRound.SentIsStored | apps/pricing/tasks.py:56-68 | What the broker gets of an instrument is a subsequence of its stored quotes, and all of them if it accepts all |
| FetchRound.RoundLedger | apps/pricing/tasks.py:40-118 | In a round there are at most as many arbitrages as consolidated prices and at most as many of those as quotes |
| FetchRound.PublicationRuns | apps/pricing/tasks.py:74-99 | The task's order of row, cache and broadcast, with entries lapsing in between, is a run of the publication protocol that ends between publications |
| FetchRound.CacheIsNewest | apps/pricing/tasks.py:88-98 | Every unexpired cache entry is the newest price created for its symbol |
| FetchRound.ClientsSeeStoredPrices | apps/pricing/consumers.py:17-31 | Whatever clients are interleaved with the service's steps, a client's updates are a contiguous run of the stored prices of its instrument, its queue the rest of them, and a live client that has drained it saw the newest last |
| FetchRound.Service.constructor | apps/pricing/tasks.py:40-42 | Empty stores are those of the initial state of the protocol |
| FetchRound.Service.StoreQuote | apps/pricing/tasks.py:56-68 | A stored quote is kept and counted whether or not the broker takes it, and is appended to the topic or counted as unpublished |
| FetchRound.Service.CollectQuotes | apps/pricing/tasks.py:47-68 | The collected quotes are, in order of the clients, exactly those of the answers that came: client, bid, ask and time. They are stored once under the instrument's symbol, in this order; the missing answers are counted as failed; and the rows of exactly those answers that the broker accepts are appended to the topic, in this order |
| FetchRound.AnswersByPosition | apps/pricing/tasks.py:47-68 | The quotes and clock readings of a round are, in order, those of the answers that came, and of no others |
| FetchRound.DeliveriesByPosition | apps/pricing/tasks.py:68 | The messages are, in order, those of the answers that came and that the broker accepts |
| FetchRound.InstrumentInWords | apps/pricing/tasks.py:70-118 | An instrument adds one price row, under its symbol, if and only if some answer has positive prices and is not too old when examined; it adds one arbitrage row, under its symbol, if and only if it adds a price and some pair of its quotes earns, and that row tells of a report of them, with basis points quantized |
| FetchRound.Service.Publish | apps/pricing/tasks.py:74-99 | One row is added, the cache entry is set to it, the spread gauge too if the mid is positive, and the three steps of the protocol are made, in this order, while other entries may lapse |
| FetchRound.Service.RecordArbitrage | apps/pricing/tasks.py:101-118 | One row is stored if and only if the scan detects an arbitrage, and it holds that arbitrage with its relative spread quantized to four places |
| FetchRound.Service.PublishOutcome | apps/pricing/tasks.py:70-99 | What was collected is consolidated under the clock readings of its examination, and published if there is an outcome; the spread gauges stay in [0, 20000) |
| FetchRound.Service.FetchInstrument | apps/pricing/tasks.py:44-118 | An instrument that does not consolidate adds only quotes; otherwise one price is stored, cached and broadcast, and the detected arbitrage, if any, is stored; the counts are those of the added rows |
| FetchRound.Service.FetchQuotes | apps/pricing/tasks.py:24-121 | A round stores exactly its quotes, prices and arbitrages, sends what the broker accepts, and leaves the cache showing the prices; fetched and failed counts grow by clients times instruments; the returned counts are those of the stored rows, and arbitrages <= consolidated <= quotes |
| FetchRound.Service.RunRounds | apps/pricing/tasks.py:40-121 | Over any sequence of rounds, with cache entries lapsing at any point within and between them, fetched + failed grows by clients times selected instruments, stored rows by the summed return counts, the topic by what the rounds send, and the stores stay those of a run of the protocol |
| FetchRound.Service.Lapse | apps/pricing/tasks.py:97 | The lapse of cache entries is a sequence of steps of the protocol and changes nothing else |
| FetchRound.Service.CachedPrice | apps/pricing/consumers.py:23-25 | A reader of the cache between rounds gets the newest price created for the symbol, or nothing |

## Left out

- Exchange clients (`apps/pricing/exchanges.py`): a fetch result is an arbitrary price or none; symbol mapping and JSON parsing are not modelled.
- Kafka, Redis, Channels and the database: row updates are atomic, queues are ordered and never drop a message, a group send reaches all members in one step, messages of a key keep their order.
- Recovery.CaughtUpTable: assumes that the consumer resumes at the first event not handled completely or at an earlier one. With automatic commits (`apps/pricing/kafka_consumer.py:72`) an offset can also be committed before its event is handled completely; a run with such a skipped event is covered by `Bars.TableMeaning` and `Recovery.CrashTickLaw`, which hold of all lists of passes.
- A first start: `auto.offset.reset` is `latest`, so the log of `Recovery` begins where the service first subscribed.
- Overlapping rounds of several workers: the publication protocol has one worker.
- Exceptions raised by `cache.set`, `group_send` or the database inside a round, and degraded modes of the services.
- EndToEnd.BarsOfRounds: takes the encoding of prices and timestamps as text, and decoding them again, as the identity; printing and parsing are not modelled.
- The database's refusal of prices that are not finite is taken for granted (`Decimal` reads `NaN` and `Infinity` too), and so is that of comparing them; what else a database may refuse, such as prices too large for a column, is not modelled.
- Payloads that are not JSON objects and timestamps that are neither missing nor strings, on which the handler raises, and timestamps without an offset, which are left to the database layer to interpret. A missing or malformed timestamp takes the clock at handling, which is part of the delivery.
- The rounding of `total_seconds()` to a float, which matters only for dates many centuries away.
- Decimal's 28-digit precision: consolidation, the scan and the statistics are exact. Storage rounding is modelled for the bars, the stored consolidated prices that the statistics read, and the stored relative spread of an arbitrage; the service's own lists hold prices as they are in memory.
- Stats.ComputeRollingStats: gives the variance in place of the standard deviation, whose square root is taken in floating point.
- The set of known instruments is fixed during a run of the consumer; creating them at the start of a round, and which are active, is left to the list of polls of the round.
- `QuoteConsumer` as a class: it is modelled by its steps on values, since the interleaving of its handlers with the worker is the point. Its handlers run one at a time, so its queue is drained only after `connect` has returned; a client that goes away before that is one that makes no further steps.
- Unicode case: the letter case of a symbol is that of the letters the URL route lets through (`apps/pricing/routing.py:6`).
- Lengths of names: `Transcripts.FeedReachable` ranges over symbols of any length, whereas a column holds twenty characters and the names of channel groups are bounded too.
- The scheduler: `FetchRound.Service.RunRounds` stands for its repeated calls of the task, a loop that is not in the repository.
- Delivery reports, polling and `flush` of the shared producer are not modelled.
- Counters other than fetched, failed and published quotes, gauges other than the last spread, and durations.
- Views, serializers, admin, settings, health checks, migrations, deployment files.
