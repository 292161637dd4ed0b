# Verification of xeibe's read path

A Dafny model of how xeibe reads GML in parallel, and proofs of what the code's
comments and tests promise. It covers the way of a read from its input to its
columns (the worker pool and the input shared by the workers, the sample taken
first, decoding ahead, the one-pass feature reader, the column builders, the
location column, dates and times, axis decisions) and four transformations of the
generator scripts (the PROJJSON container, the JSON diff, the WKT id-stripper, the
publishing order).

Verify with `dafny verify dfyconfig.toml`.

## How it is modelled

**The worker pool** (`TakeInput`, `WorkerPool`) is a transition system with one step
for each region under a lock, each channel operation, each read of an atomic flag
and each call of the mapped function; a run is any list of steps, by any workers and
the consumer, each enabled in its turn. Threads, the condition variable's wait set,
spurious wake-ups, cancellation, the helper and panics (items that end the input) are
all in it. `TakeInvariants`, `TakeOrder`, `TakeRank`, `TakeFinish` and
`PoolInvariants`, `PoolKept` say what every step keeps; `PoolResults`, `PoolBounds`
and `PoolTermination` state the results over whole runs, `PoolComplete` what a run in
any order has returned at its end, and `PoolPanics` what a panic of the helper does to
them. `PoolFills` and `PoolOpens`, with runs put together by `PoolRuns`, show that the
bounds on items and open streams are met. `Fold`, `FoldStops` and `FoldTermination` are about `fold`, the second user of the same
input. `PoolParts` has the small shared objects as classes, `PoolRefines` shows that
their methods do the steps of the pool, and `Streams` has the single-threaded
`Sequential` and `Rest`.

**Sampling** (`Sampling`, `SampleScan`) takes chunks with `Sequential`, scans them in a
`Fold`, and hands everything on to `Rest`.

**Decoding ahead** is a class for the decoder (`AheadDecoder`) and a transition system
of helpers and the reader over it (`DecodeAhead`).

**Reading a feature**: `Route` is the tree of steps and how names match it, `RouteTree`
how it is built. `FeatureSpec` lists the effects of an element in document order,
`Feature` is the reader with its row updated in place, and `FeatureRules` says what
the rules are that it shares with the query. `FeatureQuery` is the
independent definition: follow one column's route through the tree and collect its
values, or those of each occurrence of its anchor; `FeatureGeometry` asks the tree
whether a geometry is wrong. `FeatureAgrees`, `FeatureColumns` and `FeatureResult`
prove that the one is the other.

**Columns**: `Columnar` defines the arrays of a sequence of rows (32-bit offsets wrap
around as in the code) and how an array is read back; `Builders` are the objects that
build them row by row. **Locations**: `Locations`. **Dates and times**: `Calendar`,
`DateTimes`, `DateTexts`. **Axis decisions**: `Axis`. **Scripts**: `Container`,
`ContainerLayout`, `JsonDiff`, `WktScan`, `WktText`, `WktTree`, `WktStrip`, `WktExact`,
`Publish`.

## What does not hold everywhere

- A column of 32-bit lists or maps comes back exactly if its last offset fits
  (`Columnar.RoundTripExactlyWhenItFits`); `Columnar.NarrowListOverflows` is a column
  that does not.
- A timestamp that a 64-bit count can hold is refused if its whole seconds alone do
  not fit (`DateTimes.RefusedAtTheEdge`); so is the first nanosecond of the range
  (`DateTexts.FirstNanosecondTextIsRefused`).
- The JSON diff takes 0.0 and -0.0 as one and finds NaN different from itself
  (`JsonDiff.DiffThenPatch`, `JsonDiff.NoChangesToItself`, `JsonDiff.FallsShort`).
- Stripping ids from a printed tree does not always print the tree without them.
  A comma is left where two or more named nodes come first and a kept argument after
  them (`WktExact.LeadingNodesLeaveAComma`), and the whitespace before a first node
  stays. `WktExact.StripsPrinted` says exactly when neither happens.
- The queue of decoded blocks can be longer than `AHEAD_BLOCKS`: the length is read
  before the decoder's lock is taken. `DecodeAhead.QueueBound` is the bound that holds,
  and `DecodeAhead.QueueBoundIsMet` shows that it is met.
- In order, the items after a panic of the helper are missing from what the map
  returns (`PoolPanics.PanicEndsTheMap`); that can be all of them
  (`PoolPanics.PanicLosesEveryItem`).
- The end of a feature cannot be read off the location map
  (`Locations.EndIsTheNextStart`), which is why the code adds the feature's length.
- `parse_date` takes the year 0000, which XML Schema 1.0 Part 2 (section 3.2.7)
  excludes; the model follows the code.

## Model

| member | source | states |
|---|---|---|
| Streams.Sequential.Next | crates/xeibe-core/src/parallel.rs:150-181 | through any mix of empty and ended streams, the next item is the first of what is still to come, and the rest stays to come |
| Streams.Sequential.Rest | crates/xeibe-core/src/parallel.rs:135-147 | the input handed on is the taken items and the open stream as one stream, then the streams not opened, with the tail unless the input had ended |
| Streams.Resumed.Next | crates/xeibe-core/src/parallel.rs:199-205 | a resumed stream gives its taken items first, then its stream, one at a time |
| Streams.Rest.NextStream | crates/xeibe-core/src/parallel.rs:215-227 | gives the streams of the rest in order, and none once the input had ended |
| Streams.Rest.Finish | crates/xeibe-core/src/parallel.rs:233-238 | the last item of the rest is the input's, or none if the input had ended |
| Streams.RestIsWhole | crates/xeibe-core/src/parallel.rs:128-239 | whatever was taken, the rest with it first is the whole input again: nothing lost, repeated or reordered |
| Streams.MapHere | crates/xeibe-core/src/parallel.rs:692-704 | with one thread the map is `f` over the input in order, and then nothing |
| TakeInvariants.StartInv | crates/xeibe-core/src/parallel.rs:292-310 | a new input satisfies the invariant |
| TakeInvariants.Kept | crates/xeibe-core/src/parallel.rs:314-481 | every step of every worker keeps: one holder a stream, numbers without gaps that go up along each stream, nothing numbered after an item that ends the input, started streams open or leaving or ended, `finish` asked for as soon as all have ended |
| TakeOrder.OrderKept | crates/xeibe-core/src/parallel.rs:314-481 | with one stream open at a time, every step keeps the numbered items in input order |
| TakeOrder.LogBegins | crates/xeibe-core/src/parallel.rs:314-481 | until the input ends, the input is what was numbered followed by what was not |
| TakeRank.StepSpends | crates/xeibe-core/src/parallel.rs:314-375 | every step inside `take`, but for the helper's work, uses up input or brings its worker closer to leaving; a worker repeats its loop only after the input changed |
| TakeFinish.FinishItemComesLast | crates/xeibe-core/src/parallel.rs:405-417 | in every run and any order, the `finish` item is numbered at most once and after every item of every stream |
| PoolKept.BeginInv | crates/xeibe-core/src/parallel.rs:706-743 | a new pool satisfies the invariant |
| PoolKept.ApplyKept | crates/xeibe-core/src/parallel.rs:632-815 | every action of a worker or the consumer keeps: each number in exactly one place, every result that of its item, tickets conserved, no free ticket without a wake-up on its way while a worker waits, workers end only for a reason |
| PoolResults.NoDeadlock | crates/xeibe-core/src/parallel.rs:605-669 | while `next` waits, some worker can go on: tickets are never all held by results that came ahead, and no wake-up is lost |
| PoolResults.CancelledGoesOn | crates/xeibe-core/src/parallel.rs:639-669 | after a cancel no worker waits for a ticket: as long as one has not ended, one can go on |
| PoolResults.FinishedHasAll | crates/xeibe-core/src/parallel.rs:788-809 | in order, when `next` returns `None` the reorder buffer is empty and every number was handed over |
| PoolResults.InOrderRefinesSequential | crates/xeibe-core/src/parallel.rs:597-609 | in order, every run has returned a prefix of `f` over the input as one thread reads it, and all of it when the map has ended |
| PoolResults.InOrderUpToPanic | crates/xeibe-core/src/parallel.rs:586-592 | with a helper that can panic, an ended map returned that, or a prefix of it and then the panic |
| PoolPanics.PanicEndsTheMap | crates/xeibe-core/src/parallel.rs:586-592 | an ended map in order returned everything if no panic of the helper was numbered, and else exactly the first items, then the panic |
| PoolPanics.PanicLosesEveryItem | crates/xeibe-core/src/parallel.rs:314-325 | on several threads, whatever the input, a helper that can panic has a run that returns its panic alone |
| PoolResults.EveryItemOnce | crates/xeibe-core/src/parallel.rs:788-809 | in any order, a run neither stopped nor dropped returns the result of every item of every stream, under a number of its own, and nothing that is not the result of a stream item or of the `finish` item |
| PoolResults.FinishItemOnce | crates/xeibe-core/src/parallel.rs:405-417 | such a run also returns the result of the `finish` item |
| PoolResults.StopAndStreams | crates/xeibe-core/src/parallel.rs:464-481 | in every run, an item that ends the input is the last one numbered, and what was numbered of a stream is a prefix of it in stream order |
| PoolBounds.Backpressure | crates/xeibe-core/src/parallel.rs:602-610 | free tickets, those of workers, of the channel, of the buffer and in the consumer's hands are always max(in_flight, threads), so no more items than that lie between input and consumer |
| PoolBounds.FewAfterCancel | crates/xeibe-core/src/parallel.rs:639-669 | however a run goes on after a cancel, each worker numbers at most the item that it is taking then |
| PoolFills.BackpressureIsMet | crates/xeibe-core/src/parallel.rs:632-669 | for every `in_flight` and number of workers, and any input whose first stream is that long, some run takes max(in_flight, threads) items while the consumer takes none, and no ticket is left |
| PoolOpens.OpenAtMost | crates/xeibe-core/src/parallel.rs:378-400 | in every run at most max(max_open, 1) streams are open at once |
| PoolOpens.OpenIsMet | crates/xeibe-core/src/parallel.rs:328-376 | with as many streams and workers, some run has `max_open` streams open and a worker on each |
| PoolOpens.OpenInOrder | crates/xeibe-core/src/parallel.rs:328-400 | in every run the open streams are in the order they were opened in |
| PoolOpens.TakesTheOldest | crates/xeibe-core/src/parallel.rs:342-358 | a worker passes over a stream of that list only if another worker holds it |
| PoolTermination.Descends | crates/xeibe-core/src/parallel.rs:748-809 | every action but the helper's work and a spurious wake-up brings the end of the run closer |
| PoolTermination.RunsAreFinite | crates/xeibe-core/src/parallel.rs:748-809 | the length of a run is bounded by the input, the workers and the number of external actions |
| PoolTermination.AtRestMeansEnded | crates/xeibe-core/src/parallel.rs:748-815 | a run that can't go on has ended every worker, and the consumer has its `None` or has dropped the map |
| PoolTermination.OrderedRunsAreComplete | crates/xeibe-core/src/parallel.rs:594-610 | in order and without a helper's panic, a run that can't go on and was not dropped has returned exactly what one thread returns |
| PoolComplete.RunsAreComplete | crates/xeibe-core/src/parallel.rs:594-610 | in any order, if nothing ends the input, a run that can't go on has returned the result of every item exactly once and nothing else, as a multiset (unless dropped) |
| PoolParts.Numbers.Number | crates/xeibe-core/src/parallel.rs:466-481 | the next number, unless an item ended the input; an item that ends it is the last |
| PoolParts.NumberAll | crates/xeibe-core/src/parallel.rs:466-481 | over any list of calls the numbers have no gap, and none comes after the first item that ends the input |
| PoolParts.Tickets.Take | crates/xeibe-core/src/parallel.rs:639-655 | a cancelled map ends the worker, else a free ticket is its, else it waits |
| PoolParts.Tickets.Return | crates/xeibe-core/src/parallel.rs:657-660 | one ticket more is free and one waiting worker, if there is one, is woken |
| PoolParts.Tickets.Cancel | crates/xeibe-core/src/parallel.rs:662-668 | nobody is left waiting, and the tickets stay |
| PoolParts.Results.Next | crates/xeibe-core/src/parallel.rs:788-809 | in order, the result with the next number whenever it was sent, and `None` exactly if it never was; in any order the first sent |
| PoolParts.Results.Drain | crates/xeibe-core/src/parallel.rs:788-809 | called until `None`, in order, the results come by number up to the first that was never sent |
| PoolRefines.NumberInput | crates/xeibe-core/src/parallel.rs:466-481 | the object numbers an item as the pool's step does |
| PoolRefines.NewTickets | crates/xeibe-core/src/parallel.rs:706-709 | the object as it is made has the tickets of a new pool |
| PoolRefines.TakeTicketOf | crates/xeibe-core/src/parallel.rs:639-655 | the object admits, ends or makes wait a worker as the pool's step does |
| PoolRefines.ReturnTicketOf | crates/xeibe-core/src/parallel.rs:657-660 | a ticket given back wakes a worker that the pool's notification may wake, and leaves the object and the pool in agreement |
| PoolRefines.CancelTicketsOf | crates/xeibe-core/src/parallel.rs:662-668 | cancelling the object is cancelling the pool |
| PoolRefines.LookOf | crates/xeibe-core/src/parallel.rs:788-809 | a look of the object is a look of the pool's consumer, with the same result due |
| Fold.GoKept | crates/xeibe-core/src/parallel.rs:527-548 | every step of every folding worker keeps: its accumulator is the fold of its own items, and a raised stop has a step behind it that broke or panicked |
| Fold.SomeWorkerGoesOn | crates/xeibe-core/src/parallel.rs:527-570 | until all workers have ended, some worker can go on |
| Fold.FoldGives | crates/xeibe-core/src/parallel.rs:490-571 | in every run that has ended, each numbered item was folded by one worker, in number order; a worker took nothing after a break or panic; a worker ends panicked exactly if one of its steps did |
| Fold.FoldsTheInput | crates/xeibe-core/src/parallel.rs:490-571 | with one stream open at a time and no panic of the helper, the items folded are a prefix of the input, and all of it unless a step broke or panicked |
| FoldTermination.GoDescends | crates/xeibe-core/src/parallel.rs:527-548 | every step of a folding worker but the helper's work brings the end of the run closer |
| FoldTermination.FoldsAreFinite | crates/xeibe-core/src/parallel.rs:502-571 | the length of a run is bounded by the input, the workers and how often the helper found work |
| FoldStops.BreakStops | crates/xeibe-core/src/parallel.rs:528-556 | in every run, a worker that broke off or panicked has raised the stop by the time it has ended |
| FoldStops.FewAfterStop | crates/xeibe-core/src/parallel.rs:528-556 | however a run goes on after that, each worker numbers at most the item that it is taking then |
| Fold.FoldHere | crates/xeibe-core/src/parallel.rs:515-524 | on one thread, the items folded in order up to the first break or panic |
| Sampling.TakeSample | crates/xeibe-arrow/src/api.rs:291-328 | the sample is the first chunks with which the budget of features or of bytes is reached, and one chunk more unless the features are over; complete exactly if that is the whole input within the budget; it fails only where the input fails at a chunk it asks for |
| Sampling.LookAfter | crates/xeibe-arrow/src/api.rs:319-325 | the chunk after the sample decides whether the sample is the whole input, and is kept |
| Sampling.SampleThenRest | crates/xeibe-arrow/src/api.rs:278-332 | for every budget and byte limit, the buffered chunks and then the rest are the original input |
| Sampling.SplitBudget | crates/xeibe-arrow/src/api.rs:342-351 | each chunk's share is what the chunks before it leave of the budget |
| Sampling.SharesAreTheFirst | crates/xeibe-arrow/src/api.rs:342-351 | the shares together are the first `budget` features of all the chunks |
| Sampling.MergeScans | crates/xeibe-arrow/src/api.rs:377-381 | the scans merged in order: an observation exactly if no scan failed, else the first failure |
| Sampling.MergedOutcome | crates/xeibe-arrow/src/api.rs:377-381 | merging gives an observation if and only if every scan did, and else the failure of the first that failed |
| Sampling.SortedIsInOrder | crates/xeibe-arrow/src/api.rs:375-376 | scans sorted by their chunks' places are in chunk order, whichever worker made them |
| Sampling.ScanIsSequential | crates/xeibe-arrow/src/api.rs:353-381 | the merged observation, or the failure, is that of scanning the chunks one after another, also where other workers went on after a failure |
| Sampling.SequentialOutcome | crates/xeibe-arrow/src/api.rs:336-382 | where merging is observing together: if every chunk's share can be scanned, one scan of the first `budget` features; else the failure of the first chunk that cannot |
| Sampling.SampleIsOneScan | crates/xeibe-arrow/src/api.rs:334-382 | so it is for what any workers scanned: an observation exactly if every share can be scanned, and then one scan of the first `budget` features; else the failure of the first chunk in order, whichever worker met it |
| SampleScan.WorkersScan | crates/xeibe-arrow/src/api.rs:352-374 | in every run of `fold` on any number of workers that has ended, the workers together hold the scans of the first chunks, and of all unless one failed |
| SampleScan.OneWorkerScans | crates/xeibe-arrow/src/api.rs:352-374 | so does the fold on the calling thread |
| SampleScan.SampleIsScanned | crates/xeibe-arrow/src/api.rs:334-382 | in every such run, on any number of workers, sorting and merging gives exactly that |
| SampleScan.OneThreadIsScanned | crates/xeibe-arrow/src/api.rs:334-382 | so it does on the calling thread |
| AheadDecoder.Decoder.NextBlock | crates/xeibe-core/src/decode.rs:222-253 | the blocks are the stream cut up in order, full until its end; an error comes by itself, after the data before it |
| DecodeAhead.DecodesAsPromised | crates/xeibe-core/src/decode.rs:222-253 | the decoder takes only the decoding steps of the shared protocol, in which a block is full unless the data ends with it |
| DecodeAhead.StepKept | crates/xeibe-core/src/decode.rs:256-308 | every step keeps: bytes delivered, then queued blocks, then blocks in hand, then what is not decoded, are the stream |
| DecodeAhead.Transparent | crates/xeibe-core/src/decode.rs:256-308 | for every interleaving of helpers and the reader, the reader has got a prefix of the stream, all of it at its end, an error exactly after the data before it |
| DecodeAhead.QueueBound | crates/xeibe-core/src/decode.rs:257-273 | the queue is never longer than 16 (`AHEAD_BLOCKS`) - 1 and the number of helpers |
| DecodeAhead.QueueBoundIsMet | crates/xeibe-core/src/decode.rs:257-273 | for every number of helpers some run, over a stream of full blocks of 256 KiB, makes it that long |
| DecodeAhead.NoDeadlock | crates/xeibe-core/src/decode.rs:276-287 | a reader that waits for the decoder waits for a helper that can go on |
| Route.FindExact | crates/xeibe-arrow/src/route.rs:124-127 | tells whether some sibling step names exactly this namespace and name |
| Route.AddMatchingChildren | crates/xeibe-arrow/src/route.rs:171-188 | the children an element is at, by their places in order: `*`, a step with exactly its namespace and name, or one of its local name without a namespace where no sibling has both; no other |
| Route.AddAttributeTargets | crates/xeibe-arrow/src/route.rs:192-203 | the targets of an attribute, by the places of their steps in order: as for elements, without `*` |
| Route.TakesTheChosen | crates/xeibe-arrow/src/route.rs:166-204 | a step is taken exactly if it is chosen: by its namespace and name, or by its local name in the namespaces that no sibling names with it |
| Route.MatchedPlaces | crates/xeibe-arrow/src/route.rs:171-188 | the chosen children and no others, in their order |
| Route.TargetPlaces | crates/xeibe-arrow/src/route.rs:192-203 | the targets of the chosen attribute steps and no others, in their order |
| RouteTree.InsertAligns | crates/xeibe-arrow/src/route.rs:240-268 | a list's route has its anchor once and on its way |
| RouteTree.InsertStaysAligned | crates/xeibe-arrow/src/route.rs:240-268 | inserting another route leaves the lists already there aligned with their anchors |
| RouteTree.InsertLeads | crates/xeibe-arrow/src/route.rs:247-268 | a route inserted is in the tree: a child for each step of its path, its list's counter at the step it is anchored at, its target or attribute at the end |
| RouteTree.InsertKeepsLeading | crates/xeibe-arrow/src/route.rs:247-268 | inserting another route keeps the routes in the tree, with their counters |
| RouteTree.InsertKeepsDistinct | crates/xeibe-arrow/src/route.rs:153-162 | no two children of a node have the same step |
| RouteTree.CarrierFollows | crates/xeibe-arrow/src/route.rs:222-275 | a column filled once is found by the query along its route, step by step, at the route's own target or attribute step |
| RouteTree.NewRouteTree | crates/xeibe-arrow/src/route.rs:225-271 | the tree holds every route of the layer, sibling steps differ, each list column has its route's counter, and with one route for each column the tree is well routed: each column is filled at one place and each list's anchor is above it |
| Feature.FeatureReader.PutValue | crates/xeibe-arrow/src/feature.rs:644-676 | the row after putting a value, with the nulls before it and the failures |
| Feature.FeatureReader.PutParsed | crates/xeibe-arrow/src/feature.rs:625-642 | the row after a text: a value, nothing, or a failure |
| Feature.FeatureReader.Start | crates/xeibe-arrow/src/feature.rs:236-270 | anchors count before attributes are read, attributes go to all their targets, `xsi:nil` as its last occurrence says |
| Feature.FeatureReader.ReadContent | crates/xeibe-arrow/src/feature.rs:272-391 | reading an element's content, geometries and own text in the event loop has its effects in document order, and nil and whole-element targets stop the descent |
| Feature.FeatureReader.ReadWhole | crates/xeibe-arrow/src/feature.rs:412-441 | an element taken whole has the one effect of its target |
| Feature.FeatureReader.PutGeometries | crates/xeibe-arrow/src/feature.rs:500-530 | a geometry goes to each of its columns in the column's form, an error where it cannot; columns that hold no geometries are passed over |
| Feature.FeatureReader.ReadElement | crates/xeibe-arrow/src/feature.rs:236-391 | the recursive reader has exactly the effects of the element |
| FeatureRules.ExactSiblingWins | crates/xeibe-arrow/src/route.rs:166-188 | reading an element puts nothing into a column routed by a step without a namespace where a sibling step has the element's namespace and name |
| FeatureRules.AnyNamespaceOtherwise | crates/xeibe-arrow/src/route.rs:166-188 | where none has, it puts what the element holds for the column |
| FeatureRules.TextIsPut | crates/xeibe-arrow/src/feature.rs:625-642 | a text is one value or one failure of a scalar column, except an empty text, which is neither unless the column is a string and empty is not null |
| FeatureRules.ContentIsTrimmed | crates/xeibe-arrow/src/feature.rs:395-410 | text is trimmed; a string column with elements in its text takes it as written |
| FeatureRules.HashIsStripped | crates/xeibe-arrow/src/feature.rs:257-264 | the text of an attribute is its trimmed value, without the `#` of an `xlink:href` if that is asked for |
| FeatureRules.LastNilCounts | crates/xeibe-arrow/src/feature.rs:242-249 | an element is nil exactly if its last `xsi:nil` is `true` or `1` |
| FeatureRules.NilHoldsNothing | crates/xeibe-arrow/src/feature.rs:284-288 | a nil element has the effects of its attributes only |
| FeatureRules.InstanceAttributesAreNoValues | crates/xeibe-arrow/src/feature.rs:243-251 | attributes of the XML Schema instance namespace put nothing |
| FeatureRules.OwnTextJoins | crates/xeibe-arrow/src/feature.rs:290-391 | an element's own text is that of its pieces of text, joined in order |
| FeatureRules.TextJoins | crates/xeibe-arrow/src/feature.rs:703-721 | a subtree's text is that of all its pieces of text, joined in order |
| FeatureRules.FirstWholeWins | crates/xeibe-arrow/src/feature.rs:289-300 | an element is taken whole by its first target that is a map, an inner text or an envelope, and else not |
| FeatureRules.ColumnsInOrder | crates/xeibe-arrow/src/feature.rs:679-684 | the columns of a kind of target, in the order of the targets |
| FeatureRules.GmlBelowAProperty | crates/xeibe-arrow/src/feature.rs:318-344 | a child is read as a geometry exactly if it is a GML element and a target of its parent wants one |
| FeatureRules.PartsInOrder | crates/xeibe-arrow/src/feature.rs:443-498 | the parts of a geometry property are all its geometry elements if it is an array property, its first otherwise, in order; it has none if one of these gives no geometry |
| FeatureRules.PolicyDecides | crates/xeibe-arrow/src/feature.rs:170-228 | a feature is built exactly if nothing failed, but for a geometry that the policy leaves out, and no column lacks what it must have; else it is skipped exactly under that policy, and refused otherwise, for the first such column |
| FeatureAgrees.OwnedEffects | crates/xeibe-arrow/src/feature.rs:236-391 | of all effects of reading an element, those on one column are what that column's own route finds, whatever other routes match the same elements |
| FeatureAgrees.AlignedEffects | crates/xeibe-arrow/src/feature.rs:236-391 | with the counts of its anchor, they are the values of the anchor's occurrences, each after its count |
| FeatureColumns.ListReads | crates/xeibe-arrow/src/feature.rs:653-675 | a list column read with counters and null padding has one entry per occurrence, its single value or null, and fails where one holds two |
| FeatureColumns.ScalarReads | crates/xeibe-arrow/src/feature.rs:644-652 | a scalar column is its single value, null without one, and fails with two |
| FeatureColumns.RowAgrees | crates/xeibe-arrow/src/feature.rs:644-676 | every column of the row is what its own effects alone make of it |
| FeatureResult.Commit | crates/xeibe-arrow/src/feature.rs:159-230 | lists are padded to their anchors' counts, and the feature is built, skipped or refused as the policy and the columns' nulls say |
| FeatureGeometry.ElementFails | crates/xeibe-arrow/src/feature.rs:272-391 | reading an element meets a geometry error if and only if, in its tree, some element that is opened has a geometry that cannot be read, a column that refuses its geometry, or is an envelope that cannot be read |
| FeatureResult.ReadingIsTheQuery | crates/xeibe-arrow/src/feature.rs:119-230 | for every feature tree and well-routed tree, the one-pass reader gives the row of the declarative query, or the error, skip or missing value that the query, of columns and of geometries, leads to |
| FeatureResult.ListsOfOneAnchorAlign | crates/xeibe-arrow/src/feature.rs:197-208 | list columns with one anchor have lists of one length, or are null together |
| FeatureResult.ReadFeature | crates/xeibe-arrow/src/feature.rs:119-230 | the method that reads and commits a feature is that query |
| Columnar.OffsetsAre | crates/xeibe-arrow/src/builders.rs:380-443 | offsets start at 0, grow by each row's items and end at the number of items |
| Columnar.OffsetsMonotone | crates/xeibe-arrow/src/builders.rs:380-443 | offsets never go down |
| Columnar.WrapsExactly | crates/xeibe-arrow/src/builders.rs:460-512 | 32-bit offsets are kept exactly if the last one fits |
| Columnar.ValidIs | crates/xeibe-arrow/src/builders.rs:515-521 | a slot is null exactly if its row is, also where no validity buffer is kept |
| Columnar.BufferForNulls | crates/xeibe-arrow/src/builders.rs:515-521 | a validity buffer is kept exactly if some row is null |
| Columnar.NormalKeeps | crates/xeibe-arrow/src/builders.rs:380-443 | a value stays as it is exactly if it has the column's shape at every level |
| Columnar.OthersAreNull | crates/xeibe-arrow/src/builders.rs:380-443 | a value becomes null exactly if it has another form; a list stays a list of as many items, each made to fit |
| Columnar.ArrayOf | crates/xeibe-arrow/src/builders.rs:445-512 | an array that is made is well formed, level by level, and as long as its rows |
| Columnar.RoundTrip | crates/xeibe-arrow/src/builders.rs:380-512 | through nested lists and maps, reading the arrays back gives the rows |
| Columnar.RoundTripExactlyWhenItFits | crates/xeibe-arrow/src/builders.rs:380-512 | they come back if and only if every 32-bit offset fits |
| Columnar.NarrowListOverflows | crates/xeibe-arrow/src/builders.rs:460-480 | a list of 2^31 nulls does not come back |
| Builders.ColumnBuilder.constructor | crates/xeibe-arrow/src/builders.rs:316-362 | a new builder holds no rows |
| Builders.ColumnBuilder.Len | crates/xeibe-arrow/src/builders.rs:364-373 | its length is the number of rows appended |
| Builders.ColumnBuilder.Append | crates/xeibe-arrow/src/builders.rs:380-443 | a value of the column's shape is appended as it is, one of another form as a null, at every level of nesting |
| Builders.ColumnBuilder.Finish | crates/xeibe-arrow/src/builders.rs:445-512 | the array of the rows so far, and the builder is empty again |
| Builders.BuildColumn | crates/xeibe-arrow/src/builders.rs:380-512 | values built into a column are read back exactly if their offsets fit: the values themselves, if they have the column's shape |
| Builders.LayerBatchBuilder.AppendRow | crates/xeibe-arrow/src/builders.rs:560-567 | every column grows by one: the row's value itself if it has the column's shape, null where the row has no value for it |
| Builders.LayerBatchBuilder.Finish | crates/xeibe-arrow/src/builders.rs:569-582 | a batch in which every column has a value for every row |
| Calendar.EpochIsZero | crates/xeibe-arrow/src/value.rs:123-133 | 1970-01-01 is day 0 |
| Calendar.NextDayIsValid | crates/xeibe-arrow/src/value.rs:109-121 | the next day of a valid date is valid and later |
| Calendar.NextDayCountsOne | crates/xeibe-arrow/src/value.rs:109-133 | each step to the next day counts exactly one, for all years, over months, leap days and year ends |
| Calendar.CountsInOrder | crates/xeibe-arrow/src/value.rs:123-133 | the count is strictly monotone, and two dates with one count are one date |
| Calendar.EveryDayHasADate | crates/xeibe-arrow/src/value.rs:123-133 | every count is that of exactly one valid date |
| DateTimes.ParseTime | crates/xeibe-arrow/src/value.rs:136-157 | a time read is within the day, and its fraction is digits |
| DateTimes.ParseZone | crates/xeibe-arrow/src/value.rs:160-181 | a time zone read is at most 14:59 from UTC |
| DateTimes.CountFraction | crates/xeibe-arrow/src/value.rs:202-220 | the loop gives the fraction's units, less than a second, or refuses it |
| DateTimes.FractionIsExact | crates/xeibe-arrow/src/value.rs:202-220 | a fraction is refused if and only if the unit cannot hold it, and else is exactly the units counted |
| DateTimes.CountIsExact | crates/xeibe-arrow/src/value.rs:222-234 | a moment's count is its rational instant (days, seconds and fraction, less the minutes its zone is ahead) times the scale, whenever that is a whole number and it and the whole seconds fit |
| DateTimes.TimestampIsExact | crates/xeibe-arrow/src/value.rs:222-234 | a text is accepted with count n if and only if n is exactly its instant in units, its time zone is of the right kind, and seconds and count fit 64 bits |
| DateTimes.TimestampsInOrder | crates/xeibe-arrow/src/value.rs:222-234 | accepted texts have counts in the order of their instants |
| DateTimes.ZoneShifts | crates/xeibe-arrow/src/value.rs:229-233 | the same clock in a zone z minutes ahead of UTC is z * 60 seconds earlier, and its count less by as many |
| DateTimes.DayShifts | crates/xeibe-arrow/src/value.rs:229-233 | a day later is 86,400 seconds more |
| DateTimes.UnitsByThousands | crates/xeibe-arrow/src/value.rs:191-198 | whole seconds count as they are, and a thousand times as many in each finer unit |
| DateTimes.LastNanosecond | crates/xeibe-arrow/src/value.rs:232-233 | `2262-04-11T23:47:16.854775807Z` is read as the largest count, and the next nanosecond is refused |
| DateTimes.RefusedAtTheEdge | crates/xeibe-arrow/src/value.rs:222-234 | an instant that fits is refused if and only if its whole seconds do not |
| DateTimes.FirstNanosecondIsRefused | crates/xeibe-arrow/src/value.rs:222-234 | the moment of that text fits and is refused |
| DateTexts.DateReads | crates/xeibe-arrow/src/value.rs:92-121 | every text of four to nine year digits and a day the month has is that date |
| DateTexts.DateIsRead | crates/xeibe-arrow/src/value.rs:92-121 | only such texts are dates |
| DateTexts.TimeReads | crates/xeibe-arrow/src/value.rs:136-157 | every `hh:mm:ss[.f+]` is that time, second 60 as 59 |
| DateTexts.TimeIsRead | crates/xeibe-arrow/src/value.rs:136-157 | only such texts are times |
| DateTexts.ZoneReads | crates/xeibe-arrow/src/value.rs:160-181 | every offset is read back from its text |
| DateTexts.ZoneIsRead | crates/xeibe-arrow/src/value.rs:160-181 | only nothing, `Z`, or a sign with at most 14 hours and 59 minutes is a time zone |
| DateTexts.MomentReads | crates/xeibe-arrow/src/value.rs:222-234 | a text is a moment if and only if it is a date, `T`, a time and a time zone |
| DateTexts.TextReads | crates/xeibe-arrow/src/value.rs:222-229 | every text of a date, a time of day and a time zone is the moment with these |
| DateTexts.NoonAnHourAhead | crates/xeibe-arrow/src/value.rs:222-234 | `2024-01-01T12:00:00.25+01:00` counts 1,704,106,800,250 milliseconds, exactly as many finer units, no seconds, and nothing in a column without a time zone |
| DateTexts.FirstNanosecondTextIsRefused | crates/xeibe-arrow/src/value.rs:222-234 | `1677-09-21T00:12:43.145224192Z`, whose count 64 bits hold, is refused |
| DateTexts.NoStepOverflows | crates/xeibe-arrow/src/value.rs:92-134 | for every text, the unchecked steps of the day count and of adding seconds and offset stay within 64 bits |
| DateTexts.TimeOfDayFits | crates/xeibe-arrow/src/value.rs:237-243 | the unchecked time of day in a unit fits too |
| Axis.Find | crates/xeibe-arrow/src/axis.rs:191-196 | a cache hit is an entry of that srsName and dialect, and a miss means that there is none |
| Axis.StepKept | crates/xeibe-arrow/src/axis.rs:185-221 | every step keeps each cache a part of the shared decisions, and every decision made |
| Axis.EveryAnswerIsTheFirst | crates/xeibe-arrow/src/axis.rs:185-221 | over every run, every lookup of a key by any copy returns what was decided when the key was first decided, from the key's own evidence and the context its source was last opened with until then |
| Axis.ContextIsLatest | crates/xeibe-arrow/src/axis.rs:166-183 | each source has the context it was last opened with, however other sources come and go |
| Axis.OneDecisionPerKey | crates/xeibe-arrow/src/axis.rs:185-221 | two lookups of one key never differ |
| Axis.AxisDecisions.ForSource | crates/xeibe-arrow/src/axis.rs:71-82 | a copy shares the decisions and has a cache of its own |
| Axis.AxisDecisions.Resolve | crates/xeibe-arrow/src/axis.rs:186-220 | the caches never show: the answer is what the shared decisions hold, or hold from now on, decided from the key's evidence and its source's context |
| Locations.PartitionPoint | crates/xeibe-core/src/chunk.rs:51-53 | the offset before the point is at or before the position, and the one at the point begins after it |
| Locations.PartitionsSorted | crates/xeibe-core/src/chunk.rs:51-53 | in a sorted list the offsets before the point are exactly those at or before the position |
| Locations.OffsetIs | crates/xeibe-core/src/chunk.rs:49-59 | within a slice, positions go on as in the stream |
| Locations.ByteIsThere | crates/xeibe-core/src/chunk.rs:22-59 | the stream byte at a position's offset is the chunk byte at the position |
| Locations.OffsetsGrow | crates/xeibe-core/src/chunk.rs:49-59 | later positions have later offsets |
| Locations.WithoutOffsets | crates/xeibe-core/src/chunk.rs:49-59 | without offsets the chunk is the stream from its base |
| Locations.LocationIsTheSlice | crates/xeibe-arrow/src/pipeline.rs:465-483 | the location recorded for a feature is its slice of the stream, byte for byte |
| Locations.EndIsTheNextStart | crates/xeibe-arrow/src/pipeline.rs:478-482 | read off the map, a feature's end would be the next one's start |
| Locations.Column.Push | crates/xeibe-arrow/src/pipeline.rs:524-529 | one entry more |
| Locations.Column.Finish | crates/xeibe-arrow/src/pipeline.rs:531-538 | the entries so far, and the column is empty again |
| Locations.ReadFeatures | crates/xeibe-arrow/src/pipeline.rs:449-489 | at every feature, rows and locations are in step, through features skipped and batches filled; an error ends the chunk |
| Locations.ProcessChunk | crates/xeibe-arrow/src/pipeline.rs:429-500 | every row is in some batch of at most the batch size, in order, with the location of its own feature |
| Locations.ProcessCutChunk | crates/xeibe-arrow/src/pipeline.rs:429-500 | for a chunk cut from a stream, every row has as its location the slice of the stream that its feature is, byte for byte, through skipped features and full batches |
| Container.PackProjjson | scripts/gen_crs_tables.py:648-672 | the loops write the header, shard table, index and blob of the format, or refuse a number that its field does not hold |
| Container.ReadCommittedBlob | scripts/verify_crs_tables.py:117-135 | the reader with its cache of shards reads as one without |
| Container.SplitJoin | scripts/verify_crs_tables.py:129-134 | lines joined by newlines are split again |
| Container.RoundTrip | scripts/gen_crs_tables.py:648-672 | for every map from codes to one-line documents and every lossless compressor, the reader returns exactly the map that was written |
| ContainerLayout.Header | scripts/gen_crs_tables.py:664-666 | byte for byte: `XPJ1`, then the number of shards of 64 codes, then that of the codes, lowest byte first |
| ContainerLayout.TableEntry | scripts/gen_crs_tables.py:655-668 | each shard's 12 bytes say where its block is in the blob, how long it is and how long its text is; the block there is its lines compressed |
| ContainerLayout.IndexEntry | scripts/gen_crs_tables.py:660-670 | each code's 8 bytes are the code, its shard and its line |
| ContainerLayout.JoinAdds | scripts/gen_crs_tables.py:657 | documents are joined by one newline each |
| Container.WrittenExactlyIfItFits | scripts/gen_crs_tables.py:648-672 | it is written if and only if every number fits its field |
| JsonDiff.DiffThenPatch | scripts/gen_proj_string_vectors.py:418-429 | applying the changes of a and b to a gives b, types included; exactly b if and only if a zero's sign is nowhere all that differs |
| JsonDiff.NoChangesToItself | scripts/gen_proj_string_vectors.py:418-429 | a value has no changes to itself if and only if it holds no NaN |
| JsonDiff.DictChangesAre | scripts/gen_proj_string_vectors.py:421-426 | the changes between two dicts are exactly: a removal for each key only the first has, the changes between the values of each key of both, a setting for each key only the second has |
| JsonDiff.ItemChangesAre | scripts/gen_proj_string_vectors.py:427-428 | those between lists of one length are exactly the changes between their items, each under its place |
| JsonDiff.FallsShort | crates/xeibe-reproject/tests/it/proj_string.rs:726-762 | the two values at which the diff falls short |
| WktScan.FindClose | scripts/gen_wkt_vectors.py:115-132 | the scan ends at the bracket that closes the first one, past quoted strings |
| WktScan.FindStringEnd | scripts/gen_wkt_vectors.py:135-144 | a quoted string ends at its first quote that is not doubled |
| WktScan.FindSpans | scripts/gen_wkt_vectors.py:155-170 | the spans that the scan cuts, in order |
| WktScan.WidenSpan | scripts/gen_wkt_vectors.py:180-196 | a span takes the comma before it, or else the one after it |
| WktScan.Strip | scripts/gen_wkt_vectors.py:147-177 | the text between the spans |
| WktText.StringEndsAt | scripts/gen_wkt_vectors.py:135-144 | in any text a quoted string ends exactly where only doubled quotes are before its quote and none right after it |
| WktText.ClosesAt | scripts/gen_wkt_vectors.py:115-132 | in any text without quotes a bracket is closed exactly where, for the first time, as many brackets of either kind are closed as opened |
| WktText.PassesStrings | scripts/gen_wkt_vectors.py:121-123 | quoted strings on the way are passed over whole; one that never ends fails |
| WktText.WidensTo | scripts/gen_wkt_vectors.py:180-196 | in any text a span takes the comma before it across whitespace, else the one after it and all whitespace behind, else nothing |
| WktText.UnclosedFails | scripts/gen_wkt_vectors.py:147-170 | a text that begins with an unclosed string, or with a named node whose bracket is not closed, is refused |
| WktTree.SkipsQuoted | scripts/gen_wkt_vectors.py:135-144 | in a printed tree a quoted string, doubled quotes in it, is skipped as a whole |
| WktTree.ClosesNode | scripts/gen_wkt_vectors.py:115-132 | from a printed node's bracket to its own closing one, whatever is in it |
| WktTree.FirstWidens | scripts/gen_wkt_vectors.py:180-196 | a first argument has no comma before it: its span goes on over the comma and the whitespace after it, if another argument follows |
| WktTree.ScansNode | scripts/gen_wkt_vectors.py:147-170 | in any printed node the scan finds the named nodes of its tree, each once and none in a string, with the comma before it or, for a first one, the comma and whitespace after it |
| WktStrip.KeepsNode | scripts/gen_wkt_vectors.py:147-177 | what those spans leave of any printed node, overlapping ones included, is `Stripped` of it |
| WktStrip.StripsTo | scripts/gen_wkt_vectors.py:147-196 | for every tree whose root is kept, stripping its printed text succeeds and leaves `Stripped` of the tree |
| WktExact.FitsSuffices | scripts/gen_wkt_vectors.py:147-196 | where the tree fits, what is left is the tree without the named nodes, printed |
| WktExact.FitsIsNeeded | scripts/gen_wkt_vectors.py:147-196 | two texts that end in what is left of an argument, and in the argument printed without its named nodes, are one text only if the argument fits |
| WktExact.StripsPrinted | scripts/gen_wkt_vectors.py:147-196 | for every tree whose root is kept, stripping its printed text is printing the tree without the named nodes if and only if each kept node reached begins with a kept argument, or has named ones only and no whitespace before them, or has one named one first, whose whitespace is that of the next |
| WktExact.LeadingNodesLeaveAComma | scripts/gen_wkt_vectors.py:180-196 | whenever two or more named nodes come first in the root and a kept argument after them, one comma is left behind its bracket |
| WktExact.TwoFirstLeaveAComma | scripts/gen_wkt_vectors.py:180-196 | `X[A[],A[],Y]` becomes `X[,Y]` |
| Publish.OrderedIsAcyclic | scripts/release.py:150-174 | an order of all crates excludes a cycle |
| Publish.ClosesCycle | scripts/release.py:161-166 | a crate met again on its own path is a cycle |
| Publish.Publisher.Visit | scripts/release.py:161-171 | a visit appends the crate after its dependencies, or there is a cycle; the crates not yet on the path run out |
| Publish.Publishable | scripts/release.py:150-174 | a list is returned if and only if the graph is acyclic; it has each crate once, after all its dependencies |

## Left out

- Memory orderings: an atomic is read and written as if in one order with the locks.
- A region under a lock is one step, also where it reads a flag set under another lock: a panic of the helper between `finish`'s look at the stop flag and its number, which drops the `finish` item, is not a run of the model.
- Infinite streams: a stream is a finite list of items.
- A thread that cannot be started (`spawn_error`), and the re-raising of panics on the calling thread.
- What the helper does: it has more to do, has nothing to do, or panics; how often it is called is left open.
- The pool as one object with its locks: the protocol is a transition system on values, and only its small shared objects are classes.
- The wrap-around of the 64-bit numbers of items, and the 32-bit counts of features.
- Sampling.TakeSample: that panics of the splitter are re-raised in the caller; they are failures of the input here.
- Sampling.SampleIsOneScan: that merging observations is observing their features together is an assumption, since the schema observation is not part of this model.
- Several streams decoding ahead in one helper (`DecodeAhead::help`), and which encodings and compressions are recognised.
- Feature.FeatureReader.ReadContent: the srsName that geometries inherit from the feature's first `boundedBy`, or the collection's; parsing a geometry depends on its element and columns only.
- Geometry parsing, the comparison of CRSs, reprojection, and the text of an element as written: functions of the plan, about which nothing is assumed.
- Text trimming and `parse_scalar` for numbers and booleans: functions of the plan.
- The XML reader: a feature is a tree, and errors of the reader (unexpected end, malformed XML) are not modelled.
- RouteTree.NewRouteTree: the tree is a value; `child_mut` updates it in place.
- JsonDiff.DiffThenPatch: the patch is a function on values; the original moves a cursor through one value in place.
- Leaf, geometry and box builders of Arrow, which are sequences of values here, and the overflow of 64-bit list offsets.
- Date32, Date64, Time32 and Time64, which wrap the functions modelled here.
- DateTexts.NoStepOverflows: 64-bit steps only; a text's length is unbounded.
- UTF-8, and the compressor of the container: any lossless one.
- WktExact.StripsPrinted: a root that is itself named, and whitespace before a comma or a closing bracket, which the printed trees do not have.
- Axis decisions themselves (`decide`), the evidence collected for them and the warnings about them.
- The source number in the location column, which is the chunk's own for all its rows, and the size of the builders' first allocation.
- Combining batches (`Batches`, Arrow's coalescer), selection of the layer, and the read report.
- The command line, the web page, settings files, DataFusion, CRS tables and all error texts.
