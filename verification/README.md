# databricks-es-connector: a verified model

This project models how the connector writes a Spark DataFrame to Elasticsearch and reads it back, and proves what the
connector promises about it: which rows are stored when it says so, what survives rejections, time-outs, repeated
requests and restarted tasks, and which values come back. `dafny verify dfyconfig.toml` checks everything.

## The write path

- `BulkOutcome`, `Documents` say what one item of a bulk reply means and what an action line is.
- `ChunkProtocol` is the retry protocol of one chunk as a machine over the answers of the bulk endpoint: probe,
  re-ship, rounds of per-document retries, repeated time-outs. `ChunkAccounts` proves its bookkeeping, its budget and
  its pauses. `ChunkShipper` is the loop as it runs, with its counters updated in place, proved to do what the machine
  does.
- `Cluster` puts any number of chunks to work on one index at once. Elasticsearch is a nondeterministic server that
  applies items one at a time, in any order and interleaved in any way, and may reject anything. A run is any sequence
  of enabled events, restarts of tasks among them. `Confluence`, `AppendOnly` and `Copies` prove what all runs have in
  common. `Witnesses` holds single runs that show where a guarantee ends.
- `Windows` has the runs that a write can make: each partition ships its chunks in order, at most `write_concurrency`
  of them in progress (src/databricks_es_connector/bulk.py:653-662, one after the other at
  src/databricks_es_connector/bulk.py:749-752), and is started over as a whole. Its `Rules` say what is left open: whether
  the server keeps the order of the lines for an id, processes no line twice within a call and sends a truthful flag,
  and whether calls may raise and partitions be started over. `ChunkRounds` says what a chunk can still send.
- `LastWords` and `FirstWords` name the lines that can decide on an id, and prove that their agreement is enough for the
  serial result. `Schedules`, `Scripts`, `WordScripts` and `Turns` build runs on purpose: call by call, chunk by chunk,
  and partition by partition, all inside the window. With them `Divergence` proves that no less agreement will do, and
  `ExactCounts` when exactly the outcomes counted are the acceptances made.
- `Pipeline` is the pool that ships a partition, `PartitionReport` what its report means, `Verdict` the rollup and the
  decision to fail a write, `Stream` the micro-batch function and the checkpoint machine around it. `Arrangement` deals
  a batch out to partitions and chunks. `Commit` joins them all: the calls in the cluster are the calls of the
  partitions, and a batch commits on what the partitions report. `Policies` shows that only the raising policy protects
  the checkpoint.

The environment is assumed to behave as follows, and the assumptions are used where they are stated in `Cluster`: a full
reply has one item per line, in order, with the status the server gave that line; `errors: false` means every line of a
delete-free request got a 2xx status; an item that is not 2xx changed nothing, and 404 on a delete, 409 and 201 on a
create tell truly whether the id was there; a request that raised may have had any part of its items applied, but
applies none once the attempt has ended. A line may be processed more than once within one call, as happens when the
transport re-sends a timed-out request on its own (src/databricks_es_connector/config.py:159-164); the few lemmas that
need this not to happen say so, and `ExactCounts.ExactlyIfCareful` says what it costs. The lemmas of `ChunkProtocol`,
`ChunkAccounts`, `Pipeline` and `PartitionReport` do without the first of these unless they say so.

## The serializer and the reader

- `SparkTypes` has types, cells and JSON values; `Rewriting` the three type-directed rewrites; `Calendar` dates and
  wall clocks; `Base64` binary cells; `RoundTrip` the way from a cell to JSON and back, `Sanitized` the same with what
  happens to variants and intervals before, and `Rows` that of a whole row.
- `ReadBack` is the reader's coercion by type tokens, `ReadSound` what it guarantees for any stored value, `ReadTyped`
  exactly when a returned value has the declared type.
- `Ndjson` is the text of a request and the server's reading of it.
- `SliceReader` pages slices of a point in time; `TypeScanner` finds columns that cannot cross Arrow in printed types.

## Where code and documentation differ

README.md:297-301 says that of two rows with one id the later one is kept. `Divergence.UpsertsExactly` says exactly when:
with the default per-document retries the earlier row can come last, as `Witnesses.DuplicateIdsDiverge` shows.

README.md:551-554 and src/databricks_es_connector/config.py:44-47 say that the pause between retries is capped at 600
seconds; src/databricks_es_connector/bulk.py:430 and src/databricks_es_connector/bulk.py:554 cap it at 30, and so does
the model.

## Model

| member | source | states |
|---|---|---|
| ChunkAccounts.RejectionOutcome | src/databricks_es_connector/bulk.py:67-120 | An item is a rejection exactly when it is counted as an error once it is final: the two no-ops, a delete answered 404 and a create answered 409, are neither. |
| ChunkShipper.ShipNdjsonChunk | src/databricks_es_connector/bulk.py:338-555 | Shipping one chunk ends, and does to the counters, samples, diagnostics, send records, bodies sent and time slept exactly what the protocol machine records on the same answers; it raises exactly when the machine crashes. |
| ChunkShipper.SendOnce | src/databricks_es_connector/bulk.py:360-404 | One send passes the lines on unchanged and, when statistics are collected, records how it ended, failed sends included. |
| ChunkShipper.SendRetrying | src/databricks_es_connector/bulk.py:418-430 | Only time-outs are sent again, only with the opt-in knob, at most `transport_max_retries` times, with the same lines and the capped doubling pauses. |
| ChunkShipper.Probe | src/databricks_es_connector/bulk.py:464-484 | The probe settles the chunk when its reply says `errors: false` (all written) or when it raises for good (all errors); in every other case nothing is counted and the chunk goes out in full. |
| ChunkShipper.TallyReply | src/databricks_es_connector/bulk.py:513-547 | The item loop over a full reply updates counters, samples and diagnostics and picks the lines to retry as the tally of the machine does, item by item and by index. |
| ChunkShipper.TakeReply | src/databricks_es_connector/bulk.py:513-555 | After the item loop: retried documents are counted, the pause is taken only if lines are to be sent again, and those lines are the ones the machine keeps pending. |
| ChunkShipper.ShipRound | src/databricks_es_connector/bulk.py:500-555 | One round: everything pending is sent; a failed request counts all of it as errors; otherwise the retryable rejections come back as the next round, in order. |
| ChunkShipper.FailClosed | src/databricks_es_connector/bulk.py:503-512 | A request that failed for good adds one error per line it carried, and one sample. |
| ChunkShipper.Accounts.Retain | src/databricks_es_connector/bulk.py:509-511 | Samples are kept up to 20 and the first 20 stay. |
| ChunkProtocol.TallyRetries | src/databricks_es_connector/bulk.py:528-531 | The lines queued for retry are pending lines in their order, each at most once. |
| ChunkProtocol.TallyBreaks | src/databricks_es_connector/bulk.py:528-531 | The index into the pending lines fails only for a retryable item beyond them; the last round queues nothing. |
| ChunkProtocol.TallyCounts | src/databricks_es_connector/bulk.py:515-547 | Every item of a reply adds one to one counter or is queued for retry. |
| ChunkProtocol.ChunkConservation | src/databricks_es_connector/bulk.py:464-555 | For every sequence of replies, time-outs and failures: pending is an increasing list of positions of the chunk, and outcomes plus pending are the lines plus exactly the excess (or minus the shortfall) of items over lines. |
| ChunkProtocol.EveryLineCountedOnce | src/databricks_es_connector/bulk.py:338-347 | With one item per line sent, no chunk crashes and every line is, at every moment, either pending or counted under exactly one of written, deleted, ignored and errors. |
| ChunkAccounts.RejectionLedger | src/databricks_es_connector/bulk.py:517-549 | The four reject counters sum to the documents retried plus the errors counted item by item, and a chunk keeps a sample exactly when it counted errors. |
| ChunkAccounts.DocumentsSent | src/databricks_es_connector/bulk.py:464-555 | With no raised send, the calls carried every line once, once more after a probe that was not clean, and once more per retried document. |
| ChunkAccounts.CallsBounded | src/databricks_es_connector/bulk.py:418-430 | Calls made plus calls still possible never exceed the budget. |
| ChunkAccounts.RetryBudget | src/databricks_es_connector/bulk.py:418-555 | With R retries per document and T time-out retries a chunk makes at most (R+2)(T+1) bulk calls, and has ended after that many answers whatever they were. |
| ChunkAccounts.SleptExactly | src/databricks_es_connector/bulk.py:552-554 | A chunk has slept exactly the pauses of its retry rounds and of its runs of time-outs, each run backing off from the beginning; no pause follows its last call. |
| ChunkAccounts.BackoffClosedForm | src/databricks_es_connector/bulk.py:430 | n pauses of one loop last 2^(n+1)-2 seconds for n up to 4 and 30(n-3) from there on: the code caps a pause at 30 seconds, where README.md:551-554 says 600. |
| Cluster.TallyReads | src/databricks_es_connector/bulk.py:515-547 | A line queued for retry was rejected, and a line settled by a reply has the outcome of its own item. |
| Cluster.SettledNow | src/databricks_es_connector/bulk.py:464-555 | When a call ends, entries of the ledger stay, and a new entry is backed by the status the server gave that very line, or is an error after a raised call. |
| Confluence.EveryRunSound | src/databricks_es_connector/bulk.py:616-668 | Safety over every interleaving of any number of chunks, restarts included: each named id is as before the write or as its line demands, no other id moves, and a line counted as anything but an error is in effect. |
| Confluence.InterleavingConfluence | src/databricks_es_connector/bulk.py:418-555 | After any run over lines that agree on their ids, a line counted written, deleted or ignored has left its id as one serial application would, and every other line has left it so or as it was. |
| Windows.MovesAreRun | src/databricks_es_connector/bulk.py:601-668 | A run of a write, in which a partition begins its chunks in order with at most `write_concurrency` of them in progress and a restart starts the whole partition over, is a run of the cluster with the same end: what holds of all runs of the cluster holds of it. |
| LastWords.EveryRunSpeaks | src/databricks_es_connector/bulk.py:432-456 | Without creates, in every run, probes, time-outs, retries and restarts included: the index says at an id what the decisive lines for it say, or some chunk has still to say it or has counted an error. |
| LastWords.AgreementIsEnough | src/databricks_es_connector/bulk.py:464-555 | Without creates, decisive lines that agree are enough for the serial result of every run that ends well, from every index. |
| FirstWords.EveryRunFirst | src/databricks_es_connector/bulk.py:72-81 | Under create and without restarts, in every run: an id that was absent is still absent, or holds what the lines that can come first for it say, or some chunk cannot end well. |
| FirstWords.FirstAgreementIsEnough | src/databricks_es_connector/bulk.py:72-81 | Under create and without restarts, agreement of the lines that can come first is enough for the serial result of every run that ends well, from every index. |
| WordScripts.RunLast | src/databricks_es_connector/bulk.py:513-555 | A line that can have the last word of its chunk is given it by a course of the chunk in which every reply is truthful and nothing fails for good: taken up last, or put off to a round of retries that it makes alone. |
| WordScripts.RunFirst | src/databricks_es_connector/bulk.py:418-484 | A create that can be the first of its chunk is accepted first in some such course: by the order of the server, by a probe or a round that refuses the lines before it, or by a call that times out after it. |
| Divergence.DecisiveDecides | src/databricks_es_connector/bulk.py:653-662 | Without creates, each decisive line is given the last word on its id by a run inside the window in which every chunk ends well. |
| Divergence.UpsertsExactly | src/databricks_es_connector/bulk.py:464-555 | Exact condition without creates, whatever is allowed to happen (order kept or not, raised calls, restarts, absent flags): every run that ends well leaves the serial result, from every index, if and only if the decisive lines for each id agree. A line is decisive if it can have the last word of its chunk, as the last that names the id, by a retry, or where the order is not kept; at `write_concurrency` 1 only in the last chunk of its partition that names the id, above that in every chunk. |
| Divergence.LaterRowWins | README.md:297-301 | The later of two rows with one id is the one that is kept, in every run that ends well, where chunks go one after the other, lines for an id are taken up in order, nothing can be retried and no id is named in two partitions. |
| Divergence.FirstDecides | src/databricks_es_connector/bulk.py:653-662 | Under create, each line that can come first is the first to be accepted for its id in some run inside the window, without a restart, in which every chunk ends well. |
| Divergence.CreatesExactly | src/databricks_es_connector/bulk.py:464-555 | Exact condition under create without restarts: every run that ends well leaves the serial result, from every index, if and only if the lines that can come first for each id agree. A line can come first only if fewer than `write_concurrency` chunks before it in its partition name the id and, where the order is kept, if it is the first of its chunk for the id or the chunk can be sent more than once. |
| Divergence.RestartedCreatesExactly | src/databricks_es_connector/bulk.py:440-445 | Exact condition under create where partitions may be started over: if and only if no two lines of the write demand different things of one id. |
| Witnesses.DuplicateIdsDiverge | src/databricks_es_connector/bulk.py:528-555 | A line rejected with 429 is sent again after a later line for the same id, and wins: both are counted written and the index is not the serial one. |
| AppendOnly.EveryRunAppends | src/databricks_es_connector/bulk.py:72-81 | Under create no run changes the document of an id that was in the index when it began, and the index has grown by exactly the creates that were accepted. |
| AppendOnly.OnceThereAlwaysThere | src/databricks_es_connector/bulk.py:72-81 | Under create a document that is in the index at any moment of a run is there unchanged at the end, whether it was there before or added on the way. |
| AppendOnly.CreateGrowth | src/databricks_es_connector/bulk.py:515-543 | Under create the index grows by at least `written` and at most the number of lines. |
| AppendOnly.FinishedTotal | src/databricks_es_connector/bulk.py:532-545 | A finished chunk has exactly one outcome per line. |
| AppendOnly.FinishedGrowth | src/databricks_es_connector/bulk.py:515-545 | A finished run of creates has grown the index by at least `written` and at most written + ignored + errors, counts nothing as deleted, and counts every ignored line as deduplicated. |
| AppendOnly.ExactCreateCounts | src/databricks_es_connector/bulk.py:457-463 | With the fast path bypassed, no restart, no raised send and no line processed twice within one call, the growth is exactly `written` and, chunk by chunk, the deduplicated documents are exactly the ignored ones. |
| ExactCounts.LostForGood | src/databricks_es_connector/bulk.py:532-545 | An acceptance that neither the ledger nor the call in flight shows is never made up for: over every run, restarts included, a line stays at least that many acceptances ahead of what is counted. |
| ExactCounts.EveryRunShows | src/databricks_es_connector/bulk.py:457-463 | In every run of a careful write each line has been accepted exactly as often as the ledger and the call in flight show. |
| ExactCounts.ProbeShowsExactly | src/databricks_es_connector/config.py:225-235 | A probe whose flag tells the truth leaves every acceptance shown if and only if it had all its lines accepted, or none: only mixed chunks are miscounted. |
| ExactCounts.LostTakenTwice | src/databricks_es_connector/config.py:159-164 | If the server may process a line twice within one call, as when the transport re-sends a timed-out request, every write that has a line has a run whose counts are not exact. |
| ExactCounts.LostInProbe | src/databricks_es_connector/bulk.py:464-484 | A write that is probed and has a line has a run, without restart or raised call, that loses an acceptance: the probe stores a first line and comes back without its flag, or with a true flag because another line of the chunk was refused. |
| ExactCounts.ExactlyIfCareful | README.md:510-512 | Exact condition, for every write and whatever is allowed to happen: after every run that finishes each line, auto-id lines among them, has been accepted exactly as often as it is counted, if and only if the write has no line, or no call can raise, no partition be started over and no line be processed twice within a call, and it does not probe, or its probes tell the truth and no chunk has two lines. |
| ExactCounts.GrowsExactlyIfCareful | src/databricks_es_connector/config.py:225-235 | Exact condition under create: the index grows by exactly `written` in every run that finishes, from every index, under the very same condition. |
| Witnesses.ProbedCreatesUndercount | src/databricks_es_connector/bulk.py:457-463 | On the default path a chunk mixing a new and an existing id grows the index by one document and counts none as written. |
| Copies.CopiesOverRun | src/databricks_es_connector/bulk.py:432-463 | In every run without restarts, where the server processes no line of a request twice, the copies of an auto-id line stay within the sends that carried it, and without raised sends within one copy of what is counted. |
| Copies.CopiesEver | src/databricks_es_connector/bulk.py:432-463 | However often a partition is started over, as long as the server processes no line twice within one call: an auto-id line never has more copies than calls that carried it, over all attempts, calls cut off by a restart included. |
| Copies.AutoIdCopies | src/databricks_es_connector/bulk.py:432-463 | With no raised send, no restart and no line processed twice within one call: on the full path one copy per written line and none per error line; on the default path one or two copies per written line, exactly one after a clean probe. |
| Pipeline.ChunksCover | src/databricks_es_connector/bulk.py:658-662 | The chunks of a batch are, in order, exactly its lines. |
| Pipeline.ChunksSized | src/databricks_es_connector/bulk.py:658-662 | Every chunk has at least one line and at most `chunk_size`. |
| Pipeline.ShipOne | src/databricks_es_connector/bulk.py:616-626 | A task gives back private accounts that hold exactly its chunk, whenever it runs. |
| Pipeline.PipelinedShipper.constructor | src/databricks_es_connector/bulk.py:601-614 | A new shipper has nothing submitted and nothing pending, and takes over the shared accounts as they are. |
| Pipeline.PipelinedShipper.Merge | src/databricks_es_connector/bulk.py:628-642 | Merging a task adds its counters and diagnostics, appends its send records and keeps the first 20 samples. |
| Pipeline.PipelinedShipper.DrainOne | src/databricks_es_connector/bulk.py:644-651 | Whatever set of tasks is done, in whatever order: each is merged once, fewer are pending, and a crashed task raises. |
| Pipeline.PipelinedShipper.Feed | src/databricks_es_connector/bulk.py:653-662 | Feeding ends, never has more than `max_inflight` tasks pending, and submits exactly the chunks of the batch, in order, after those submitted before. |
| Pipeline.PipelinedShipper.Close | src/databricks_es_connector/bulk.py:664-668 | Closing ends with nothing pending, or raises because some task crashed. |
| Pipeline.WritePartition | src/databricks_es_connector/bulk.py:671-801 | A partition reports if and only if no batch has a null line, the chunk size is not zero where there are lines, and no task crashed; the report then covers every chunk exactly once, in submission order when there is no pool. |
| PartitionReport.PoolIsSerial | src/databricks_es_connector/bulk.py:558-599 | The pool refines serial shipping: for every order of completion the counters and diagnostics are those of the chunks shipped one after the other, and the send records are the same up to order. |
| PartitionReport.ReportConserves | src/databricks_es_connector/bulk.py:727-791 | The outcomes of a reported partition are its rows plus the excess of items over lines; a negative chunk size sends nothing. |
| PartitionReport.BalancedExactlyWhenCut | src/databricks_es_connector/bulk.py:756-764 | With one item per line, a reported partition balances if and only if the chunk size is positive or there was nothing to send. |
| PartitionReport.ReportRejections | src/databricks_es_connector/bulk.py:286-324 | Over a partition the reject counters plus the lines of failed requests are the documents retried plus the errors. |
| PartitionReport.ReportSamples | src/databricks_es_connector/bulk.py:544-547 | A partition shows a sample exactly when it counted an error. |
| PartitionReport.ReportCalls | src/databricks_es_connector/bulk.py:226-228 | Successful, timed-out and failed sends together are all the bulk calls the partition made. |
| PartitionReport.ReportDocsSent | src/databricks_es_connector/bulk.py:226-262 | With no raised send, `docs_sent` is the rows that went in, plus the lines sent again after a probe, plus the documents retried. |
| PartitionReport.ReportIsRow | src/databricks_es_connector/bulk.py:785-790 | When the chunk machines are the ones the partition shipped, what it reports is the row that the verdict on the whole write is computed from; `Commit.PartMatches` shows that they are. |
| Verdict.MergePartitionResults | src/databricks_es_connector/bulk.py:804-877 | The rollup sums the columns, keeps shortfall and excess of the partitions apart, and takes the first 20 samples of the concatenation. |
| Verdict.NetDiscrepancy | src/databricks_es_connector/bulk.py:820-830 | Rows minus outcomes is the total shortfall minus the total excess. |
| Verdict.SumPermutes | src/databricks_es_connector/bulk.py:804-877 | The order in which partitions report does not change any total. |
| Verdict.BalancedExactly | src/databricks_es_connector/bulk.py:820-830 | Shortfall and excess are both zero exactly when every partition balances. |
| Verdict.RaisesExactly | src/databricks_es_connector/bulk.py:892-943 | The write is failed exactly when some partition counted an error or fell short; a surplus neither hides a shortfall nor fails the write. |
| Verdict.SamplesShowErrors | src/databricks_es_connector/bulk.py:874-874 | The merged samples are empty exactly when no partition counted an error. |
| Stream.ForeachBatch.Call | src/databricks_es_connector/stream.py:72-113 | The hook is told first, and if it raises the batch does not return and nothing more is reported; otherwise an empty batch returns, a write that raised does not, and the policy decides on the rest; warnings and surplus reports are given as each policy says. |
| Stream.CleanWriteIsFold | src/databricks_es_connector/bulk.py:892-943 | A finished write with a clean verdict has applied the whole batch, whatever earlier attempts at it left behind. |
| Stream.FinishedBalances | src/databricks_es_connector/bulk.py:820-856 | Every partition of a finished write balances. |
| Stream.VerdictOnErrors | src/databricks_es_connector/bulk.py:892-943 | A finished write is failed if and only if some chunk counted an error. |
| Stream.AttemptSafe | src/databricks_es_connector/stream.py:72-92 | Any attempt at a batch, however it ends, keeps the index at the committed batches give or take part of the one being attempted. |
| Stream.ExactlyOnce | src/databricks_es_connector/stream.py:41-63 | Effectively exactly once: with the raising policy, after any history of attempts over whole streams, the index when a checkpoint commits is exactly the fold of the committed batches. |
| Policies.OnlyRaisingProtects | src/databricks_es_connector/stream.py:55-63 | Exact condition, for every configuration and every stream whose batches agree on their ids: every commit of every history, from every index, is the fold of the committed batches if and only if the policy raises or no batch has a line. |
| Policies.LostAtCommit | src/databricks_es_connector/stream.py:93-113 | Under `log` and `ignore` the first batch that has a line can commit with that line not in effect. |
| Witnesses.ReportingLosesRows | src/databricks_es_connector/stream.py:55-57 | Under `log` and `ignore` a batch can commit because its only row was refused for good, with the row missing from the index. |
| Commit.RunIsScripted | src/databricks_es_connector/bulk.py:338-555 | In every run of any number of chunks, restarts included, each chunk is where its task gets on the answers the cluster has given to its current attempt. |
| Commit.LayoutHolds | src/databricks_es_connector/bulk.py:658-662 | The chunks of all partitions, in the order they are merged, hold exactly the lines of the batch. |
| Commit.PartMatches | src/databricks_es_connector/bulk.py:671-801 | Once no call is left to make, the chunks in the cluster are, partition by partition and in merge order, the chunks the partition shipped. |
| Commit.ReportedIsFinished | src/databricks_es_connector/bulk.py:721-801 | Once every partition has reported, every chunk has ended without an exception. |
| Commit.ReportsAreSummary | src/databricks_es_connector/bulk.py:785-790 | The reports of the partitions are the summary of the chunks in the cluster. |
| Commit.ReportedExactlyOnce | src/databricks_es_connector/stream.py:41-92 | Effectively exactly once, over what the partitions report: when a batch commits because the rolled-up reports gave a clean verdict, the index is the fold of the committed batches, for every history of attempts, every order of completion and every answer of the cluster. |
| Calendar.SplitThenCount | src/databricks_es_connector/spark_serialize.py:124-132 | Splitting any day, before or after the epoch, gives a date of the proleptic Gregorian calendar whose day number is that day. |
| Calendar.CountThenSplit | src/databricks_es_connector/spark_serialize.py:124-132 | Every calendar date is recovered from its day number. |
| Calendar.ClockRoundTrip | src/databricks_es_connector/spark_serialize.py:126-132 | A wall clock split into its fields and rebuilt at UTC is the same instant. |
| Calendar.NtzFloors | src/databricks_es_connector/spark_serialize.py:141-145 | The stored milliseconds of a zoneless timestamp are its microseconds divided by a thousand and floored; read back it has lost exactly its sub-millisecond part. |
| Calendar.DateRoundTrip | src/databricks_es_connector/read_transform.py:159-162 | A date is read back as the same day. |
| Rewriting.PruningIsExact | src/databricks_es_connector/spark_serialize.py:149-210 | Skipping fields whose types mention no leaf gives the same cell as rewriting everywhere, for all three rewrites. |
| Rewriting.FloatsAndDatesCommute | src/databricks_es_connector/spark_serialize.py:235-251 | Nulling non-finite floats by the original type gives the same cell before and after the rewrite of dates. |
| Rewriting.EpochTypeIsBuilt | src/databricks_es_connector/spark_serialize.py:99-117 | For every type, `_epoch_type` is the type of the expression that the rewrite of dates builds. |
| Rewriting.EpochStructTypeIsBuilt | src/databricks_es_connector/spark_prep.py:186-228 | `_epoch_struct_type` is the type of the rewritten column if and only if no map key in it mentions a timestamp. |
| Rewriting.RewriteTyped | src/databricks_es_connector/spark_serialize.py:149-210 | A rewritten cell belongs to the type of the rewritten column. |
| Base64.DecodeEncode | src/databricks_es_connector/read_transform.py:221-224 | The lenient decoder undoes the encoding of section 4 of RFC 4648 for every byte string. |
| RoundTrip.StoredIsFlat | src/databricks_es_connector/spark_serialize.py:235-251 | The column rewrites in sequence, pruned by type, are one pass: temporal values in epoch milliseconds, floats finite, keys untouched. |
| RoundTrip.SerializedThenRead | src/databricks_es_connector/read_transform.py:165-309 | For every type that comes back and every cell of it, reading the serialized cell returns the canonical cell (timestamps floored to the millisecond, non-finite floats null), or refuses exactly when a temporal value is outside the years 1 to 9999. |
| Sanitized.TextRead | src/databricks_es_connector/read_transform.py:194-204 | A column stored as one text is read, under a type that holds a variant or an interval, as the text inside a list of one for each array around it, and refused where the type has a struct or a map. |
| Sanitized.WriteThenRead | src/databricks_es_connector/bulk.py:1131-1132 | On the whole way of a column, sanitizing first: the canonical cell comes back, or a refusal exactly when a temporal value is out of range, unless a variant or an interval lies below the root of the type; then what comes back is what reading the text of the cell gives. |
| Sanitized.ComesBackExactly | src/databricks_es_connector/spark_prep.py:120-142 | Exact condition: every cell of a column comes back if and only if no variant and no interval lies below the root of its type. |
| Rows.DocumentColumns | src/databricks_es_connector/spark_serialize.py:47-54 | The stored document has exactly the payload columns, in order. |
| Rows.RowTrip | src/databricks_es_connector/read.py:111-120 | A row comes back column by column, each as `Sanitized.WriteThenRead` says; a dropped column comes back null, and a dropped id column is read from the document id. |
| ReadBack.Dispatch | src/databricks_es_connector/read_transform.py:207-300 | Every printed scalar type takes the branch meant for it; no integer width falls through. |
| ReadSound.GuardIsExact | src/databricks_es_connector/read.py:61-108 | The guard on map keys accepts a supported type exactly when every map in it is keyed by strings. |
| ReadSound.WholeExactly | src/databricks_es_connector/read_transform.py:237-265 | A JSON number is read as an integer of a width exactly when it is that integer and the width holds it. |
| ReadSound.StampTruncates | src/databricks_es_connector/read_transform.py:136-146 | A timestamp is read from the number with its fraction cut off, within the years 1 to 9999. |
| ReadSound.CellSound | src/databricks_es_connector/read_transform.py:165-309 | Soundness: where objects are stored for maps and structs, whatever is returned has the declared type in every part, its integers are the stored numbers and its map keys the stored names. |
| ReadSound.AgreesInhabits | src/databricks_es_connector/read_transform.py:165-309 | A faithful reading is a cell of the declared type, decimals aside. |
| ReadTyped.TakenWell | src/databricks_es_connector/read_transform.py:186-203 | What `dict` takes for a map, from an object or from a list of pairs, never has a key twice. |
| ReadTyped.ReadsTypedExactly | src/databricks_es_connector/read_transform.py:165-309 | Exact condition, for every type the guard accepts without decimals and every stored value: what is returned is a cell of the declared type if and only if every key taken for one of its maps is a string, at every depth. |
| ReadSound.ListReadAsMap | src/databricks_es_connector/read_transform.py:194-203 | `dict` also takes a list of pairs: a map of longs by name is returned with a key that is not a string. |
| Ndjson.UnquoteQuote | src/databricks_es_connector/spark_serialize.py:253-276 | Reading an escaped string gives the string back and leaves exactly what followed it. |
| Ndjson.TextOneLine | src/databricks_es_connector/spark_serialize.py:254-254 | A printed document is a single line of text, whatever strings it holds. |
| Ndjson.HeaderRead | src/databricks_es_connector/spark_serialize.py:256-276 | A header line names the operation, index and id it was printed from. |
| Ndjson.BodyRead | src/databricks_es_connector/bulk.py:342-347 | For any mix of index, create and delete lines the server reads exactly one action per element, in order: item k of the reply is about element k. |
| Ndjson.NullLineExactly | src/databricks_es_connector/spark_serialize.py:294-304 | A line is null exactly when ids are configured and the id is null or not finite. |
| Ndjson.RowsRead | src/databricks_es_connector/spark_serialize.py:256-305 | From rows to actions: one per row, in order, a delete exactly when deletes are on and the flag is true, with the document of that row. |
| SliceReader.SliceHits | src/databricks_es_connector/read.py:123-153 | Paging a slice ends, yields it exactly once and in order, and every request carries the latest id of the point in time. |
| SliceReader.ReadSlices | src/databricks_es_connector/read.py:215-232 | A task yields one frame for each slice it is given that has hits, in order, and each frame is that slice. |
| SliceReader.FramesHoldAll | src/databricks_es_connector/read.py:215-232 | These frames hold all the hits of the slices, one slice after the other, and none is empty. |
| SliceReader.SlicesAreSnapshot | src/databricks_es_connector/read.py:283-291 | All slices, or the single unsliced reader, give every hit of the snapshot exactly as often as it is there. |
| SliceReader.WholeIndexOnce | src/databricks_es_connector/read.py:156-190 | Whatever number of slices is resolved, the whole index is read once; it is refused exactly when nothing says how many and the caller insists. |
| TypeScanner.ScanDecides | src/databricks_es_connector/spark_prep.py:46-66 | One pass over the words of a text decides the bounded search of the pattern. |
| TypeScanner.ScannerAgreesWithTree | src/databricks_es_connector/spark_prep.py:46-66 | On a printed type the search succeeds exactly when the type contains a variant or an interval at some depth; no field name can make it succeed. |
| TypeScanner.ScalarIntervalIsRoot | src/databricks_es_connector/spark_prep.py:69-81 | The test for a scalar interval holds exactly for intervals at the root. |
| TypeScanner.HostileColumnsFromDescribe | src/databricks_es_connector/spark_prep.py:84-102 | The hostile columns are exactly the rows before the first empty or `#` row whose type text matches, in order. |
| TypeScanner.SanitizeForArrow | src/databricks_es_connector/spark_prep.py:120-142 | Each hostile column is rewritten once, in order, by a cast or as JSON text. |
| TypeScanner.SanitizedAsNeeded | src/databricks_es_connector/spark_prep.py:120-142 | For every table exactly the columns that contain a variant or an interval are rewritten, an interval by a cast and anything else as JSON text. |

## Left out

- Time and bytes: the clocks, the GIL probe, `took`, sizes of requests and the percentiles over them; send records keep the number of documents and how the send ended.
- The Elasticsearch client, transport, TLS, compression and pools, and Spark's own scheduling: foreign calls. What the transport repeats on its own is part of one call here.
- Late effects: a request that timed out is taken to apply nothing after its attempt has ended, as the first section says.
- Texts of errors, log messages and samples; a sample keeps whether it stands for a request or for an item.
- ChunkShipper.ShipNdjsonChunk: does not say what the counters, samples and diagnostics hold when an exception leaves the chunk, because its partition then fails and reports nothing.
- Chunks left in the pool when a partition raises: they run to their end without being merged, which changes the index within what `Confluence.EveryRunSound` allows and is not part of the partition's report.
- Configuration: its validation (src/databricks_es_connector/config.py:249-306) is taken as given, except that it does not check `chunk_size`, so the model takes any integer there.
- Preflight checks, mappings, dynamic mapping and synthetic `_source`: not part of this model.
- Streaming with auto-assigned ids or without `id_field`: no claim of exactly once is made for it; `Copies` bounds the copies.
- Sanitized.WriteThenRead: covers decimals without a fraction, string map keys and structs with distinct field names; the text of fractional decimals and of keys of other types is Spark's, and finite floats are real numbers, their printing and parsing taken as inverse.
- RoundTrip.SerializedThenRead: char, varchar, void and types without a rule are outside, as the reader refuses or passes them on. The same holds for `Sanitized.WriteThenRead` and `Rows.RowTrip`.
- Windows: a task that crashes does not keep the later chunks of its partition from beginning, and threads of an attempt that was given up are gone when the next one begins. The first allows more runs than the code, none of which ends well; the second is the assumption on late effects.
- Sanitized: what text Spark makes of a whole cell is a parameter, of which only that it is not empty is used.
- Commit: the chunk size is positive there; `PartitionReport.ReportConserves` says what other sizes do.
- ReadBack: Python's parsing of numeric text, `str` of numbers, rounding of large integers to floats and trimming of strings are parameters; keys of a Python dictionary are equal only if they are the same JSON value, so `1`, `1.0` and `true` are not merged.
- ReadSound.AgreesInhabits: leaves decimals out, whose precision the reader does not check; so does `ReadTyped.ReadsTypedExactly`.
- Nullability flags of types, and case-insensitive or repeated column names, are not modelled.
- TypeScanner: types print in lower case with field names over `[a-z0-9_]`; quoting of other names is not part of this model.
- SliceReader: the server puts each hit in exactly one slice and keeps the snapshot in strictly increasing order; expiry of the point in time is left out.
