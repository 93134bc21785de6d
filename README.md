# Fallback-with-metrics core of a voice assistant, in Dafny

This project models the core of a voice-assistant pipeline that has two parts.

- **Cloud-to-local fallback** (`src/services/fallback.py`). `FallbackSTT` transcribes audio with Groq Whisper. `FallbackLLM` generates or streams text with Groq. Each one falls back to a local backend (faster-whisper, Ollama) when the remote attempt raises an `Exception`. Each result is tagged with the provider that served it.
- **Latency tracking** (`src/utils/metrics.py`). `StageMetrics` keeps an append-only list of latency samples per pipeline stage and derives the count, mean and nearest-rank p50/p95/p99. `LatencyTracker` records samples:
  - through a scoped timer (`measure`);
  - through `start`/`stop`.

  It also summarises the stages and classifies the estimated end-to-end latency (the sum of the stage p50s) as EXCELLENT, GOOD, FAIR or POOR.

The files:

- `wrappers.dfy` (module `Wrappers`): `Option` and `Result`.
- `stats.dfy` (module `Stats`): the statistics over a sample list.
  - The mean.
  - `sorted()`, as an insertion sort that is proved sorted and a permutation. It is proved unique, so the percentiles do not depend on sample order.
  - Nearest-rank percentiles.
  - The values on the samples 0..99.
- `metrics.dfy` (module `Metrics`):
  - the classes `StageMetrics` and `LatencyTracker`, whose methods update their fields in place;
  - the summary;
  - the status and row-style classification.

  A Python dict's insertion order is modelled by the `order` field next to the `stages` map. `SamplesOf(name)` is the sample list of a stage, empty for an unseen one.
- `text.dfy` (module `Text`):
  - Python's `str.isspace`;
  - `strip()`;
  - `" ".join(...)`, which the local transcription path applies to its segments.
- `fallback.dfy` (module `Fallback`):
  - the result records;
  - the selection policy `Select`, shared by `transcribe`, `generate` and `stream`;
  - the classes `FallbackSTT` and `FallbackLLM`, with their lazily built client and model;
  - message construction;
  - result shaping;
  - the chunk filtering of the streams.

How the model represents things the code gets from outside:

- **Backends.** Each provider SDK call is a function parameter that returns the SDK's value or the exception it raises.
- **Exceptions.** A raised exception is a `Failure`, which is one of two kinds:
  - `Error`, a subclass of `Exception`, which the fallback catches;
  - `Interrupt`, a `BaseException` that is not an `Exception` (cancellation, keyboard interrupt), which `except Exception` lets through.
- **Trace.** Every call carries an invocation trace, the strategies it ran in order. This is how the model states "the local strategy was never invoked" and "the local strategy was invoked exactly once".
- **Time.** Times come from the caller: start and stop instants in seconds, and elapsed milliseconds for each backend.
- **Build counts.** A ghost counter on each class counts how often each lazy resource was built. The class invariant `Valid()` says each resource is built at most once, and exactly when it is cached.

Behaviour of the code worth knowing:

- **Stream failures.** The `try` in `stream` wraps the whole remote `async for`. So an `Exception` raised by the remote stream, even after some chunks were yielded, is caught, and the local stream follows those chunks (`StreamKeepsPartialRemote`).
- **Stop error.** `stop` on an unstarted stage raises `ValueError("Stage '<name>' was not started")`.
- **Provider tags.** These are the strings `"groq"`, `"local-whisper"` and `"ollama"`.

## Model

Some definitions carry no contract of their own. Their properties are stated by the members in the table:

- `Text.IsSpace` (Python's `str.isspace`) underlies `Text.TrimStart`, `Text.TrimEnd` and `Text.Strip`.
- `Text.JoinWithSpace` (`" ".join`, src/services/fallback.py:125) is described by `Text.JoinLength`, `Text.JoinConcat`, `Text.JoinEnds` and `Text.JoinOfTrimmedIsTrimmed`.
- `Fallback.Truthy` (the truthiness test of `settings.groq_api_key` and `system`, src/services/fallback.py:84, 174, 193) is used by `Fallback.Select` and `Fallback.Messages`.
- `Fallback.Transcription` and `Fallback.Generation` (what `transcribe` and `generate` return) are described by `Fallback.TranscriptionProvenance` and `Fallback.GenerationProvenance`. They are also the postconditions of `Fallback.FallbackSTT.Transcribe` and `Fallback.FallbackLLM.Generate`.
- `Metrics.StageMetrics.Count` (src/utils/metrics.py:29-31) is described by `Metrics.StageMetrics.Add`, `Metrics.MeasureOnce` and `Metrics.HundredSampleStage`.
- `Metrics.LatencyTracker.SumP50` and `Metrics.LatencyTracker.TotalP50` (`total_p50`, src/utils/metrics.py:133-143) are what `Metrics.LatencyTracker.SummaryStatus` computes, and `Metrics.EmptyTrackerIsExcellent` describes them.
- `Metrics.NotStartedMessage` (src/utils/metrics.py:103) is described by `Metrics.LatencyTracker.Stop` and `Metrics.StopUnstarted`.

| member | source | states |
|---|---|---|
| Stats.Mean | src/utils/metrics.py:33-35 | The mean of no samples is 0. |
| Stats.MeanBetween | src/utils/metrics.py:33-35 | The mean of a non-empty sample list lies between any lower and upper bound of its samples. |
| Stats.SumBounds | src/utils/metrics.py:35 | n samples within [lo, hi] sum to between n*lo and n*hi. |
| Stats.Insert | src/utils/metrics.py:41 | Inserting into a sorted list gives a sorted list one longer. It holds the old multiset plus the new sample and starts with the smaller of the sample and the old head. |
| Stats.Sort | src/utils/metrics.py:41 | `sorted()` returns a sorted permutation of the samples, of the same length. |
| Stats.SortedUnique | src/utils/metrics.py:41 | Two sorted lists with the same multiset of samples are equal, so the sorted copy is unique. |
| Stats.SortOfSorted | src/utils/metrics.py:41 | Sorting an already sorted list returns it unchanged. |
| Stats.RankBelow | src/utils/metrics.py:42 | For a percentage below 100, the index `int(n*p)` is inside a non-empty list. |
| Stats.RankMonotone | src/utils/metrics.py:42-56 | A larger percentage never gives a smaller index. |
| Stats.NearestRank | src/utils/metrics.py:41-42 | The sample at a rank of the sorted copy is one of the samples. |
| Stats.NearestRankMonotone | src/utils/metrics.py:41-42 | A higher rank never selects a smaller sample. |
| Stats.P50 | src/utils/metrics.py:37-42 | p50 is 0 without samples; otherwise it is one of the samples. |
| Stats.P95 | src/utils/metrics.py:44-49 | p95 is 0 without samples; otherwise it is one of the samples. |
| Stats.P99Index | src/utils/metrics.py:56 | The clamped p99 index is inside the list. |
| Stats.P99 | src/utils/metrics.py:51-56 | p99 is 0 without samples; otherwise it is one of the samples. |
| Stats.P99ClampInactive | src/utils/metrics.py:56 | For n >= 1 samples and exact integer ranks, the clamp to n-1 never changes the p99 index. |
| Stats.PercentilesOrdered | src/utils/metrics.py:37-56 | p50 <= p95 <= p99 for every sample list. |
| Stats.PercentilesWithinSamples | src/utils/metrics.py:37-56 | Every percentile of a non-empty sample list lies within any bounds of its samples. |
| Stats.PercentilesIgnoreOrder | src/utils/metrics.py:41-56 | Two sample lists with the same multiset have the same p50, p95 and p99. |
| Stats.SumRange | tests/test_services.py:146-151 | The samples 0..n-1 sum to n(n-1)/2. |
| Stats.RangePercentiles | tests/test_services.py:141-150 | For n >= 1, on the samples 0..n-1, p50 and p95 are their own ranks and p99 is its clamped index. |
| Stats.RangeMean | tests/test_services.py:141-151 | For n >= 1, the mean of the samples 0..n-1 is (n-1)/2. |
| Stats.HundredSamples | tests/test_services.py:141-151 | For the samples 0..99, p50 = 50, p95 = 95, p99 = 99 and the mean is 49.5. |
| Metrics.StageMetrics.constructor | src/utils/metrics.py:19-23 | A new stage has its name and no samples. |
| Metrics.StageMetrics.Add | src/utils/metrics.py:25-31 | The sample is appended at the end, and the count grows by one. |
| Metrics.StageMetrics.Mean | src/utils/metrics.py:33-35 | The `mean` property is 0 without samples. |
| Metrics.StageMetrics.P50 | src/utils/metrics.py:37-42 | The `p50` property is 0 without samples; otherwise it is one of them, and it is never above p95. |
| Metrics.StageMetrics.P95 | src/utils/metrics.py:44-49 | The `p95` property is 0 without samples; otherwise it is one of them, and it is never above p99. |
| Metrics.StageMetrics.P99 | src/utils/metrics.py:51-56 | The `p99` property is 0 without samples; otherwise it is one of them. |
| Metrics.Summarize | src/utils/metrics.py:109-120 | A summary entry has the stage's sample count. It is all zeros without samples; otherwise its percentiles are samples, with p50 <= p95 <= p99. |
| Metrics.LatencyTracker.Summary | src/utils/metrics.py:109-120 | One entry per recorded stage and no other. Each entry is that stage's count, mean and percentiles. |
| Metrics.Classify | src/utils/metrics.py:158-166 | EXCELLENT iff < 300 ms, GOOD iff in [300, 500), FAIR iff in [500, 800), POOR iff >= 800 ms. |
| Metrics.TotalStyle | src/utils/metrics.py:153 | The total row is bold green iff < 500 ms and bold red iff >= 800 ms. |
| Metrics.ClassifyMonotone | src/utils/metrics.py:158-166 | A larger total never gets a better verdict. |
| Metrics.StyleAgreesWithStatus | src/utils/metrics.py:153-166 | The row is green for EXCELLENT and GOOD, yellow for FAIR and red for POOR, in both directions. |
| Metrics.LatencyTracker.constructor | src/utils/metrics.py:75-77 | A new tracker has no stages and no pending starts. |
| Metrics.LatencyTracker.Record | src/utils/metrics.py:89-94 | `_record` appends the sample to the named stage. An existing stage keeps its `StageMetrics` object and the table order is unchanged. An unseen stage gets a fresh object and its name is appended to the order. Every other stage keeps its object and samples, the pending starts are unchanged, and the invariant is kept. |
| Metrics.LatencyTracker.Measure | src/utils/metrics.py:79-87 | The scoped timer records (end - start) * 1000 ms for the stage, whether the block completed or raised, and passes the block's exit on. The stage's object, the other stages, the order and the pending starts change exactly as for `_record`. |
| Metrics.LatencyTracker.Start | src/utils/metrics.py:96-98 | The pending start of the stage is set, replacing any earlier one. The stages are unchanged. |
| Metrics.LatencyTracker.Stop | src/utils/metrics.py:100-107 | It fails iff the stage has no pending start. The failure is the ValueError naming the stage, and nothing changes. Otherwise it returns (now - start) * 1000 and removes the pending start. It records that value for the stage with `_record`'s effect on the stage objects, the other stages and the order. |
| Metrics.LatencyTracker.SummaryStatus | src/utils/metrics.py:122-166 | The total is the sum of every stage's p50 in table order. The row style and status are the classifications of that total. |
| Metrics.LatencyTracker.Reset | src/utils/metrics.py:168-171 | Every stage and every pending start is forgotten. |
| Metrics.EmptyTrackerIsExcellent | src/utils/metrics.py:133-166 | A tracker with no stages has total 0 and verdict EXCELLENT. |
| Metrics.MeasureOnce | tests/test_services.py:129-139 | Measuring one block on a new tracker leaves the stage "test_stage" with count 1. |
| Metrics.HundredSampleStage | tests/test_services.py:141-151 | Adding 0..99 to a stage gives count 100, p50 = 50, p95 = 95 and mean = 49.5. |
| Metrics.StopUnstarted | src/utils/metrics.py:100-103 | `stop("unstarted")` on a new tracker fails with "Stage 'unstarted' was not started". |
| Text.TrimStart | src/services/fallback.py:131 | The result is a suffix of the input, only whitespace was dropped, and it does not start with whitespace. |
| Text.TrimEnd | src/services/fallback.py:131 | The result is a prefix of the input, only whitespace was dropped, and it does not end with whitespace. |
| Text.Strip | src/services/fallback.py:131 | `strip()` returns a string no longer than its input with no whitespace at either end. |
| Text.TrimStartPast | src/services/fallback.py:131 | Leading whitespace in front of a non-space character is exactly what is dropped. |
| Text.TrimEndPast | src/services/fallback.py:131 | Trailing whitespace after a non-space character is exactly what is dropped. |
| Text.StripExact | src/services/fallback.py:131 | Strip removes exactly the surrounding whitespace: whitespace, then a trimmed core, then whitespace strips to the core. |
| Text.StripIdempotent | src/services/fallback.py:131 | Stripping twice is stripping once. |
| Text.JoinLength | src/services/fallback.py:125 | Joining a non-empty list of parts gives the total length of the parts plus one separator between each pair of neighbours. |
| Text.JoinConcat | src/services/fallback.py:125 | Joining two non-empty runs of parts is joining each and putting one space between them. |
| Text.JoinEnds | src/services/fallback.py:125 | Joined non-empty parts start with the first part's first character and end with the last part's last character. |
| Text.JoinOfTrimmedIsTrimmed | src/services/fallback.py:125-131 | Non-empty, already trimmed segments survive the join and strip unchanged. |
| Text.StripJoinOfTrimmed | src/services/fallback.py:125-131 | For any segment list: if every segment is non-empty and trimmed, the stripped join is the plain join. |
| Fallback.Select | src/services/fallback.py:84-90 | The remote strategy runs iff not forced local and a key is set. The local strategy runs iff forced local, no key, or the remote raised an `Exception`. The trace is [remote], [local] or [remote, local], and the outcome is the last strategy's. |
| Fallback.RemoteSuccessIsFinal | src/services/fallback.py:84-86 | A successful remote attempt is returned as it is, and the local strategy is never invoked. |
| Fallback.RemoteErrorFallsBack | src/services/fallback.py:84-90 | Any `Exception` from the remote attempt invokes the local strategy exactly once, and its outcome, failure included, is returned. |
| Fallback.SkipRemote | src/services/fallback.py:84-90 | Forced local or no key: the remote strategy is never invoked. |
| Fallback.GroqTranscription | src/services/fallback.py:106-110 | A result exactly when the SDK returned text: that text, the given latency, tag "groq" and no confidence. Otherwise the SDK's failure. |
| Fallback.LocalTranscription | src/services/fallback.py:125-134 | A result exactly when the model returned segments. It is tagged "local-whisper" with the given latency and no confidence, and its text has no surrounding whitespace. When every segment is non-empty and trimmed, the text is their plain space-join. Otherwise it is the model's failure. |
| Fallback.TranscriptionProvenance | src/services/fallback.py:92-134 | The provider tag is "groq" iff remote served and "local-whisper" iff local served. The text is the SDK's text, or the stripped join of the segments. The latency is the serving strategy's own, and there is no confidence. A failure is the local one, or a remote one that is not an `Exception`. |
| Fallback.FallbackSTT.constructor | src/services/fallback.py:46-48 | A new instance holds neither a client nor a model. |
| Fallback.FallbackSTT.GetGroqClient | src/services/fallback.py:50-55 | It returns the cached client, or builds one from the key and caches it. The build count stays at most one and the model is untouched. |
| Fallback.FallbackSTT.GetLocalModel | src/services/fallback.py:57-67 | It returns the base.en/cpu/int8 model, loading it only on first use. The client is untouched. |
| Fallback.FallbackSTT.TranscribeGroq | src/services/fallback.py:92-110 | The result is the SDK's text tagged "groq", or the SDK's failure. The client is now cached. |
| Fallback.FallbackSTT.TranscribeLocal | src/services/fallback.py:112-134 | The result is the stripped space-join of the segments tagged "local-whisper", or the model's failure. The model is now cached. |
| Fallback.FallbackSTT.Transcribe | src/services/fallback.py:69-90 | It returns what the selection policy gives for the two backends, and it has built exactly the resources of the strategies it invoked. `useLocal` defaults to false. |
| Fallback.Messages | src/services/fallback.py:192-195 | A system message comes first exactly when a non-empty system prompt is given. The user prompt is always the last message. |
| Fallback.BuildMessages | src/services/fallback.py:223-226 | The appends build exactly that message list. |
| Fallback.GroqGeneration | src/services/fallback.py:207-212 | A result exactly when the SDK returned at least one choice: the first choice's content, the given latency, tag "groq" and the reported token total. An empty choice list is a caught `Exception` (`IndexError`). An SDK failure is passed on. |
| Fallback.OllamaGeneration | src/services/fallback.py:237-241 | A result exactly when the SDK returned content: that content, the given latency, tag "ollama" and no token count. Otherwise the SDK's failure. |
| Fallback.GenerationProvenance | src/services/fallback.py:182-241 | The provider tag is "groq" iff remote served and "ollama" iff local served. A remote result is the first choice with the reported usage; a local one carries no token count. The latency is the serving strategy's own. A failure is the local one, or a remote one that is not an `Exception`. |
| Fallback.FallbackLLM.constructor | src/services/fallback.py:145-146 | A new instance holds no client. |
| Fallback.FallbackLLM.GetGroqClient | src/services/fallback.py:148-153 | It returns the cached client, or builds one from the key and caches it. |
| Fallback.FallbackLLM.GenerateGroq | src/services/fallback.py:182-212 | It sends the built messages and budget to the cached-or-new client and shapes the first choice. An empty choice list raises an `Exception`. |
| Fallback.FallbackLLM.GenerateOllama | src/services/fallback.py:214-241 | It sends the built messages and budget to the local backend and tags the reply "ollama". |
| Fallback.FallbackLLM.Generate | src/services/fallback.py:155-180 | It returns what the selection policy gives. The client is built only when the remote strategy is attempted. `system`, `useLocal` and `maxTokens` default to none, false and 150. |
| Fallback.NonEmptyChunks | src/services/fallback.py:285-287 | The chunks passed on are non-empty contents of the stream, at most as many as it delivered, and every non-empty content is among them. |
| Fallback.NonEmptyChunksAppend | src/services/fallback.py:300-306 | Filtering a stream piece by piece is filtering it whole. |
| Fallback.RelayNonEmpty | src/services/fallback.py:285-287 | The filtering loop yields exactly the non-empty contents, in order. |
| Fallback.StreamOutput | src/services/fallback.py:243-264 | Selection is as for `generate`, with the remote stream's ending as the remote outcome. The output is the filtered chunks of every invoked strategy in order, and it ends as the last invoked stream ended. |
| Fallback.FallbackLLM.Stream | src/services/fallback.py:243-306 | It yields the chunks and ending that `StreamOutput` gives for the built messages. The client is built only when the remote strategy is attempted. `system` and `useLocal` default to none and false. |
| Fallback.StreamCompletesRemotely | src/services/fallback.py:255-259 | A remote stream that completes is the whole output, and nothing local follows. |
| Fallback.StreamKeepsPartialRemote | src/services/fallback.py:255-264 | A remote stream that raises an `Exception` keeps what it yielded, followed by every local chunk and the local ending. |

## Left out

- The clock (`time.perf_counter`): start, stop and elapsed times are parameters. So `latency_ms > 0` cannot be stated.
- Logging (`logger.debug`, `logger.info`, `logger.warning`) and the rich table and console rendering of `print_summary`. Only the total, its row style and its status verdict are modelled.
- The temporary WAV file of `_transcribe_local`: the audio is passed straight to the model backend.
- The provider SDK calls: they are function parameters, so their arguments are not modelled. These are the model names from settings, `response_format="text"`, `beam_size=5`, `temperature=0.7` and `stream=True`. The token budget is passed to both backends.
- Failures of the Groq client constructor and the Whisper model loader: building a client or a model always succeeds in the model.
- `message.content` being `None` in a Groq completion: the model treats the first choice's content as a string.
- Async suspension and generator laziness. A stream is modelled as the whole chunk sequence its backend delivers plus how it ended. A consumer that stops early, and `GeneratorExit`, are not modelled.
- Concurrency: concurrent first use of the lazy getters, and concurrent recording into a tracker.
- Floating point: latencies are reals (no NaN, no rounding), and `statistics.mean` is exact division.
- Stats.Rank: the index `int(n * 0.50)` (0.95, 0.99) is idealised as the exact `n * 50 / 100` (95, 99). Float rounding of the product is not modelled, so the p99 clamp never fires in the model.
- Metrics.LatencyTracker.Reset: `dict.clear()` empties the existing dicts in place. The model assigns fresh empty maps, so aliases to the old dicts held elsewhere are not modelled.
- The global `tracker` instance of `src/utils/metrics.py` and the `settings` object are not modelled. The Groq key is a parameter.
- `config/settings.py`, `src/agents/inquiry_agent.py`, `src/services/__init__.py` and the tests other than the two latency tests are not part of this model.
