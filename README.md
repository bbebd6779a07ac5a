# smart-sentiment: a verified model of the negative-buzz pipeline

This project models the decision core of smart-sentiment, a service that
classifies social-media items (posts, comments, news) about a topic. A
sentiment model labels each item. Negative items are then graded into
severity tiers (log levels 0 to 3), where a language model decides whether
a post targets the topic and names crisis keywords. The model covers:

- **Severity tiers**, in two variants: the Redis worker's `sentiment.py`
  with upper-case type tags (module `SentimentApp`), and the
  negative-buzz analyzer's `core.py` with camel-case tags, a
  `should_call_llm` flag and oracle errors caught (module `BuzzCore`).
- **The analyzer's result cache** (module `FilterCacheModel`): a class with
  the two dictionaries `cache` and `access_times`, a strict TTL expiry rule,
  sweep-then-evict insertion and LRU eviction. It also covers the
  single-item and batch services that consult it.
- **Post-processing of the language model's reply** (modules `OracleText`,
  `FireworksClient`, `GeminiClient`): slicing out the JSON object, filling
  defaults, coercing types, and the failure fallback.
- **The Redis job broker** (module `JobBroker`): the request and result
  lists, `enqueue_request`, the polling `wait_for_result`, the socket server's
  `predict` (reading the item list, then the per-item loop), and one iteration of the worker loop,
  including `predict_sentiment`.
- **The LitServe front end** (modules `WordCloud`, `LitSocketServer`): word
  cloud aggregation with a stable descending sort in place on an array,
  `call_inference`'s label fallback, the result shape of `process_item`, and
  `handle_predict`.

Python values are the datatype `PyJson.Json`, and dictionaries are
`map<string, Json>`. Exceptions are the `Failure` case of `Result`, carrying
`str(e)`. Everything outside the code (the sentiment model, both language
models, HTTP, Redis traffic from other processes, the tokenizer, uuid4, the
clock) is a parameter of the operation that uses it:
`infer`, `oracle`/`checkTopic`, `response`/`parse`, `arrivals`, `tokenize`,
`jobIds`, `now`. Methods are proved against pure specification functions;
the properties are lemmas about those functions.

The worker's decision logic takes a `SentimentApp.Reading`. With `AsWritten`
it is the code as it stands: `analyze_sentiment` reads `siteId`/`siteName`,
and a `None` interaction count makes `>= 100` raise. With `Corrected` the
two defects under "## Findings" are put right. The members that model the
running program (`SentimentApp.FilterNegativeContent`,
`JobBroker.Broker.WorkerStep`) use `AsWritten`; lemmas that hold for both
readings take the reading as a parameter.

## Model

| member | source | states |
|---|---|---|
| BuzzCore.TypeListsDisjoint | negative_buzz_analyzer/app/core.py:4-14 | no type tag is in both the comment list and the post list, so at most one branch applies |
| BuzzCore.PostVerdict | negative_buzz_analyzer/app/core.py:54-78 | an analysed post copies the analysis' flags, keywords and reason (defaults false, false, [], "Không rõ lý do."); tier 3 iff targeting, keywords truthy and high impact, else tier 2; fails exactly when the `>= 100` comparison is reached and raises; other keys untouched |
| BuzzCore.CommentTier | negative_buzz_analyzer/app/core.py:33-40 | a comment gets tier 1 with the fixed comment reason, `should_call_llm` false and the reset flags/keywords, whatever the oracle would say; other keys of the caller's result kept |
| BuzzCore.UnknownTypeTier | negative_buzz_analyzer/app/core.py:24-31 | a type in neither list returns the reset defaults (tier 2, no LLM flag) and leaves any existing reason untouched |
| BuzzCore.PostOracleFailure | negative_buzz_analyzer/app/core.py:43-52 | a post whose oracle raises gets tier 2, reason "Lỗi khi gọi LLM: " + message, `should_call_llm` true, topic flags false |
| BuzzCore.Filter | negative_buzz_analyzer/app/core.py:16-81 | specification function of `filter_negative_content`; `CommentTier`, `UnknownTypeTier`, `PostOracleFailure`, `PostTier` and `TiersByType` state its behaviour |
| BuzzCore.PostTier | negative_buzz_analyzer/app/core.py:43-78 | for an analysed post: tier 3 exactly when targeting, non-empty keywords and ("news" in the lower-cased type or KOL or at least 100 interactions), else tier 2; the failure case is exactly a non-numeric count reached by the comparison |
| BuzzCore.TiersByType | negative_buzz_analyzer/app/core.py:33-81 | for all inputs: the tier is 1, 2 or 3; tier 1 iff the type is a comment; `should_call_llm` is true iff the type is a post |
| BuzzCore.FilterNegativeContent | negative_buzz_analyzer/app/core.py:16-81 | the step-by-step updates produce the `Filter` result, and the oracle is called exactly once for a post and never otherwise |
| FilterCacheModel.CacheKeyIgnores | negative_buzz_analyzer/server.py:89-100 | changing any field other than title, content, description, topic_name, site_name and type leaves the cache key unchanged |
| FilterCacheModel.Swept | negative_buzz_analyzer/server.py:106-115 | the sweep keeps exactly the entries with `now - t <= ttl`, with their values and times, and both maps keep the same keys |
| FilterCacheModel.Lookup | negative_buzz_analyzer/server.py:124-134 | a hit happens iff the key is cached and `now - t <= ttl`; a hit returns the stored value and only refreshes that key's time; an expired entry is removed from both maps; a missing key changes nothing |
| FilterCacheModel.ExpiryBoundary | negative_buzz_analyzer/server.py:102-104 | an entry accessed exactly `ttl` seconds ago is still a hit; one second later it misses and is removed |
| FilterCacheModel.SetBounded | negative_buzz_analyzer/server.py:136-142 | with `max_size >= 1` and the cache within bound, `set` cannot fail, keeps the maps in step and the size `<= max_size`, and stores the result with time `now`; evicting while the key is already cached shrinks the cache |
| FilterCacheModel.SetFailsOnlyWithoutRoom | negative_buzz_analyzer/server.py:117-122 | the LRU step raises (`min` of an empty sequence) exactly when `max_size <= 0` and the swept cache is empty |
| FilterCacheModel.FilterCache.constructor | negative_buzz_analyzer/server.py:76-87 | both maps start empty, with the given size bound and TTL |
| FilterCacheModel.FilterCache.CleanupExpired | negative_buzz_analyzer/server.py:106-115 | the pop loop leaves the state `Swept` describes, with both maps in step |
| FilterCacheModel.FilterCache.EvictLru | negative_buzz_analyzer/server.py:117-122 | below the bound nothing changes; when full it removes one entry of least access time from both maps, or reports the `min` error when there is none |
| FilterCacheModel.FilterCache.Get | negative_buzz_analyzer/server.py:124-134 | the method's new state and answer are those of `Lookup` |
| FilterCacheModel.FilterCache.Set | negative_buzz_analyzer/server.py:136-142 | sweep, then evict an LRU victim exactly when full, then insert; when eviction raises, only the sweep has happened |
| FilterCacheModel.FilterCache.Clear | negative_buzz_analyzer/server.py:144-147 | both maps are empty afterwards |
| FilterCacheModel.FilterCache.GetStats | negative_buzz_analyzer/server.py:149-156 | reports the current size, the bound and the TTL (so 0 after `clear`) |
| FilterCacheModel.ServiceResult | negative_buzz_analyzer/server.py:173-207 | specification function of the single-item service's answer; `ServiceCachesOnlySuccess` states its behaviour |
| FilterCacheModel.ServiceCachesOnlySuccess | negative_buzz_analyzer/server.py:193-207 | a hit returns the cached value; a failing filter yields tier 2 with "Error processing item: " + message and leaves the cache as the lookup left it; a successful filter stores exactly the returned dictionary with time `now` |
| FilterCacheModel.ServiceBounded | negative_buzz_analyzer/server.py:173-207 | with `max_size >= 1`, a service call never takes the cache past its bound and keeps the two maps in step |
| FilterCacheModel.FilterService | negative_buzz_analyzer/server.py:163-207 | the method returns `ServiceResult` and moves the cache as `ServiceStep` says, for the filter's outcome on this input |
| FilterCacheModel.ToDataInput | negative_buzz_analyzer/server.py:220 | `dict(exclude_none=True)`: `id`, `is_kol` and `total_interactions` are present exactly when they are not null after validation (a left-out `is_kol` defaults to false and is present) |
| FilterCacheModel.BatchFilterService | negative_buzz_analyzer/server.py:209-245 | one result per item, in input order; each is the service's answer for that item from the cache state the earlier items left |
| FireworksClient.FilledFields | negative_buzz_analyzer/app/llm.py:91-100 | after the default loop the four keys are present with the reply's value or the default, and every key of the reply keeps its value |
| FireworksClient.CoerceFields | negative_buzz_analyzer/app/llm.py:102-106 | the coercions set `bool` on the flags, `str` on the reason and `[]` for non-list keywords, and touch no other key |
| FireworksClient.NormalizeFields | negative_buzz_analyzer/app/llm.py:91-106 | the reply keeps its keys plus the four; supplied keys are coerced, missing ones take the defaults, a non-list keyword value becomes `[]` rather than wrapped, extra keys pass through; the result is well formed |
| FireworksClient.NormalizeIdempotent | negative_buzz_analyzer/app/llm.py:98-106 | normalising an already normalised reply changes nothing |
| FireworksClient.TopicCheck | negative_buzz_analyzer/app/llm.py:76-116 | specification function of `check_targeting_topic`; `TopicCheckOutcome` states its behaviour |
| FireworksClient.TopicCheckOutcome | negative_buzz_analyzer/app/llm.py:76-116 | a transport, structure or parse failure gives the fallback with "Lỗi xử lý từ Fireworks: " + that message; otherwise the parsed reply normalised; always well formed |
| FireworksClient.CheckTargetingTopic | negative_buzz_analyzer/app/llm.py:84-116 | the in-place loop and coercions compute `TopicCheck`, and the result has bool flags, a str reason and a list of keywords |
| GeminiClient.NormalizeFields | app/utils.py:117-130 | only the three keys are defaulted; `crisis_keywords` is neither defaulted nor type-checked; flags become bool and the reason str; extra keys pass through |
| GeminiClient.TopicCheck | app/utils.py:87-139 | specification function of `check_targeting_topic`; `TopicCheckOutcome` states its behaviour |
| GeminiClient.TopicCheckOutcome | app/utils.py:87-139 | any failing step gives the fallback with "Lỗi xử lý đầu ra từ Gemini: " + message and no `crisis_keywords` key; otherwise the parsed reply normalised |
| GeminiClient.CheckTargetingTopic | app/utils.py:108-139 | the in-place loop and coercions compute `TopicCheck`, and the flags are bool and the reason str |
| OracleText.JsonSliceBraces | negative_buzz_analyzer/app/llm.py:86-88 | the slice runs from the first `{` to the last `}` inclusive; it is empty when they are out of order; with no `{`, index -1 yields "}" for a reply ending in `}` |
| OracleText.FillDefaultsKeeps | negative_buzz_analyzer/app/llm.py:98-100 | with distinct default keys, the filled dict has the old keys plus the default keys; present keys keep their values and only missing keys take defaults |
| OracleText.FillMissing | app/utils.py:124-126 | the default-filling loop computes `FillDefaults` |
| SentimentApp.TypeListsDisjoint | app/sentiment.py:45-55 | no upper-case type tag is both a comment and a post |
| SentimentApp.ModelTextShape | app/sentiment.py:8 | the model text is type + " " + content + " " + description; it exists iff the three are str; a missing `type` is a KeyError |
| SentimentApp.ModelTextIgnoresTitle | app/sentiment.py:8 | the title never affects the model text |
| SentimentApp.BaseResult | app/sentiment.py:19-37 | all seventeen keys present; tier 0 with "Không phải nội dung tiêu cực.", topic flags false, keywords empty, the label as sentiment; the site fields are read from `siteId`/`siteName` as written and from `site_id`/`site_name` corrected |
| SentimentApp.AnalyzeSentiment | app/sentiment.py:3-37 | specification function: the model text, its label and the base result of the given reading; its properties are `ModelTextShape`, `LabelOf` and `BaseResult` |
| SentimentApp.LabelOf | app/sentiment.py:16 | the sentiment is None exactly when the top label is empty, and the label otherwise |
| SentimentApp.InteractionsHigh | app/sentiment.py:87 | a `None` count reads as not high; any other count compares as written |
| SentimentApp.NoneInteractionsRaise | app/sentiment.py:87 | as written, `None >= 100` raises the TypeError; corrected, it is false |
| SentimentApp.Filter | app/sentiment.py:41-106 | specification function of `filter_negative_content` for either reading; `CommentTier`, `UnknownTypeTier`, `PostTier` and `FilterKeeps` state its behaviour |
| SentimentApp.CommentTier | app/sentiment.py:63-68 | a comment gets tier 1 with the fixed reason, other keys kept, and the same result whatever the topic check would answer |
| SentimentApp.UnknownTypeTier | app/sentiment.py:101-106 | a type in neither list gets tier 2 with reason None, with no topic-check dependence |
| SentimentApp.PostTier | app/sentiment.py:71-99 | a post copies flags and keywords (`[]` default) and the reason (`[]` default); tier 3 exactly when targeting, `len(keywords) > 0` and ("NEWS" in the type or KOL or at least 100 interactions), else tier 2; fails exactly when `len` raises or the count comparison of the reading raises, which as written includes a `None` count |
| SentimentApp.NoneCountRaises | app/sentiment.py:86-87 | as written, a targeting post with keywords, not news, not from a KOL and with a `None` count raises the TypeError |
| SentimentApp.NoneCountTierTwo | app/sentiment.py:86-98 | corrected, the same post is tier 2 |
| SentimentApp.NoneCountVerdict | app/sentiment.py:86-98 | the post branch alone on a `None` count: the TypeError as written, tier 2 corrected |
| SentimentApp.FilterKeeps | app/sentiment.py:41-106 | the filter changes only log_level, reason and the three topic fields; every other key keeps its value |
| SentimentApp.SentimentFiltering | app/sentiment.py:108-117 | specification function of `sentiment_filtering` for either reading; `TopicCheckOnlyForNegativePosts` and `AsWrittenBlanksSite` state its behaviour |
| SentimentApp.AsWrittenBlanksSite | app/sentiment.py:25-26 | as written, an input with `site_id`/`site_name` but no `siteId`/`siteName` that is not negative comes back with both site fields "" |
| SentimentApp.TopicCheckOnlyForNegativePosts | app/sentiment.py:108-117 | a non-negative item keeps the tier-0 base result; only a negative post's outcome depends on the topic check |
| SentimentApp.FilterNegativeContent | app/sentiment.py:41-106 | the step-by-step updates produce the `Filter` result as written (a `None` count raises), and the topic check runs exactly once for a post and never otherwise |
| JobBroker.ScanFrom | app/server.py:40-45 | a match is the first entry with that job id, with its result; entries before it decode to other jobs; no match means no entry has the id; a failure points at an entry that cannot be read or lacks `result` |
| JobBroker.Wait | app/server.py:38-47 | specification function of `wait_for_result`: the outcome and the result list after each poll; `WaitFacts` states its behaviour |
| JobBroker.WaitFacts | app/server.py:38-47 | the wait returns the result of the first matching entry of the list its last scan saw and removes exactly that entry, others in order; a timeout removes nothing and no entry matches; entries are only appended |
| JobBroker.DataInputOf | app/server.py:65-77 | specification function of `data_input`, which renames `siteId`/`siteName` to `site_id`/`site_name`; `DataInputText` and `ItemSiteFields` state its behaviour |
| JobBroker.MetaOf | app/server.py:86-96 | specification function of the `meta` dict, which keeps the item's own key names; `ItemSiteFields` states its behaviour |
| JobBroker.EmptyTextReply | app/server.py:80-83 | specification function of the "Empty text" reply; `PredictOnePerItem` states its place among the replies |
| JobBroker.Overwrite | app/server.py:99-102 | specification function of `result.update(...)`, which raises on a result that is not a dict; `OverwriteFits` and `PredictOnePerItem` state its behaviour |
| JobBroker.OverwriteFits | app/server.py:99-102 | an updated result carries the item's `id` and `topic_name` |
| JobBroker.EventItems | app/server.py:60-63 | specification function of `data.get("data", [])` and the iteration over it; `PredictEventItems` states its behaviour |
| JobBroker.PredictFrom | app/server.py:63-103 | specification function of the per-item loop, which stops at the first exception (a non-dict item, a failed wait, a non-dict result); `PredictShape`, `PredictOnePerItem` and `PredictStopsAtNonDict` state its behaviour |
| JobBroker.PredictEvent | app/server.py:58-103 | specification function of the whole `predict` event; `PredictEventItems` states its behaviour |
| JobBroker.PredictEventItems | app/server.py:59-63 | a non-dict event raises `.get`'s `AttributeError`; no `data` key, `""` or `{}` gives no replies; a list is looped over; a non-empty str or dict raises on its first element's `.get`; `None`, a bool or an int is not iterable; in every failing case nothing is enqueued |
| JobBroker.PredictStopsAtNonDict | app/server.py:63-66 | the first item that is not a dict ends `predict` with `.get`'s `AttributeError`, after the earlier items were handled exactly as a `predict` over them alone (their payloads enqueued, their results consumed), unless one of them already raised |
| JobBroker.DataInputText | app/server.py:72-74 | the emptiness test reads the item's own title, content and description |
| JobBroker.PredictShape | app/server.py:63-103 | from any item on, a completed loop adds one fitting reply per item and exactly the payloads of items with text; earlier replies and payloads stay |
| JobBroker.PredictOnePerItem | app/server.py:63-103 | a completed `predict` had only dict items and has one reply per item in input order: "Empty text" for an item without text, otherwise a dict with the item's `id` and `topic_name`; it enqueued exactly one payload per item with text |
| JobBroker.JoinTruthy | app/worker.py:36-40 | the join succeeds iff every truthy value is a str |
| JobBroker.JoinTruthyStrings | app/worker.py:36-40 | on strings, joining the truthy values is joining the non-empty ones |
| JobBroker.FullTextOfStrings | app/worker.py:36-40 | with string fields, the word-cloud text is the non-empty ones of title, content, description joined by single spaces |
| JobBroker.PredictSentiment | app/worker.py:27-49 | for the given reading of the filter: a non-dict input gives `{"error": "⚠️ Invalid input data"}` and no cloud; an exception in filtering or joining gives `{"error": msg}` and no cloud; otherwise the filtered result and the cloud of the joined text |
| JobBroker.BuildResult | app/worker.py:70-82 | the result has the meta keys (site keys renamed), every prediction key, and `word_cloud`; prediction keys win over meta keys |
| JobBroker.ProcessTask | app/worker.py:58-98 | specification function of one popped request: the pushed entry or the exception; `ProcessTaskOutcome` and `ProcessPayload` state its behaviour |
| JobBroker.ProcessTaskOutcome | app/worker.py:58-98 | a popped request is answered exactly when it decodes to a dict whose `meta` is a dict; the answer carries the request's `job_id` and a dict result |
| JobBroker.ProcessPayload | app/worker.py:61-98 | the answer to an enqueued payload carries its job id and the result built from its meta and its prediction |
| JobBroker.EnqueuedJobAnswered | app/worker.py:95-98 | the worker's answer to an enqueued job carries its id, and once pushed behind entries for other jobs the waiter's scan finds exactly that answer |
| JobBroker.ItemSiteFields | app/server.py:70-71 | the data input and the meta-derived fields both carry the item's `siteId`/`siteName` |
| JobBroker.SentimentSiteFields | app/sentiment.py:19-37 | `sentiment_filtering` reports the site fields under the keys its reading reads: `siteId`/`siteName` as written, `site_id`/`site_name` corrected |
| JobBroker.PredictionSiteFields | app/worker.py:27-49 | a prediction either has no site fields (an error) or the ones its reading reads from the input |
| JobBroker.SiteFieldsKeptBy | app/worker.py:70-82 | any predictor that echoes the site fields it was given yields pushed results carrying the item's `siteId` and `siteName` |
| JobBroker.SiteFieldsKept | app/worker.py:77-80 | with the corrected analysis, every pushed result carries the item's `siteId` and `siteName` |
| JobBroker.SiteFieldsBlankedAsWritten | app/worker.py:80 | as written, an item from site "s1" comes back from the worker with `site_id` and `site_name` "" |
| JobBroker.NoneCountErrorAsWritten | app/worker.py:27-49 | for a negative `FBPAGE_TOPIC` item without `total_interactions` whose topic check says targeting with a keyword, `predict_sentiment` as written returns `{"error": <the TypeError's message>}` and no cloud |
| JobBroker.NoneCountTierTwoCorrected | app/worker.py:27-49 | corrected, the prediction for that item is tier 2 |
| JobBroker.NoneCountPushedAsWritten | app/worker.py:58-98 | for that item the worker, as written, pushes the result built from the error prediction |
| JobBroker.ErrorResult | app/worker.py:70-82 | a result built from an error prediction carries the error and no `log_level` |
| JobBroker.Broker.EnqueueRequest | app/server.py:27-35 | exactly one payload `{job_id, data_input, meta}` is appended to the request list, its job id returned, and the result list is unchanged |
| JobBroker.Broker.WaitForResult | app/server.py:38-47 | the scan-and-remove loops compute `Wait`: the returned value and the result list left are those of the specification |
| JobBroker.Broker.Predict | app/server.py:58-103 | reading the item list and the per-item loop compute `PredictEvent`: its replies or exception, the payloads appended to the request list, and the result list left |
| JobBroker.Broker.Scan | app/server.py:40-45 | one pass over the result list computes `ScanFrom` from the head: the first entry for the job with its position and result, none, or the exception of an unreadable entry |
| JobBroker.Broker.AnswerItem | app/server.py:86-102 | for an item with text, exactly its payload is appended to the request list, the result list is left as `Wait` leaves it, and the reply is the waited result stamped with the item's `id` and `topic_name`, or the exception of the wait or of `update` |
| JobBroker.Broker.WorkerStep | app/worker.py:52-101 | pops the head of the request list (nothing when empty); pushes exactly the answer `ProcessTask` gives with `predict_sentiment` as written on the tail of the result list, or nothing when it raises |
| WordCloud.CloudJson | litserve/socket_server.py:55 | one `{"word", "frequency"}` dict per entry, in order |
| WordCloud.Tally | litserve/word_cloud.py:22-23 | each word is paired with its number of occurrences |
| WordCloud.SortDescPermutes | litserve/word_cloud.py:32 | the sort is a permutation of its input |
| WordCloud.SortDescKeySorted | litserve/word_cloud.py:32 | the sort gives non-increasing frequencies, and equal frequencies keep input order (stable with `reverse=True`) |
| WordCloud.MeaningfulMembers | litserve/word_cloud.py:13 | the kept words are exactly the input words containing `_` |
| WordCloud.DistinctMembers | litserve/word_cloud.py:25-30 | de-duplication keeps every word once and no word twice |
| WordCloud.DistinctInFirstOccurrenceOrder | litserve/word_cloud.py:25-30 | de-duplicated words come in order of first occurrence |
| WordCloud.WordCloudWords | litserve/word_cloud.py:13-30 | every output word contains `_`, and every `_`-token of the input appears in the output |
| WordCloud.WordCloudFrequencies | litserve/word_cloud.py:15-23 | each frequency equals the word's number of occurrences among the `_`-tokens |
| WordCloud.WordCloudOrder | litserve/word_cloud.py:25-32 | frequencies never increase along the output, and ties keep first-occurrence order |
| WordCloud.WordCloudNoDuplicates | litserve/word_cloud.py:25-30 | no word appears twice in the output |
| WordCloud.InsertAt | litserve/word_cloud.py:32 | one in-place insertion step places `a[i]` after every entry with a frequency at least its own |
| WordCloud.SortByFrequency | litserve/word_cloud.py:32 | the in-place insertion sort leaves `SortDesc` of the old array contents |
| WordCloud.CountWords | litserve/word_cloud.py:15-20 | the count map has exactly the kept words, each with its number of occurrences |
| WordCloud.FirstOccurrences | litserve/word_cloud.py:25-30 | the `seen` pass keeps the first entry of each word, in first-occurrence order |
| WordCloud.GenerateWordCloud | litserve/word_cloud.py:13-34 | the loops and the in-place sort compute `WordCloudOf` of the token list |
| LitSocketServer.GenerateWordCloud | litserve/socket_server.py:38-55 | the `freq_map` pass, the `seen` pass and the in-place sort compute `WordCloudOf` of the token list |
| LitSocketServer.CallInference | litserve/socket_server.py:64-76 | specification function of `call_inference`; `CallInferenceLabel` states its behaviour |
| LitSocketServer.CallInferenceLabel | litserve/socket_server.py:64-76 | a 200 reply with a str `predicted_label` gives that label with its ASCII letters lower-cased, a missing label "neutral", and every other case "neutral"; no upper-case ASCII letter is left |
| LitSocketServer.ProcessItem | litserve/socket_server.py:108-133 | specification function of `process_item`; the `ProcessItem…` lemmas state its behaviour |
| LitSocketServer.ProcessItemNoTopic | litserve/socket_server.py:123-129 | a processed item has `log_level` None, an empty reason, topic flags false and no crisis keywords |
| LitSocketServer.ProcessItemSite | litserve/socket_server.py:120-121 | `site_name` and `site_id` are the item's `siteName` and `siteId` |
| LitSocketServer.ProcessItemDefaults | litserve/socket_server.py:122-131 | `total_interactions` defaults to 0 and `input_type` equals `type` |
| LitSocketServer.ProcessItemSentiment | litserve/socket_server.py:109-110 | the sentiment is the inference answer for the text "title description content" |
| LitSocketServer.CloudJsonShape | litserve/socket_server.py:45-55 | the serialised cloud has one dict per entry, each word a `_`-compound, frequencies non-increasing |
| LitSocketServer.ProcessItemCloud | litserve/socket_server.py:111 | the item's word cloud is that of its text, and every word in it contains `_` |
| LitSocketServer.ProcessItemFails | litserve/socket_server.py:108-109 | processing succeeds iff the item is a dict; otherwise it raises the `.get` AttributeError |
| LitSocketServer.GatherInOrder | litserve/socket_server.py:136-137 | the gathered list exists iff every item succeeds, and then holds one result per item at the same position |
| LitSocketServer.GatherFirstFailure | litserve/socket_server.py:136-137 | a failed gather reports the error of the first failing item |
| LitSocketServer.HandlePredict | litserve/socket_server.py:103-139 | specification function of `handle_predict`: the emitted results or the first error; the `HandlePredict…` lemmas state its behaviour |
| LitSocketServer.HandlePredictNoData | litserve/socket_server.py:105 | an event without `data` emits an empty list |
| LitSocketServer.HandlePredictResults | litserve/socket_server.py:105-139 | for a list of items, the emitted results exist iff every item is a dict, and then answer the items one to one, in order |
| LitSocketServer.HandlePredictFirstFailure | litserve/socket_server.py:136-139 | a failing event reports the error of the first item that is not a dict |

## Left out

- Sentiment inference (`sentiment_inference`, the BERT server) is the `infer` parameter. The torch/numpy softmax and float rounding are not modelled.
- Network I/O is not modelled. The Gemini and Fireworks POSTs, `raise_for_status` and `response.json()` become the `response` parameter, and `json.loads` becomes `parse`. The aiohttp POST to the model server is `infer`, and the Redis client calls are the seq fields of `JobBroker.Broker`.
- LitSocketServer.CallInferenceLabel: the label is lower-cased for ASCII letters only (`PyJson.Lower`). Python's `str.lower()` also lowers other Unicode letters, so a label such as "NÉGATIF" keeps its "É" here.
- LitSocketServer.CallInference: the tenacity retry is not modelled. Its body catches every exception itself, so the decorator never sees one to retry.
- FilterCacheModel.CacheKeyOf: the md5 digest of the JSON text is replaced by the six-field tuple itself, so digest collisions are not modelled.
- FilterCacheModel.FilterCache.EvictLru: it may evict any key of least access time. Python takes the first such key in insertion order, and maps here have no order.
- FilterCacheModel.FilterCache.GetStats: `usage_percent` is left out. It is a float division, and it raises ZeroDivisionError when `max_size` is 0.
- Time is a single integer `now` per call, in place of `time.time()` floats. `asyncio.sleep` and the 100 ms polling cadence are not modelled; the poll count stands for them.
- FilterCacheModel.BatchFilterService and LitSocketServer.Gather run the items one after another. `asyncio.gather` interleaving is not modelled; the items run sequentially in list order.
- FilterCacheModel.BatchFilterService: the `isinstance(result, Exception)` branch is not modelled. The single-item service catches every exception from the filter, so that branch cannot be reached.
- JobBroker.Broker.WorkerStep: the inner `except` of the worker loop is not modelled. Neither `predict_sentiment` (which catches everything) nor the dict literal can raise there, because `meta.get` has already run at app/worker.py:65.
- Other workers and other waiters are not modelled. Entries pushed between two polls are the `arrivals` parameter.
- `json.dumps`/`json.loads` of list entries are modelled as exact inverses, and undecodable text is the `Garbage` case. Key order and the text encoding are not modelled.
- Floats are not modelled. `Json` has no float case, so a float `total_interactions` or label score cannot be expressed.
- `str()` of a list or dict (`reprContainer`) is a parameter. `str()` of None, bools, ints and strings is written out.
- Tokenisation (`ViTokenizer.tokenize`, the `\w+` regex and `lower()`) is the `tokenize` parameter. The word-cloud model starts from the token list.
- app/wordcloud.py, whose `generate_word_cloud` the worker imports, is not part of this model. The worker's cloud generator is the `cloud` parameter.
- Pydantic validation of the analyzer's `FilterItem` is reduced to whitespace stripping in `ToDataInput`. `extra="forbid"`, the HTTP routes, socket.io/FastAPI plumbing, prompts, configuration and client scripts are not modelled.
- The endless worker loop is modelled one iteration at a time (`WorkerStep`). `blpop` timing out is the empty request list.

## Findings

| source | as written | input that shows it | evidently intended | confidence | as-written member | corrected member |
|---|---|---|---|---|---|---|
| app/server.py:76 | the server forwards `total_interactions` as `None` when the item has none, and app/sentiment.py:87 then evaluates `None >= 100`, a TypeError; the worker reports `{"error": ...}` instead of a tier | a negative `FBPAGE_TOPIC` item without `total_interactions`, not from a KOL, whose topic check says targeting with keywords | a missing count is read as 0 (the default app/sentiment.py:59 gives), so the post gets tier 2 | not executed; high | JobBroker.NoneCountErrorAsWritten | JobBroker.NoneCountTierTwoCorrected |
| app/sentiment.py:25 | `analyze_sentiment` reads `siteId`/`siteName`, but the server has renamed them to `site_id`/`site_name` (app/server.py:70-71); the worker's `**prediction` then overrides the correct meta fields with "" (app/worker.py:80) | an item `{title: "t", type: "X", siteId: "s1", siteName: "n1"}` whose label is "positive" comes back with `site_id` and `site_name` "" | the result reports the item's site, which the worker's own meta fields carry | not executed; high | JobBroker.SiteFieldsBlankedAsWritten | JobBroker.SiteFieldsKept |
