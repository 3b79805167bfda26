# Sentiment engine and transcript builder — a verified Dafny model

This project models the analysis core of a conversation-sentiment
pipeline in Dafny. It has two parts. The first is the `SentimentProcessor`
object. It turns a decoded emotion-prediction payload into a time-sorted
table of segments, assigns each segment to a fifth (quintile) of the
conversation, picks the fifteen most frequent emotion names, builds a
streamlined table with one column per picked name, and produces a
duration-weighted report per speaker and quintile. The second is the
client routine that turns a word-level speech-to-text result into a
transcript with one `[speaker]: ...` line per run of words by one speaker.

The modules follow the program:

- `Common`: `Option`, a descending insertion sort (Python's
  `sorted(..., reverse=True)`), the first maximum (Python's `max`),
  the slice `xs[:n]`.
- `Payload`: the JSON payload as nested datatypes (a missing key is an
  `Option`), the segment record, the ranking of a span's predictions into
  at most fifteen slots, and the relabelling of numeric emotion names.
- `Extraction`: the nested scan over prediction items, results, the
  prosody and language channels, speaker groups and spans, with the
  deduplication of language spans. Each loop is a method proved equal to
  a fold function.
- `Quintile`: `_determine_quintile`, truncating like Python's `int()`.
- `Vocabulary`: collecting and counting the slot names, and keeping the
  top fifteen.
- `Aggregation`: the duration-weighted map of one speaker's quintile, the
  dominant emotion, the top five, and the report.
- `Streamlined`: the streamlined table, in which the last matching slot
  column wins.
- `Processor`: the `SentimentProcessor` class. Its fields are the ones the
  source updates. Its methods do what the source methods do, and their
  postconditions give the new state in terms of the specification
  functions above.
- `Transcript`: `extract_cleaned_transcript_with_speakers` as a loop,
  proved equal to a reference definition built on a grouping of the
  words into runs. The grouping is proved to be a partition: non-empty
  runs, neighbouring runs with different speakers, and the only such
  grouping.

Where the code and its documentation disagree, the model follows the code:

- `process_sentiment_data` stores the streamlined table in
  `processed_data` and then overwrites it with the full table. The
  streamlined table is therefore never what the field holds afterwards.
- The quintile is the midpoint divided by a fifth of the length, truncated
  toward zero, with 5 turned into 4. A midpoint somewhat past either end
  of the conversation, strictly between `-length/5` and `6*length/5`,
  therefore still lands in bucket 0 or bucket 4. Only a midpoint at or
  beyond those bounds gets a quintile outside 0..4 and then appears in no
  quintile record.
- Prosody spans are appended without a duplicate check, and a span without
  `time` gets times 0 and 0. The collected records may therefore repeat a
  key before the language channel is scanned. The language dedup keeps
  the number of records of an existing key and adds at most one record
  for a new key.
- A quintile whose segments all have zero duration still gets entries in
  its weighted map, each with value 0.
- The streamlined cell of a name that fills two slots of a row holds the
  last slot's score, not the largest one.
- The log line that joins the vocabulary with `', '.join` raises on an
  integer name. The handler then returns `None` with the length and the
  vocabulary already stored, and without the report.
- In the transcript, a `speaker_id` holding `null` equals the builder's
  initial speaker `None`. A leading run of such words therefore gets no
  `[speaker]: ` header; its words are each preceded by a space.

## Model

| member | source | states |
|---|---|---|
| Common.SortDescHeadIsFirstMax | backend/processors/sentiment_processor.py:372-390 | the head of the descending sort is the element `max` picks: the first of equal maxima |
| Common.Take | backend/processors/sentiment_processor.py:494 | `xs[:n]` is a prefix; its length is `min(n, len)` for `n >= 0`, and `len + n` (at least 0) for negative `n` |
| Payload.MakeSegment | backend/processors/sentiment_processor.py:131-143 | speaker defaults to "unknown", start and end to 0, text to ""; the slots are the ranked prediction list, at most fifteen, by non-increasing score |
| Payload.RankSlots | backend/processors/sentiment_processor.py:146-154 | no list gives no slots; otherwise `min(len, 15)` slots, by non-increasing score, drawn from the list's defaulted entries |
| Payload.RankSlotsKeepsBest | backend/processors/sentiment_processor.py:149-154 | a prediction whose slot was cut scores no more than the fifteenth slot kept, and fifteen slots were kept |
| Payload.RelabelNeverDigits | backend/processors/sentiment_processor.py:358-362 | after relabelling, no emotion name is a bare string of digits |
| Extraction.AddSpanDedup | backend/processors/sentiment_processor.py:201-207 | a prosody span always appends its record; a language span appends exactly when its key is new, leaving one record with that key; earlier records are untouched |
| Extraction.LanguageSpansKeyCount | backend/processors/sentiment_processor.py:177-207 | for any records collected before, scanning one speaker group's language spans leaves the count of an existing key unchanged and gives a new key at most one record |
| Extraction.LanguageGroupsKeyCount | backend/processors/sentiment_processor.py:170-207 | the same for a whole language channel, whatever the prosody channel collected |
| Extraction.LanguageGroupsKeepKeysDistinct | backend/processors/sentiment_processor.py:170-207 | as a consequence, records with pairwise distinct keys keep distinct keys through a language channel |
| Extraction.LanguageSpansAllKeyed | backend/processors/sentiment_processor.py:177-207 | after one speaker group's language spans are scanned, the key of every one of its spans is among the records |
| Extraction.LanguageGroupsAllKeyed | backend/processors/sentiment_processor.py:170-207 | after a language channel is scanned, the key of every span of every speaker group is among the records |
| Extraction.CollectSegments | backend/processors/sentiment_processor.py:117-207 | the nested loops build exactly the fold `Extract`; only a list payload yields records, and every record has at most fifteen slots |
| Quintile.Trunc | backend/processors/sentiment_processor.py:294 | `int(x)` truncates toward zero |
| Quintile.QuintileOf | backend/processors/sentiment_processor.py:286-300 | length 0 gives bucket 0; a midpoint in `[0, length]` gives a bucket in 0..4 |
| Quintile.QuintileContainsMidpoint | backend/processors/sentiment_processor.py:289-298 | the bucket's window `[q*size, (q+1)*size)` contains the midpoint; the last window is closed at the end |
| Quintile.QuintileInRange | backend/processors/sentiment_processor.py:286-300 | for a positive length the bucket is in 0..4 exactly when the midpoint lies strictly between `-length/5` and `6*length/5` |
| Quintile.MidpointAtEndIsLastQuintile | backend/processors/sentiment_processor.py:296-298 | a midpoint at the conversation end lands in bucket 4, not 5 |
| Vocabulary.CollectNames | backend/processors/sentiment_processor.py:236-241 | the loop over the fifteen slot columns collects exactly the names some slot carries |
| Vocabulary.CountName | backend/processors/sentiment_processor.py:246-251 | counting one name over the fifteen columns gives its number of slots over all segments |
| Vocabulary.CountSentiments | backend/processors/sentiment_processor.py:243-251 | the counts table, built in an arbitrary order of the names, has each present name once with its count |
| Vocabulary.TopNamesIsVocabulary | backend/processors/sentiment_processor.py:253-255 | from a counts table in any order, the top fifteen are distinct present names, ordered by non-increasing count, with no left-out name more frequent than a kept one |
| Vocabulary.OccurrencesPermutation | backend/processors/sentiment_processor.py:243-251 | a name's count does not depend on the order of the segments |
| Vocabulary.AllNamesPermutation | backend/processors/sentiment_processor.py:236-241 | the set of names does not depend on the order of the segments |
| Vocabulary.VocabularyOfPermutation | backend/processors/sentiment_processor.py:236-255 | a top fifteen of the sorted table is a top fifteen of the records in any order |
| Vocabulary.SelectVocabulary | backend/processors/sentiment_processor.py:236-255 | the vocabulary step yields such a top fifteen (all names when fewer than fifteen) |
| Aggregation.Group | backend/processors/sentiment_processor.py:323-331 | a group holds only rows of its speaker and its quintile |
| Aggregation.GroupIsFilter | backend/processors/sentiment_processor.py:323-331 | the group is the filter of the table: each row of the speaker in the quintile occurs in it as often as in the table, and no other row occurs |
| Aggregation.GroupAppend | backend/processors/sentiment_processor.py:323-331 | the group of two tables one after the other is the first's group followed by the second's, so the group keeps table order |
| Aggregation.WeightsSumToOne | backend/processors/sentiment_processor.py:337-347 | in a group with positive total duration the weights add up to 1 |
| Aggregation.BumpValues | backend/processors/sentiment_processor.py:365-369 | adding to a name's entry adds `delta` to that name's value and changes no other value |
| Aggregation.BumpKeys | backend/processors/sentiment_processor.py:365-366 | the entry is created when missing and no other name is added |
| Aggregation.WeightedEmotionsMeaning | backend/processors/sentiment_processor.py:342-369 | the weighted map has one entry per relabelled name in the group, its value the sum of `score * weight` over all of that name's slots |
| Aggregation.ZeroTotalGivesZeroValues | backend/processors/sentiment_processor.py:339-347 | a group with no positive total duration still has an entry per name, each 0 |
| Aggregation.Dominant | backend/processors/sentiment_processor.py:372-373 | the dominant entry is in the map, no entry has a larger value, and every entry before it has a smaller one: of equal maxima the first inserted wins |
| Aggregation.TopEmotions | backend/processors/sentiment_processor.py:386-390 | at most five entries of the map, `min(size, 5)` of them, by non-increasing value |
| Aggregation.TopEmotionsKeepsLargest | backend/processors/sentiment_processor.py:386-390 | the top five are the largest: an entry left out means five were kept, and it scores no more than the fifth |
| Aggregation.DominantLeadsTopEmotions | backend/processors/sentiment_processor.py:372-390 | the dominant emotion is the first of the top five, ties included |
| Aggregation.QuintileLabelsDistinct | backend/processors/sentiment_processor.py:381 | the five labels `quintile_1` .. `quintile_5` are pairwise different |
| Aggregation.RecordShape | backend/processors/sentiment_processor.py:375-391 | a record's window is `[q*size, (q+1)*size]`, its dominant emotion and score are an entry of the map with the largest value, and it heads the top five, which are `min(size, 5)` entries of the map by non-increasing value with no left-out entry above the fifth |
| Aggregation.AnalyzeReport | backend/processors/sentiment_processor.py:302-396 | the report holds the length and one map per speaker of the table, no other; each map has the record of quintile `q` exactly when that speaker's rows in `q` carry a slot, built from their weighted map, and no key other than `quintile_1` .. `quintile_5` |
| Aggregation.QuintileMapUpToKeys | backend/processors/sentiment_processor.py:329-391 | the loop over quintiles `0 .. n-1` inserts only the labels `quintile_1` .. `quintile_n` |
| Aggregation.SpeakerQuintilesRecord | backend/processors/sentiment_processor.py:329-391 | a speaker's map has `quintile_<q+1>` exactly when the speaker has rows in `q` carrying a slot, and then the record is built from that group's weighted map; the map has no other key than `quintile_1` .. `quintile_5` |
| Aggregation.SpeakerQuintilesOwnRows | backend/processors/sentiment_processor.py:321-394 | a speaker's map depends only on that speaker's own rows |
| Aggregation.AccumulateSegment | backend/processors/sentiment_processor.py:350-369 | the loop over one segment's slot columns performs the specified additions |
| Aggregation.AccumulateGroup | backend/processors/sentiment_processor.py:345-369 | the loop over a group's rows builds exactly the weighted map |
| Streamlined.LastMatchIsLastSlot | backend/processors/sentiment_processor.py:415-427 | a cell is 0.0 when no slot of the row carries the name, and otherwise the score of the last slot that does |
| Streamlined.LastMatchOfDuplicate | backend/processors/sentiment_processor.py:419-427 | a name in two slots keeps the later, lower score |
| Streamlined.StreamlinedCell | backend/processors/sentiment_processor.py:412-427 | the table has the base columns of every row and one column per vocabulary name, with one cell per row |
| Streamlined.FillSlotColumn | backend/processors/sentiment_processor.py:419-427 | after one more slot column, every cell holds the score of the last matching slot among the columns scanned so far |
| Streamlined.FillColumn | backend/processors/sentiment_processor.py:415-427 | the column-by-column overwrite fills each cell with its last match |
| Processor.SortByStart | backend/processors/sentiment_processor.py:218-220 | the sorted table is a permutation of the records in ascending start time |
| Processor.MaxEnd | backend/processors/sentiment_processor.py:223 | the conversation length is an end time of some segment and no segment ends later |
| Processor.MaxEndOfPermutation | backend/processors/sentiment_processor.py:223 | the length does not depend on the order of the segments |
| Processor.UniqueSpeakers | backend/processors/sentiment_processor.py:313 | every speaker of the table appears once, and only speakers of the table appear |
| Processor.AssignQuintiles | backend/processors/sentiment_processor.py:226-230 | each row keeps its segment and gets the bucket of its start and end |
| Processor.OrderAndBucket | backend/processors/sentiment_processor.py:218-230 | the sorted table is a permutation of the records in ascending start time, the length is the largest end, and every row carries the bucket of its start and end |
| Processor.SpeakerRecords | backend/processors/sentiment_processor.py:321-394 | the loop over the five quintiles builds the speaker's map of records |
| Processor.BuildReport | backend/processors/sentiment_processor.py:313-394 | the loop over the speakers in order of first appearance builds the report of the analysis |
| Processor.ReportUpToIsAnalysis | backend/processors/sentiment_processor.py:313-394 | the map filled speaker by speaker over every speaker of the table is the report |
| Processor.ReportIsAnalysis | backend/processors/sentiment_processor.py:313-394 | the per-speaker loop builds the report over exactly the table's speakers |
| Processor.SentimentProcessor.constructor | backend/processors/sentiment_processor.py:32-38 | a fresh processor holds the payload, no table, no vocabulary, no report and length 0 |
| Processor.SentimentProcessor.GetTopSentiments | backend/processors/sentiment_processor.py:480-494 | `n` defaults to 15; the result is a prefix of the vocabulary, of length `min(n, len)` for `n >= 0`, Python's slice for negative `n` |
| Processor.SentimentProcessor.CreateStreamlinedData | backend/processors/sentiment_processor.py:403-429 | `processed_data` becomes the streamlined table of the rows and the vocabulary; nothing else changes |
| Processor.SentimentProcessor.AnalyzeQuintiles | backend/processors/sentiment_processor.py:302-396 | `quintile_analysis` becomes the report of the rows; nothing else changes |
| Processor.SentimentProcessor.ProcessSentimentData | backend/processors/sentiment_processor.py:99-272 | falsy or empty extraction returns `None` and changes nothing; otherwise the length is the largest end and the vocabulary a top fifteen of the extracted records, whatever their order; on success the table is sorted, a permutation of the extracted records, carries the quintile column, and the report and the full table are stored; an integer vocabulary name returns `None` before the report |
| Transcript.WordOf | backend/clients/elevenlabs/client.py:424-434 | the text defaults to "" and the speaker to "unknown"; a present string passes through; only a `null` speaker id gives no speaker, and a `null` text is written "None" |
| Transcript.RunsExpand | backend/clients/elevenlabs/client.py:419-438 | read back in order, the runs give exactly the spoken words |
| Transcript.RunsWellFormed | backend/clients/elevenlabs/client.py:428-434 | every run has a word and neighbouring runs have different speakers |
| Transcript.RunsUnique | backend/clients/elevenlabs/client.py:419-438 | a partition into non-empty runs with changing speakers is read back as itself: `Runs(Expand(rs)) == rs`, so it is the grouping `Runs` of its words |
| Transcript.LinesStep | backend/clients/elevenlabs/client.py:428-434 | a word of the same speaker extends the last line by `" " + word`; a new speaker starts a line `[speaker]: word` |
| Transcript.TranscriptIgnoresNonWords | backend/clients/elevenlabs/client.py:421-422 | an entry whose type is not "word" does not change the transcript |
| Transcript.NoWordsGivesEmpty | backend/clients/elevenlabs/client.py:414-441 | a list without spoken words gives the empty transcript, not `None` |
| Transcript.LineHeaders | backend/clients/elevenlabs/client.py:428-432 | one line per run; each starts with `[speaker]: `, except a first run whose speaker id is `null` |
| Transcript.SingleSpeaker | backend/clients/elevenlabs/client.py:428-441 | the words of one named speaker form a single line `[speaker]: w1 w2 ...` |
| Transcript.ExtractCleanedTranscriptWithSpeakers | backend/clients/elevenlabs/client.py:398-443 | no data or no `words` gives `None`; otherwise the loop yields the run lines joined by newlines |

## Left out

- Loading and decoding the predictions file (`_load_predictions`): the
  payload arrives decoded, and a file that cannot be read is the
  `Missing` payload.
- Logging, `_log_prediction_structure`, and the `:.2f` formatting of
  `time_range`: the record keeps the two bounds as numbers.
- Plotting, saving to files, colours, `_organize_data_by_speaker`
  (`speakers_data`), and the other getters of the processor.
- The network clients and every other method of `ElevenLabsClient`.
- Exceptions other than the failing vocabulary join. The source catches
  them and logs; inputs that would raise (non-numeric times, non-list
  `words`) are not expressible in the model's types.
- A JSON `null` in the predictions payload (`id`, `name`, `score`, `begin`,
  `end`, `text`, `time`, `emotions`, `sentiment`, `predictions`,
  `grouped_predictions`): there `.get(key, default)` returns `None`
  rather than the default. A `null` id gives the speaker `None`. A `null`
  score makes the sort raise when its list has two or more entries; a
  lone entry keeps the score `None`, which the analysis skips (its
  `pd.notna` test fails) and which the streamlined table writes as an
  empty cell. A `null` `time` object or list makes the next `.get` or
  loop raise, which ends the call with `None`. The model's `None` for a
  payload field means only that the key is missing.
- Floating point: times, scores and weights are exact reals.
- Transcript.WordOf: a word's `speaker_id` or `text` is either missing,
  `null` or a string (`Transcript.Field`). A number there is not
  expressible: the source would print it in the line, and because `0`
  and `"0"` differ in Python, a numeric id would also start a new line
  next to the same id written as a string.
- pandas details: NaN cells and `dropna`, dtype promotion, float emotion
  names (names are strings or integers), and vocabulary names that
  collide with a base column name.
- `str.isdigit` is modelled on ASCII digits only.
- Common.SortDesc: it is a stable insertion sort, but its contract states
  only the length, the permutation and the non-increasing order; of the
  stability of `sorted(..., reverse=True)` the model proves only that the
  head is the first maximum (Common.SortDescHeadIsFirstMax). The order of
  tied entries inside the top five, and which of several entries tied at
  the fifth place are kept, are therefore not stated.
- Processor.SortByStart: the source's sort is not stable. The model sorts
  stably, and `ProcessSentimentData` promises only ascending start times
  and a permutation, which any sort gives.
- Aggregation.Analyze: the speaker order of the report follows
  `unique()`, and each speaker's `quintile_1` .. `quintile_5` keys are
  inserted in bucket order; the model's report and per-speaker maps are
  Dafny maps, which have no order, so neither order is captured.
- Vocabulary.CountSentiments: Python iterates the set of names in an
  unspecified order. The model chooses the order arbitrarily and proves
  the vocabulary properties for every order, so ties between equal counts
  are not resolved as the source would resolve them.
