# ESG feature extractor, modelled in Dafny

This project models the keyword-tagging and counting core of `app.py`.
The centre is `process_esg_files_working`. It takes one document's text
and produces a fixed-schema feature record. The steps are:

- split the text into pieces on runs of `.`, `!` and `?`;
- skip pieces shorter than 10 characters once stripped;
- gate each piece on a flat, lower-cased keyword list;
- attribute it to every pillar and subcategory whose keywords occur in it;
- cut it to its first 50 words;
- label its sentiment score with the thresholds 0.7 and 0.5;
- add the reputation of every recognised organisation to `NER_pos` or `NER_neg`;
- bump one `pos_*` or `neg_*` counter per attributed subcategory;
- finish with the per-pillar totals and the two ratios over `max(total, 1)`.

If any collaborator raises, the function produces no record at all.

Three pieces next to the extractor are modelled too:

- the module-level flattening of the keyword taxonomy;
- `clean_company_name`, which strips the longest legal-form prefix;
- the first-minimum scan of `assign_cluster`.

## Layout

- `wrappers.dfy`, module `Wrappers`: `Option`.
- `text.dfy`, module `Text`: the Python string built-ins the code uses.
  - `str.strip()`, `str.split()` and `' '.join`, with the whitespace set of `str.isspace()`.
  - `re.split(r'[.!?]+', ...)`.
  - the substring test `k in s`.
- `taxonomy.dfy`, module `Taxonomy`: the 3 pillars and 22 subcategories of `esg_category_mapping`.
  - the nested keyword dictionary `esg_keywords`, as a parameter of the same shape;
  - its flattening loop;
  - the 44 counters and their record keys;
  - the per-pillar subcategory lists the aggregation sums over.
- `extractor.dfy`, module `Extractor`: the extraction pass.
  - Each `for` statement of the source is a method proved equal to a specification function.
  - The list comprehensions summed at app.py:681-686 are the recursive function `SumCounts`, which `Finalize` uses.
  - `FindKeywords` is the keyword gate, `ScanKeywords` and `FindCategories` the attribution loops.
  - `AccumulateReputation` is the NER loop and `IncrementCounters` the counter loop.
  - `RunSentences` is the sentence loop and `ProcessEsgFilesWorking` the whole function.
  - These methods are proved against the functions `FoundKeywords`, `SubcategoriesFound`,
    `NerGain`, `Bump`, `SentenceStep`, `Run` and `Extract`.
- `extractor_properties.dfy`, module `ExtractorProperties`: what the pass guarantees about the record.
- `clusters.dfy`, module `Clusters`: `assign_cluster`.
- `company_names.dfy`, module `CompanyNames`: `clean_company_name`.

The three collaborators are fields of a `Pipeline` value:

- the sentiment model: `string -> Option<Score>`, with `Score` a real in [0, 1];
- the organisation recogniser: `string -> Option<seq<string>>`;
- `str.lower`: `string -> string`.

A collaborator that raises answers `None`. The reputation table
`company_esg_dict` is a `map<string, real>`.

The `features` dictionary's 44 counters are a `map<Field, nat>`. A `Field`
pairs a polarity with a subcategory. Its record key `ColumnName` is the
polarity, then the pillar tag that the mapping gives the subcategory, then
the subcategory's name. Each of the 44 branches of the source's
if/elif chain (app.py:580-676) increments the key built this way. The
model therefore replaces the chain with one increment of `Field(pol, sub)`.

Neutral sentences bump no counter (app.py:580-676), so they appear in
neither the numerators nor the divisor of the two ratios (app.py:700-701).
The two ratios therefore add up to exactly 1 whenever the grand total is
positive, not merely to at most 1. `Extractor.Ratios` and
`Extractor.Finalize` state that.

`IsShare(ratio, part, total)` says `ratio * max(total, 1) == part`, which
is `ratio == part / max(total, 1)` without division. `Weave(outer, inner)`
is `outer[0] + inner[0] + outer[1] + ... + inner[k-1] + outer[k]`; it
states how `str.split()` and `re.split` take a text apart.

## Model

| member | source | states |
|---|---|---|
| Text.Strip | app.py:517 | `str.strip()`: the result is the characters of the input from the first non-space on, with nothing but whitespace after it; it is empty exactly when the input is all whitespace, and otherwise neither starts nor ends with whitespace |
| Text.Words | app.py:507 | `str.split()`: every element is a non-empty run of non-space characters, and there are none exactly when the text is blank |
| Text.SpaceRuns | app.py:507 | the whitespace around the words of `str.split()`: one run more than there are words, every run blank, and every run between two words non-empty |
| Text.WordsRebuild | app.py:507 | weaving the whitespace runs with the words of `str.split()` gives the text back, so the words are exactly the maximal non-space runs, in order |
| Text.JoinSpace | app.py:544 | `' '.join(ws)` is the strings of `ws` with one space between each two, and empty for no strings |
| Text.WordsOfJoinSpace | app.py:544 | splitting `' '.join(ws)` of a list of words gives the list back |
| Text.DelimiterRunsOf | app.py:505 | the delimiter runs of a text are non-empty and hold only `.`, `!` and `?`; a text starting with a delimiter has at least one |
| Text.SplitSentences | app.py:505 | `re.split(r'[.!?]+', ...)`: one piece more than there are delimiter runs, no piece holds a delimiter, every piece between two runs is non-empty; for a non-empty text, the first piece is empty exactly when it starts with a delimiter (the empty text is the one empty piece) |
| Text.SplitSentencesRebuild | app.py:505 | weaving the pieces with the delimiter runs gives the text back, so the pieces are exactly the text between maximal delimiter runs |
| Text.ContainsIff | app.py:526-539 | the substring test `k in s` of the gate (line 526) and of the attribution (line 539) holds exactly when `k` occurs in `s` at some position |
| Taxonomy.MappingCovers | app.py:296-313 | every subcategory is listed under its own pillar in `esg_category_mapping` |
| Taxonomy.MappingPartitions | app.py:296-313 | a subcategory is listed under a pillar exactly when that is its pillar, so each is listed once |
| Taxonomy.SubKeywordsMembership | app.py:319-321 | a keyword is in the concatenated lists of a pillar's subcategories exactly when one of them lists it |
| Taxonomy.FlattenMembership | app.py:318-321 | a keyword is in `all_esg_keywords` exactly when some subcategory of some pillar lists it |
| Taxonomy.FlattenKeywords | app.py:318-321 | the nested `extend` loop builds the concatenation of all keyword lists in dictionary order |
| Taxonomy.LowerAll | app.py:324 | `all_esg_keywords_lower` has the same length as the flat list, and its i-th entry is the lower-cased i-th keyword |
| Taxonomy.FeatureOrderMatchesMapping | app.py:681-686 | the aggregation lists are duplicate-free and hold exactly the subcategories of their pillar, 7, 7 and 8 of them |
| Taxonomy.RecordColumnsComplete | app.py:472-502 | the record declares every one of the counters, 44 in all |
| Taxonomy.Interleave | app.py:472-502 | the record declares a `pos_` and a `neg_` counter for each listed subcategory and no others |
| Extractor.Label | app.py:547-553 | positive exactly when the score is at least 0.7, negative exactly when it is under 0.5, neutral exactly in [0.5, 0.7) |
| Extractor.Truncate | app.py:543-544 | at most 50 words; a sentence of 50 words or fewer is unchanged; a longer one becomes exactly its first 50 words joined with single spaces, `' '.join(words[:50])` |
| Extractor.InferSentiment | app.py:418-449 | a blank sentence raises; any other sentence gets the model's answer, a score or a raise |
| Extractor.NerInput | app.py:459-460 | the recogniser sees a prefix of the text: the whole text when it has at most 512 characters, exactly its first 512 otherwise |
| Extractor.ExtractOrganizationNames | app.py:457-468 | the recogniser's answer for the text when it has at most 512 characters, and for its first 512 characters otherwise |
| Extractor.FoundKeywords | app.py:524-527 | a keyword is found exactly when it is in the flat list and occurs in the sentence |
| Extractor.FindKeywords | app.py:524-527 | the gate loop computes `FoundKeywords` |
| Extractor.ScanKeywords | app.py:537-541 | the keyword loop of one subcategory adds it and its pillar exactly when one of its keywords occurs |
| Extractor.FindCategories | app.py:533-541 | the triple loop computes the pillars and the subcategories found |
| Extractor.NerGain | app.py:555-564 | both reputation gains of a sentence are non-negative |
| Extractor.AccumulateReputation | app.py:555-564 | the names loop adds the sentence's gains to `NER_pos` and `NER_neg` |
| Extractor.BumpOneMore | app.py:582-627 | incrementing one more subcategory's counter is one more single increment |
| Extractor.IncrementCounters | app.py:582-627 | the loop over `subcategories_found` adds one to the counter of the label's polarity of each attributed subcategory |
| Extractor.CountUnderLabel | app.py:580-676 | a positive sentence bumps the `pos_` counters, a negative one the `neg_` counters, a neutral one none |
| Extractor.InitialTally | app.py:472-513 | every counter starts at 0, and so do `NER_pos`, `NER_neg` and the three sentence tallies |
| Extractor.SentenceStep | app.py:516-676 | a step keeps the counters' keys |
| Extractor.ScoreSentence | app.py:546-581 | scoring, recognising, reputation and counting of a tagged sentence compute `Scored`, with no state when a call raises |
| Extractor.ProcessSentence | app.py:516-676 | the loop body computes `SentenceStep` |
| Extractor.Run | app.py:516-519 | every state reached holds all 44 counters |
| Extractor.RunSentences | app.py:510-519 | the sentence loop computes `Run`, and stops at the first raise |
| Extractor.RunStaysFailed | app.py:504 | once a call has raised, the pass has no state whatever pieces follow |
| Extractor.SumCountsAppend | app.py:681-686 | the sum over two lists is the sum of the two sums |
| Extractor.SumCountsReorder | app.py:681-686 | two duplicate-free lists of the same subcategories give the same sum |
| Extractor.AggregateMatchesMapping | app.py:681-686 | the sum over the record's list equals the sum over the mapping's list of the pillar |
| Extractor.Divisor | app.py:700-701 | `max(total, 1)`: at least 1 and at least the total, and one of the two |
| Extractor.Ratios | app.py:700-701 | each ratio times `max(pos + neg, 1)` is its own count (`IsShare`), so the positive one is `pos` over it and the negative one `neg` over it; both lie in [0, 1], they add up to exactly 1 with any mention and are both 0 with none |
| Extractor.Finalize | app.py:681-702 | the record keeps the file name, counters, sentence and word totals and NER sums; each pillar total is the sum of that pillar's counters, each mention total is pos + neg, the grand total is the sum of the six pillar totals; `esg_pos_ratio` is the positive total and `esg_neg_ratio` the negative total over `max(grand total, 1)`, in [0, 1], adding up to 1 with any mention and both 0 with none |
| Extractor.ProcessEsgFilesWorking | app.py:470-717 | the whole function computes `Extract`: a record, or none when a call raised |
| ExtractorProperties.SkipShort | app.py:517-519 | a piece under 10 stripped characters leaves the state as it is |
| ExtractorProperties.ShortPiecesChangeNothing | app.py:516-519 | running over all pieces and over the long pieces only end in the same state, counters and reputation sums included |
| ExtractorProperties.RecordTotals | app.py:505-507 | `total_sentences` counts every piece of the split and `total_words` every whitespace word of the text, whatever was skipped |
| ExtractorProperties.HitsExists | app.py:539-540 | a subcategory's keyword list hits exactly when one of its keywords, lower-cased, occurs |
| ExtractorProperties.SubcategoriesFoundMembership | app.py:533-541 | a subcategory is attributed exactly when some entry of it has a keyword that occurs |
| ExtractorProperties.CategoriesFoundMembership | app.py:533-541 | a pillar is found exactly when some entry of it has a subcategory that is hit |
| ExtractorProperties.CategoriesFollowSubcategories | app.py:533-541 | with the taxonomy shaped like the mapping, the pillars found are exactly the pillars of the subcategories found |
| ExtractorProperties.GateMeansKeyword | app.py:318-324 | the flat gate fires exactly when some keyword of the taxonomy, lower-cased, occurs |
| ExtractorProperties.AttributionMeansKeyword | app.py:533-541 | some subcategory is attributed exactly when some keyword of the taxonomy, lower-cased, occurs |
| ExtractorProperties.GateMatchesAttribution | app.py:524-541 | `found_keywords` is non-empty exactly when `subcategories_found` is non-empty |
| ExtractorProperties.TaggedHasSubcategory | app.py:529-541 | every sentence that passes the gate is attributed at least one subcategory |
| ExtractorProperties.ScoredTextOfKeptPiece | app.py:543-555 | a kept piece's scored text is never blank, so the empty-input error cannot fire; it has at most 50 words and is the stripped piece itself when that has no more; a longer one keeps its first 50 words; the recogniser sees at most 512 characters |
| ExtractorProperties.KeptPieceNotBlank | app.py:517-546 | the stripped, cut text of a piece that survives the length filter is not blank, so the empty-input check of `infer_sentiment` (app.py:423) never fires on it |
| ExtractorProperties.StepFailsIff | app.py:546-555 | a step ends the pass exactly on a tagged sentence where the sentiment model or the recogniser raises |
| ExtractorProperties.StepOfTagged | app.py:529-581 | a tagged sentence that scores and recognises is counted with its label, its attributed subcategories and its names' reputation |
| ExtractorProperties.CountIncrementsOnce | app.py:580-676 | each counter of the label's polarity whose subcategory is attributed goes up by exactly 1, and no other counter changes |
| ExtractorProperties.NeutralStep | app.py:547-564 | a score in [0.5, 0.7) changes no counter and neither label tally, but still adds its names' reputation |
| ExtractorProperties.PositiveStep | app.py:580-627 | a score of 0.7 or more adds 1 to the `pos_` counter of each attributed subcategory and to `pos_count`, and nothing else among the counters |
| ExtractorProperties.NegativeStep | app.py:629-676 | a score under 0.5 adds 1 to the `neg_` counter of each attributed subcategory and to `neg_count`, and nothing else among the counters |
| ExtractorProperties.ColumnPrefixMatchesMapping | app.py:472-502 | a counter's record key carries the tag of the pillar the mapping assigns its subcategory to |
| ExtractorProperties.NerGainAppend | app.py:556-564 | the reputation gain of a list of names is the sum of the gains of its parts |
| ExtractorProperties.NerGainOfName | app.py:556-564 | a name missing from the table adds nothing; a negative value v adds abs(v) to `NER_neg`; any other value adds itself to `NER_pos` |
| ExtractorProperties.RunGrows | app.py:508-564 | no counter, tally or reputation sum ever decreases along the pass |
| ExtractorProperties.RunNerNonNegative | app.py:508-509 | `NER_pos` and `NER_neg` are never negative |
| ExtractorProperties.RunCountBounds | app.py:529-530 | labelled sentences are no more than tagged ones, tagged ones no more than pieces, and each polarity's sentences no more than its counters add up to |
| ExtractorProperties.RecordCoversLabels | app.py:681-686 | the three pillar totals of a polarity add up to all its counters, and to at least the number of sentences with that label |
| ExtractorProperties.RunFailsIff | app.py:504 | the pass has no state exactly when some piece makes a collaborator raise |
| ExtractorProperties.ExtractFailsIff | app.py:706-717 | no record is produced exactly when some piece of the split makes a collaborator raise |
| Clusters.FirstArgMin | app.py:725-732 | the index of a least distance, with every earlier distance strictly larger |
| Clusters.FirstArgMinUnique | app.py:730 | only one index is both least and first |
| Clusters.AssignCluster | app.py:719-734 | no cluster for no centroids; otherwise the first centroid at the least distance, as the strict `<` keeps it |
| CompanyNames.SortByLength | app.py:851 | the sort keeps the same strings and puts longer ones first |
| CompanyNames.StripLongestPrefix | app.py:852-855 | a name with no listed prefix is unchanged; otherwise exactly one prefix is cut, the longest one it starts with, and the rest is stripped |
| CompanyNames.CleanCompanyName | app.py:849-856 | the same over the seven legal forms of the source |
| CompanyNames.EquallyLongPrefixesAgree | app.py:851-853 | two equally long prefixes of one name are the same string |

## Left out

- PDF reading (app.py:21-45): file I/O behind a PDF library.
- The sentiment network, its loading and tokenisation (app.py:336-449) are the oracle `Pipeline.sentiment`.
  - A raise anywhere in it is `None`.
  - Its results are reals in [0, 1], as the sigmoid head gives them.
- The recogniser call and its `ORG` entity filtering (app.py:462-467) are the oracle `Pipeline.organizations`.
  The 512-character cut before it is modelled.
- `str.lower` is an abstract function. Unicode case mapping is not modelled.
- Floating point: scores, reputation values, sums and ratios are Dafny reals. Rounding, `inf` and `NaN` are not modelled.
- `Clusters.AssignCluster`: does not model `None` for centroids that are all at distance `inf` or `NaN`. It finds a cluster whenever there is a centroid.
  The scaler and the Euclidean norm (app.py:720, 726-728) are the given `distance` function.
- `infer_esg_scores` (app.py:736-831): the scaler and the regressors are foreign models.
- CSV loading, the `esg_score - 2.5` offset of `company_esg_dict` (app.py:845-862) and the script's orchestration and output (app.py:833-888): I/O.
  The table is the parameter `Pipeline.reputation`.
- `total_keywords` (app.py:315-316) is computed and never used.
- The per-sentence `esg_sentence_data` records and `confidence` (app.py:566-578): they are built but never returned.
- Diagnostic prints, the traceback, and the DataFrame wrapping of the one record: output formatting.
- `Taxonomy.ColumnName`: the 44 literal keys of the record (app.py:472-502) are written as a compositional name, not copied out.
  Their spelling and distinctness as strings is not proved.
- `CompanyNames.SortByLength`: states neither the stability of Python's sort nor the concrete sorted order.
  The result does not depend on them: the seven prefixes have distinct lengths, and equally long prefixes of one name are equal.
- The keyword strings of the taxonomy (app.py:47-294) are not transcribed. The taxonomy is a parameter of the same shape, and `Taxonomy.Conforms` says when it has the mapping's subcategories in order.
