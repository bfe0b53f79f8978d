# IR benchmark harness: parsers, evaluator and sweep

This project models the parts of a small information-retrieval benchmark harness whose logic is
written out in its Python code. Five driver scripts each read one test collection: NPL,
Cranfield, Medline, CACM and TIME. Each driver sweeps 256 document/query TF-IDF weighting
schemes, with stemming off and on, and ranks the runs by mean average precision (MAP).

The model covers:

- `Text`: ASCII character classes, `strip`, `split`, `join`, `lower`/`upper`, and `int()` on a token.
- `Normalizer`: the text normaliser `preprocess_text`. The Porter stemmer is an opaque `string -> string` parameter.
- `MapEvaluator`: the evaluator `calculate_map`, as nested loops over exact reals. The ranking that `np.argsort(...)[::-1]` would produce is an input: any permutation of the document indices that orders the scores non-increasingly.
- `Markup`: the regular expressions the marker-based readers use:
  - `re.split` on a `.I <digits>` / `*TEXT <digits>` marker;
  - `re.search` for a lazy group after a tag or a header, up to a stop;
  - `re.findall` of such groups.
- `Qrels`: the line-by-line relevance readers `parse_qrels` of CRAN, MED, cacm and time-data. Each is a loop that fills a dictionary of sets.
- `Sweep`:
  - the 256-scheme comprehension;
  - the driver loop that appends one run per (stemming, scheme) pair;
  - the stable descending sort `results.sort(reverse=True, key=...)`, written as an insertion sort.

  The vectorizer and cosine similarity are an opaque `Similarity` parameter.
- `Npl`, `Cran`, `Med`, `Cacm`, `TimeData`: the readers and `process_dataset` of each driver script.

A driver's `process_dataset` takes the contents of its files: a string for a file the script
reads whole, and a sequence of lines for a file it iterates line by line.

`np.mean([])` is NaN; the model writes it as `None`.

Where the specification and the code disagree, the model follows the code:

- Ranking ties. The specification wants them broken by ascending document position. The code uses `np.argsort(scores)[::-1]`, whose tie order is the default, unstable sort's order reversed, so any score-ordered permutation is allowed.
- A MAP with no judged query. The specification wants it signalled explicitly. The code returns NaN, modelled as `None`. In the sort a `None` score never compares greater than another score, just as every comparison with NaN is false in Python.

## Model

| member | source | states |
|---|---|---|
| Text.Strip | npl.py:18 | the result has no whitespace at either end; it is the slice of the input that starts after the leading whitespace; it is empty exactly when the input is all whitespace |
| Text.StripCuts | npl.py:18 | every character before and after the kept slice is whitespace, so `strip()` removes nothing else |
| Text.OneLine | CRAN.py:23 | `replace('\n', ' ').strip()` has no newline and no outer whitespace; it is empty exactly when the input is all whitespace |
| Text.Split | functions.py:23 | every token of `split()` is non-empty and free of whitespace |
| Text.SplitJoin | functions.py:28 | splitting `' '.join(ts)` gives back `ts` for any whitespace-free non-empty tokens |
| Text.JoinCanonical | functions.py:28 | `' '.join(ts)` has single spaces between tokens and none at either end |
| Text.ParseShow | npl.py:40 | `int()` reads back the decimal text of any integer |
| Normalizer.TokensNormal | functions.py:20-27 | every output token is a non-empty run of lower-case word characters (with stemming, when the stemmer keeps that shape) |
| Normalizer.PreprocessText | functions.py:20-28 | when the stemmer (if used) keeps tokens lower-case word runs, the output is canonical, holds only lower-case word characters and single spaces, and splits back into exactly the filtered (and stemmed) tokens |
| Normalizer.StopwordsRemoved | functions.py:23-24 | without stemming, the output tokens are an order-preserving subsequence of the split tokens; every occurrence of a non-stopword is kept and every occurrence of a stopword removed |
| Normalizer.StemmingMapsTokens | functions.py:25-27 | with stemming, the token count is unchanged and token i is `stem` of unstemmed token i |
| Normalizer.NoStopwordsKeepsAll | CRAN.py:72 | with the empty stopword set of CRAN and MED, no token is removed |
| Normalizer.PreprocessIdempotent | functions.py:20-28 | without stemming, normalising an already normalised text returns it unchanged |
| MapEvaluator.CalculateMap | functions.py:77-96 | the result is the mean of the APs of the qualifying queries; it is `None` (NaN) exactly when no query qualifies, and otherwise lies in [0, 1] |
| MapEvaluator.Hits | functions.py:85-89 | after k ranks, `hits` is at most k |
| MapEvaluator.PrecisionAtK | functions.py:88-90 | each `precision_at_k` added at a relevant rank lies in (0, 1] |
| MapEvaluator.FinalHits | functions.py:85-91 | over a permutation ranking, the final `hits` is the number of relevant ids in 1..numDocs |
| MapEvaluator.AveragePrecision | functions.py:85-93 | AP = (sum of precisions at relevant ranks) / number of relevant ids lies between 0 and hits / number of relevant ids, and is 0 exactly when no ranked document is relevant |
| MapEvaluator.ApBounds | functions.py:93 | AP lies in [0, 1], and is 0 exactly when no relevant id is a document id 1..numDocs |
| MapEvaluator.ApOne | functions.py:93 | AP is 1 exactly when every relevant id is a ranked document and they fill the top ranks |
| MapEvaluator.OneApPerJudgedQuery | functions.py:79-82 | one AP is appended per query whose key q+1 holds a non-empty set, and none for the others |
| MapEvaluator.ApsEmpty | functions.py:80-82 | the list of APs is empty exactly when no query qualifies |
| MapEvaluator.MeanInUnitRange | functions.py:96 | the mean of values in [0, 1] lies in [0, 1] |
| Markup.Records | CRAN.py:14 | one record per marker, the text before the first marker dropped |
| Markup.SplitShape | CRAN.py:14 | pieces and markers interleave back to the input; every marker is the tag followed by digits; no piece contains a marker; no later piece starts with a digit |
| Markup.FirstStop | CRAN.py:17 | the first position at or after j where a stop matches; none exactly when no later position matches one |
| Markup.MatchAt | CRAN.py:17 | a match starting at i has a non-empty group after i that ends at a stop and holds no stop position inside: the lazy `[\s\S]+?` takes the shortest group |
| Markup.TagMatch | CRAN.py:17 | a tag match starts with the tag, then one or more whitespace characters up to the group; the greedy `\s+` gives back whitespace only when no stop follows a longer run |
| Markup.SpacedHeaderMatch | time-data.py:23 | a `w\s+\d+\n\n` match is the word, whitespace, then digits, then a blank line right before the group |
| Markup.SpacedHeaderFound | time-data.py:23 | conversely the word, whitespace, digits and a blank line open a match there exactly when a stop occurs after the first group character; the group ends at the first such stop |
| Markup.MatchStart | CRAN.py:17 | the leftmost position at or after `from` where the pattern matches; no position in between matches, and none at all when the result is None |
| Markup.Search | CRAN.py:17 | a found group is non-empty, ends where a stop matches, and holds no stop position inside |
| Markup.SearchLeftmost | CRAN.py:17 | `re.search` finds nothing exactly when no position matches, and otherwise returns the match at the leftmost matching position |
| Markup.SearchSpacedHeader | time-data.py:23 | what `re.search` of a spaced header finds is its leftmost match, made of the word, whitespace, digits and a blank line before the group |
| Markup.FieldOr | MED.py:18-19 | `m.group(1) if m else ''` is empty exactly when the search finds nothing, and otherwise is the found group, which a stop follows |
| Markup.HeaderBlankLine | time-data.py:18 | a header match leaves a blank line just before its group |
| Markup.AbsentOpenerNoField | MED.py:18-19 | a tag or header that never occurs finds nothing, so the field reads as "" |
| Markup.FindAllSpans | time-data.py:23 | every group span of `findall` lies after the start position and within the text, and is non-empty |
| Markup.FindAllCons | time-data.py:23 | the first group of `findall` is what `re.search` finds, and the rest are those of `findall` from its end |
| Markup.FindAllSearches | time-data.py:23 | group k is exactly what `re.search` finds from the end of group k - 1 (from the start for the first) |
| Markup.FindAllSpan | time-data.py:23 | each group starts after where its search starts, ends at a stop and contains no stop position |
| Markup.FindAllOrdered | time-data.py:23 | the groups follow each other in text order without overlapping |
| Markup.FindAllExhausts | time-data.py:23 | a search from the end of the last group finds nothing, so `findall` misses no match |
| Qrels.ParseLines | CRAN.py:36-46 | the in-place dictionary loop returns exactly the accumulated judgements of the lines, or the first exception |
| Qrels.Entry | CRAN.py:39-45 | a line fails or contributes (field 0, ids): with a pair layout it succeeds exactly when fields 0 and col are integers and records {field col}; with the id-list layout it is skipped exactly when it has fewer than two fields and otherwise succeeds exactly when every field is an integer |
| Qrels.Accumulate | CRAN.py:39-45 | a read succeeds exactly when no line raises |
| Qrels.AccumulateContents | CRAN.py:43-45 | the keys are exactly the query ids of the lines, and a key's set is exactly the document ids paired with it on some line |
| Qrels.OrderFree | CRAN.py:43-45 | a successful read does not depend on the order of the lines or on repeated lines |
| Qrels.PairRecords | CRAN.py:41-45 | a pair-layout line records exactly the pair (field 0, field col) |
| Qrels.ShortLineFails | CRAN.py:40-42 | a blank line, or a line without field col, makes the read fail with IndexError when it is the first line that raises |
| Qrels.ShortLineSkipped | time-data.py:31-32 | an id-list read skips a line with fewer than two fields |
| Qrels.IdListRecords | time-data.py:33-37 | an id-list line records every id after the first field under the first field |
| Sweep.WeightingSchemes | npl.py:59-61 | the comprehension has 256 entries |
| Sweep.SchemeAt | npl.py:59-61 | the entry at a*64+b*32+c*16+d*4+e*2+f is built from list positions a..f: nested-loop order |
| Sweep.SchemesDistinct | npl.py:59-61 | the 256 schemes are pairwise distinct |
| Sweep.SchemeMembers | npl.py:55-61 | a scheme is listed exactly when each component comes from its method list |
| Sweep.SortByScore | npl.py:95 | the sorted runs are a permutation of the input; equal scores keep their input order; with every score defined, the scores are non-increasing |
| Sweep.InsertRun | npl.py:95 | one insertion step of the stable sort keeps the runs a permutation of the input with ties in input order, and extends the non-increasing prefix by one run |
| Sweep.RunSchemes | npl.py:85-92 | the inner loop appends 256 runs, run k scored with scheme k |
| Sweep.ProcessDataset | npl.py:80-95 | the results are the 512 appended runs, ranked: a permutation, stable on ties, non-increasing when every score is defined |
| Sweep.AppendedScores | npl.py:90 | every defined run score lies in [0, 1] |
| Sweep.EachRunOnce | npl.py:80-92 | there are 512 results, and each (scheme, stemming) pair occurs exactly once |
| Npl.SplitOnJoin | npl.py:15 | joining the pieces of a split at '/' gives back the input |
| Npl.SegmentsShape | npl.py:15-21 | every segment is non-empty, stripped and free of '/' |
| Npl.SegmentsOfJoin | npl.py:15-21 | reading back a '/'-join of non-empty stripped '/'-free entries returns the entries in order |
| Npl.NoSeparator | npl.py:15-21 | content without '/' gives its stripped text as the only segment, or none when it is blank |
| Npl.ParseDocuments | npl.py:14-21 | the loop returns the non-empty stripped '/'-segments in input order |
| Npl.ParseQueries | npl.py:23-30 | queries are read exactly as documents are |
| Npl.ParseQrels | npl.py:32-41 | the counting loop returns the judgements of the non-empty segments, or ValueError |
| Npl.QrelsReadable | npl.py:40 | the read succeeds exactly when every token of every segment is an integer |
| Npl.QrelsContents | npl.py:38-40 | the keys are exactly 1..k for k segments, and key i holds the parsed i-th segment |
| Npl.QrelsMembers | npl.py:38-40 | key i is present, and d is in its set exactly when d is a token of the i-th segment |
| Npl.DropLeadingNumber | npl.py:50 | the result is a suffix of the term; after a removed number it does not start with whitespace; a term that does not start with a digit is unchanged |
| Npl.NumberedTerm | npl.py:50 | any run of digits, then any whitespace, then a rest, gives back exactly the rest. The rest starts with no whitespace, and with no digit when there is no whitespace. Every term that starts with a digit has this form |
| Npl.OnlyNumber | npl.py:48-51 | any all-digit segment (such as "00") gives an empty-string entry, which is kept |
| Npl.ParseStopwords | npl.py:43-52 | the loop returns one stopword per non-empty segment, in order, each with its leading number removed |
| Npl.ProcessDataset | npl.py:54-95 | succeeds exactly when the judgements read; then returns the 512 runs of the sweep over the parsed files, ranked |
| Cran.ParseDocuments | CRAN.py:13-24 | one text per marker: title, bibliographic line and abstract on one stripped line, without newlines |
| Cran.ReadDocuments | CRAN.py:16-23 | the record loop appends, in record order, exactly the one-line text of each record |
| Cran.UntaggedRecord | CRAN.py:17-23 | a record with none of `.T`, `.B`, `.W` gives the empty document, which is kept |
| Cran.QueriesOf | CRAN.py:26-34 | at most one query per record, each on one stripped line |
| Cran.ParseQueries | CRAN.py:26-34 | the loop returns the `.W` texts of the records that have one; there are at most as many queries as markers |
| Cran.ReadQueries | CRAN.py:29-33 | the record loop appends exactly the `.W` texts of the records that have one, in record order |
| Cran.QueryPerRecord | CRAN.py:29-33 | a record without `.W` adds no query; a record with one adds exactly its text |
| Cran.ParseQrels | CRAN.py:36-46 | the judgements use field 0 as query id and field 1 as document id |
| Cran.ProcessDataset | CRAN.py:48-89 | succeeds exactly when the judgements read; then returns the ranked 512 runs with no stopwords |
| Med.ParseDocuments | MED.py:13-20 | one stripped `.W` text per marker, "" when the record has no `.W` |
| Med.ReadTexts | MED.py:16-19 | the record loop appends, in record order, exactly the stripped `.W` text of each record |
| Med.ParseQueries | MED.py:22-29 | queries are read exactly as documents are, empty ones kept |
| Med.UntaggedRecord | MED.py:18-19 | a record without `.W` gives the empty text |
| Med.TaggedRecord | MED.py:18-19 | a found `.W` field is non-empty and ends at `.I` or at the end |
| Med.ParseQrels | MED.py:31-41 | the judgements use field 0 as query id and field 2 as document id |
| Med.SecondFieldIgnored | MED.py:35-40 | two lines that agree on fields 0 and 2 contribute the same, whatever field 1 holds |
| Med.ProcessDataset | MED.py:43-84 | succeeds exactly when the judgements read; then returns the ranked 512 runs with no stopwords |
| Cacm.DocumentText | cacm.py:18-21 | a document text is stripped |
| Cacm.ParseDocuments | cacm.py:14-22 | one stripped title-plus-body text per marker |
| Cacm.ReadDocuments | cacm.py:17-21 | the record loop appends, in record order, exactly the stripped title-plus-body text of each record |
| Cacm.UntaggedRecord | cacm.py:18-21 | a record with neither `.T` nor `.B` gives the empty document, which is kept |
| Cacm.TitleLeads | cacm.py:18-21 | a found title that starts with a non-blank character starts the document text |
| Cacm.ParseQueries | cacm.py:24-30 | one stripped `.W` text per marker, "" when the record has none |
| Cacm.ReadQueries | cacm.py:26-29 | the record loop appends, in record order, exactly the stripped `.W` text of each record |
| Cacm.UnaskedRecord | cacm.py:28-29 | a record without `.W` gives the empty query |
| Cacm.AskedRecord | cacm.py:28-29 | a found `.W` field is non-empty and ends at `.N` or at the end |
| Cacm.ParseQrels | cacm.py:32-42 | the local reader uses field 0 as query id and field 1 as document id |
| Cacm.StopwordSet | functions.py:13-18 | every stopword is a non-empty whitespace-free word of the file, and every word of the file is a stopword |
| Cacm.ProcessDatasetAsWritten | cacm.py:59-62 | every run fails with AttributeError on `parse_qrels`, whatever the files hold |
| Cacm.ProcessDataset | cacm.py:44-83 | with the local reader: succeeds exactly when the judgements read, and otherwise fails with the reader's error; on success returns the ranked 512 runs |
| TimeData.ParseDocuments | time-data.py:14-20 | one stripped text per `*TEXT` marker, "" when the record has no page header |
| TimeData.ReadDocuments | time-data.py:17-19 | the record loop appends, in record order, exactly the stripped page text of each record |
| TimeData.UnpagedRecord | time-data.py:18-19 | a record without `PAGE ` gives the empty text |
| TimeData.PagedRecord | time-data.py:18-19 | a found text starts after the header's blank line and ends at `*TEXT` or at the end |
| TimeData.Queries | time-data.py:22-24 | one stripped query per `*FIND` block |
| TimeData.QueryBlocks | time-data.py:23-24 | query k is the stripped k-th block, and the blocks are in file order without overlap |
| TimeData.QuerySearches | time-data.py:23 | block k is what `re.search` finds from the end of block k - 1 (from the start for the first), and a search from the end of the last block finds nothing |
| TimeData.QueryHeader | time-data.py:23 | block k starts right after the leftmost `*FIND`, whitespace, digits and blank line at or after the end of block k - 1 |
| TimeData.NoMoreHeaders | time-data.py:23 | no `*FIND` header matches after the end of the last block |
| TimeData.EveryHeaderRead | time-data.py:23 | every `*FIND`, whitespace, digits and blank line followed by at least one character lies before the end of the last block, so no query is lost |
| TimeData.QueryBlockEnds | time-data.py:23 | a block body holds no later `*FIND` and ends at `*FIND` or at the end |
| TimeData.NoFindNoQuery | time-data.py:23 | a file without `*FIND` has no queries |
| TimeData.ParseQrels | time-data.py:26-38 | short lines are skipped; every id after the first field is added to that line's query, and repeated query ids collect the union |
| TimeData.StopwordSet | time-data.py:40-43 | every stopword is stripped and has no lower-case letter; each line gives one |
| TimeData.LetteredTokensSurvive | time-data.py:42 | no normalised token with a letter is ever a stopword, so a stopword file whose words all contain letters removes nothing |
| TimeData.ProcessDataset | time-data.py:45-86 | succeeds exactly when the judgements read; then returns the ranked 512 runs |

## Findings

| source | as written | input that shows it | evidently intended | confidence | as-written member | corrected member |
|---|---|---|---|---|---|---|
| cacm.py:62 | `functions.parse_qrels(...)`: functions.py defines no `parse_qrels`, so the call raises AttributeError | any input files | the `parse_qrels` defined in cacm.py:32-42, whose result the sweep then uses | high (not executed) | Cacm.ProcessDatasetAsWritten | Cacm.ProcessDataset |

## Left out

- File I/O (`read_file`, `read_stopwords`'s `open`, the `open` in each `parse_qrels`). The model takes file contents or lines as parameters.
- `read_stopwords`' path check: an empty path giving the empty set (functions.py:14-15). Every driver passes a non-empty path.
- `CustomTfidfVectorizer` and `compute_tfidf_and_similarity` (functions.py:30-75). These wrap scikit-learn's vectorizer and cosine similarity, whose internals are outside the code base, and compute floating-point logarithms and norms. The sweep takes the similarity computation as an opaque parameter.
- `np.argsort`'s tie order (functions.py:84). The ranking is a parameter required to be a score-ordered permutation of the document indices.
- The Porter stemmer (functions.py:26-27). It is a parameter `stem`.
- Unicode: characters are ASCII only. `\w`, `isspace`, `lower` and `upper` follow their ASCII meaning, and any other character is neither a word character nor whitespace.
- Floating point: scores and precisions are exact reals, so no rounding is modelled.
- Sweep.SortByScore: states the non-increasing order only when every score is defined; stability and permutation are always stated. A NaN MAP (`None`) has no place in Python's float order, so that ordering is not modelled.
- Sweep.ProcessDataset: states the non-increasing order of the results only when every score is defined, for the same reason.
- `print` reporting and the result formatting (e.g. npl.py:98-102).
- The outer loop over `datasets.items()`. Each script holds a single dataset, so the model runs one dataset per call.
- The npl splitter `re.split(r'\s*/\s*')` is modelled as a split at '/', because each piece is stripped right after. The whitespace the regex removes around '/' is exactly what `strip` removes.
- In npl.py the stopword list is passed to `preprocess_text` as the set of its entries, since `in` on a list and on a set agree.
- `int()` of a field accepts optional sign, digits and single underscores between digits; other forms `int()` accepts (non-ASCII digits) are rejected.
