# File Metadata step: a verified model

The File Metadata step of the Pentaho file-metadata plugin inspects a
delimited text file. For each column it emits one row with these values:

- the file's charset;
- the delimiter and enclosure;
- the field count and the number of bad header and footer lines;
- whether the first line is a header;
- the column's name, type, length, precision, conversion mask and symbols.

This project models the deterministic parts of that step in Dafny and proves
what they guarantee.

- `encoding_detector.dfy` (module `EncodingDetection`) models
  `EncodingDetector.detectEncoding` imperatively.
  - A 4096-byte buffer is refilled from an input stream.
  - A loop counts the bytes and stops at the sample ceiling.
  - The charset prober is an object that logs the calls it receives and gets
    one more `handleData` after the loop.
  - Any exception swallowed by the method leads to the fallback charset, as
    does a name that is missing or unsupported.
  - A recursive function `SampleLoop` specifies the loop, and the method is
    proved equal to it. The lemmas state what the loop and the flush after it
    guarantee.
- `delimiter_detector_builder.dfy` (module `Delimiters`) models the
  `DelimiterDetectorBuilder` class.
  - The builder's fields are updated by its `with*` methods.
  - Its two `ArrayList<Character>` candidate lists are cleared and refilled
    in place.
  - `build` hands the very same list objects to a new detector. The detector
    is modelled only by its configuration fields and setters.
- `file_metadata.dfy` (module `FileMetadataStep`) models the rules inside
  `FileMetadata.buildOutputRows` and the ceiling passed in `detectCharset`:
  - filtering candidates down to single characters;
  - parsing `limitRows`;
  - the byte ceiling for the encoding sample;
  - turning a detection result into output values;
  - skipping bad header lines and sampling records;
  - the header decision;
  - column naming;
  - the builder chain used to configure the detector.
- `java_lang.dfy` (module `JavaLang`) holds the Java platform behaviour these
  rules rely on:
  - `long` range and wrap-around;
  - `String.length` in UTF-16 code units;
  - `String.trim`;
  - `Long.parseLong`;
  - decimal rendering of numbers.
- `wrappers.dfy` holds `Option` and `Result`.

Whatever the step gets from outside is a parameter of the model:

- whether the file exists, its bytes (as successive read results) and its
  decoded lines;
- the prober's answers;
- `Charset.isSupported` and `Charset.forName`;
- the delimiter detector's verdict;
- the CSV tokenizer and the per-column type evaluator.

## Model

| member | source | states |
|---|---|---|
| EncodingDetection.DetectEncoding | src/main/java/org/pentaho/di/trans/steps/filemetadata/util/encoding/EncodingDetector.java:11-44 | Creates a fresh prober. The calls the prober receives are the ones `ProbeStream` lists, and the returned charset is `DetectEncodingSpec`. Both are stated in terms of the stream's read results, the ceiling and the fallback. |
| EncodingDetection.SampledBytes | src/main/java/org/pentaho/di/trans/steps/filemetadata/util/encoding/EncodingDetector.java:14-24 | The loop's byte count equals the sum of the chunk lengths passed to `handleData` in the loop. Each chunk is 1 to 4096 bytes. With a positive ceiling the count never exceeds the ceiling plus 4096. |
| EncodingDetection.UnlimitedSamplingHasNoCeiling | src/main/java/org/pentaho/di/trans/steps/filemetadata/util/encoding/EncodingDetector.java:21 | With a ceiling of 0 or less, the loop ends only at the end of the stream or when the prober reports done. |
| EncodingDetection.ProbeFinishesInOrder | src/main/java/org/pentaho/di/trans/steps/filemetadata/util/encoding/EncodingDetector.java:26-31 | When no read fails and the prober never throws, the loop is followed by exactly these calls, in order: `isDone`, `handleData` with the last `bytesRead` and the buffer as it stands, `dataEnd`, `getDetectedCharset` and `reset`. The name found is the one `getDetectedCharset` answered. |
| EncodingDetection.CeilingExitRefeedsLastChunk | src/main/java/org/pentaho/di/trans/steps/filemetadata/util/encoding/EncodingDetector.java:21-27 | A loop stopped by the ceiling is followed by a flush `handleData` that feeds the last chunk a second time. |
| EncodingDetection.ProbeResetsOrFallsBack | src/main/java/org/pentaho/di/trans/steps/filemetadata/util/encoding/EncodingDetector.java:19-36 | A probe that throws anywhere leaves no charset name. One that does not throw ends with `reset`, so no prober state carries over. |
| EncodingDetection.DetectedOrDefault | src/main/java/org/pentaho/di/trans/steps/filemetadata/util/encoding/EncodingDetector.java:38-42 | The result is `forName(name)` exactly when the name is non-null and supported. Otherwise it is the default charset, unchanged, including after any exception. |
| EncodingDetection.FirstReadFailureFallsBack | src/main/java/org/pentaho/di/trans/steps/filemetadata/util/encoding/EncodingDetector.java:19-36 | An IOException from the first `read` is swallowed, whatever the prober does, and the default charset is returned. |
| EncodingDetection.LoopAbortsAtReadFailure | src/main/java/org/pentaho/di/trans/steps/filemetadata/util/encoding/EncodingDetector.java:21-24 | A read that fails after reads that all delivered bytes aborts the sampling loop. This holds when the ceiling was not passed before it and the prober never throws and never reports done, whatever calls it receives. |
| EncodingDetection.ReadFailureFallsBack | src/main/java/org/pentaho/di/trans/steps/filemetadata/util/encoding/EncodingDetector.java:19-42 | An IOException from any later `read` is swallowed too, under the same conditions: earlier reads all delivered bytes, the ceiling was not passed, and the prober never throws and never reports done on any calls. The probe counts as thrown and the default charset is returned. |
| Delimiters.DelimiterDetectorBuilder.constructor | src/main/java/org/pentaho/di/trans/steps/filemetadata/util/delimiters/DelimiterDetectorBuilder.java:11-22 | A new builder has empty, distinct candidate lists, no input and no logger, 10 bad header and footer lines, and row limit 0. |
| Delimiters.DelimiterDetectorBuilder.WithDelimiterCandidates | src/main/java/org/pentaho/di/trans/steps/filemetadata/util/delimiters/DelimiterDetectorBuilder.java:24-30 | Returns the same builder. The delimiter list becomes the candidates in order, earlier contents are discarded, and every other setting is unchanged. |
| Delimiters.DelimiterDetectorBuilder.WithDelimiterCandidateList | src/main/java/org/pentaho/di/trans/steps/filemetadata/util/delimiters/DelimiterDetectorBuilder.java:32-38 | The `List<Character>` overload does the same as the `char...` one. A null element throws a NullPointerException, and the list then holds only the candidates before it. |
| Delimiters.DelimiterDetectorBuilder.WithEnclosureCandidates | src/main/java/org/pentaho/di/trans/steps/filemetadata/util/delimiters/DelimiterDetectorBuilder.java:41-47 | Returns the same builder. The enclosure list becomes the candidates in order, and the delimiter list and other settings are unchanged. |
| Delimiters.DelimiterDetectorBuilder.WithEnclosureCandidateList | src/main/java/org/pentaho/di/trans/steps/filemetadata/util/delimiters/DelimiterDetectorBuilder.java:49-55 | Does for the enclosure list what `WithDelimiterCandidateList` does for the delimiter list, including the NullPointerException on a null element. |
| Delimiters.RefillUnboxing | src/main/java/org/pentaho/di/trans/steps/filemetadata/util/delimiters/DelimiterDetectorBuilder.java:32-38 | Clears the list and appends the unboxed candidates in order. It throws exactly when there is a null element, and the list then holds the candidates before the first null. |
| Delimiters.DelimiterDetectorBuilder.WithInput | src/main/java/org/pentaho/di/trans/steps/filemetadata/util/delimiters/DelimiterDetectorBuilder.java:57-60 | Sets only the input and returns the same builder. |
| Delimiters.DelimiterDetectorBuilder.WithLogger | src/main/java/org/pentaho/di/trans/steps/filemetadata/util/delimiters/DelimiterDetectorBuilder.java:62-65 | Sets only the logger and returns the same builder. |
| Delimiters.DelimiterDetectorBuilder.WithMaxBadLines | src/main/java/org/pentaho/di/trans/steps/filemetadata/util/delimiters/DelimiterDetectorBuilder.java:67-71 | Sets the header limit and the footer limit, and changes nothing else. |
| Delimiters.DelimiterDetectorBuilder.Build | src/main/java/org/pentaho/di/trans/steps/filemetadata/util/delimiters/DelimiterDetectorBuilder.java:73-83 | Creates a new detector holding every setting unchanged. It receives the builder's own two list objects, given that the detector's setters are plain field writes. |
| Delimiters.DelimiterDetectorBuilder.WithRowLimit | src/main/java/org/pentaho/di/trans/steps/filemetadata/util/delimiters/DelimiterDetectorBuilder.java:86-89 | Sets only the row limit and returns the same builder. |
| Delimiters.ConfigureOnceAndTwice | src/main/java/org/pentaho/di/trans/steps/filemetadata/util/delimiters/DelimiterDetectorBuilder.java:24-89 | Calling each `with*` twice with the same argument builds the same detector settings as calling it once. Those settings are exactly the arguments. |
| Delimiters.ReconfigureAfterBuild | src/main/java/org/pentaho/di/trans/steps/filemetadata/util/delimiters/DelimiterDetectorBuilder.java:73-83 | The lists are shared rather than copied: a `withDelimiterCandidates` after `build` changes the detector already built, given that the detector's setters are plain field writes. |
| FileMetadataStep.FilterCandidates | src/main/java/org/pentaho/di/trans/steps/filemetadata/FileMetadata.java:179-205 | The candidate loop yields `SingleChars` of the configured candidates, testing each candidate's Java length in UTF-16 code units. |
| FileMetadataStep.SingleCharsMembership | src/main/java/org/pentaho/di/trans/steps/filemetadata/FileMetadata.java:179-191 | A character is kept if and only if it was configured as a one-character candidate and fits one UTF-16 code unit. Empty candidates, longer candidates and characters outside the Basic Multilingual Plane (Java length 2) are dropped. |
| FileMetadataStep.SingleCharsConcat | src/main/java/org/pentaho/di/trans/steps/filemetadata/FileMetadata.java:193-205 | Filtering distributes over concatenation, so the kept characters stay in their original order. |
| FileMetadataStep.SingleCharsKeepsSingles | src/main/java/org/pentaho/di/trans/steps/filemetadata/FileMetadata.java:179-191 | When every candidate has Java length one, all are kept, in order. |
| FileMetadataStep.ParseLimitRows | src/main/java/org/pentaho/di/trans/steps/filemetadata/FileMetadata.java:169-175 | A blank `limitRows` gives 0. Any other text succeeds only as an optional sign followed by digits. A failure is a NumberFormatException carrying the untrimmed text. |
| FileMetadataStep.LimitRowsRoundTrip | src/main/java/org/pentaho/di/trans/steps/filemetadata/FileMetadata.java:169-175 | Any `long` written in decimal reads back as itself. |
| FileMetadataStep.BlankLimitRowsIsUnlimited | src/main/java/org/pentaho/di/trans/steps/filemetadata/FileMetadata.java:170-172 | An empty or whitespace-only `limitRows` gives 0. |
| FileMetadataStep.PaddedLimitRowsIsRejected | src/main/java/org/pentaho/di/trans/steps/filemetadata/FileMetadata.java:170-175 | A non-blank `limitRows` with surrounding whitespace is parsed untrimmed and fails with a NumberFormatException. |
| FileMetadataStep.SampleCeilingAsWritten | src/main/java/org/pentaho/di/trans/steps/filemetadata/FileMetadata.java:334 | The ceiling is `limitRows*500` reduced to the `long` range modulo 2^64. It equals the product whenever the product fits. |
| FileMetadataStep.SampleCeilingAsWrittenWraps | src/main/java/org/pentaho/di/trans/steps/filemetadata/FileMetadata.java:334 | `limitRows*500` in `long` arithmetic wraps around: a limit of 36893488147419104 rows samples 384 bytes, fewer than the 500 bytes of a one-row limit. |
| FileMetadataStep.SampleCeiling | src/main/java/org/pentaho/di/trans/steps/filemetadata/FileMetadata.java:334 | The ceiling is 0 or less, which means unlimited sampling, exactly when `limitRows` is 0 or less. It agrees with `limitRows*500` whenever the product fits in a `long`. |
| FileMetadataStep.SampleCeilingMonotone | src/main/java/org/pentaho/di/trans/steps/filemetadata/FileMetadata.java:334 | A larger row limit never gives a smaller ceiling. |
| FileMetadataStep.DetectCharset | src/main/java/org/pentaho/di/trans/steps/filemetadata/FileMetadata.java:332-340 | Runs encoding detection on a fresh stream over the file, with the step's default charset. The ceiling is the as-written `long` product `SampleCeilingAsWritten(limitRows)`, wrap-around included. |
| FileMetadataStep.FormatValues | src/main/java/org/pentaho/di/trans/steps/filemetadata/FileMetadata.java:218-227 | The output values give back the charset, the result's delimiter and its bad-line counts. The frequency is the field count minus 1. The enclosure is at most one character, read back from its text, where "" means absent. |
| FileMetadataStep.SkipLines | src/main/java/org/pentaho/di/trans/steps/filemetadata/FileMetadata.java:231-238 | Exactly `badHeaders` lines are skipped. A count of 0 or less skips nothing, and a count beyond the end leaves nothing. |
| FileMetadataStep.SampledCount | src/main/java/org/pentaho/di/trans/steps/filemetadata/FileMetadata.java:241-252 | The first record is always read, even when `dataLines` is 0 or less. Beyond it, at most `dataLines` records are read in all, and never more than exist. When `dataLines` is at least 1 and enough records exist, exactly `dataLines` are read. When `dataLines` is at least the number of records, every record is read. |
| FileMetadataStep.SampleColumns | src/main/java/org/pentaho/di/trans/steps/filemetadata/FileMetadata.java:240-257 | No first record means a NullPointerException. Otherwise each column of the first record is fed the values of that column in the sampled records, and fields beyond the first record's width are ignored. |
| FileMetadataStep.FeedRecord | src/main/java/org/pentaho/di/trans/steps/filemetadata/FileMetadata.java:253-256 | Each field of a record is appended to the values of its column. Fields past the first record's width are dropped, and columns the record lacks are unchanged. |
| FileMetadataStep.ColumnValuesOfFullRecords | src/main/java/org/pentaho/di/trans/steps/filemetadata/FileMetadata.java:253-256 | When every record has column `i`, the column's values are exactly those fields, record by record. |
| FileMetadataStep.ColumnValuesBounded | src/main/java/org/pentaho/di/trans/steps/filemetadata/FileMetadata.java:253-256 | A column never has more values than there are records. |
| FileMetadataStep.EvaluateColumns | src/main/java/org/pentaho/di/trans/steps/filemetadata/FileMetadata.java:259-267 | For each column, the evaluator's advice over the data lines comes first. Then comes its advice once the first line has been added. |
| FileMetadataStep.DecideHeader | src/main/java/org/pentaho/di/trans/steps/filemetadata/FileMetadata.java:269-285 | The first line is a header if and only if some column's type changes when the first line is added, or every column's data-line type is STRING. |
| FileMetadataStep.NameFields | src/main/java/org/pentaho/di/trans/steps/filemetadata/FileMetadata.java:287-299 | With a header, each column takes the data-line meta and its trimmed first-line value as name. Without one, it takes the first-line-inclusive meta, named `field_` followed by its 1-based position. |
| FileMetadataStep.GeneratedNamesDistinct | src/main/java/org/pentaho/di/trans/steps/filemetadata/FileMetadata.java:295-298 | Generated column names never clash. |
| FileMetadataStep.ColumnRows | src/main/java/org/pentaho/di/trans/steps/filemetadata/FileMetadata.java:301-319 | Gives one row per named column, in column order. Every row has the same format values and header flag. |
| FileMetadataStep.DescribeColumns | src/main/java/org/pentaho/di/trans/steps/filemetadata/FileMetadata.java:259-319 | Gives one row per column of the first record, and every row has the same format values. The returned header flag, carried by every row, is `FirstLineIsHeader`: some column's type changes when the first line is added, or every column's data-line type is STRING. Each row's field values come from the evaluated and named column meta, and a negative length or precision becomes null. |
| FileMetadataStep.ConfigureDetector | src/main/java/org/pentaho/di/trans/steps/filemetadata/FileMetadata.java:346-354 | The detector is configured with the filtered candidates, the decoded file, the logger and `limitRows`, and keeps the builder's default 10 bad header and footer lines. |
| FileMetadataStep.BuildOutputRows | src/main/java/org/pentaho/di/trans/steps/filemetadata/FileMetadata.java:159-319 | A missing file gives one empty row, and an unparsable `limitRows` gives an error. No detection gives "Could not determine a consistent format for file …". No first record gives an error. Otherwise there is one row per column of the first record, and each carries the detection's format values and the charset detected under the as-written ceiling. |

## Left out

- The delimiter and enclosure detection algorithm (`DelimiterDetector.detectDelimiters`) is not part of this model. Its verdict is a parameter, a function of the detector's settings.
- The statistical prober inside `UniversalDetector` is not modelled. Its answers come from a behaviour given as parameters: done, detected name and whether it throws. Each is a function of the calls received so far.
- `FileMetadataMeta` is not modelled: persistence, the dialog and the row-metadata declaration.
- The step lifecycle is not modelled: `processRow`, `init` and `dispose`, `putRow`, `RowDataUtil` copying, passing an input row's fields through, and logging.
- `environmentSubstitute` is not modelled. Settings are taken after substitution.
- Foreign libraries are not modelled. The model takes as parameters:
  - `KettleVFS` file access;
  - decoding through `InputStreamReader`;
  - `CSVReader` tokenising;
  - `StringEvaluator` type inference.
- `Charset.forName` of the configured default charset is not modelled; that charset is given as a value. Exceptions from `KettleVFS.fileExists` and the IO and array-index catch blocks of `buildOutputRows` are not modelled either.
- `detectCharset` and `detectDelimiters` rethrow a `FileNotFoundException`, `IOException` or `KettleFileException` from opening or reading the file as a `RuntimeException`. These failures of file access are not modelled: the file's bytes and lines are given as values, and an IOException while sampling is swallowed inside `detectEncoding`, as `DetectEncoding` models.
- The detector's setters are taken to be plain field writes. `DelimiterDetector` is not part of this model, so the sharing of the candidate lists that `Build` and `ReconfigureAfterBuild` state assumes `setDelimiterCandidates` and `setEnclosureCandidates` keep the list they are given.
- FileMetadataStep.FilterCandidates: candidates are strings of Unicode scalar values. A candidate made of a lone UTF-16 surrogate, which Java's length-one test would keep, cannot be written in the model. Every other candidate gets its Java length, counted in UTF-16 code units.
- A column type is written out by `getTypeDesc()` as its description string. The model emits the type enum value instead.
- EncodingDetection.DetectEncoding: `Charset.isSupported` rejects an illegal name by throwing IllegalCharsetNameException outside the try block. The model treats `isSupported` as a total predicate.
- JavaLang.ParseLong: accepts only ASCII digits, while `Long.parseLong` also accepts other Unicode decimal digits.
- FileMetadataStep.SampleColumns: `dataLines` is an unbounded integer, so the `long` decrement wrapping from `Long.MIN_VALUE` is not modelled.
- FileMetadataStep.EvaluateColumns: the evaluator's advice is a value, so a meta object that the evaluator changes after it has been returned is not modelled.
- FileMetadataStep.BuildOutputRows: the contract spells out the common format values and the row count. `DescribeColumns` spells out the per-column values.

## Findings

| source | as written | input that shows it | evidently intended | confidence | as-written member | corrected member |
|---|---|---|---|---|---|---|
| src/main/java/org/pentaho/di/trans/steps/filemetadata/FileMetadata.java:334 | The sample ceiling `limitRows*500` is computed in `long` arithmetic and wraps on overflow. | `limitRows` = 36893488147419104 gives a ceiling of 384 bytes, fewer than the 500 bytes of `limitRows` = 1. This 384-byte case is the defect. A limit of about 1.8e16 rows wraps to a negative ceiling, which means unlimited sampling; at 500 bytes a row that is about what so large a limit asks for. | About 500 bytes per row, where a larger row limit never gives a smaller ceiling, so among positive limits a larger one never samples less. A limit of 0 or less still means no ceiling. | not executed | FileMetadataStep.SampleCeilingAsWrittenWraps | FileMetadataStep.SampleCeilingMonotone |

`DetectCharset` and `BuildOutputRows` use the as-written ceiling, so that they model the program as it runs. `SampleCeiling` is the corrected ceiling, the one the step evidently means.
