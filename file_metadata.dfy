/**
 * The rules of the File Metadata step (`FileMetadata.buildOutputRows` and
 * `detectCharset`): which configured candidates reach the delimiter detector,
 * how the row limit is read and turned into a byte ceiling for encoding
 * detection, how a detection result becomes output values, which lines are
 * skipped and sampled, when the first line is taken as a header, and how the
 * columns are named.
 *
 * What the step calls but cannot be seen here is a parameter: the file's
 * bytes and decoded lines, the charset prober, the delimiter detector's
 * verdict, the CSV tokenizer and the per-column type evaluator.
 */
module FileMetadataStep {
  import opened Wrappers
  import opened JavaLang
  import opened EncodingDetection
  import opened Delimiters

  function Min(a: int, b: int): int {
    if a <= b then a else b
  }

  function Max(a: int, b: int): int {
    if a <= b then b else a
  }

  // ---------------------------------------------------------------------------
  // Candidate filtering
  // ---------------------------------------------------------------------------

  /** The single character of every candidate whose Java length is exactly one, in order. */
  function SingleChars(candidates: seq<string>): seq<char> {
    if candidates == [] then []
    else
      var last := candidates[|candidates| - 1];
      Utf16LengthOne(last);
      SingleChars(candidates[..|candidates| - 1]) + (if Utf16Length(last) == 1 then [last[0]] else [])
  }

  /**
   * The loop over the configured candidates: those of Java length 0, and those
   * longer than one UTF-16 code unit, are skipped with a warning.
   */
  method FilterCandidates(candidates: seq<string>) returns (chars: seq<char>)
    ensures chars == SingleChars(candidates)
  {
    chars := [];
    for i := 0 to |candidates|
      invariant chars == SingleChars(candidates[..i])
    {
      var candidate := candidates[i];
      assert candidates[..i + 1][..i] == candidates[..i];
      var length := Utf16Length(candidate);
      Utf16LengthOne(candidate);
      if length == 1 {
        chars := chars + [candidate[0]];
      }
    }
    assert candidates[..|candidates|] == candidates;
  }

  /** Filtering keeps order: it distributes over concatenation. */
  lemma {:induction false} SingleCharsConcat(a: seq<string>, b: seq<string>)
    ensures SingleChars(a + b) == SingleChars(a) + SingleChars(b)
    decreases |b|
  {
    if b == [] {
      assert a + b == a;
    } else {
      assert (a + b)[..|a + b| - 1] == a + b[..|b| - 1];
      SingleCharsConcat(a, b[..|b| - 1]);
    }
  }

  /**
   * A character survives filtering exactly when it was configured as a
   * one-character candidate and fits one UTF-16 code unit.
   */
  lemma {:induction false} SingleCharsMembership(candidates: seq<string>, c: char)
    ensures c in SingleChars(candidates) <==> [c] in candidates && IsBmp(c)
    decreases |candidates|
  {
    if candidates != [] {
      var init := candidates[..|candidates| - 1];
      var last := candidates[|candidates| - 1];
      SingleCharsMembership(init, c);
      Utf16LengthOne(last);
      assert candidates == init + [last];
      assert [c] in candidates <==> [c] in init || [c] == last;
      assert |last| == 1 ==> ([c] == last <==> last[0] == c);
    }
  }

  /** When every candidate has Java length one, all of them are kept. */
  lemma {:induction false} SingleCharsKeepsSingles(candidates: seq<string>)
    requires forall i :: 0 <= i < |candidates| ==> Utf16Length(candidates[i]) == 1
    ensures |SingleChars(candidates)| == |candidates|
    ensures forall i :: 0 <= i < |candidates| ==> SingleChars(candidates)[i] == candidates[i][0]
    decreases |candidates|
  {
    if candidates != [] {
      Utf16LengthOne(candidates[|candidates| - 1]);
      SingleCharsKeepsSingles(candidates[..|candidates| - 1]);
    }
  }

  /** A character outside the Basic Multilingual Plane has Java length 2, so as a candidate it is dropped. */
  lemma SupplementaryCandidateDropped()
    ensures SingleChars(["\U{1F600}", ";"]) == [';']
  {
    assert ["\U{1F600}", ";"][..1] == ["\U{1F600}"];
    assert ["\U{1F600}"][..0] == [];
  }

  // ---------------------------------------------------------------------------
  // The row limit and the encoding sample ceiling
  // ---------------------------------------------------------------------------

  /** `limitRows`: blank means 0, anything else goes to `Long.parseLong` untrimmed. */
  function ParseLimitRows(text: string): (r: Result<Long, NumberFormatError>)
    ensures IsBlank(text) ==> r == Success(0)
    ensures r.Failure? ==> r.error == NumberFormatError(text) && !IsBlank(text)
    ensures r.Success? && !IsBlank(text) ==>
      AllDigits(text[1..]) && (IsDigit(text[0]) || text[0] == '-' || text[0] == '+')
  {
    if Trim(text) == [] then Success(0) else ParseLong(text)
  }

  /** Every `long` written in decimal is read back as itself. */
  lemma LimitRowsRoundTrip(n: Long)
    ensures ParseLimitRows(LongToString(n)) == Success(n)
  {
    ParseLongToString(n);
    var s := LongToString(n);
    assert !IsTrimmable(s[0]);
  }

  lemma BlankLimitRowsIsUnlimited(text: string)
    requires IsBlank(text)
    ensures ParseLimitRows(text) == Success(0)
  {
  }

  /** A number with surrounding blanks is rejected: only the emptiness test trims. */
  lemma PaddedLimitRowsIsRejected(text: string, i: nat)
    requires !IsBlank(text) && i < |text| && IsTrimmable(text[i])
    ensures ParseLimitRows(text).Failure?
  {
    ParseLongRejectsTrimmable(text, i);
  }

  /** The ceiling as written, `limitRows * 500` in `long` arithmetic, wrapping on overflow. */
  function SampleCeilingAsWritten(limitRows: Long): (c: Long)
    ensures (c - limitRows * 500) % LongModulus == 0
    ensures LongMin <= limitRows * 500 <= LongMax ==> c == limitRows * 500
  {
    WrapLong(limitRows * 500)
  }

  /**
   * A row limit of about 3.7e16 makes the product wrap to 384 bytes, fewer than a
   * limit of one row gets. One of about 1.8e16 wraps to a negative ceiling, which means
   * unlimited sampling; at 500 bytes a row that is close to what so large a limit asks for.
   */
  lemma SampleCeilingAsWrittenWraps()
    ensures 36893488147419104 * 500 > LongMax
    ensures SampleCeilingAsWritten(36893488147419104) == 384
    ensures SampleCeilingAsWritten(1) == 500
    ensures SampleCeilingAsWritten(18446744073709552) < 0
  {
  }

  /** The ceiling the step means: about 500 bytes per row, saturating at the `long` range. */
  function SampleCeiling(limitRows: Long): (c: Long)
    ensures c <= 0 <==> limitRows <= 0
    ensures LongMin <= limitRows * 500 <= LongMax ==> c == SampleCeilingAsWritten(limitRows)
  {
    if limitRows * 500 > LongMax then LongMax
    else if limitRows * 500 < LongMin then LongMin
    else limitRows * 500
  }

  /**
   * A larger row limit never gives a smaller ceiling. Among positive limits a larger
   * one therefore never samples less; a limit of 0 or less means no ceiling at all.
   */
  lemma SampleCeilingMonotone(a: Long, b: Long)
    requires a <= b
    ensures SampleCeiling(a) <= SampleCeiling(b)
  {
    assert a * 500 <= b * 500;
  }

  // ---------------------------------------------------------------------------
  // From a detection result to output values
  // ---------------------------------------------------------------------------

  /** `DelimiterDetector.DetectionResult`, produced by the detector. */
  datatype DetectionResult = DetectionResult(
    delimiter: char,
    enclosure: Option<char>,
    consistentEnclosure: bool,
    dataLineFrequency: int,
    dataLines: int,
    badHeaders: int,
    badFooters: int)

  /** The values shared by every output row of one file. */
  datatype FormatRow = FormatRow(
    charset: Charset,
    delimiter: char,
    enclosure: string,
    fieldCount: int,
    badHeaders: int,
    badFooters: int)

  /** An absent enclosure is written as the empty string. */
  function EnclosureText(enclosure: Option<char>): string {
    if enclosure.None? then "" else [enclosure.value]
  }

  /** The enclosure the CSV reader is given: NUL when there is none. */
  function ReaderEnclosure(enclosure: Option<char>): char {
    if enclosure.None? then '\0' else enclosure.value
  }

  /** The result's enclosure, read back from its output text. */
  function EnclosureFromText(text: string): Option<char> {
    if text == [] then None else Some(text[0])
  }

  /**
   * The values written for a detection result: they give back its delimiter,
   * enclosure (at most one character, none as ""), frequency and bad-line counts.
   */
  function FormatValues(charset: Charset, d: DetectionResult): (row: FormatRow)
    ensures row.charset == charset && row.delimiter == d.delimiter
    ensures |row.enclosure| <= 1 && EnclosureFromText(row.enclosure) == d.enclosure
    ensures row.fieldCount - 1 == d.dataLineFrequency
    ensures row.badHeaders == d.badHeaders && row.badFooters == d.badFooters
  {
    FormatRow(charset, d.delimiter, EnclosureText(d.enclosure), d.dataLineFrequency + 1, d.badHeaders, d.badFooters)
  }

  // ---------------------------------------------------------------------------
  // Skipping bad header lines and sampling the data records
  // ---------------------------------------------------------------------------

  /** The lines left once `badHeaders` of them have been read, or all of them when there are fewer. */
  function AfterBadHeaders(lines: seq<string>, badHeaders: int): seq<string> {
    lines[Min(Max(badHeaders, 0), |lines|)..]
  }

  /**
   * Count `badHeaders` down to zero, reading one line per step; a read past the
   * last line yields nothing and leaves the reader where it is.
   */
  method SkipLines(lines: seq<string>, badHeaders: int) returns (rest: seq<string>)
    ensures rest == AfterBadHeaders(lines, badHeaders)
    ensures 0 <= badHeaders <= |lines| ==> rest == lines[badHeaders..]
    ensures badHeaders <= 0 ==> rest == lines
    ensures badHeaders >= |lines| ==> rest == []
  {
    var skipLines := badHeaders;
    rest := lines;
    while skipLines > 0
      invariant skipLines <= Max(badHeaders, 0)
      invariant rest == lines[Min(Max(badHeaders, 0) - Max(skipLines, 0), |lines|)..]
    {
      skipLines := skipLines - 1;
      if rest != [] {
        rest := rest[1..];
      }
    }
  }

  /** The values of column `i` in the given records, skipping records too short to have one. */
  function ColumnValues(records: seq<seq<string>>, i: int): seq<string> {
    if records == [] then []
    else
      var last := records[|records| - 1];
      ColumnValues(records[..|records| - 1], i) + (if 0 <= i < |last| then [last[i]] else [])
  }

  /** When every record has column `i`, its values are that column, record by record. */
  lemma {:induction false} ColumnValuesOfFullRecords(records: seq<seq<string>>, i: nat)
    requires forall k :: 0 <= k < |records| ==> i < |records[k]|
    ensures |ColumnValues(records, i)| == |records|
    ensures forall k :: 0 <= k < |records| ==> ColumnValues(records, i)[k] == records[k][i]
    decreases |records|
  {
    if records != [] {
      ColumnValuesOfFullRecords(records[..|records| - 1], i);
    }
  }

  /** A column never has more values than there are records. */
  lemma {:induction false} ColumnValuesBounded(records: seq<seq<string>>, i: nat)
    ensures |ColumnValues(records, i)| <= |records|
    decreases |records|
  {
    if records != [] {
      ColumnValuesBounded(records[..|records| - 1], i);
    }
  }

  /** How many records after the first one the sampling loop reads. */
  function SampledCount(available: nat, dataLines: int): (n: nat)
    requires available >= 1
    ensures 1 + n <= Max(dataLines, 1)
    ensures 1 + n <= available
    ensures 1 <= dataLines <= available ==> 1 + n == dataLines
    ensures dataLines >= available ==> 1 + n == available
  {
    Min(Max(dataLines - 1, 0), available - 1)
  }

  /** The first record and, per column of it, the values fed to that column's evaluator. */
  datatype Sample = Sample(firstLine: seq<string>, columns: seq<seq<string>>)

  datatype StepError =
    | InvalidLimitRows(cause: NumberFormatError)   // NumberFormatException from Long.parseLong
    | InconsistentFormat(message: string)          // KettleStepException when no format was detected
    | NoFirstRecord                                // NullPointerException: readNext() gave no first line

  /** Hand each field of one record to the evaluator of its column; fields past the last evaluator are ignored. */
  method FeedRecord(evaluators: seq<seq<string>>, fields: seq<string>) returns (fed: seq<seq<string>>)
    ensures |fed| == |evaluators|
    ensures forall k :: 0 <= k < |fed| ==> fed[k] == evaluators[k] + (if k < |fields| then [fields[k]] else [])
  {
    fed := evaluators;
    for i := 0 to |fields|
      invariant |fed| == |evaluators|
      invariant forall k :: 0 <= k < |fed| ==> fed[k] == evaluators[k] + (if k < i && k < |fields| then [fields[k]] else [])
    {
      if i < |fed| {
        fed := fed[i := fed[i] + [fields[i]]];
      }
    }
  }

  /**
   * Read the first record, then at most `dataLines - 1` more, stopping early at
   * the end of the records, and feed each field to the evaluator of its column;
   * fields beyond the first record's column count are ignored.
   */
  method SampleColumns(records: seq<seq<string>>, dataLines: int) returns (r: Result<Sample, StepError>)
    ensures records == [] ==> r == Failure(NoFirstRecord)
    ensures records != [] ==>
      var sampled := records[1..1 + SampledCount(|records|, dataLines)];
      r == Success(Sample(records[0], seq(|records[0]|, i => ColumnValues(sampled, i))))
  {
    if records == [] {
      return Failure(NoFirstRecord);
    }
    var firstLine := records[0];
    var remaining := dataLines - 1;
    var n := |firstLine|;
    var evaluators: seq<seq<string>> := seq(n, _ => []);
    var next := 1;
    while remaining > 0
      invariant 1 <= next <= |records|
      invariant next - 1 == Max(dataLines - 1, 0) - Max(remaining, 0)
      invariant evaluators == seq(n, i => ColumnValues(records[1..next], i))
    {
      remaining := remaining - 1;
      if next == |records| {
        break;
      }
      var fields := records[next];
      ghost var before := records[1..next];
      evaluators := FeedRecord(evaluators, fields);
      next := next + 1;
      assert records[1..next] == before + [fields];
      assert records[1..next][..|records[1..next]| - 1] == before;
    }
    assert next - 1 == SampledCount(|records|, dataLines);
    r := Success(Sample(firstLine, evaluators));
  }

  // ---------------------------------------------------------------------------
  // Column types, the header decision and column names
  // ---------------------------------------------------------------------------

  /** The value types of `ValueMetaInterface`. */
  datatype ValueType =
    | TypeNone | TypeNumber | TypeString | TypeDate | TypeBoolean | TypeInteger
    | TypeBigNumber | TypeSerializable | TypeBinary | TypeTimestamp | TypeInternetAddress

  /** The conversion metadata an evaluator advises for a column. */
  datatype ValueMeta = ValueMeta(
    name: string,
    valueType: ValueType,
    length: int,
    precision: int,
    conversionMask: string,
    decimalSymbol: string,
    groupingSymbol: string)

  /**
   * Per column: the evaluator's advice over the data lines, then its advice
   * once the first line has been fed to it as well.
   */
  method EvaluateColumns(sample: Sample, evaluate: seq<string> -> ValueMeta)
    returns (fields: seq<ValueMeta>, firstLineFields: seq<ValueMeta>)
    requires |sample.columns| == |sample.firstLine|
    ensures |fields| == |firstLineFields| == |sample.firstLine|
    ensures forall i :: 0 <= i < |fields| ==>
      fields[i] == evaluate(sample.columns[i])
      && firstLineFields[i] == evaluate(sample.columns[i] + [sample.firstLine[i]])
  {
    fields, firstLineFields := [], [];
    for i := 0 to |sample.firstLine|
      invariant |fields| == |firstLineFields| == i
      invariant forall k :: 0 <= k < i ==>
        fields[k] == evaluate(sample.columns[k])
        && firstLineFields[k] == evaluate(sample.columns[k] + [sample.firstLine[k]])
    {
      fields := fields + [evaluate(sample.columns[i])];
      firstLineFields := firstLineFields + [evaluate(sample.columns[i] + [sample.firstLine[i]])];
    }
  }

  /**
   * The first line is a header when adding it changes some column's type, or
   * when every column is a string column over the data lines alone.
   */
  method DecideHeader(fields: seq<ValueMeta>, firstLineFields: seq<ValueMeta>) returns (hasHeader: bool)
    requires |fields| == |firstLineFields|
    ensures hasHeader <==>
      (exists i :: 0 <= i < |fields| && fields[i].valueType != firstLineFields[i].valueType)
      || (forall i :: 0 <= i < |fields| ==> fields[i].valueType == TypeString)
  {
    hasHeader := false;
    var allStrings := true;
    var i := 0;
    while i < |fields|
      invariant 0 <= i <= |fields|
      invariant forall k :: 0 <= k < i ==> fields[k].valueType == firstLineFields[k].valueType
      invariant allStrings <==> forall k :: 0 <= k < i ==> fields[k].valueType == TypeString
    {
      if fields[i].valueType != TypeString {
        allStrings := false;
      }
      if fields[i].valueType != firstLineFields[i].valueType {
        hasHeader := true;
        break;
      }
      i := i + 1;
    }
    hasHeader := hasHeader || allStrings;
  }

  /** The name given to column number `colNum` (from 1) of a file without a header. */
  function GeneratedName(colNum: nat): string {
    "field_" + NatToString(colNum)
  }

  /** Generated names never clash. */
  lemma GeneratedNamesDistinct(a: nat, b: nat)
    requires a != b
    ensures GeneratedName(a) != GeneratedName(b)
  {
    if GeneratedName(a) == GeneratedName(b) {
      assert GeneratedName(a)[6..] == NatToString(a);
      assert GeneratedName(b)[6..] == NatToString(b);
      NatToStringInjective(a, b);
    }
  }

  /**
   * With a header, the data-line types named by the trimmed first-line values;
   * without one, the types including the first line named field_1 ... field_n.
   */
  method NameFields(hasHeader: bool, firstLine: seq<string>, fields: seq<ValueMeta>, firstLineFields: seq<ValueMeta>)
    returns (named: seq<ValueMeta>)
    requires |fields| == |firstLineFields| == |firstLine|
    ensures |named| == |firstLine|
    ensures hasHeader ==> forall i :: 0 <= i < |named| ==> named[i] == fields[i].(name := Trim(firstLine[i]))
    ensures !hasHeader ==> forall i :: 0 <= i < |named| ==> named[i] == firstLineFields[i].(name := GeneratedName(i + 1))
  {
    if hasHeader {
      named := fields;
      for i := 0 to |named|
        invariant |named| == |fields|
        invariant forall k :: 0 <= k < i ==> named[k] == fields[k].(name := Trim(firstLine[k]))
        invariant forall k :: i <= k < |named| ==> named[k] == fields[k]
      {
        named := named[i := named[i].(name := Trim(firstLine[i]))];
      }
    } else {
      named := firstLineFields;
      var colNum := 1;
      for i := 0 to |named|
        invariant |named| == |firstLineFields| && colNum == i + 1
        invariant forall k :: 0 <= k < i ==> named[k] == firstLineFields[k].(name := GeneratedName(k + 1))
        invariant forall k :: i <= k < |named| ==> named[k] == firstLineFields[k]
      {
        named := named[i := named[i].(name := GeneratedName(colNum))];
        colNum := colNum + 1;
      }
    }
  }

  // ---------------------------------------------------------------------------
  // Output rows
  // ---------------------------------------------------------------------------

  /** The per-column values of an output row; a negative length or precision is written as null. */
  datatype FieldRow = FieldRow(
    name: string,
    valueType: ValueType,
    length: Option<int>,
    precision: Option<int>,
    conversionMask: string,
    decimalSymbol: string,
    groupingSymbol: string)

  function FieldValues(m: ValueMeta): FieldRow {
    FieldRow(m.name, m.valueType,
             if m.length >= 0 then Some(m.length) else None,
             if m.precision >= 0 then Some(m.precision) else None,
             m.conversionMask, m.decimalSymbol, m.groupingSymbol)
  }

  datatype OutputRow =
    | EmptyRow                                                       // the file does not exist
    | MetadataRow(format: FormatRow, hasHeader: bool, field: FieldRow) // one per column

  /** The step's settings, after variable substitution. */
  datatype StepSettings = StepSettings(
    fileName: string,
    limitRows: string,
    defaultCharset: Charset,
    delimiterCandidates: seq<string>,
    enclosureCandidates: seq<string>)

  /** What the step learns from the file system and the libraries it calls. */
  datatype Environment = Environment(
    fileExists: bool,
    fileBytes: seq<ReadResult>,                                   // successive reads of a fresh stream on the file
    decode: Charset -> seq<string>,                               // the file's lines in a charset
    prober: ProberBehaviour,                                      // UniversalDetector
    charsets: CharsetSupport,                                     // Charset.isSupported / forName
    detectDelimiters: DetectorConfig -> Option<DetectionResult>,  // DelimiterDetector.detectDelimiters
    csvRecords: (seq<string>, char, char) -> seq<seq<string>>,    // CSVReader over lines, delimiter, enclosure
    evaluate: seq<string> -> ValueMeta)                           // StringEvaluator fed these values in order

  /** `detectCharset`: a fresh stream on the file, the step's default charset and the `long` product `limitRows*500` as ceiling. */
  method DetectCharset(env: Environment, defaultCharset: Charset, limitRows: Long) returns (charset: Charset)
    requires WellFormed(env.fileBytes)
    ensures charset == DetectEncodingSpec(env.prober, env.fileBytes, 0, defaultCharset, SampleCeilingAsWritten(limitRows), env.charsets)
  {
    var stream := new InputStream(env.fileBytes);
    ghost var prober;
    charset, prober := DetectEncoding(stream, defaultCharset, SampleCeilingAsWritten(limitRows), env.prober, env.charsets);
  }

  /** Boxing a `char` list into an `ArrayList<Character>` puts no null in it. */
  lemma UnboxBoxed(chars: seq<char>)
    ensures var boxed := seq(|chars|, i requires 0 <= i < |chars| => Some(chars[i]));
      NonNullPrefix(boxed) == |chars| && Unboxed(boxed, |chars|) == chars
  {
    var boxed := seq(|chars|, i requires 0 <= i < |chars| => Some(chars[i]));
    assert None !in boxed;
  }

  /** `detectDelimiters`: the builder chain the step runs before asking the detector. */
  method ConfigureDetector(delimiterCandidates: seq<char>, enclosureCandidates: seq<char>, lines: seq<string>,
                           log: Option<LogChannel>, limitRows: Long)
    returns (config: DetectorConfig)
    ensures config == DetectorConfig(delimiterCandidates, enclosureCandidates, Some(LineInput(lines)), 10, 10, log, limitRows)
  {
    var delimiters := seq(|delimiterCandidates|, i requires 0 <= i < |delimiterCandidates| => Some(delimiterCandidates[i]));
    var enclosures := seq(|enclosureCandidates|, i requires 0 <= i < |enclosureCandidates| => Some(enclosureCandidates[i]));
    UnboxBoxed(delimiterCandidates);
    UnboxBoxed(enclosureCandidates);
    var builder := new DelimiterDetectorBuilder();
    var thrown;
    builder, thrown := builder.WithDelimiterCandidateList(delimiters);
    builder, thrown := builder.WithEnclosureCandidateList(enclosures);
    builder := builder.WithInput(Some(LineInput(lines)));
    builder := builder.WithLogger(log);
    builder := builder.WithRowLimit(limitRows);
    var detector := builder.Build();
    config := detector.Config();
  }

  /**
   * The header rule over the sampled columns: adding the first line changes some
   * column's type, or every column is a string column over the data lines alone.
   */
  predicate FirstLineIsHeader(sample: Sample, evaluate: seq<string> -> ValueMeta)
    requires |sample.columns| == |sample.firstLine|
  {
    || (exists i :: 0 <= i < |sample.firstLine|
          && evaluate(sample.columns[i]).valueType != evaluate(sample.columns[i] + [sample.firstLine[i]]).valueType)
    || (forall i :: 0 <= i < |sample.firstLine| ==> evaluate(sample.columns[i]).valueType == TypeString)
  }

  /**
   * The meta written for column `k`: with a header, the data-line advice named by
   * the trimmed first-line value; without, the advice including the first line,
   * named by position.
   */
  function NamedColumn(sample: Sample, evaluate: seq<string> -> ValueMeta, hasHeader: bool, k: nat): ValueMeta
    requires |sample.columns| == |sample.firstLine| && k < |sample.firstLine|
  {
    if hasHeader then evaluate(sample.columns[k]).(name := Trim(sample.firstLine[k]))
    else evaluate(sample.columns[k] + [sample.firstLine[k]]).(name := GeneratedName(k + 1))
  }

  /** The header rule, read on the advice of each column's evaluator. */
  lemma HeaderRuleOnAdvice(sample: Sample, evaluate: seq<string> -> ValueMeta,
                           fields: seq<ValueMeta>, firstLineFields: seq<ValueMeta>)
    requires |sample.columns| == |sample.firstLine| == |fields| == |firstLineFields|
    requires forall i :: 0 <= i < |fields| ==>
      fields[i] == evaluate(sample.columns[i]) && firstLineFields[i] == evaluate(sample.columns[i] + [sample.firstLine[i]])
    ensures FirstLineIsHeader(sample, evaluate) <==>
      (exists i :: 0 <= i < |fields| && fields[i].valueType != firstLineFields[i].valueType)
      || (forall i :: 0 <= i < |fields| ==> fields[i].valueType == TypeString)
  {
  }

  /** The metas `NameFields` produces are the named columns. */
  lemma NamedFieldsAreNamedColumns(sample: Sample, evaluate: seq<string> -> ValueMeta, hasHeader: bool,
                                   fields: seq<ValueMeta>, firstLineFields: seq<ValueMeta>, named: seq<ValueMeta>)
    requires |sample.columns| == |sample.firstLine| == |fields| == |firstLineFields| == |named|
    requires forall i :: 0 <= i < |fields| ==>
      fields[i] == evaluate(sample.columns[i]) && firstLineFields[i] == evaluate(sample.columns[i] + [sample.firstLine[i]])
    requires hasHeader ==> forall i :: 0 <= i < |named| ==> named[i] == fields[i].(name := Trim(sample.firstLine[i]))
    requires !hasHeader ==> forall i :: 0 <= i < |named| ==> named[i] == firstLineFields[i].(name := GeneratedName(i + 1))
    ensures forall k :: 0 <= k < |named| ==> named[k] == NamedColumn(sample, evaluate, hasHeader, k)
  {
  }

  /** One output row per named column, all with the same format values and header flag. */
  method ColumnRows(format: FormatRow, hasHeader: bool, named: seq<ValueMeta>) returns (rows: seq<OutputRow>)
    ensures |rows| == |named|
    ensures forall k :: 0 <= k < |rows| ==> rows[k] == MetadataRow(format, hasHeader, FieldValues(named[k]))
  {
    rows := [];
    for i := 0 to |named|
      invariant |rows| == i
      invariant forall k :: 0 <= k < i ==> rows[k] == MetadataRow(format, hasHeader, FieldValues(named[k]))
    {
      rows := rows + [MetadataRow(format, hasHeader, FieldValues(named[i]))];
    }
  }

  /** Type, header decision and names for the sampled columns: one output row per column of the first record. */
  method DescribeColumns(format: FormatRow, sample: Sample, evaluate: seq<string> -> ValueMeta)
    returns (hasHeader: bool, rows: seq<OutputRow>)
    requires |sample.columns| == |sample.firstLine|
    ensures hasHeader == FirstLineIsHeader(sample, evaluate)
    ensures |rows| == |sample.firstLine|
    ensures forall k :: 0 <= k < |rows| ==>
      rows[k] == MetadataRow(format, hasHeader, FieldValues(NamedColumn(sample, evaluate, hasHeader, k)))
  {
    var fields, firstLineFields := EvaluateColumns(sample, evaluate);
    hasHeader := DecideHeader(fields, firstLineFields);
    HeaderRuleOnAdvice(sample, evaluate, fields, firstLineFields);
    var named := NameFields(hasHeader, sample.firstLine, fields, firstLineFields);
    NamedFieldsAreNamedColumns(sample, evaluate, hasHeader, fields, firstLineFields, named);
    rows := ColumnRows(format, hasHeader, named);
  }

  /** The charset the step detects once `limitRows` has been read. */
  function StepCharset(settings: StepSettings, env: Environment, limitRows: Long): Charset
    requires WellFormed(env.fileBytes)
  {
    DetectEncodingSpec(env.prober, env.fileBytes, 0, settings.defaultCharset, SampleCeilingAsWritten(limitRows), env.charsets)
  }

  /** The settings the step hands to the delimiter detector. */
  function StepDetectorConfig(settings: StepSettings, env: Environment, log: Option<LogChannel>, limitRows: Long): DetectorConfig
    requires WellFormed(env.fileBytes)
  {
    DetectorConfig(SingleChars(settings.delimiterCandidates), SingleChars(settings.enclosureCandidates),
                   Some(LineInput(env.decode(StepCharset(settings, env, limitRows)))), 10, 10, log, limitRows)
  }

  /** The error message of a file whose format could not be detected. */
  function InconsistentFormatMessage(fileName: string): string {
    "Could not determine a consistent format for file " + fileName
  }

  /** `buildOutputRows`, from the file-existence check to the rows it puts, one per column. */
  method BuildOutputRows(settings: StepSettings, env: Environment, log: Option<LogChannel>)
    returns (r: Result<seq<OutputRow>, StepError>)
    requires WellFormed(env.fileBytes)
    ensures !env.fileExists ==> r == Success([EmptyRow])
    ensures env.fileExists && ParseLimitRows(settings.limitRows).Failure? ==>
      r == Failure(InvalidLimitRows(ParseLimitRows(settings.limitRows).error))
    ensures env.fileExists && ParseLimitRows(settings.limitRows).Success? ==>
      var limitRows := ParseLimitRows(settings.limitRows).value;
      var detection := env.detectDelimiters(StepDetectorConfig(settings, env, log, limitRows));
      && (detection.None? ==> r == Failure(InconsistentFormat(InconsistentFormatMessage(settings.fileName))))
      && (detection.Some? ==>
            var d := detection.value;
            var lines := env.decode(StepCharset(settings, env, limitRows));
            var records := env.csvRecords(AfterBadHeaders(lines, d.badHeaders), d.delimiter, ReaderEnclosure(d.enclosure));
            && (records == [] ==> r == Failure(NoFirstRecord))
            && (records != [] ==>
                  && r.Success? && |r.value| == |records[0]|
                  && forall row <- r.value ::
                       row.MetadataRow? && row.format == FormatValues(StepCharset(settings, env, limitRows), d)))
  {
    if !env.fileExists {
      return Success([EmptyRow]);
    }
    var limit := ParseLimitRows(settings.limitRows);
    if limit.Failure? {
      return Failure(InvalidLimitRows(limit.error));
    }
    var limitRows := limit.value;

    var delimiterCandidates := FilterCandidates(settings.delimiterCandidates);
    var enclosureCandidates := FilterCandidates(settings.enclosureCandidates);

    var charset := DetectCharset(env, settings.defaultCharset, limitRows);
    var lines := env.decode(charset);

    var config := ConfigureDetector(delimiterCandidates, enclosureCandidates, lines, log, limitRows);
    assert config == StepDetectorConfig(settings, env, log, limitRows);
    var detection := env.detectDelimiters(config);
    if detection.None? {
      return Failure(InconsistentFormat(InconsistentFormatMessage(settings.fileName)));
    }
    var d := detection.value;
    var format := FormatValues(charset, d);

    var rest := SkipLines(lines, d.badHeaders);
    var records := env.csvRecords(rest, d.delimiter, ReaderEnclosure(d.enclosure));
    var sampled := SampleColumns(records, d.dataLines);
    if sampled.Failure? {
      return Failure(sampled.error);
    }
    var sample := sampled.value;

    var hasHeader, rows := DescribeColumns(format, sample, env.evaluate);
    r := Success(rows);
  }
}
