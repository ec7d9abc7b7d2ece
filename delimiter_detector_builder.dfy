/**
 * `DelimiterDetectorBuilder`: a fluent configuration object whose `with*`
 * methods update its fields and refill its two candidate lists in place, and
 * whose `build` hands every field to a new `DelimiterDetector`.
 *
 * Only the detector's configuration surface is modelled (its fields and
 * setters); how it detects delimiters is not part of this model.
 */
module Delimiters {
  import opened Wrappers
  import opened JavaLang

  /** The `BufferedReader` the detector reads: the lines of the decoded file. */
  datatype LineInput = LineInput(lines: seq<string>)

  /** A logging channel; what is logged is not modelled. */
  datatype LogChannel = LogChannel(channelName: string)

  /** A `java.util.ArrayList<Character>`, cleared and appended to in place. */
  class CharList {
    var items: seq<char>

    constructor ()
      ensures items == []
    {
      items := [];
    }

    method Clear()
      modifies this
      ensures items == []
    {
      items := [];
    }

    method Add(c: char)
      modifies this
      ensures items == old(items) + [c]
    {
      items := items + [c];
    }
  }

  /** The settings a detector runs with, as values. */
  datatype DetectorConfig = DetectorConfig(
    delimiterCandidates: seq<char>,
    enclosureCandidates: seq<char>,
    input: Option<LineInput>,
    maxBadHeaderLines: Long,
    maxBadFooterLines: Long,
    log: Option<LogChannel>,
    rowLimit: Long)

  /** The configuration surface of `DelimiterDetector`: fields written by plain setters. */
  class DelimiterDetector {
    var delimiterCandidates: CharList?
    var enclosureCandidates: CharList?
    var input: Option<LineInput>
    var maxBadHeaderLines: Long
    var maxBadFooterLines: Long
    var log: Option<LogChannel>
    var rowLimit: Long

    constructor ()
      ensures delimiterCandidates == null && enclosureCandidates == null
      ensures input == None && log == None
    {
      delimiterCandidates, enclosureCandidates := null, null;
      input, log := None, None;
      maxBadHeaderLines, maxBadFooterLines, rowLimit := 0, 0, 0;
    }

    method SetDelimiterCandidates(candidates: CharList)
      modifies this`delimiterCandidates
      ensures delimiterCandidates == candidates
    {
      delimiterCandidates := candidates;
    }

    method SetEnclosureCandidates(candidates: CharList)
      modifies this`enclosureCandidates
      ensures enclosureCandidates == candidates
    {
      enclosureCandidates := candidates;
    }

    method SetInput(input: Option<LineInput>)
      modifies this`input
      ensures this.input == input
    {
      this.input := input;
    }

    method SetMaxBadHeaderLines(n: Long)
      modifies this`maxBadHeaderLines
      ensures maxBadHeaderLines == n
    {
      maxBadHeaderLines := n;
    }

    method SetMaxBadFooterLines(n: Long)
      modifies this`maxBadFooterLines
      ensures maxBadFooterLines == n
    {
      maxBadFooterLines := n;
    }

    method SetLog(log: Option<LogChannel>)
      modifies this`log
      ensures this.log == log
    {
      this.log := log;
    }

    method SetRowLimit(n: Long)
      modifies this`rowLimit
      ensures rowLimit == n
    {
      rowLimit := n;
    }

    /** The settings, read through the candidate lists the detector holds. */
    function Config(): DetectorConfig
      reads this, delimiterCandidates, enclosureCandidates
      requires delimiterCandidates != null && enclosureCandidates != null
    {
      DetectorConfig(delimiterCandidates.items, enclosureCandidates.items, input,
                     maxBadHeaderLines, maxBadFooterLines, log, rowLimit)
    }
  }

  /** Clear `list`, then append the candidates one by one. */
  method Refill(list: CharList, candidates: seq<char>)
    modifies list
    ensures list.items == candidates
  {
    list.Clear();
    for i := 0 to |candidates|
      invariant list.items == candidates[..i]
    {
      list.Add(candidates[i]);
    }
  }

  /** Number of leading non-null elements: unboxing the next one throws a NullPointerException. */
  function NonNullPrefix(candidates: seq<Option<char>>): (n: nat)
    ensures n <= |candidates|
    ensures forall i :: 0 <= i < n ==> candidates[i].Some?
    ensures n < |candidates| ==> candidates[n] == None
  {
    if candidates == [] || candidates[0] == None then 0 else 1 + NonNullPrefix(candidates[1..])
  }

  /** The characters of the first `n` candidates, all non-null. */
  function Unboxed(candidates: seq<Option<char>>, n: nat): (r: seq<char>)
    requires n <= |candidates| && forall i :: 0 <= i < n ==> candidates[i].Some?
    ensures |r| == n && forall i :: 0 <= i < n ==> r[i] == candidates[i].value
  {
    seq(n, i requires 0 <= i < n => candidates[i].value)
  }

  /**
   * Clear `list`, then append each boxed candidate, unboxing it: a null element
   * throws (`thrown`) and leaves the list holding the candidates before it.
   */
  method RefillUnboxing(list: CharList, candidates: seq<Option<char>>) returns (thrown: bool)
    modifies list
    ensures thrown <==> None in candidates
    ensures list.items == Unboxed(candidates, NonNullPrefix(candidates))
  {
    list.Clear();
    var n := NonNullPrefix(candidates);
    thrown := false;
    var i := 0;
    while i < |candidates|
      invariant i <= n
      invariant list.items == Unboxed(candidates, i)
      decreases |candidates| - i
    {
      if candidates[i] == None {
        thrown := true;
        break;
      }
      list.Add(candidates[i].value);
      i := i + 1;
    }
    assert thrown ==> candidates[i] == None;
    assert !thrown ==> i == |candidates| == n;
  }

  class DelimiterDetectorBuilder {
    const delimiterCandidates: CharList
    const enclosureCandidates: CharList
    var input: Option<LineInput>
    var log: Option<LogChannel>
    var maxBadHeaderLines: Long
    var maxBadFooterLines: Long
    var rowLimit: Long

    /** The two candidate lists are distinct objects. */
    ghost predicate Valid()
      reads this
    {
      delimiterCandidates != enclosureCandidates
    }

    /** The settings `build` would hand over now. */
    function Config(): DetectorConfig
      reads this, delimiterCandidates, enclosureCandidates
    {
      DetectorConfig(delimiterCandidates.items, enclosureCandidates.items, input,
                     maxBadHeaderLines, maxBadFooterLines, log, rowLimit)
    }

    /** Empty candidate lists, no input and no logger, 10 bad header and footer lines, no row limit. */
    constructor ()
      ensures Valid() && fresh(delimiterCandidates) && fresh(enclosureCandidates)
      ensures Config() == DetectorConfig([], [], None, 10, 10, None, 0)
    {
      delimiterCandidates := new CharList();
      enclosureCandidates := new CharList();
      input, log := None, None;
      maxBadHeaderLines, maxBadFooterLines := 10, 10;
      rowLimit := 0;
    }

    /** `withDelimiterCandidates(char... candidates)`. */
    method WithDelimiterCandidates(candidates: seq<char>) returns (r: DelimiterDetectorBuilder)
      requires Valid()
      modifies delimiterCandidates
      ensures r == this
      ensures Config() == old(Config()).(delimiterCandidates := candidates)
    {
      Refill(delimiterCandidates, candidates);
      r := this;
    }

    /** `withDelimiterCandidates(List<Character> candidates)`; `thrown` is the NullPointerException of a null element. */
    method WithDelimiterCandidateList(candidates: seq<Option<char>>) returns (r: DelimiterDetectorBuilder, thrown: bool)
      requires Valid()
      modifies delimiterCandidates
      ensures r == this
      ensures thrown <==> None in candidates
      ensures Config() == old(Config()).(delimiterCandidates := Unboxed(candidates, NonNullPrefix(candidates)))
    {
      thrown := RefillUnboxing(delimiterCandidates, candidates);
      r := this;
    }

    /** `withEnclosureCandidates(char... candidates)`. */
    method WithEnclosureCandidates(candidates: seq<char>) returns (r: DelimiterDetectorBuilder)
      requires Valid()
      modifies enclosureCandidates
      ensures r == this
      ensures Config() == old(Config()).(enclosureCandidates := candidates)
    {
      Refill(enclosureCandidates, candidates);
      r := this;
    }

    /** `withEnclosureCandidates(List<Character> candidates)`; `thrown` is the NullPointerException of a null element. */
    method WithEnclosureCandidateList(candidates: seq<Option<char>>) returns (r: DelimiterDetectorBuilder, thrown: bool)
      requires Valid()
      modifies enclosureCandidates
      ensures r == this
      ensures thrown <==> None in candidates
      ensures Config() == old(Config()).(enclosureCandidates := Unboxed(candidates, NonNullPrefix(candidates)))
    {
      thrown := RefillUnboxing(enclosureCandidates, candidates);
      r := this;
    }

    method WithInput(input: Option<LineInput>) returns (r: DelimiterDetectorBuilder)
      modifies this`input
      ensures r == this
      ensures Config() == old(Config()).(input := input)
    {
      this.input := input;
      r := this;
    }

    method WithLogger(log: Option<LogChannel>) returns (r: DelimiterDetectorBuilder)
      modifies this`log
      ensures r == this
      ensures Config() == old(Config()).(log := log)
    {
      this.log := log;
      r := this;
    }

    method WithMaxBadLines(header: Long, footer: Long) returns (r: DelimiterDetectorBuilder)
      modifies this`maxBadHeaderLines, this`maxBadFooterLines
      ensures r == this
      ensures Config() == old(Config()).(maxBadHeaderLines := header, maxBadFooterLines := footer)
    {
      maxBadHeaderLines := header;
      maxBadFooterLines := footer;
      r := this;
    }

    method WithRowLimit(limitRows: Long) returns (r: DelimiterDetectorBuilder)
      modifies this`rowLimit
      ensures r == this
      ensures Config() == old(Config()).(rowLimit := limitRows)
    {
      rowLimit := limitRows;
      r := this;
    }

    /**
     * A new detector holding every setting; the candidate lists are handed over
     * as the very same objects, so later `with*Candidates` calls show through.
     */
    method Build() returns (d: DelimiterDetector)
      requires Valid()
      ensures fresh(d)
      ensures d.delimiterCandidates == delimiterCandidates && d.enclosureCandidates == enclosureCandidates
      ensures d.Config() == Config()
    {
      d := new DelimiterDetector();
      d.SetDelimiterCandidates(delimiterCandidates);
      d.SetEnclosureCandidates(enclosureCandidates);
      d.SetInput(input);
      d.SetMaxBadHeaderLines(maxBadHeaderLines);
      d.SetMaxBadFooterLines(maxBadFooterLines);
      d.SetLog(log);
      d.SetRowLimit(rowLimit);
    }
  }

  /**
   * Every `with*` call is idempotent: configuring one builder once and another
   * twice with the same arguments builds detectors with the same settings.
   */
  method ConfigureOnceAndTwice(delimiters: seq<char>, enclosures: seq<char>, input: Option<LineInput>,
                               log: Option<LogChannel>, header: Long, footer: Long, limitRows: Long)
    returns (once: DetectorConfig, twice: DetectorConfig)
    ensures once == twice
    ensures once == DetectorConfig(delimiters, enclosures, input, header, footer, log, limitRows)
  {
    var b1 := new DelimiterDetectorBuilder();
    b1 := b1.WithDelimiterCandidates(delimiters);
    b1 := b1.WithEnclosureCandidates(enclosures);
    b1 := b1.WithInput(input);
    b1 := b1.WithLogger(log);
    b1 := b1.WithMaxBadLines(header, footer);
    b1 := b1.WithRowLimit(limitRows);
    var d1 := b1.Build();
    once := d1.Config();

    var b2 := new DelimiterDetectorBuilder();
    b2 := b2.WithDelimiterCandidates(delimiters);
    b2 := b2.WithDelimiterCandidates(delimiters);
    b2 := b2.WithEnclosureCandidates(enclosures);
    b2 := b2.WithEnclosureCandidates(enclosures);
    b2 := b2.WithInput(input);
    b2 := b2.WithInput(input);
    b2 := b2.WithLogger(log);
    b2 := b2.WithLogger(log);
    b2 := b2.WithMaxBadLines(header, footer);
    b2 := b2.WithMaxBadLines(header, footer);
    b2 := b2.WithRowLimit(limitRows);
    b2 := b2.WithRowLimit(limitRows);
    var d2 := b2.Build();
    twice := d2.Config();
  }

  /**
   * `build` shares the builder's candidate lists with the detector: a
   * `withDelimiterCandidates` after `build` changes the detector built before it.
   */
  method ReconfigureAfterBuild(first: seq<char>, second: seq<char>) returns (seen: seq<char>)
    ensures seen == second
  {
    var builder := new DelimiterDetectorBuilder();
    builder := builder.WithDelimiterCandidates(first);
    var detector := builder.Build();
    builder := builder.WithDelimiterCandidates(second);
    seen := detector.Config().delimiterCandidates;
  }
}
