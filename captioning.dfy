/** `CaptioningService.generateCaptions`: the search command and the parser that turns what the
    search script prints into caption records. */
module Captioning {
  import opened Wrappers
  import opened Errors
  import opened Seqs
  import opened JsStrings
  import opened Paths
  import opened Helper

  const IndexMarker := "index created!"
  const SimilarityTag := "(similarity:"
  const IndexMissingMessage := "Index creation message not found in the output."

  const DefaultBatchSize := "32"
  const DefaultNumberOfAnnotations := "600"
  const DefaultNumberOfResults := "10"

  /** One search hit. The similarity is kept as the text handed to `parseFloat`. */
  datatype CaptionResult = CaptionResult(caption: string, similarityText: string)

  /** The three optional numeric arguments; `None` is an `undefined` argument. */
  datatype SearchArgs = SearchArgs(
    batchSize: Option<string>,
    numberOfAnnotations: Option<string>,
    numberOfResults: Option<string>)

  /** A JavaScript default parameter: `undefined` takes the default. */
  function OrDefault(v: Option<string>, default: string): (r: string)
    ensures v.None? ==> r == default
    ensures v.Some? ==> r == v.value
  {
    match v
    case None => default
    case Some(x) => x
  }

  function CaptioningDirectory(localPath: string): string
  {
    PathJoin(PathJoin("src", "captioning"), localPath)
  }

  /** The flags closing the python command line. */
  function SearchFlags(args: SearchArgs): string
  {
    " --batch_size " + OrDefault(args.batchSize, DefaultBatchSize) +
    " --num_samples " + OrDefault(args.numberOfAnnotations, DefaultNumberOfAnnotations) +
    " --num_results " + OrDefault(args.numberOfResults, DefaultNumberOfResults)
  }

  /** The commands `generateCaptions` runs. */
  function SearchCommands(cfg: Config, imagePath: string, annotationsPath: string, args: SearchArgs)
    : seq<string>
  {
    [ ActivateCondaCommand(cfg),
      "python " + CaptioningDirectory("run_search.py") + " " + imagePath + " " +
      CaptioningDirectory(annotationsPath) + SearchFlags(args) ]
  }

  /** Undefined arguments run the search exactly as batch 32, 600 annotations and 10 results
      would. */
  lemma DefaultSearchFlags()
    ensures SearchFlags(SearchArgs(None, None, None)) == SearchFlags(SearchArgs(Some("32"), Some("600"), Some("10")))
  {
  }

  /** The flags close the python command line. */
  lemma SearchCommandEndsWithFlags(cfg: Config, imagePath: string, annotationsPath: string, args: SearchArgs)
    ensures EndsWith(SearchCommands(cfg, imagePath, annotationsPath, args)[1], SearchFlags(args))
  {
    var prefix := "python " + CaptioningDirectory("run_search.py") + " " + imagePath + " " +
                  CaptioningDirectory(annotationsPath);
    var flags := SearchFlags(args);
    var cmd := SearchCommands(cfg, imagePath, annotationsPath, args)[1];
    assert cmd == prefix + flags;
    assert cmd[|prefix|..] == flags;
  }

  /** `lines.findIndex(line => line.includes('index created!'))`, with -1 as `None`. */
  function FindMarkerLine(lines: seq<string>): (r: Option<nat>)
    ensures r.Some? ==> r.value < |lines| && Contains(lines[r.value], IndexMarker)
    ensures r.Some? ==> forall j :: 0 <= j < r.value ==> !Contains(lines[j], IndexMarker)
    ensures r.None? ==> forall j :: 0 <= j < |lines| ==> !Contains(lines[j], IndexMarker)
  {
    if |lines| == 0 then None
    else if Contains(lines[0], IndexMarker) then Some(0)
    else match FindMarkerLine(lines[1..])
      case None => None
      case Some(i) => Some(i + 1)
  }

  predicate IsBlank(line: string)
  {
    Trim(line) == ""
  }

  /** How many of `lines` are not blank. */
  function CountNonBlank(lines: seq<string>): (n: nat)
    ensures n <= |lines|
  {
    if |lines| == 0 then 0 else CountNonBlank(lines[1..]) + (if IsBlank(lines[0]) then 0 else 1)
  }

  /** No line survives the filter exactly when every line is blank. */
  lemma {:induction false} CountNonBlankZero(lines: seq<string>)
    ensures CountNonBlank(lines) == 0 <==> forall k :: 0 <= k < |lines| ==> IsBlank(lines[k])
  {
    if |lines| > 0 {
      var tail := lines[1..];
      CountNonBlankZero(tail);
      if IsBlank(lines[0]) {
        assert forall k :: 1 <= k < |lines| ==> lines[k] == tail[k - 1];
      }
    }
  }

  /** Every line survives the filter exactly when none is blank. */
  lemma {:induction false} CountNonBlankFull(lines: seq<string>)
    ensures CountNonBlank(lines) == |lines| <==> forall k :: 0 <= k < |lines| ==> !IsBlank(lines[k])
  {
    if |lines| > 0 {
      var tail := lines[1..];
      CountNonBlankFull(tail);
      if !IsBlank(lines[0]) {
        assert forall k :: 1 <= k < |lines| ==> lines[k] == tail[k - 1];
      }
    }
  }

  /** `lines.filter(line => line.trim() !== '')`. */
  function NonBlank(lines: seq<string>): (r: seq<string>)
    ensures |r| == CountNonBlank(lines)
    ensures forall l :: l in r <==> l in lines && !IsBlank(l)
  {
    if |lines| == 0 then []
    else if IsBlank(lines[0]) then NonBlank(lines[1..])
    else [lines[0]] + NonBlank(lines[1..])
  }

  /** The filter keeps order: filtering a concatenation filters each part. */
  lemma {:induction false} NonBlankAppend(a: seq<string>, b: seq<string>)
    ensures NonBlank(a + b) == NonBlank(a) + NonBlank(b)
  {
    if |a| == 0 {
      assert a + b == b;
    } else {
      var ab := a + b;
      assert ab[0] == a[0] && ab[1..] == a[1..] + b;
      NonBlankAppend(a[1..], b);
      if !IsBlank(a[0]) {
        assert NonBlank(ab) == [a[0]] + (NonBlank(a[1..]) + NonBlank(b));
        AppendAssoc([a[0]], NonBlank(a[1..]), NonBlank(b));
      }
    }
  }

  /** Every non-blank line is kept as often as it occurs, and no blank line is kept. */
  lemma {:induction false} NonBlankMultiplicity(lines: seq<string>)
    ensures forall l :: multiset(NonBlank(lines))[l] == if IsBlank(l) then 0 else multiset(lines)[l]
  {
    if |lines| > 0 {
      NonBlankMultiplicity(lines[1..]);
      assert lines == [lines[0]] + lines[1..];
      assert multiset(lines) == multiset{lines[0]} + multiset(lines[1..]);
    }
  }

  /** `similarityText.substring(0, similarityText.length - 2)`; a negative end counts as 0. */
  function DropLastTwo(s: string): (r: string)
    ensures |s| >= 2 ==> r + s[|s| - 2..] == s
    ensures |s| < 2 ==> r == ""
  {
    if |s| >= 2 then s[..|s| - 2] else ""
  }

  /** The map callback for one line. Destructuring keeps the first two pieces of the split; a
      line without the tag has no second piece, and looking up `substring` on it throws. */
  function ParseLine(line: string): (r: Result<CaptionResult, Failure>)
    ensures r.Err? ==> r.error == UndefinedSimilarityText
  {
    var pieces := Split(line, SimilarityTag);
    if |pieces| < 2 then Err(UndefinedSimilarityText)
    else Ok(CaptionResult(RemoveEndingDot(Trim(pieces[0])), DropLastTwo(pieces[1])))
  }

  /** The text after the first tag, up to the next tag if there is one. */
  function SecondPiece(rest: string): string
  {
    match IndexOf(rest, SimilarityTag)
    case None => rest
    case Some(j) => rest[..j]
  }

  /** A line parses exactly when it contains the tag; its caption is the trimmed text before the
      first tag without one final dot, and its similarity text is what follows the tag (up to a
      second tag) minus its last two characters. */
  lemma ParseLineSpec(line: string)
    ensures ParseLine(line).Ok? <==> Contains(line, SimilarityTag)
    ensures ParseLine(line).Err? ==> ParseLine(line).error == UndefinedSimilarityText
    ensures Contains(line, SimilarityTag) ==>
      var i := IndexOf(line, SimilarityTag).value;
      ParseLine(line).value ==
        CaptionResult(RemoveEndingDot(Trim(line[..i])),
                      DropLastTwo(SecondPiece(line[i + |SimilarityTag|..])))
  {
    var pieces := Split(line, SimilarityTag);
    match IndexOf(line, SimilarityTag)
    case None =>
      assert pieces == [line];
    case Some(i) =>
      var rest := line[i + |SimilarityTag|..];
      assert pieces == [line[..i]] + Split(rest, SimilarityTag);
      match IndexOf(rest, SimilarityTag)
      case None =>
        assert Split(rest, SimilarityTag) == [rest];
      case Some(j) =>
        assert Split(rest, SimilarityTag)[0] == rest[..j];
  }

  /** `.map(...)` over the kept lines: the first line that fails makes the whole call fail. */
  function ParseLines(lines: seq<string>): (r: Result<seq<CaptionResult>, Failure>)
    ensures r.Ok? <==> forall k :: 0 <= k < |lines| ==> ParseLine(lines[k]).Ok?
    ensures r.Ok? ==> |r.value| == |lines|
    ensures r.Ok? ==> forall k :: 0 <= k < |lines| ==> r.value[k] == ParseLine(lines[k]).value
    ensures r.Err? ==> r.error == UndefinedSimilarityText
  {
    if |lines| == 0 then Ok([])
    else match ParseLine(lines[0])
      case Err(e) => Err(e)
      case Ok(c) =>
        match ParseLines(lines[1..])
        case Err(e) => Err(e)
        case Ok(cs) => Ok([c] + cs)
  }

  /** The parse of `generateCaptions` over the script's whole standard output. */
  function ParseSearchOutput(output: string): Result<seq<CaptionResult>, Failure>
  {
    var lines := Split(output, "\n");
    match FindMarkerLine(lines)
    case None => Err(Error(IndexMissingMessage))
    case Some(k) => ParseLines(NonBlank(lines[k + 1..]))
  }

  /** The call fails with the index message exactly when no line of the output holds the
      marker. */
  lemma MissingMarkerSpec(output: string)
    ensures ParseSearchOutput(output) == Err(Error(IndexMissingMessage))
            ==> forall j :: 0 <= j < |Split(output, "\n")| ==> !Contains(Split(output, "\n")[j], IndexMarker)
    ensures (forall j :: 0 <= j < |Split(output, "\n")| ==> !Contains(Split(output, "\n")[j], IndexMarker))
            ==> ParseSearchOutput(output) == Err(Error(IndexMissingMessage))
  {
    var lines := Split(output, "\n");
    var found := FindMarkerLine(lines);
    if found.Some? {
      var k := found.value;
      var r := ParseLines(NonBlank(lines[k + 1..]));
      assert ParseSearchOutput(output) == r;
      assert r != Err(Error(IndexMissingMessage));
      assert k < |lines| && Contains(lines[k], IndexMarker);
    } else {
      assert ParseSearchOutput(output) == Err(Error(IndexMissingMessage));
    }
  }

  /** With a marker, the result is the parse of the non-blank lines after the first marker
      line; so a line without the tag among them makes the call fail. */
  lemma ParsesAfterFirstMarker(output: string, k: nat)
    requires k < |Split(output, "\n")|
    requires Contains(Split(output, "\n")[k], IndexMarker)
    requires forall j :: 0 <= j < k ==> !Contains(Split(output, "\n")[j], IndexMarker)
    ensures ParseSearchOutput(output) == ParseLines(NonBlank(Split(output, "\n")[k + 1..]))
    ensures ParseSearchOutput(output).Ok? ==>
              |ParseSearchOutput(output).value| == CountNonBlank(Split(output, "\n")[k + 1..])
  {
    var lines := Split(output, "\n");
    var found := FindMarkerLine(lines);
    assert found.Some? && Contains(lines[found.value], IndexMarker);
    assert found.value == k;
  }

  /** Only lines strictly after the first marker line matter: whatever precedes it, and the
      marker line itself, is ignored. */
  lemma {:induction false} IgnoresPreamble(preamble: seq<string>, marker: string, body: seq<string>)
    requires forall j :: 0 <= j < |preamble| ==> !Contains(preamble[j], IndexMarker)
    requires Contains(marker, IndexMarker)
    requires forall j :: 0 <= j < |preamble| ==> '\n' !in preamble[j]
    requires '\n' !in marker
    requires forall j :: 0 <= j < |body| ==> '\n' !in body[j]
    ensures ParseSearchOutput(Join(preamble + [marker] + body, "\n")) == ParseLines(NonBlank(body))
  {
    var lines := preamble + [marker] + body;
    forall k | 0 <= k < |lines| ensures '\n' !in lines[k] {
      if k < |preamble| {
        assert lines[k] == preamble[k];
      } else if k > |preamble| {
        assert lines[k] == body[k - |preamble| - 1];
      }
    }
    SplitJoin(lines, '\n');
    assert Split(Join(lines, "\n"), "\n") == lines;
    MarkerAfter(preamble, marker, body);
    assert lines[|preamble| + 1..] == body;
  }

  lemma {:induction false} MarkerAfter(preamble: seq<string>, marker: string, body: seq<string>)
    requires forall j :: 0 <= j < |preamble| ==> !Contains(preamble[j], IndexMarker)
    requires Contains(marker, IndexMarker)
    ensures FindMarkerLine(preamble + [marker] + body) == Some(|preamble|)
  {
    if |preamble| > 0 {
      assert (preamble + [marker] + body)[1..] == preamble[1..] + [marker] + body;
      MarkerAfter(preamble[1..], marker, body);
    }
  }

  /** `generateCaptions(imagePath, annotationsPath, ...)` once the search script has run. */
  function GenerateCaptions(cfg: Config, imagePath: string, annotationsPath: string,
                            args: SearchArgs, run: ProcessRun)
    : Result<seq<CaptionResult>, Failure>
  {
    match RunCommands(SearchCommands(cfg, imagePath, annotationsPath, args), run.stdout, run.stderr, run.code)
    case Err(e) => Err(e)
    case Ok(output) => ParseSearchOutput(output)
  }

  /** A failed search rejects with the command and its standard error; a successful one parses
      the concatenated standard output. */
  lemma GenerateCaptionsSpec(cfg: Config, imagePath: string, annotationsPath: string,
                             args: SearchArgs, run: ProcessRun)
    ensures run.code != Some(0) ==>
      GenerateCaptions(cfg, imagePath, annotationsPath, args, run) ==
        Err(Error(CommandsFailedPrefix + JoinCommands(SearchCommands(cfg, imagePath, annotationsPath, args)) +
                  ": " + Flatten(run.stderr)))
    ensures run.code == Some(0) ==>
      GenerateCaptions(cfg, imagePath, annotationsPath, args, run) == ParseSearchOutput(Flatten(run.stdout))
  {
  }
}
