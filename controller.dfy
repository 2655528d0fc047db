/** `ImageController`: the per-image upload and caption tasks, their progress events and file
    deletions, and how a batch of them is aggregated. */
module Controller {
  import opened Wrappers
  import opened Errors
  import opened Seqs
  import opened Paths
  import opened Helper
  import opened Captioning
  import Upscaler
  import opened ImageRouter

  const NoFilesMessage := "No image files provided"
  const UpscaleProgress: real := 0.1
  const HalfProgress: real := 0.5
  const OutputDirectory := "output"
  const AnnotationsPath := "annotations\\captions_train2017.json"

  /** `Promise.all` over tasks that have all run: the values in input order, or the first
      rejection. */
  function PromiseAll<T>(rs: seq<Result<T, Failure>>): (r: Result<seq<T>, Failure>)
    ensures r.Ok? <==> forall k :: 0 <= k < |rs| ==> rs[k].Ok?
    ensures r.Ok? ==> |r.value| == |rs| && forall k :: 0 <= k < |rs| ==> r.value[k] == rs[k].value
    ensures r.Err? ==> exists k :: 0 <= k < |rs| && rs[k] == Err(r.error) &&
                                   forall j :: 0 <= j < k ==> rs[j].Ok?
  {
    if |rs| == 0 then Ok([])
    else match rs[0]
      case Err(e) => Err(e)
      case Ok(v) =>
        match PromiseAll(rs[1..])
        case Err(e) =>
          var k :| 0 <= k < |rs[1..]| && rs[1..][k] == Err(e) && forall j :: 0 <= j < k ==> rs[1..][j].Ok?;
          assert rs[k + 1] == Err(e);
          Err(e)
        case Ok(vs) => Ok([v] + vs)
  }

  // ----- query parameters and the caption response -----

  /** `req.query.x ? Number(req.query.x) : undefined`: an absent or empty parameter is
      `undefined`; any other value is converted. `number` stands for the text the converted
      number prints as on the command line, `String(Number(text))`. */
  function QueryNumber(v: Option<string>, number: string -> string): (r: Option<string>)
    ensures r.None? <==> v.None? || v.value == ""
    ensures r.Some? ==> r.value == number(v.value)
  {
    if v.Some? && v.value != "" then Some(number(v.value)) else None
  }

  /** The raw query parameters of a caption request. */
  datatype CaptionQuery = CaptionQuery(
    batchSize: Option<string>,
    numberOfAnnotations: Option<string>,
    numberOfResults: Option<string>)

  function SearchArgsOf(query: CaptionQuery, number: string -> string): SearchArgs
  {
    SearchArgs(QueryNumber(query.batchSize, number), QueryNumber(query.numberOfAnnotations, number),
               QueryNumber(query.numberOfResults, number))
  }

  /** The text a query parameter puts on the command line: its converted value when it is
      present and non-empty (truthy), the search's default otherwise. */
  function FlagValue(v: Option<string>, default: string, number: string -> string): string
  {
    if v == None || v == Some("") then default else number(v.value)
  }

  /** For every query, each flag carries its parameter's value, or that flag's default when
      the parameter is absent or empty. */
  lemma QueryReachesFlags(query: CaptionQuery, number: string -> string)
    ensures SearchFlags(SearchArgsOf(query, number)) ==
      " --batch_size " + FlagValue(query.batchSize, DefaultBatchSize, number) +
      " --num_samples " + FlagValue(query.numberOfAnnotations, DefaultNumberOfAnnotations, number) +
      " --num_results " + FlagValue(query.numberOfResults, DefaultNumberOfResults, number)
  {
    var args := SearchArgsOf(query, number);
    assert OrDefault(args.batchSize, DefaultBatchSize) == FlagValue(query.batchSize, DefaultBatchSize, number);
    assert OrDefault(args.numberOfAnnotations, DefaultNumberOfAnnotations) ==
           FlagValue(query.numberOfAnnotations, DefaultNumberOfAnnotations, number);
    assert OrDefault(args.numberOfResults, DefaultNumberOfResults) ==
           FlagValue(query.numberOfResults, DefaultNumberOfResults, number);
  }

  /** A query whose parameters are all absent or empty runs the search exactly as one that
      passes no arguments. */
  lemma EmptyQueryUsesDefaults(query: CaptionQuery, number: string -> string)
    requires query.batchSize == None || query.batchSize == Some("")
    requires query.numberOfAnnotations == None || query.numberOfAnnotations == Some("")
    requires query.numberOfResults == None || query.numberOfResults == Some("")
    ensures SearchFlags(SearchArgsOf(query, number)) == SearchFlags(SearchArgs(None, None, None))
  {
    assert SearchArgsOf(query, number) == SearchArgs(None, None, None);
  }

  predicate SortedBy<T>(s: seq<T>, key: T -> real)
  {
    forall i, j :: 0 <= i < j < |s| ==> key(s[i]) >= key(s[j])
  }

  /** Inserts `x` before the first element whose key is not greater than its own. */
  function InsertByKey<T>(x: T, s: seq<T>, key: T -> real): (r: seq<T>)
    requires SortedBy(s, key)
    ensures SortedBy(r, key)
    ensures multiset(r) == multiset(s) + multiset{x}
  {
    if |s| == 0 then [x]
    else if key(x) >= key(s[0]) then
      assert s == [s[0]] + s[1..];
      [x] + s
    else
      var rest := InsertByKey(x, s[1..], key);
      InsertBehindHead(x, s, key, rest);
      [s[0]] + rest
  }

  /** The step of `InsertByKey` past a head whose key is greater than the new element's. */
  lemma InsertBehindHead<T>(x: T, s: seq<T>, key: T -> real, rest: seq<T>)
    requires |s| > 0 && SortedBy(s, key) && key(x) < key(s[0])
    requires SortedBy(rest, key) && multiset(rest) == multiset(s[1..]) + multiset{x}
    ensures SortedBy([s[0]] + rest, key)
    ensures multiset([s[0]] + rest) == multiset(s) + multiset{x}
  {
    assert s == [s[0]] + s[1..];
    forall k | 0 <= k < |rest| ensures key(s[0]) >= key(rest[k]) {
      assert rest[k] in multiset(rest);
      if rest[k] != x {
        assert rest[k] in multiset(s[1..]);
        var m :| 0 <= m < |s[1..]| && s[1..][m] == rest[k];
        assert s[m + 1] == rest[k];
      }
    }
    var r := [s[0]] + rest;
    forall i, j | 0 <= i < j < |r| ensures key(r[i]) >= key(r[j]) {
      if i > 0 {
        assert r[i] == rest[i - 1] && r[j] == rest[j - 1];
      } else {
        assert r[j] == rest[j - 1];
      }
    }
  }

  /** The elements of `s` whose key is `v`, in their order in `s`. */
  function KeyFilter<T>(s: seq<T>, key: T -> real, v: real): seq<T>
  {
    if |s| == 0 then []
    else (if key(s[0]) == v then [s[0]] else []) + KeyFilter(s[1..], key, v)
  }

  /** The tail of a sorted sequence is sorted. */
  lemma SortedTail<T>(s: seq<T>, key: T -> real)
    requires |s| > 0 && SortedBy(s, key)
    ensures SortedBy(s[1..], key)
  {
    forall i, j | 0 <= i < j < |s[1..]| ensures key(s[1..][i]) >= key(s[1..][j]) {
      assert s[1..][i] == s[i + 1] && s[1..][j] == s[j + 1];
    }
  }

  /** Filtering a sequence with a known head. */
  lemma KeyFilterCons<T>(h: T, t: seq<T>, key: T -> real, v: real)
    ensures KeyFilter([h] + t, key, v) == (if key(h) == v then [h] else []) + KeyFilter(t, key, v)
  {
    assert ([h] + t)[0] == h && ([h] + t)[1..] == t;
  }

  /** Inserting `x` puts it ahead of every element with its own key and leaves those with
      other keys in their order. */
  lemma {:induction false} InsertKeyFilter<T>(x: T, s: seq<T>, key: T -> real, v: real)
    requires SortedBy(s, key)
    ensures KeyFilter(InsertByKey(x, s, key), key, v) ==
      if key(x) == v then [x] + KeyFilter(s, key, v) else KeyFilter(s, key, v)
  {
    if |s| == 0 {
      KeyFilterCons(x, s, key, v);
      assert [x] + s == [x];
    } else if key(x) >= key(s[0]) {
      KeyFilterCons(x, s, key, v);
    } else {
      SortedTail(s, key);
      var rest := InsertByKey(x, s[1..], key);
      assert InsertByKey(x, s, key) == [s[0]] + rest;
      InsertKeyFilter(x, s[1..], key, v);
      InsertKeyFilterStep(x, s, rest, key, v);
    }
  }

  /** The case of `InsertKeyFilter` where `x` goes behind a head with a greater key. */
  lemma InsertKeyFilterStep<T>(x: T, s: seq<T>, rest: seq<T>, key: T -> real, v: real)
    requires |s| > 0 && key(x) < key(s[0])
    requires KeyFilter(rest, key, v) ==
      if key(x) == v then [x] + KeyFilter(s[1..], key, v) else KeyFilter(s[1..], key, v)
    ensures KeyFilter([s[0]] + rest, key, v) ==
      if key(x) == v then [x] + KeyFilter(s, key, v) else KeyFilter(s, key, v)
  {
    KeyFilterCons(s[0], rest, key, v);
    var hs: seq<T> := if key(s[0]) == v then [s[0]] else [];
    var tail := KeyFilter(s[1..], key, v);
    assert KeyFilter(s, key, v) == hs + tail;
    if key(x) == v {
      assert hs == [] && hs + ([x] + tail) == [x] + tail && hs + tail == tail;
    }
  }

  /** `.sort((a, b) => b.similarity - a.similarity)`: a stable sort by key, largest first. */
  function SortByKey<T>(s: seq<T>, key: T -> real): (r: seq<T>)
    ensures SortedBy(r, key)
    ensures multiset(r) == multiset(s)
  {
    if |s| == 0 then []
    else
      assert s == [s[0]] + s[1..];
      InsertByKey(s[0], SortByKey(s[1..], key), key)
  }

  /** The sort is stable: the elements with any one key keep their relative order. */
  lemma {:induction false} SortByKeyStable<T>(s: seq<T>, key: T -> real, v: real)
    ensures KeyFilter(SortByKey(s, key), key, v) == KeyFilter(s, key, v)
  {
    if |s| != 0 {
      var sorted := SortByKey(s[1..], key);
      SortByKeyStable(s[1..], key, v);
      InsertKeyFilter(s[0], sorted, key, v);
      StableStep(s, sorted, InsertByKey(s[0], sorted, key), key, v);
    }
  }

  /** The step of `SortByKeyStable`: inserting the head into the sorted tail. */
  lemma StableStep<T>(s: seq<T>, sorted: seq<T>, ins: seq<T>, key: T -> real, v: real)
    requires |s| > 0 && KeyFilter(sorted, key, v) == KeyFilter(s[1..], key, v)
    requires KeyFilter(ins, key, v) ==
      if key(s[0]) == v then [s[0]] + KeyFilter(sorted, key, v) else KeyFilter(sorted, key, v)
    ensures KeyFilter(ins, key, v) == KeyFilter(s, key, v)
  {
  }

  /** The caption response: the per-image lists in input order, flattened, then sorted by
      similarity (`similarity` stands for `parseFloat` of the similarity text). */
  function CaptionResponse(lists: seq<seq<CaptionResult>>, similarity: string -> real)
    : seq<CaptionResult>
  {
    SortByKey(Flatten(lists), BySimilarity(similarity))
  }

  /** The sort key of a caption. */
  function BySimilarity(similarity: string -> real): CaptionResult -> real
  {
    (c: CaptionResult) => similarity(c.similarityText)
  }

  /** Captions of equal similarity keep the order they had across the images' lists. */
  lemma CaptionResponseStable(lists: seq<seq<CaptionResult>>, similarity: string -> real, v: real)
    ensures KeyFilter(CaptionResponse(lists, similarity), BySimilarity(similarity), v) ==
      KeyFilter(Flatten(lists), BySimilarity(similarity), v)
  {
    SortByKeyStable(Flatten(lists), BySimilarity(similarity), v);
  }

  /** The response holds exactly the captions of all images, as many as there are, with the
      most similar first. */
  lemma CaptionResponseSpec(lists: seq<seq<CaptionResult>>, similarity: string -> real)
    ensures multiset(CaptionResponse(lists, similarity)) == MultisetOfAll(lists)
    ensures |CaptionResponse(lists, similarity)| == SumLengths(lists)
    ensures forall i, j :: 0 <= i < j < |CaptionResponse(lists, similarity)| ==>
      similarity(CaptionResponse(lists, similarity)[i].similarityText) >=
      similarity(CaptionResponse(lists, similarity)[j].similarityText)
  {
    var r := CaptionResponse(lists, similarity);
    FlattenMultiset(lists);
    FlattenLength(lists);
    assert |r| == |multiset(r)| == |multiset(Flatten(lists))| == |Flatten(lists)|;
    var key := BySimilarity(similarity);
    assert SortedBy(r, key);
    forall i, j | 0 <= i < j < |r|
      ensures similarity(r[i].similarityText) >= similarity(r[j].similarityText)
    {
      assert key(r[i]) >= key(r[j]);
    }
  }

  // ----- the upload task -----

  datatype Operation = Upscale | FtpUpload

  /** The payload of one `progress` emission. */
  datatype ProgressEvent = ProgressEvent(fileName: string, progress: real, operation: Operation)

  /** One call of the transfer-progress callback: the file name and fraction it was given. */
  datatype TransferCallback = TransferCallback(fileName: string, progress: real)

  /** What the SFTP upload did: the progress callbacks it made, then how it settled. */
  datatype TransferOutcome = TransferOutcome(callbacks: seq<TransferCallback>, completion: Result<(), Failure>)

  /** What the outside world does with one uploaded image: the upscaler's exit code and the
      transfer. */
  datatype UploadOutcome = UploadOutcome(upscaleCode: Option<int>, transfer: TransferOutcome)

  /** The event the transfer callback emits. */
  function TransferEvent(cb: TransferCallback): (r: ProgressEvent)
    ensures r.fileName == cb.fileName && r.operation == FtpUpload
    ensures 0.0 <= cb.progress <= 1.0 ==> HalfProgress <= r.progress <= 1.0
  {
    ProgressEvent(cb.fileName, HalfProgress + cb.progress / 2.0, FtpUpload)
  }

  function TransferEvents(cbs: seq<TransferCallback>): (r: seq<ProgressEvent>)
    ensures |r| == |cbs| && forall k :: 0 <= k < |cbs| ==> r[k] == TransferEvent(cbs[k])
  {
    seq(|cbs|, k requires 0 <= k < |cbs| => TransferEvent(cbs[k]))
  }

  /** The side effects and outcome of one task. */
  datatype ItemTrace = ItemTrace(events: seq<ProgressEvent>, deleted: seq<string>, result: Result<(), Failure>)

  /** The upload task for one image, given how its upscale settled: that happens outside the
      `try`; inside it come two progress events, the transfer with one event per callback, and
      a `finally` deleting the source and the upscaled file. */
  function TaskTrace(image: UploadedFile, upscaled: Result<string, Failure>, transfer: TransferOutcome)
    : (r: ItemTrace)
    ensures r.result.Ok? <==> upscaled.Ok? && transfer.completion.Ok?
    ensures |r.deleted| == (if upscaled.Ok? then 2 else 0)
    ensures |r.events| == (if upscaled.Ok? then 2 + |transfer.callbacks| else 0)
  {
    match upscaled
    case Err(e) => ItemTrace([], [], Err(e))
    case Ok(outputFilePath) =>
      ItemTrace(
        [ProgressEvent(image.originalname, UpscaleProgress, Upscale),
         ProgressEvent(image.originalname, HalfProgress, FtpUpload)] + TransferEvents(transfer.callbacks),
        [image.path, outputFilePath],
        transfer.completion)
  }

  /** The upload task for one image. */
  function UploadItemTrace(cfg: Config, image: UploadedFile, outcome: UploadOutcome): ItemTrace
  {
    TaskTrace(image, Upscaler.Upscale(cfg, image.path, OutputDirectory, image.filename, outcome.upscaleCode),
              outcome.transfer)
  }

  /** Nothing is deleted until upscaling has succeeded; from then on the source and the output
      file are each deleted once, whether the transfer resolves or rejects, and the task settles
      as the transfer did. A failed upscale rejects the task and leaves the source file. */
  lemma UploadItemCleanup(cfg: Config, image: UploadedFile, outcome: UploadOutcome)
    ensures var t := UploadItemTrace(cfg, image, outcome);
      t.deleted == if outcome.upscaleCode == Some(0)
                   then [image.path, PathJoin(OutputDirectory, Upscaler.OutputFileName(image.filename))]
                   else []
    ensures var t := UploadItemTrace(cfg, image, outcome);
      outcome.upscaleCode != Some(0) ==> t.events == [] && t.result.Err? && image.path !in t.deleted
    ensures var t := UploadItemTrace(cfg, image, outcome);
      outcome.upscaleCode == Some(0) ==> t.result == outcome.transfer.completion
  {
  }

  /** After a successful upscale the task emits `upscale` at 0.1, `ftp_upload` at 0.5, then one
      `ftp_upload` event at 0.5 + p/2 per transfer callback, keyed by the callback's name. */
  lemma UploadItemEvents(cfg: Config, image: UploadedFile, outcome: UploadOutcome)
    requires outcome.upscaleCode == Some(0)
    ensures var es := UploadItemTrace(cfg, image, outcome).events;
            var cbs := outcome.transfer.callbacks;
      |es| == 2 + |cbs| &&
      es[0] == ProgressEvent(image.originalname, 0.1, Upscale) &&
      es[1] == ProgressEvent(image.originalname, 0.5, FtpUpload) &&
      forall k :: 0 <= k < |cbs| ==>
        es[k + 2] == ProgressEvent(cbs[k].fileName, 0.5 + cbs[k].progress / 2.0, FtpUpload)
  {
  }

  predicate FractionsInRange(cbs: seq<TransferCallback>)
  {
    forall k :: 0 <= k < |cbs| ==> 0.0 <= cbs[k].progress <= 1.0
  }

  predicate FractionsNonDecreasing(cbs: seq<TransferCallback>)
  {
    forall k, l :: 0 <= k <= l < |cbs| ==> cbs[k].progress <= cbs[l].progress
  }

  /** With callback fractions in [0, 1], every transfer event lies in [0.5, 1], and every event
      of the task in [0.1, 1]. */
  lemma ItemProgressBounds(cfg: Config, image: UploadedFile, outcome: UploadOutcome)
    requires FractionsInRange(outcome.transfer.callbacks)
    ensures var es := UploadItemTrace(cfg, image, outcome).events;
      forall k :: 0 <= k < |es| ==>
        0.1 <= es[k].progress <= 1.0 && (k >= 1 ==> 0.5 <= es[k].progress)
  {
    if outcome.upscaleCode == Some(0) {
      UploadItemEvents(cfg, image, outcome);
    }
  }

  /** With non-decreasing callback fractions in [0, 1], a task's progress never goes back. */
  lemma ItemProgressMonotone(cfg: Config, image: UploadedFile, outcome: UploadOutcome)
    requires FractionsInRange(outcome.transfer.callbacks)
    requires FractionsNonDecreasing(outcome.transfer.callbacks)
    ensures var es := UploadItemTrace(cfg, image, outcome).events;
      forall a, b :: 0 <= a <= b < |es| ==> es[a].progress <= es[b].progress
  {
    var es := UploadItemTrace(cfg, image, outcome).events;
    var cbs := outcome.transfer.callbacks;
    if outcome.upscaleCode == Some(0) {
      UploadItemEvents(cfg, image, outcome);
      forall a, b | 0 <= a <= b < |es| ensures es[a].progress <= es[b].progress {
        if a >= 2 {
          assert cbs[a - 2].progress <= cbs[b - 2].progress;
        } else if b >= 2 {
          assert 0.0 <= cbs[b - 2].progress;
        }
      }
    }
  }

  // ----- batches -----

  function UploadTraces(cfg: Config, images: seq<UploadedFile>, outcomes: seq<UploadOutcome>)
    : (ts: seq<ItemTrace>)
    requires |outcomes| == |images|
    ensures |ts| == |images| &&
            forall i :: 0 <= i < |images| ==> ts[i] == UploadItemTrace(cfg, images[i], outcomes[i])
  {
    seq(|images|, i requires 0 <= i < |images| => UploadItemTrace(cfg, images[i], outcomes[i]))
  }

  function EventLists(ts: seq<ItemTrace>): seq<seq<ProgressEvent>>
  {
    seq(|ts|, i requires 0 <= i < |ts| => ts[i].events)
  }

  function DeletionLists(ts: seq<ItemTrace>): seq<seq<string>>
  {
    seq(|ts|, i requires 0 <= i < |ts| => ts[i].deleted)
  }

  function Results(ts: seq<ItemTrace>): seq<Result<(), Failure>>
  {
    seq(|ts|, i requires 0 <= i < |ts| => ts[i].result)
  }

  lemma TracesSnoc(ts: seq<ItemTrace>, t: ItemTrace)
    ensures Flatten(EventLists(ts + [t])) == Flatten(EventLists(ts)) + t.events
    ensures Flatten(DeletionLists(ts + [t])) == Flatten(DeletionLists(ts)) + t.deleted
    ensures Results(ts + [t]) == Results(ts) + [t.result]
  {
    assert EventLists(ts + [t]) == EventLists(ts) + [t.events];
    assert DeletionLists(ts + [t]) == DeletionLists(ts) + [t.deleted];
    FlattenSnoc(EventLists(ts), t.events);
    FlattenSnoc(DeletionLists(ts), t.deleted);
  }

  lemma TracesStep(ts: seq<ItemTrace>, i: nat)
    requires i < |ts|
    ensures Flatten(EventLists(ts[..i + 1])) == Flatten(EventLists(ts[..i])) + ts[i].events
    ensures Flatten(DeletionLists(ts[..i + 1])) == Flatten(DeletionLists(ts[..i])) + ts[i].deleted
    ensures Results(ts[..i + 1]) == Results(ts[..i]) + [ts[i].result]
  {
    assert ts[..i + 1] == ts[..i] + [ts[i]];
    TracesSnoc(ts[..i], ts[i]);
  }

  /** How `uploadImage` settles: a missing `req.files` rejects before any task runs; otherwise
      `Promise.all` over the tasks, so one rejected task rejects the whole request. */
  function UploadImageResult(cfg: Config, files: Option<RequestFiles>, outcomes: seq<UploadOutcome>)
    : Result<(), Failure>
    requires |outcomes| == |GetImagesFromRequest(files)|
  {
    if files.None? then Err(Error(NoFilesMessage))
    else
      match PromiseAll(Results(UploadTraces(cfg, GetImagesFromRequest(files), outcomes)))
      case Err(e) => Err(e)
      case Ok(_) => Ok(())
  }

  /** Failures are not isolated per image: the request succeeds exactly when every task does,
      and otherwise fails with some failing task's error. */
  lemma UploadBatchAllOrNothing(cfg: Config, files: RequestFiles, outcomes: seq<UploadOutcome>)
    requires |outcomes| == |GetImagesFromRequest(Some(files))|
    ensures var ts := UploadTraces(cfg, GetImagesFromRequest(Some(files)), outcomes);
      UploadImageResult(cfg, Some(files), outcomes).Ok? <==> forall i :: 0 <= i < |ts| ==> ts[i].result.Ok?
    ensures var ts := UploadTraces(cfg, GetImagesFromRequest(Some(files)), outcomes);
      UploadImageResult(cfg, Some(files), outcomes).Err? ==>
        exists i :: 0 <= i < |ts| && ts[i].result == Err(UploadImageResult(cfg, Some(files), outcomes).error)
  {
    ResultsSettle(UploadTraces(cfg, GetImagesFromRequest(Some(files)), outcomes));
  }

  /** `Promise.all` over the tasks' results, for any traces. */
  lemma ResultsSettle(ts: seq<ItemTrace>)
    ensures PromiseAll(Results(ts)).Ok? <==> forall i :: 0 <= i < |ts| ==> ts[i].result.Ok?
    ensures PromiseAll(Results(ts)).Err? ==>
      exists i :: 0 <= i < |ts| && ts[i].result == Err(PromiseAll(Results(ts)).error)
  {
    var rs := Results(ts);
    assert forall i :: 0 <= i < |ts| ==> rs[i] == ts[i].result;
  }

  /** What the caption task for one image settles with: the search's result. Its `finally`
      deletion is the controller's, in `ImageController.GetImageCaptions`. */
  function CaptionItemResult(cfg: Config, image: UploadedFile, args: SearchArgs, run: ProcessRun)
    : Result<seq<CaptionResult>, Failure>
  {
    GenerateCaptions(cfg, image.path, AnnotationsPath, args, run)
  }

  function CaptionResults(cfg: Config, images: seq<UploadedFile>, args: SearchArgs, runs: seq<ProcessRun>)
    : (rs: seq<Result<seq<CaptionResult>, Failure>>)
    requires |runs| == |images|
    ensures |rs| == |images| &&
            forall i :: 0 <= i < |images| ==> rs[i] == CaptionItemResult(cfg, images[i], args, runs[i])
  {
    seq(|images|, i requires 0 <= i < |images| => CaptionItemResult(cfg, images[i], args, runs[i]))
  }

  function ImagePaths(images: seq<UploadedFile>): (r: seq<string>)
    ensures |r| == |images| && forall i :: 0 <= i < |images| ==> r[i] == images[i].path
  {
    seq(|images|, i requires 0 <= i < |images| => images[i].path)
  }

  lemma CaptionStep(cfg: Config, images: seq<UploadedFile>, args: SearchArgs, runs: seq<ProcessRun>, i: nat)
    requires i < |images| == |runs|
    ensures ImagePaths(images[..i + 1]) == ImagePaths(images[..i]) + [images[i].path]
    ensures CaptionResults(cfg, images[..i + 1], args, runs[..i + 1]) ==
            CaptionResults(cfg, images[..i], args, runs[..i]) +
              [GenerateCaptions(cfg, images[i].path, AnnotationsPath, args, runs[i])]
  {
    assert images[..i + 1] == images[..i] + [images[i]];
    assert runs[..i + 1] == runs[..i] + [runs[i]];
  }

  /** How `getImageCaptions` settles. */
  function GetImageCaptionsResult(cfg: Config, files: Option<RequestFiles>, query: CaptionQuery,
                                  runs: seq<ProcessRun>, similarity: string -> real, number: string -> string)
    : Result<seq<CaptionResult>, Failure>
    requires |runs| == |GetImagesFromRequest(files)|
  {
    if files.None? then Err(Error(NoFilesMessage))
    else
      match PromiseAll(CaptionResults(cfg, GetImagesFromRequest(files), SearchArgsOf(query, number), runs))
      case Err(e) => Err(e)
      case Ok(lists) => Ok(CaptionResponse(lists, similarity))
  }

  /** The caption response is every image's captions, sorted most similar first; one failed
      search fails the request. */
  lemma CaptionBatchSpec(cfg: Config, files: RequestFiles, query: CaptionQuery,
                         runs: seq<ProcessRun>, similarity: string -> real,
                         number: string -> string)
    requires |runs| == |GetImagesFromRequest(Some(files))|
    ensures var rs := CaptionResults(cfg, GetImagesFromRequest(Some(files)), SearchArgsOf(query, number), runs);
            var r := GetImageCaptionsResult(cfg, Some(files), query, runs, similarity, number);
      (r.Ok? <==> forall i :: 0 <= i < |rs| ==> rs[i].Ok?) &&
      (r.Ok? ==> exists lists :: |lists| == |rs| &&
                   (forall i :: 0 <= i < |rs| ==> lists[i] == rs[i].value) &&
                   multiset(r.value) == MultisetOfAll(lists) &&
                   forall a, b :: 0 <= a < b < |r.value| ==>
                     similarity(r.value[a].similarityText) >= similarity(r.value[b].similarityText))
  {
    var rs := CaptionResults(cfg, GetImagesFromRequest(Some(files)), SearchArgsOf(query, number), runs);
    var all := PromiseAll(rs);
    if all.Ok? {
      CaptionResponseSpec(all.value, similarity);
    }
  }

  /** The JSON payloads of a run of events, in order. */
  function Payloads(json: ProgressEvent -> string, es: seq<ProgressEvent>): (r: seq<string>)
    ensures |r| == |es| && forall i :: 0 <= i < |es| ==> r[i] == json(es[i])
  {
    seq(|es|, i requires 0 <= i < |es| => json(es[i]))
  }

  /** The controller's effects: everything it emitted on the shared emitter and every file it
      asked to delete, in order. `json` stands for `JSON.stringify` of an event. */
  class ImageController {
    const cfg: Config
    const bus: ProgressBus
    const json: ProgressEvent -> string
    var events: seq<ProgressEvent>
    var deleted: seq<string>

    /** Every event the controller emitted went through the shared emitter, whose payloads are
        exactly those events' JSON, in emission order. */
    ghost predicate Valid()
      reads this`events, bus
    {
      bus.Valid() && bus.published == Payloads(json, events)
    }

    constructor (cfg: Config, bus: ProgressBus, json: ProgressEvent -> string)
      requires bus.Valid() && bus.published == []
      ensures Valid()
      ensures this.cfg == cfg && this.bus == bus && this.json == json
      ensures events == [] && deleted == []
    {
      this.cfg, this.bus, this.json := cfg, bus, json;
      events, deleted := [], [];
    }

    /** `this.emitter.emit('progress', e)`: every connected stream is written the event's frame. */
    method Emit(e: ProgressEvent)
      requires Valid()
      modifies this`events, bus`streams, bus`published
      ensures Valid()
      ensures events == old(events) + [e]
      ensures |bus.streams| == |old(bus.streams)|
      ensures forall i :: 0 <= i < |bus.streams| ==> bus.streams[i] == old(bus.streams)[i] + ProgressFrame(json(e))
    {
      bus.Publish(json(e));
      events := events + [e];
      assert Payloads(json, events) == Payloads(json, old(events)) + [json(e)];
    }
    /** `deleteFile(path)`: the unlink request; its outcome is ignored. */
    method DeleteFile(path: string)
      modifies this`deleted
      ensures deleted == old(deleted) + [path]
    {
      deleted := deleted + [path];
    }

    /** The async task `uploadImage` runs for one image. */
    method UploadItem(image: UploadedFile, outcome: UploadOutcome) returns (r: Result<(), Failure>)
      requires Valid()
      modifies this`events, this`deleted, bus`streams, bus`published
      ensures Valid()
      ensures var t := UploadItemTrace(cfg, image, outcome);
        r == t.result && events == old(events) + t.events && deleted == old(deleted) + t.deleted
    {
      var upscaled := Upscaler.Upscale(cfg, image.path, OutputDirectory, image.filename, outcome.upscaleCode);
      r := RunTask(image, upscaled, outcome.transfer);
    }

    /** The body of the task once `upscale` has settled. */
    method RunTask(image: UploadedFile, upscaled: Result<string, Failure>, transfer: TransferOutcome)
      returns (r: Result<(), Failure>)
      requires Valid()
      modifies this`events, this`deleted, bus`streams, bus`published
      ensures Valid()
      ensures var t := TaskTrace(image, upscaled, transfer);
        r == t.result && events == old(events) + t.events && deleted == old(deleted) + t.deleted
    {
      if upscaled.Err? {
        return Err(upscaled.error);
      }
      var outputFilePath := upscaled.value;
      // try
      Emit(ProgressEvent(image.originalname, UpscaleProgress, Upscale));
      Emit(ProgressEvent(image.originalname, HalfProgress, FtpUpload));
      EmitTransferEvents(transfer.callbacks);
      r := transfer.completion;
      // finally
      DeleteFile(image.path);
      DeleteFile(outputFilePath);
    }

    /** The transfer-progress callback, once per call the SFTP client makes. */
    method EmitTransferEvents(callbacks: seq<TransferCallback>)
      requires Valid()
      modifies this`events, bus`streams, bus`published
      ensures Valid()
      ensures events == old(events) + TransferEvents(callbacks)
    {
      for k := 0 to |callbacks|
        invariant Valid()
        invariant events == old(events) + TransferEvents(callbacks[..k])
      {
        assert TransferEvents(callbacks[..k + 1]) == TransferEvents(callbacks[..k]) + [TransferEvent(callbacks[k])];
        Emit(TransferEvent(callbacks[k]));
      }
      assert callbacks[..|callbacks|] == callbacks;
    }

    /** `uploadImage`: every image's task runs; then `Promise.all` settles the request. */
    method UploadImage(files: Option<RequestFiles>, outcomes: seq<UploadOutcome>)
      returns (r: Result<(), Failure>)
      requires |outcomes| == |GetImagesFromRequest(files)|
      requires Valid()
      modifies this`events, this`deleted, bus`streams, bus`published
      ensures Valid()
      ensures r == UploadImageResult(cfg, files, outcomes)
      ensures files.None? ==> events == old(events) && deleted == old(deleted)
      ensures var ts := UploadTraces(cfg, GetImagesFromRequest(files), outcomes);
        events == old(events) + Flatten(EventLists(ts)) &&
        deleted == old(deleted) + Flatten(DeletionLists(ts))
    {
      if files.None? {
        return Err(Error(NoFilesMessage));
      }
      var images := GetImagesFromRequest(files);
      var results := RunUploadTasks(images, outcomes);
      var all := PromiseAll(results);
      r := if all.Err? then Err(all.error) else Ok(());
    }

    /** `images.map(async (image) => ...)`: starts every image's task, in input order. */
    method RunUploadTasks(images: seq<UploadedFile>, outcomes: seq<UploadOutcome>)
      returns (results: seq<Result<(), Failure>>)
      requires |outcomes| == |images|
      requires Valid()
      modifies this`events, this`deleted, bus`streams, bus`published
      ensures Valid()
      ensures var ts := UploadTraces(cfg, images, outcomes);
        results == Results(ts) &&
        events == old(events) + Flatten(EventLists(ts)) &&
        deleted == old(deleted) + Flatten(DeletionLists(ts))
    {
      ghost var ts := UploadTraces(cfg, images, outcomes);
      results := [];
      for i := 0 to |images|
        invariant Valid()
        invariant results == Results(ts[..i])
        invariant events == old(events) + Flatten(EventLists(ts[..i]))
        invariant deleted == old(deleted) + Flatten(DeletionLists(ts[..i]))
      {
        TracesStep(ts, i);
        AppendAssoc(old(events), Flatten(EventLists(ts[..i])), ts[i].events);
        AppendAssoc(old(deleted), Flatten(DeletionLists(ts[..i])), ts[i].deleted);
        var r := UploadItem(images[i], outcomes[i]);
        results := results + [r];
      }
      assert ts[..|images|] == ts;
    }

    /** `getImageCaptions`: every image's search runs and every image is deleted once, whether
        its search succeeded or not; then `Promise.all` settles the request. */
    method GetImageCaptions(files: Option<RequestFiles>, query: CaptionQuery, runs: seq<ProcessRun>,
                            similarity: string -> real, number: string -> string)
      returns (r: Result<seq<CaptionResult>, Failure>)
      requires |runs| == |GetImagesFromRequest(files)|
      requires Valid()
      modifies this`deleted
      ensures Valid()
      ensures r == GetImageCaptionsResult(cfg, files, query, runs, similarity, number)
      ensures deleted == old(deleted) + ImagePaths(GetImagesFromRequest(files))
    {
      if files.None? {
        return Err(Error(NoFilesMessage));
      }
      var images := GetImagesFromRequest(files);
      var args := SearchArgsOf(query, number);
      var results: seq<Result<seq<CaptionResult>, Failure>> := [];
      for i := 0 to |images|
        invariant results == CaptionResults(cfg, images[..i], args, runs[..i])
        invariant deleted == old(deleted) + ImagePaths(images[..i])
      {
        CaptionStep(cfg, images, args, runs, i);
        AppendAssoc(old(deleted), ImagePaths(images[..i]), [images[i].path]);
        // try
        var ri := GenerateCaptions(cfg, images[i].path, AnnotationsPath, args, runs[i]);
        // finally
        DeleteFile(images[i].path);
        results := results + [ri];
      }
      assert images[..|images|] == images && runs[..|runs|] == runs;
      var all := PromiseAll(results);
      r := if all.Err? then Err(all.error) else Ok(CaptionResponse(all.value, similarity));
    }
  }
}
