/** What `WllamaManager.downloadModel` (src/lib/utils/wllama.ts) computes, as a
    function of the cached bytes and of what the network delivers: the settled
    result, the progress values handed to `onProgress`, and whether the bytes
    reach `saveModel`. The imperative chunk loop lives in module Manager and is
    proved equal to `Download`. */
module Download {
  import opened Js
  import opened Catalog

  /** `DownloadProgress.status` */
  datatype Status = Downloading | Processing | Complete | Error

  /** `DownloadProgress`; `percentage` is an exact rational here, not a double. */
  datatype DownloadProgress = DownloadProgress(loaded: nat, total: nat, percentage: real, status: Status)

  /** How the body stream ends after its chunks: `done`, or a rejected `reader.read()` (an abort among them). */
  datatype StreamEnd = Done | ReadFailed(error: Thrown)

  /** The response body as the reader delivers it: chunks in arrival order, then the end. */
  datatype Body = Body(chunks: seq<seq<byte>>, end: StreamEnd)

  /** What `fetch(model.modelUrl, {signal})` settles to: a rejection (network error or abort) or a response
      with its status, parsed `content-length` header (None when absent or empty) and body (None when missing). */
  datatype Fetched =
    | Rejected(error: Thrown)
    | Response(status: nat, statusText: string, contentLength: Option<nat>, body: Option<Body>)

  /** `response.ok` */
  predicate IsOkStatus(status: nat) {
    200 <= status <= 299
  }

  /** `contentLength ? parseInt(contentLength, 10) : 0` */
  function Total(contentLength: Option<nat>): nat {
    contentLength.GetOr(0)
  }

  /** `total > 0 ? (loaded / total) * 100 : 0` */
  function Percentage(loaded: nat, total: nat): real {
    if total > 0 then (loaded as real / total as real) * 100.0 else 0.0
  }

  /** The progress value reported after a chunk arrives. */
  function Tick(loaded: nat, total: nat): DownloadProgress {
    DownloadProgress(loaded, total, Percentage(loaded, total), Downloading)
  }

  /** The final progress value: always 100 percent. */
  function CompleteTick(loaded: nat, total: nat): DownloadProgress {
    DownloadProgress(loaded, total, 100.0, Complete)
  }

  /** The running `loaded` counter after the given chunks. */
  function SumLengths(chunks: seq<seq<byte>>): nat {
    if chunks == [] then 0 else SumLengths(chunks[..|chunks| - 1]) + |chunks[|chunks| - 1]|
  }

  /** The chunks copied one after the other into one buffer. */
  function Concat(chunks: seq<seq<byte>>): (r: seq<byte>)
    ensures |r| == SumLengths(chunks)
  {
    if chunks == [] then [] else Concat(chunks[..|chunks| - 1]) + chunks[|chunks| - 1]
  }

  /** The `downloading` progress values, one per chunk received. */
  function Ticks(chunks: seq<seq<byte>>, total: nat): (r: seq<DownloadProgress>)
    ensures |r| == |chunks|
  {
    if chunks == [] then [] else Ticks(chunks[..|chunks| - 1], total) + [Tick(SumLengths(chunks), total)]
  }

  /** The catch block: an `AbortError` becomes `new Error('Download cancelled')`, anything else is rethrown. */
  function Cancelled(e: Thrown): Thrown {
    if IsAbort(e) then NewError("Download cancelled") else e
  }

  /** `error instanceof Error && error.name === 'AbortError'` */
  predicate IsAbort(e: Thrown) {
    e.ErrorObject? && e.name == "AbortError"
  }

  /** `new Error(`HTTP ${response.status}: ${response.statusText}`)` */
  function HttpError(status: nat, statusText: string): Thrown {
    NewError("HTTP " + NatToString(status) + ": " + statusText)
  }

  /** One run of `downloadModel`: the settled result, every value passed to `onProgress`, and whether `saveModel` is called. */
  datatype Run = Run(result: Result<seq<byte>>, ticks: seq<DownloadProgress>, saves: bool)

  /** `downloadModel(model, onProgress)` given the content-store lookup for `model.id` and the network's behaviour. */
  function Download(cached: Option<seq<byte>>, fetched: Fetched): (r: Run)
    ensures r.saves ==> cached.None? && r.result.Ok?
  {
    if cached.Some? then
      Run(Ok(cached.value), [CompleteTick(|cached.value|, |cached.value|)], false)
    else match fetched
      case Rejected(e) => Run(Err(Cancelled(e)), [], false)
      case Response(status, statusText, contentLength, body) =>
        if !IsOkStatus(status) then Run(Err(Cancelled(HttpError(status, statusText))), [], false)
        else if body.None? then Run(Err(Cancelled(NewError("No response body"))), [], false)
        else
          var total := Total(contentLength);
          var chunks := body.value.chunks;
          match body.value.end
          case ReadFailed(e) => Run(Err(Cancelled(e)), Ticks(chunks, total), false)
          case Done =>
            Run(Ok(Concat(chunks)), Ticks(chunks, total) + [CompleteTick(SumLengths(chunks), total)], true)
  }

  // ---------------------------------------------------------------------------
  // Lemmas about the chunk bookkeeping

  lemma {:induction false} SumLengthsPrefix(chunks: seq<seq<byte>>, k: nat)
    requires k <= |chunks|
    ensures SumLengths(chunks[..k]) <= SumLengths(chunks)
    decreases |chunks|
  {
    if k < |chunks| {
      var init := chunks[..|chunks| - 1];
      assert chunks[..k] == init[..k];
      SumLengthsPrefix(init, k);
    } else {
      assert chunks[..k] == chunks;
    }
  }

  /** The k-th progress tick reports the lengths of chunks 0..k summed. */
  lemma {:induction false} TickAt(chunks: seq<seq<byte>>, total: nat, k: nat)
    requires k < |chunks|
    ensures Ticks(chunks, total)[k] == Tick(SumLengths(chunks[..k + 1]), total)
    decreases |chunks|
  {
    var init := chunks[..|chunks| - 1];
    if k < |chunks| - 1 {
      assert init[..k + 1] == chunks[..k + 1];
      TickAt(init, total, k);
    } else {
      assert chunks[..k + 1] == chunks;
    }
  }

  /** `loaded` never decreases from one `downloading` tick to the next. */
  lemma TicksMonotone(chunks: seq<seq<byte>>, total: nat, i: nat, j: nat)
    requires i <= j < |chunks|
    ensures Ticks(chunks, total)[i].loaded <= Ticks(chunks, total)[j].loaded
    ensures Ticks(chunks, total)[j].loaded <= SumLengths(chunks)
  {
    TickAt(chunks, total, i);
    TickAt(chunks, total, j);
    var pre := chunks[..j + 1];
    assert chunks[..i + 1] == pre[..i + 1];
    SumLengthsPrefix(pre, i + 1);
    SumLengthsPrefix(chunks, j + 1);
  }

  // ---------------------------------------------------------------------------
  // Lemmas about Download

  /** Cache hit: the stored bytes are returned with exactly one `complete` tick at 100 percent, nothing is saved,
      and the network's behaviour makes no difference (no fetch is issued). */
  lemma CacheHit(bytes: seq<byte>, f1: Fetched, f2: Fetched)
    ensures Download(Some(bytes), f1) == Download(Some(bytes), f2)
    ensures Download(Some(bytes), f1).result == Ok(bytes)
    ensures Download(Some(bytes), f1).ticks == [DownloadProgress(|bytes|, |bytes|, 100.0, Complete)]
    ensures !Download(Some(bytes), f1).saves
  {
  }

  /** Every progress value of one download, the final `complete` one included, reports a `loaded`
      no smaller than the one before it. */
  lemma {:induction false} ProgressMonotone(cached: Option<seq<byte>>, fetched: Fetched, i: nat, j: nat)
    requires i <= j < |Download(cached, fetched).ticks|
    ensures Download(cached, fetched).ticks[i].loaded <= Download(cached, fetched).ticks[j].loaded
  {
    if cached.None? && fetched.Response? && IsOkStatus(fetched.status) && fetched.body.Some? {
      var chunks := fetched.body.value.chunks;
      var total := Total(fetched.contentLength);
      var ticks := Download(cached, fetched).ticks;
      if j < |chunks| {
        TicksMonotone(chunks, total, i, j);
        assert ticks[i] == Ticks(chunks, total)[i] && ticks[j] == Ticks(chunks, total)[j];
      } else if i < |chunks| {
        TicksMonotone(chunks, total, i, i);
        assert ticks[i] == Ticks(chunks, total)[i];
      }
    }
  }

  /** A completed download returns the chunks concatenated in arrival order; its last progress value is
      `complete` at 100 percent with `loaded` equal to the buffer length, and each `downloading` value
      before it reports the running sum of chunk lengths. */
  lemma DownloadedBuffer(fetched: Fetched)
    requires Download(None, fetched).result.Ok?
    ensures fetched.Response? && fetched.body.Some? && fetched.body.value.end == Done
    ensures var run := Download(None, fetched);
      var chunks := fetched.body.value.chunks;
      && run.result.value == Concat(chunks)
      && |run.ticks| == |chunks| + 1
      && run.ticks[|chunks|] == CompleteTick(|run.result.value|, Total(fetched.contentLength))
      && run.saves
      && forall k :: 0 <= k < |chunks| ==> run.ticks[k] == Tick(SumLengths(chunks[..k + 1]), Total(fetched.contentLength))
  {
    var chunks := fetched.body.value.chunks;
    var run := Download(None, fetched);
    forall k | 0 <= k < |chunks|
      ensures run.ticks[k] == Tick(SumLengths(chunks[..k + 1]), Total(fetched.contentLength))
    {
      TickAt(chunks, Total(fetched.contentLength), k);
    }
  }

  /** Every failure (rejected fetch, non-ok status, missing body, failed read) settles before `saveModel`:
      no byte of a failed download is ever stored. An abort surfaces as "Download cancelled". */
  lemma FailureNeverStored(cached: Option<seq<byte>>, fetched: Fetched)
    requires Download(cached, fetched).result.Err?
    ensures !Download(cached, fetched).saves
    ensures cached.None? && fetched.Rejected? && IsAbort(fetched.error) ==>
      Download(cached, fetched).result == Err(NewError("Download cancelled"))
    ensures (cached.None? && fetched.Response? && IsOkStatus(fetched.status) && fetched.body.Some?
             && fetched.body.value.end.ReadFailed? && IsAbort(fetched.body.value.end.error)) ==>
      Download(cached, fetched).result == Err(NewError("Download cancelled"))
  {
  }

  /** Without a `content-length` header every `downloading` tick reports 0 percent. */
  lemma UnknownTotalReportsZero(chunks: seq<seq<byte>>, k: nat)
    requires k < |chunks|
    ensures Ticks(chunks, 0)[k].percentage == 0.0
    ensures Ticks(chunks, 0)[k].status == Downloading
  {
    TickAt(chunks, 0, k);
  }

  /** A download of three chunks of 300000000, 300000000 and 100000000 bytes with a matching
      `content-length` reports 300000000, 600000000 and 700000000 bytes loaded, then `complete` at 100 percent. */
  lemma ThreeChunkDownload(c0: seq<byte>, c1: seq<byte>, c2: seq<byte>)
    requires |c0| == 300000000 && |c1| == 300000000 && |c2| == 100000000
    ensures var run := Download(None, Response(200, "OK", Some(700000000), Some(Body([c0, c1, c2], Done))));
      && |run.ticks| == 4
      && run.ticks[0].loaded == 300000000
      && run.ticks[1].loaded == 600000000
      && run.ticks[2].loaded == 700000000
      && run.ticks[3] == DownloadProgress(700000000, 700000000, 100.0, Complete)
      && run.result == Ok(c0 + c1 + c2)
  {
    var chunks := [c0, c1, c2];
    assert chunks[..2] == [c0, c1] && chunks[..1] == [c0] && chunks[..3] == chunks;
    assert [c0, c1][..1] == [c0] && [c0][..0] == [];
    assert SumLengths(chunks[..1]) == 300000000;
    assert SumLengths(chunks[..2]) == 600000000;
    assert SumLengths(chunks) == 700000000;
    TickAt(chunks, 700000000, 0);
    TickAt(chunks, 700000000, 1);
    TickAt(chunks, 700000000, 2);
    assert Concat([c0]) == c0;
    assert Concat([c0, c1]) == c0 + c1;
  }
}
