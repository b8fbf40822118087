/** media/fetch.py and media/store.py: the streaming download, the attempt ceiling, the evidence upload.

    HTTP replies are inputs.  SHA-256 is any hash computed by absorbing bytes one after the other. */
module MediaFetch {
  import opened Wrappers

  type byte = x: int | 0 <= x < 256

  const ATTEMPT_LIMIT := 4

  // ---- hashing ------------------------------------------------------------------------------------

  /** An incremental hash: its initial state, the effect of one byte, the final rendering; and the
      lower-casing the declared digest goes through. */
  datatype HashLib<!S> = HashLib(init: S, absorb: (S, byte) -> S, hex: S -> string, lower: string -> string)

  function Absorb<S>(h: HashLib<S>, st: S, data: seq<byte>): S {
    if data == [] then st else h.absorb(Absorb(h, st, data[..|data| - 1]), data[|data| - 1])
  }

  /** The digest of a whole content. */
  function Digest<S>(h: HashLib<S>, data: seq<byte>): string { h.hex(Absorb(h, h.init, data)) }

  lemma {:induction false} AbsorbConcat<S>(h: HashLib<S>, st: S, x: seq<byte>, y: seq<byte>)
    ensures Absorb(h, st, x + y) == Absorb(h, Absorb(h, st, x), y)
  {
    if y == [] {
      assert x + y == x;
    } else {
      var n := |y| - 1;
      assert (x + y)[..|x + y| - 1] == x + y[..n];
      AbsorbConcat(h, st, x, y[..n]);
    }
  }

  /** hashlib's object: the state after the bytes fed so far. */
  class Hasher<S> {
    const lib: HashLib<S>
    var state: S

    constructor (lib: HashLib<S>)
      ensures this.lib == lib && state == lib.init
    {
      this.lib := lib;
      state := lib.init;
    }

    method Update(chunk: seq<byte>)
      modifies this
      ensures state == Absorb(lib, old(state), chunk)
    {
      var i := 0;
      while i < |chunk|
        invariant i <= |chunk| && state == Absorb(lib, old(state), chunk[..i])
      {
        assert chunk[..i + 1][..i] == chunk[..i];
        state := lib.absorb(state, chunk[i]);
        i := i + 1;
      }
      assert chunk[..i] == chunk;
    }
  }

  function Flatten(chunks: seq<seq<byte>>): seq<byte> {
    if chunks == [] then [] else Flatten(chunks[..|chunks| - 1]) + chunks[|chunks| - 1]
  }

  // ---- one download -----------------------------------------------------------------------------

  datatype FetchCode =
    | AttemptLimit | MediaNotFound | UrlHttp(status: int) | UrlMissing | UrlExpired
    | DownloadHttp(status: int) | NetworkError | HashMismatch

  datatype Fetched =
    | Content(content: seq<byte>, sha256: string, byteSize: nat, mime: string)
    | FetchError(code: FetchCode, retryable: bool, quarantine: bool)
    | Escaped   // an exception the function does not turn into a MediaFetchError

  /** The answer to the media GET: no response, or a status, the chunks received, and whether the
      connection broke before the end of the body. */
  datatype DownloadReply =
    | NoResponse
    | Response(status: int, contentType: Option<string>, chunks: seq<seq<byte>>, broken: bool)

  const DEFAULT_MIME := "application/octet-stream"

  predicate DeclaredAgrees<S>(h: HashLib<S>, declared: Option<string>, computed: string) {
    declared.None? || declared.value == "" || h.lower(declared.value) == computed
  }

  /** What one download of a body yields, however the body was cut into chunks. */
  function DownloadResult<S>(h: HashLib<S>, declared: Option<string>, reply: DownloadReply): Fetched {
    match reply
    case NoResponse => FetchError(NetworkError, true, false)
    case Response(status, contentType, chunks, broken) =>
      var content := Flatten(chunks);
      if status == 404 then FetchError(UrlExpired, false, false)
      else if status != 200 then FetchError(DownloadHttp(status), status >= 500, false)
      else if broken then FetchError(NetworkError, true, false)
      else if !DeclaredAgrees(h, declared, Digest(h, content)) then FetchError(HashMismatch, false, true)
      else Content(content, Digest(h, content), |content|,
                   match contentType case Some(c) => c case None => DEFAULT_MIME)
  }

  /** Which replies are a file and which an error, by status, body and declared digest. */
  ghost predicate DownloadMeans<S>(h: HashLib<S>, declared: Option<string>, reply: DownloadReply, r: Fetched) {
    match reply
    case NoResponse => r == FetchError(NetworkError, true, false)
    case Response(status, contentType, chunks, broken) =>
      && (status == 404 ==> r == FetchError(UrlExpired, false, false))
      && (status != 200 && status != 404 && status < 500 ==> r == FetchError(DownloadHttp(status), false, false))
      && (status >= 500 ==> r == FetchError(DownloadHttp(status), true, false))
      && (status == 200 && broken ==> r == FetchError(NetworkError, true, false))
      && (status == 200 && !broken ==>
            var digest := Digest(h, Flatten(chunks));
            if declared.Some? && declared.value != "" && h.lower(declared.value) != digest then
              r == FetchError(HashMismatch, false, true)
            else
              r == Content(Flatten(chunks), digest, |Flatten(chunks)|,
                           if contentType.Some? then contentType.value else "application/octet-stream"))
  }

  method StreamDownload<S>(h: HashLib<S>, declared: Option<string>, reply: DownloadReply)
    returns (r: Fetched)
    ensures r == DownloadResult(h, declared, reply)
    ensures r.Content? ==> r.sha256 == Digest(h, r.content) && r.byteSize == |r.content|
                           && DeclaredAgrees(h, declared, r.sha256)
    ensures DownloadMeans(h, declared, reply, r)
  {
    var hasher := new Hasher(h);
    var buf := [];
    var mime := DEFAULT_MIME;
    match reply
    case NoResponse => return FetchError(NetworkError, true, false);
    case Response(status, contentType, chunks, broken) =>
      if status == 404 { return FetchError(UrlExpired, false, false); }
      if status != 200 { return FetchError(DownloadHttp(status), status >= 500, false); }
      if contentType.Some? { mime := contentType.value; }
      var i := 0;
      while i < |chunks|
        invariant i <= |chunks| && buf == Flatten(chunks[..i])
        invariant hasher.lib == h && hasher.state == Absorb(h, h.init, buf)
      {
        hasher.Update(chunks[i]);
        AbsorbConcat(h, h.init, buf, chunks[i]);
        assert chunks[..i + 1][..i] == chunks[..i];
        buf := buf + chunks[i];
        i := i + 1;
      }
      assert chunks[..i] == chunks;
      if broken { return FetchError(NetworkError, true, false); }
      var computed := h.hex(hasher.state);
      if declared.Some? && declared.value != "" && h.lower(declared.value) != computed {
        return FetchError(HashMismatch, false, true);
      }
      r := Content(buf, computed, |buf|, mime);
  }

  /** Two replies that carry the same bytes in different chunks give the same result. */
  lemma ChunkingIsIrrelevant<S>(h: HashLib<S>, declared: Option<string>, x: DownloadReply, y: DownloadReply)
    requires x.Response? && y.Response? && x.status == y.status && x.contentType == y.contentType
    requires x.broken == y.broken && Flatten(x.chunks) == Flatten(y.chunks)
    ensures DownloadResult(h, declared, x) == DownloadResult(h, declared, y)
  {
  }

  // ---- one fetch: resolve, download, and once more when the URL has expired -----------------------

  datatype ResolveReply = ResolveEscaped | ResolveHttp(status: int, url: Option<string>)

  /** None: a URL was obtained. */
  function ResolveError(reply: ResolveReply): Option<Fetched> {
    match reply
    case ResolveEscaped => Some(Escaped)
    case ResolveHttp(status, url) =>
      if status == 404 then Some(FetchError(MediaNotFound, false, false))
      else if status != 200 then Some(FetchError(UrlHttp(status), true, false))
      else if url.None? || url.value == "" then Some(FetchError(UrlMissing, true, false))
      else None
  }

  /** Meta's answers to the at most two rounds of one fetch. */
  datatype MetaScript = MetaScript(
    resolve1: ResolveReply, download1: DownloadReply, resolve2: ResolveReply, download2: DownloadReply)

  /** The requests one invocation sends to Meta. */
  datatype Calls = Calls(resolutions: nat, downloads: nat)

  function FetchSpec<S>(h: HashLib<S>, declared: Option<string>, attempt: nat, meta: MetaScript)
    : (r: (Fetched, Calls))
    ensures attempt >= ATTEMPT_LIMIT ==> r.1 == Calls(0, 0)
    ensures r.1.resolutions <= 2 && r.1.downloads <= 2
    ensures attempt >= 3 ==> r.1.resolutions <= 1 && r.1.downloads <= 1
  {
    if attempt >= ATTEMPT_LIMIT then (FetchError(AttemptLimit, false, false), Calls(0, 0)) else
    var e1 := ResolveError(meta.resolve1);
    if e1.Some? then (e1.value, Calls(1, 0)) else
    var d1 := DownloadResult(h, declared, meta.download1);
    if d1.FetchError? && d1.code == UrlExpired && attempt < 3 then
      var e2 := ResolveError(meta.resolve2);
      if e2.Some? then (e2.value, Calls(2, 1))
      else (DownloadResult(h, declared, meta.download2), Calls(2, 2))
    else (d1, Calls(1, 1))
  }

  /** The reply names no URL: the error it is. */
  ghost predicate ResolveMeans(reply: ResolveReply, r: Fetched) {
    match reply
    case ResolveEscaped => r == Escaped
    case ResolveHttp(status, url) =>
      || (status == 404 && r == FetchError(MediaNotFound, false, false))
      || (status != 200 && status != 404 && r == FetchError(UrlHttp(status), true, false))
      || (status == 200 && (url == None || url == Some("")) && r == FetchError(UrlMissing, true, false))
  }

  predicate NamesUrl(reply: ResolveReply) {
    reply.ResolveHttp? && reply.status == 200 && reply.url.Some? && reply.url.value != ""
  }

  /** The rounds of one fetch and their requests: none after four attempts, a second one exactly when the first
      URL has expired and three attempts are not yet recorded. */
  ghost predicate FetchMeans<S>(h: HashLib<S>, declared: Option<string>, attempt: nat, meta: MetaScript, r: Fetched,
                                resolutions: int, downloads: int)
  {
    var expired := meta.download1.Response? && meta.download1.status == 404;
    if attempt >= 4 then r == FetchError(AttemptLimit, false, false) && resolutions == 0 == downloads
    else if !NamesUrl(meta.resolve1) then ResolveMeans(meta.resolve1, r) && resolutions == 1 && downloads == 0
    else if !expired || attempt == 3 then
      DownloadMeans(h, declared, meta.download1, r) && resolutions == 1 == downloads
    else if !NamesUrl(meta.resolve2) then ResolveMeans(meta.resolve2, r) && resolutions == 2 && downloads == 1
    else DownloadMeans(h, declared, meta.download2, r) && resolutions == 2 == downloads
  }

  lemma FetchIs<S>(h: HashLib<S>, declared: Option<string>, attempt: nat, meta: MetaScript)
    ensures var (r, calls) := FetchSpec(h, declared, attempt, meta);
      FetchMeans(h, declared, attempt, meta, r, calls.resolutions, calls.downloads)
  {}

  /** The connection to Meta, counting the requests sent over it. */
  class MetaClient {
    var resolutions: nat
    var downloads: nat

    constructor ()
      ensures resolutions == 0 && downloads == 0
    {
      resolutions, downloads := 0, 0;
    }

    method FetchMedia<S>(h: HashLib<S>, declared: Option<string>, attempt: nat, meta: MetaScript)
      returns (r: Fetched)
      modifies this
      ensures r == FetchSpec(h, declared, attempt, meta).0
      ensures resolutions == old(resolutions) + FetchSpec(h, declared, attempt, meta).1.resolutions
      ensures downloads == old(downloads) + FetchSpec(h, declared, attempt, meta).1.downloads
      ensures FetchMeans(h, declared, attempt, meta, r, resolutions - old(resolutions), downloads - old(downloads))
    {
      if attempt >= ATTEMPT_LIMIT { return FetchError(AttemptLimit, false, false); }
      resolutions := resolutions + 1;
      var e := ResolveError(meta.resolve1);
      if e.Some? { return e.value; }
      downloads := downloads + 1;
      r := StreamDownload(h, declared, meta.download1);
      if r.FetchError? && r.code == UrlExpired && attempt < 3 {
        resolutions := resolutions + 1;
        e := ResolveError(meta.resolve2);
        if e.Some? { return e.value; }
        downloads := downloads + 1;
        r := StreamDownload(h, declared, meta.download2);
      }
    }
  }

  /** Whatever is fetched carries the digest of its content and agrees with a declared digest; a
      mismatch and nothing else quarantines. */
  lemma FetchIntegrity<S>(h: HashLib<S>, declared: Option<string>, attempt: nat, meta: MetaScript)
    ensures var r := FetchSpec(h, declared, attempt, meta).0;
            && (r.Content? ==> r.sha256 == Digest(h, r.content) && r.byteSize == |r.content|
                               && DeclaredAgrees(h, declared, r.sha256))
            && (r.FetchError? ==> (r.quarantine <==> r.code == HashMismatch))
            && (r.FetchError? && r.retryable ==> !r.quarantine)
  {
  }

  // ---- the evidence upload ------------------------------------------------------------------------

  datatype StoreReply = StoreNoResponse | StoreHttp(status: int, evidence: Option<nat>)

  datatype Stored = Evidence(id: nat) | StoreError(retryable: bool)

  /** 201 and an idempotent 409 carry an evidence id; a body that cannot be read makes the 201 a
      contract error and the 409 an ordinary one. */
  function StoreResult(reply: StoreReply): (r: Stored)
    ensures r.Evidence? <==> reply.StoreHttp? && reply.status in {201, 409} && reply.evidence.Some?
    ensures r.Evidence? ==> reply.evidence == Some(r.id)
    ensures r.StoreError? ==> (r.retryable <==> reply.StoreNoResponse? || reply.status >= 500)
  {
    match reply
    case StoreNoResponse => StoreError(true)
    case StoreHttp(status, evidence) =>
      if status == 201 then
        (match evidence case Some(id) => Evidence(id) case None => StoreError(false))
      else if status == 409 && evidence.Some? then Evidence(evidence.value)
      else StoreError(status >= 500)
  }

  // ---- the attempt ceiling over a file's life -------------------------------------------------------

  /** One run of fetch_and_store_file for a file: Meta's and audit-core's answers, and whether the
      process died before it recorded the outcome. */
  datatype Invocation = Invocation(meta: MetaScript, store: StoreReply, crashed: bool)

  datatype Ending = Kept | MediaFailed | StoreFailed | Lost

  /** The attempts column after one run, Meta calls made, and how the run ended. */
  function Invoke<S>(h: HashLib<S>, declared: Option<string>, attempts: nat, inv: Invocation)
    : (nat, Calls, Ending)
  {
    var (r, calls) := FetchSpec(h, declared, attempts, inv.meta);
    if inv.crashed || r.Escaped? then (attempts, calls, Lost)
    else if r.FetchError? then (attempts + 1, calls, MediaFailed)
    else if StoreResult(inv.store).StoreError? then (attempts + 1, calls, StoreFailed)
    else (attempts, calls, Kept)
  }

  /** The attempts column goes up by one exactly when the file could not be fetched or stored, and stays when the
      run died, an exception escaped, or the evidence was kept. */
  lemma InvokeIs<S>(h: HashLib<S>, declared: Option<string>, attempts: nat, inv: Invocation)
    returns (r: Fetched)
    ensures var (next, calls, ending) := Invoke(h, declared, attempts, inv);
      && FetchMeans(h, declared, attempts, inv.meta, r, calls.resolutions, calls.downloads)
      && (ending == Lost <==> inv.crashed || r == Escaped)
      && (ending == MediaFailed <==> !inv.crashed && r.FetchError?)
      && (ending == Kept <==> !inv.crashed && r.Content? && inv.store.StoreHttp? && inv.store.status in {201, 409}
                              && inv.store.evidence.Some?)
      && next == if ending == MediaFailed || ending == StoreFailed then attempts + 1 else attempts
  {
    FetchIs(h, declared, attempts, inv.meta);
    r := FetchSpec(h, declared, attempts, inv.meta).0;
  }

  /** Totals over the runs that contacted Meta and ended in a MediaFetchError or a StoreError. */
  datatype Totals = Totals(failures: nat, resolutions: nat, downloads: nat)

  function FailureTotals<S>(h: HashLib<S>, declared: Option<string>, attempts: nat, runs: seq<Invocation>): Totals
    decreases |runs|
  {
    if runs == [] then Totals(0, 0, 0) else
    var (next, calls, ending) := Invoke(h, declared, attempts, runs[0]);
    var t := FailureTotals(h, declared, next, runs[1..]);
    if ending in {MediaFailed, StoreFailed} && calls.resolutions + calls.downloads > 0 then
      Totals(t.failures + 1, t.resolutions + calls.resolutions, t.downloads + calls.downloads)
    else t
  }

  /** Failing runs left, and Meta requests of each kind left in them, once `attempts` are recorded. */
  function FailuresLeft(attempts: nat): nat { if attempts >= 4 then 0 else 4 - attempts }

  function RequestsLeft(attempts: nat): nat { if attempts >= 4 then 0 else 7 - 2 * attempts }

  lemma {:induction false} FailureBudget<S>(
    h: HashLib<S>, declared: Option<string>, attempts: nat, runs: seq<Invocation>)
    ensures var t := FailureTotals(h, declared, attempts, runs);
            && t.failures <= FailuresLeft(attempts)
            && t.resolutions <= RequestsLeft(attempts) && t.downloads <= RequestsLeft(attempts)
    decreases |runs|
  {
    if runs != [] {
      FailureBudget(h, declared, Invoke(h, declared, attempts, runs[0]).0, runs[1..]);
    }
  }

  /** From registration on, in any serial sequence of runs. */
  lemma MediaAttemptBound<S>(h: HashLib<S>, declared: Option<string>, runs: seq<Invocation>)
    ensures var t := FailureTotals(h, declared, 0, runs);
            t.failures <= 4 && t.resolutions <= 7 && t.downloads <= 7
  {
    FailureBudget(h, declared, 0, runs);
  }

  /** The bound is reached: a URL that keeps expiring costs seven failed downloads in four runs, more
      than the five failures after which Meta blocks the number. */
  lemma SevenFailedDownloads<S>(h: HashLib<S>, declared: Option<string>)
    ensures exists runs :: FailureTotals(h, declared, 0, runs) == Totals(4, 7, 7)
  {
    var gone := Response(404, None, [], false);
    var found := ResolveHttp(200, Some("u"));
    var inv := Invocation(MetaScript(found, gone, found, gone), StoreNoResponse, false);
    var r4 := [inv];
    var r3 := [inv] + r4;
    var r2 := [inv] + r3;
    var r1 := [inv] + r2;
    assert r4[1..] == [] && r3[1..] == r4 && r2[1..] == r3 && r1[1..] == r2;
    assert FailureTotals(h, declared, 3, r4) == Totals(1, 1, 1);
    assert FailureTotals(h, declared, 2, r3) == Totals(2, 3, 3);
    assert FailureTotals(h, declared, 1, r2) == Totals(3, 5, 5);
    assert FailureTotals(h, declared, 0, r1) == Totals(4, 7, 7);
  }
}
