/**
  The outbound request of an http_request step: the redirect loop and the capped read of
  packages/engine/src/steps/http.ts. Name resolution, the network and the text decoder are inputs.
 */
module Http {
  import opened Base

  const MAX_REDIRECTS: nat := 3

  type Byte = b: int | 0 <= b < 256

  type Url = string

  /** The stream of a body: its chunks, and whether it ends in an error instead of being done. */
  datatype Stream = Stream(chunks: seq<seq<Byte>>, breaks: bool)

  datatype Response = Response(status: int, location: Option<string>, body: Option<Stream>)

  datatype Failure = Failure(why: Message, permanent: bool)

  datatype Result<+T> = Ok(value: T) | Err(failure: Failure)

  /**
    `check` is the guard on a raw URL, `fetch(hop, url)` what the server answers, and `join` the
    absolute form of a location, which may be malformed.
   */
  datatype Web = Web(
    check: string -> Result<Url>,
    fetch: (nat, Url) -> Result<Response>,
    join: (string, Url) -> Option<string>)

  predicate Followable(r: Response) {
    300 <= r.status < 400 && r.location.Some? && r.location.value != ""
  }

  /** What the guard says about the target of a redirect from `url`. */
  function NextUrl(web: Web, r: Response, url: Url): Result<Url>
    requires Followable(r)
  {
    match web.join(r.location.value, url)
    case None => Err(Failure(Text("malformed location"), false))
    case Some(raw) => web.check(raw)
  }

  // ---------------------------------------------------------------- the redirect loop

  /** Fetch `hop` answered with a 3xx and a location whose absolute form the guard let through to `next`. */
  predicate Redirects(web: Web, hop: nat, url: Url, next: Url) {
    var answer := web.fetch(hop, url);
    && answer.Ok? && 300 <= answer.value.status <= 399
    && answer.value.location.Some? && answer.value.location.value != ""
    && var raw := web.join(answer.value.location.value, url); raw.Some? && web.check(raw.value) == Ok(next)
  }

  /** The URLs fetched, in order: the first is the guard's for the configured one, each other the guard's for a redirect. */
  predicate Chain(web: Web, url: string, fetched: seq<Url>) {
    && (fetched != [] ==> web.check(url) == Ok(fetched[0]))
    && forall i: nat :: i + 1 < |fetched| ==> Redirects(web, i, fetched[i], fetched[i + 1])
  }

  /** The answer is not a 3xx with a location. */
  predicate Plain(r: Response) {
    r.status < 300 || r.status > 399 || r.location.None? || r.location.value == ""
  }

  /** What the loop comes to after the last fetch: of four at most, the last may not redirect any more. */
  function Ending(web: Web, url: string, fetched: seq<Url>): Result<Response> {
    if fetched == [] then
      match web.check(url)
      case Err(f) => Err(f)
      case Ok(_) => Err(Failure(Text("not fetched yet"), false))
    else
      var hop := |fetched| - 1;
      match web.fetch(hop, fetched[hop])
      case Err(f) => Err(Failure(f.why, false))
      case Ok(r) =>
        if Plain(r) then Ok(r)
        else if |fetched| >= 4 then Err(Failure(Text("too many redirects"), true))
        else
          match web.join(r.location.value, fetched[hop])
          case None => Err(Failure(Text("malformed location"), false))
          case Some(raw) =>
            match web.check(raw)
            case Err(f) => Err(f)
            case Ok(_) => Err(Failure(Text("not finished"), false))
  }

  /** No further fetch follows. */
  predicate Final(web: Web, url: string, fetched: seq<Url>) {
    if fetched == [] then web.check(url).Err?
    else
      var hop := |fetched| - 1;
      var answer := web.fetch(hop, fetched[hop]);
      answer.Err? || Plain(answer.value) || |fetched| >= 4 ||
      match web.join(answer.value.location.value, fetched[hop])
      case None => true
      case Some(raw) => web.check(raw).Err?
  }

  /** The fetches of `executeHttpRequest`, with the response it keeps. */
  method Follow(web: Web, url: string) returns (result: Result<Response>, fetched: seq<Url>)
    ensures Chain(web, url, fetched) && Final(web, url, fetched)
    ensures result == Ending(web, url, fetched)
    ensures |fetched| <= 4
  {
    fetched := [];
    var allowed := web.check(url);
    if allowed.Err? {
      return Err(allowed.failure), fetched;
    }
    var currentUrl := allowed.value;
    var hop := 0;
    while hop <= MAX_REDIRECTS
      invariant hop == |fetched| <= MAX_REDIRECTS
      invariant Chain(web, url, fetched + [currentUrl])
      decreases MAX_REDIRECTS - hop
    {
      fetched := fetched + [currentUrl];
      assert fetched[..hop + 1] == fetched;
      var answer := web.fetch(hop, currentUrl);
      if answer.Err? {
        return Err(Failure(answer.failure.why, false)), fetched;
      }
      var res := answer.value;
      if !Followable(res) {
        return Ok(res), fetched;
      }
      if hop == MAX_REDIRECTS {
        return Err(Failure(Text("too many redirects"), true)), fetched;
      }
      var next := NextUrl(web, res, currentUrl);
      if next.Err? {
        return Err(next.failure), fetched;
      }
      currentUrl := next.value;
      hop := hop + 1;
    }
    assert false;
    result := Err(Failure(Text("no response"), false));
  }

  /** Every URL fetched was returned by the guard, and a response that is kept is not one to follow. */
  lemma {:induction false} OnlyGuardedUrls(web: Web, url: string, fetched: seq<Url>)
    requires Chain(web, url, fetched) && Final(web, url, fetched)
    ensures forall u :: u in fetched ==> exists raw :: web.check(raw) == Ok(u)
    ensures Ending(web, url, fetched).Ok? ==> Plain(Ending(web, url, fetched).value)
  {
    forall i | 0 <= i < |fetched| ensures exists raw :: web.check(raw) == Ok(fetched[i]) {
      if i == 0 {
        assert web.check(url) == Ok(fetched[0]);
      } else {
        assert Redirects(web, i - 1, fetched[i - 1], fetched[i]);
        var answer := web.fetch(i - 1, fetched[i - 1]);
        var raw := web.join(answer.value.location.value, fetched[i - 1]);
        assert web.check(raw.value) == Ok(fetched[i]);
      }
    }
  }

  /** The fetches are determined: no other finished chain starts from the same URL. */
  lemma {:induction false} OneChain(web: Web, url: string, a: seq<Url>, b: seq<Url>, n: nat)
    requires Chain(web, url, a) && Final(web, url, a) && Chain(web, url, b) && Final(web, url, b)
    requires |a| <= 4 && |b| <= 4
    requires n <= |a| && n <= |b| && a[..n] == b[..n]
    ensures a == b
    decreases 4 - n
  {
    if n > 0 {
      assert a[n - 1] == a[..n][n - 1] == b[..n][n - 1] == b[n - 1];
      assert n < |a| ==> Redirects(web, n - 1, a[n - 1], a[n]);
      assert n < |b| ==> Redirects(web, n - 1, b[n - 1], b[n]);
    }
    assert n < |a| <==> n < |b|;
    if n < |a| && n < |b| {
      assert a[..n + 1] == a[..n] + [a[n]] && b[..n + 1] == b[..n] + [b[n]];
      OneChain(web, url, a, b, n + 1);
    } else {
      assert a == a[..n] && b == b[..n];
    }
  }

  // ---------------------------------------------------------------- the capped read

  function Concat(chunks: seq<seq<Byte>>): seq<Byte> {
    if chunks == [] then [] else Concat(chunks[..|chunks| - 1]) + chunks[|chunks| - 1]
  }

  lemma {:induction false} ConcatNext(chunks: seq<seq<Byte>>, k: nat)
    requires k < |chunks|
    ensures Concat(chunks[..k + 1]) == Concat(chunks[..k]) + chunks[k]
  {
    assert chunks[..k + 1][..k] == chunks[..k];
  }

  /** The chunks read so far first pass the cap with chunk `k`. */
  predicate OverAt(chunks: seq<seq<Byte>>, maxBytes: nat, k: nat) {
    && k < |chunks| && |Concat(chunks[..k + 1])| > maxBytes
    && forall j :: 0 <= j <= k ==> |Concat(chunks[..j])| <= maxBytes
  }

  /** Copying the chunks into one buffer, each behind the one before. */
  method Merge(chunks: seq<seq<Byte>>, total: nat) returns (merged: array<Byte>)
    requires total == |Concat(chunks)|
    ensures fresh(merged) && merged[..] == Concat(chunks)
  {
    merged := new Byte[total](_ => 0);
    var offset := 0;
    for k := 0 to |chunks|
      invariant offset == |Concat(chunks[..k])| <= total
      invariant merged[..offset] == Concat(chunks[..k])
    {
      var c := chunks[k];
      ConcatNext(chunks, k);
      ConcatFits(chunks, k + 1);
      forall i | 0 <= i < |c| {
        merged[offset + i] := c[i];
      }
      assert merged[..offset + |c|] == Concat(chunks[..k]) + c;
      offset := offset + |c|;
    }
    assert chunks[..|chunks|] == chunks;
    assert merged[..] == merged[..offset];
  }

  lemma {:induction false} ConcatFits(chunks: seq<seq<Byte>>, k: nat)
    requires k <= |chunks|
    ensures |Concat(chunks[..k])| <= |Concat(chunks)|
    decreases |chunks| - k
  {
    if k == |chunks| {
      assert chunks[..k] == chunks;
    } else {
      ConcatNext(chunks, k);
      ConcatFits(chunks, k + 1);
    }
  }

  /**
    `readCapped`: the bytes of all chunks when they fit the cap and the stream is done; a stream that
    breaks within the cap fails for now; otherwise it fails, permanently, at the first chunk that
    passes the cap, and reads no further.
   */
  method ReadCapped(body: Option<Stream>, maxBytes: nat) returns (result: Result<seq<Byte>>, chunksRead: nat)
    ensures body.None? ==> result == Ok([]) && chunksRead == 0
    ensures body.Some? && |Concat(body.value.chunks)| <= maxBytes ==>
      chunksRead == |body.value.chunks| &&
      (if body.value.breaks then result.Err? && !result.failure.permanent else result == Ok(Concat(body.value.chunks)))
    ensures body.Some? && |Concat(body.value.chunks)| > maxBytes ==>
      result.Err? && result.failure.permanent && chunksRead > 0 && OverAt(body.value.chunks, maxBytes, chunksRead - 1)
  {
    if body.None? {
      return Ok([]), 0;
    }
    var stream := body.value.chunks;
    var chunks := [];
    var total := 0;
    for k := 0 to |stream|
      invariant chunks == stream[..k] && total == |Concat(chunks)| <= maxBytes
      invariant forall j :: 0 <= j <= k ==> |Concat(stream[..j])| <= maxBytes
    {
      ConcatNext(stream, k);
      total := total + |stream[k]|;
      if total > maxBytes {
        ConcatFits(stream, k + 1);
        return Err(Failure(Text("response too large"), true)), k + 1;
      }
      chunks := chunks + [stream[k]];
    }
    assert chunks == stream;
    if body.value.breaks {
      return Err(Failure(Text("stream error"), false)), |stream|;
    }
    var merged := Merge(chunks, total);
    result, chunksRead := Ok(merged[..]), |stream|;
  }

  // ---------------------------------------------------------------- the whole request

  /** Whether the status is one of success, or listed as accepted. */
  predicate Usable(status: int, accepted: set<int>) { 200 <= status < 300 || status in accepted }

  /** 4xx other than timeout and throttling will not change on a retry. */
  predicate ClientError(status: int) { 400 <= status < 500 && status != 408 && status != 429 }

  /** `JSON.parse` of a body that says it is JSON succeeds. */
  type Parser = (Response, seq<Byte>) -> bool

  /**
    `executeHttpRequest`: the bytes of the last response, or a failure. `readable(r, bytes)` tells that
    a body announced as JSON parses.
   */
  method ExecuteHttpRequest(web: Web, url: string, accepted: set<int>, maxBytes: nat, readable: Parser)
    returns (result: Result<seq<Byte>>, fetched: seq<Url>)
    ensures Chain(web, url, fetched) && Final(web, url, fetched) && |fetched| <= 4
    ensures Ending(web, url, fetched).Err? ==> result == Err(Ending(web, url, fetched).failure)
    ensures Ending(web, url, fetched).Ok? ==> RequestEnds(Ending(web, url, fetched).value, accepted, maxBytes, readable, result)
  {
    var res;
    res, fetched := Follow(web, url);
    if res.Err? {
      return Err(res.failure), fetched;
    }
    var raw, chunksRead := ReadCapped(res.value.body, maxBytes);
    if raw.Err? {
      return raw, fetched;
    }
    var ok := Usable(res.value.status, accepted);
    if !readable(res.value, raw.value) && ok {
      return Err(Failure(Text("unparseable body"), false)), fetched;
    }
    if !ok {
      return Err(Failure(Text("status"), ClientError(res.value.status))), fetched;
    }
    result := raw;
  }

  function BodyOf(r: Response): seq<Byte> { if r.body.None? then [] else Concat(r.body.value.chunks) }

  predicate Arrives(r: Response) { r.body.Some? ==> !r.body.value.breaks }

  /** What the request comes to, given the response that was kept. */
  predicate RequestEnds(r: Response, accepted: set<int>, maxBytes: nat, readable: Parser, result: Result<seq<Byte>>) {
    var bytes := BodyOf(r);
    var usable := 200 <= r.status <= 299 || r.status in accepted;
    && (result.Ok? <==> |bytes| <= maxBytes && Arrives(r) && usable && readable(r, bytes))
    && (result.Ok? ==> result.value == bytes)
    && (result.Err? ==> (result.failure.permanent <==>
          || |bytes| > maxBytes
          || (Arrives(r) && !usable && 400 <= r.status <= 499 && r.status != 408 && r.status != 429)))
  }
}
