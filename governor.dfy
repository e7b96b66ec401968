/** One page fetch, get_at_cursor (exporter.py:35-85): write the cursor into
    the caller's parameter map, look up the token, then read responses until
    one that is not a rate-limit answer decides the outcome.

    The server is an oracle: the sequence of responses it will send, one per
    HTTP request, in order. A fetch starts reading at some position of that
    sequence and reports where it stopped. */
module Governor {
  import opened Json
  import opened Cursor

  const StatusOk := 200
  /** Too Many Requests, section 4 of RFC 6585. */
  const StatusTooManyRequests := 429
  const TokenVariable := "SLACK_USER_TOKEN"

  /** One HTTP response: its status, its Retry-After header when that parses
      as a Python int (None when it is missing or does not parse), and the
      decoded JSON body. */
  datatype Response = Response(status: int, retryAfter: Option<int>, body: Json)

  /** What one get_at_cursor call comes to. `next` is the oracle position
      after the deciding response; `slept` is the seconds spent in
      rate-limit sleeps on the way. */
  datatype Fetch =
      /** every remaining response was a well-formed 429: the source is still retrying */
    | Starved(slept: nat)
    | Failed(why: Fatal, slept: nat)
      /** the KeyError branch (exporter.py:83-85): the body has no "ok", and the call returns (None, []) */
    | Fallback(next: nat, slept: nat)
    | Page(cursor: Option<Json>, body: Record, next: nat, slept: nat)

  function Delayed(f: Fetch, seconds: nat): Fetch {
    f.(slept := f.slept + seconds)
  }

  /** A 429 the loop sleeps on and retries: its Retry-After is an integer
      that time.sleep accepts. */
  predicate Throttled(r: Response) {
    r.status == StatusTooManyRequests && r.retryAfter.Some? && r.retryAfter.value >= 0
  }

  /** The body of a 200 response (exporter.py:68-85). `next` is the position
      after that response. */
  function Interpret(body: Json, next: nat): (f: Fetch)
    ensures f.Page? || f.Fallback? ==> f.next == next && f.slept == 0
  {
    if !body.JObj? then Failed(BodyNotObject, 0)
    else if "ok" !in body.fields then Fallback(next, 0)
    else if body.fields["ok"] == JBool(false) then Failed(NotOk(body.fields), 0)
    else if ReadMetadata(body.fields) == Unreadable then Failed(MalformedMetadata, 0)
    else Page(NextCursor(body.fields), body.fields, next, 0)
  }

  /** The outcome decided by a response that is not Throttled. */
  function Decide(r: Response, next: nat): Fetch {
    if r.status == StatusTooManyRequests then Failed(BadRetryAfter, 0)
    else if r.status != StatusOk then Failed(HttpError(r.status), 0)
    else Interpret(r.body, next)
  }

  /** The status loop (exporter.py:47-66) followed by the body checks, reading
      the oracle from position i. */
  function AtCursor(rs: seq<Response>, i: nat): (f: Fetch)
    requires i <= |rs|
    decreases |rs| - i
    ensures f.Page? || f.Fallback? ==> i < f.next <= |rs|
  {
    if i == |rs| then Starved(0)
    else if Throttled(rs[i]) then Delayed(AtCursor(rs, i + 1), rs[i].retryAfter.value)
    else Decide(rs[i], i + 1)
  }

  /** get_at_cursor as a whole: without the token no request is made. */
  function Fetched(env: map<string, string>, rs: seq<Response>, i: nat): (f: Fetch)
    requires i <= |rs|
    ensures f.Page? || f.Fallback? ==> i < f.next <= |rs|
    ensures TokenVariable !in env ==> f == Failed(MissingToken, 0)
  {
    if TokenVariable !in env then Failed(MissingToken, 0) else AtCursor(rs, i)
  }

  /** The `params` dict a query builder creates and get_at_cursor updates in place. */
  class Params {
    var entries: Record

    constructor (entries: Record)
      ensures this.entries == entries
    {
      this.entries := entries;
    }
  }

  /** The parameter map after `if cursor is not None: params["cursor"] = cursor`. */
  function WithCursor(params: Record, cursor: Option<Json>): Record {
    if cursor.Some? then params["cursor" := cursor.value] else params
  }

  method GetAtCursor(env: map<string, string>, rs: seq<Response>, pos: nat, params: Params, cursor: Option<Json>)
    returns (f: Fetch)
    requires pos <= |rs|
    modifies params
    ensures params.entries == WithCursor(old(params.entries), cursor)
    ensures f == Fetched(env, rs, pos)
  {
    if cursor.Some? {
      params.entries := params.entries["cursor" := cursor.value];
    }
    if TokenVariable !in env {
      return Failed(MissingToken, 0);
    }
    var i: nat, slept: nat := pos, 0;
    while true
      invariant pos <= i <= |rs|
      invariant AtCursor(rs, pos) == Delayed(AtCursor(rs, i), slept)
      decreases |rs| - i
    {
      if i == |rs| {
        return Starved(slept);
      }
      var r := rs[i];
      i := i + 1;
      if r.status == StatusTooManyRequests {
        if r.retryAfter.None? || r.retryAfter.value < 0 {
          return Failed(BadRetryAfter, slept);
        }
        slept := slept + r.retryAfter.value;
      } else if r.status != StatusOk {
        return Failed(HttpError(r.status), slept);
      } else {
        return Delayed(Interpret(r.body, i), slept);
      }
    }
  }

  /** Seconds slept on the Throttled responses of rs[i..j]. */
  function Waited(rs: seq<Response>, i: nat, j: nat): nat
    requires i <= j <= |rs|
    decreases j - i
  {
    if i == j then 0
    else (if Throttled(rs[i]) then rs[i].retryAfter.value else 0) + Waited(rs, i + 1, j)
  }

  /** A 429 never ends the call by itself: the fetch runs out of responses
      exactly when every remaining one is a well-formed 429. */
  lemma {:induction false} StarvedIffAllThrottled(rs: seq<Response>, i: nat)
    requires i <= |rs|
    decreases |rs| - i
    ensures AtCursor(rs, i).Starved? <==> forall k :: i <= k < |rs| ==> Throttled(rs[k])
  {
    if i < |rs| && Throttled(rs[i]) {
      StarvedIffAllThrottled(rs, i + 1);
    }
  }

  /** The first response that is not a well-formed 429 alone decides the
      outcome; the ones before it only add their sleeps. */
  lemma {:induction false} FirstUnthrottledDecides(rs: seq<Response>, i: nat, j: nat)
    requires i <= j < |rs|
    requires forall k :: i <= k < j ==> Throttled(rs[k])
    requires !Throttled(rs[j])
    decreases j - i
    ensures AtCursor(rs, i) == Delayed(Decide(rs[j], j + 1), Waited(rs, i, j))
  {
    if i < j {
      FirstUnthrottledDecides(rs, i + 1, j);
    }
  }

  /** A status other than 200 and 429 after any run of well-formed 429s
      ends the call fatally, whatever the body says. */
  lemma FatalStatusAfterThrottling(rs: seq<Response>, i: nat, j: nat)
    requires i <= j < |rs|
    requires forall k :: i <= k < j ==> Throttled(rs[k])
    requires rs[j].status != StatusOk && rs[j].status != StatusTooManyRequests
    ensures AtCursor(rs, i) == Failed(HttpError(rs[j].status), Waited(rs, i, j))
  {
    FirstUnthrottledDecides(rs, i, j);
  }

  /** A 200 whose body has "ok": false is fatal and yields no page. */
  lemma NotOkIsFatal(rs: seq<Response>, i: nat, j: nat)
    requires i <= j < |rs|
    requires forall k :: i <= k < j ==> Throttled(rs[k])
    requires rs[j].status == StatusOk && rs[j].body.JObj?
    requires "ok" in rs[j].body.fields && rs[j].body.fields["ok"] == JBool(false)
    ensures AtCursor(rs, i) == Failed(NotOk(rs[j].body.fields), Waited(rs, i, j))
  {
    FirstUnthrottledDecides(rs, i, j);
  }

  /** One 429 asking for s seconds, then a 200 page: the call returns that
      page after sleeping s seconds. */
  lemma RetryOnceThenPage(s: nat, first: Json, body: Record)
    requires "ok" in body && body["ok"] != JBool(false) && ReadMetadata(body) != Unreadable
    ensures var rs := [Response(StatusTooManyRequests, Some(s), first), Response(StatusOk, None, JObj(body))];
      AtCursor(rs, 0) == Page(NextCursor(body), body, 2, s)
  {
  }

  /** Only a 200 leaves the status loop: a page (or the fallback) comes from
      a 200 preceded by nothing but well-formed 429s, and a page comes from
      an object body whose "ok" is present and not false, with the cursor
      that body names. */
  lemma {:induction false} OnlyOkLeaves(rs: seq<Response>, i: nat)
    requires i <= |rs|
    decreases |rs| - i
    ensures var f := AtCursor(rs, i);
      (f.Page? || f.Fallback?) ==>
        && rs[f.next - 1].status == StatusOk
        && (forall k :: i <= k < f.next - 1 ==> Throttled(rs[k]))
        && f.slept == Waited(rs, i, f.next - 1)
    ensures var f := AtCursor(rs, i);
      f.Page? ==>
        var b := rs[f.next - 1].body;
        && b == JObj(f.body)
        && "ok" in f.body && f.body["ok"] != JBool(false)
        && ReadMetadata(f.body) != Unreadable
        && f.cursor == NextCursor(f.body)
  {
    if i < |rs| && Throttled(rs[i]) {
      OnlyOkLeaves(rs, i + 1);
    }
  }

  /** A fetch that did not run out of responses never looks past the
      response that decided it: more responses behind do not change it. */
  lemma {:induction false} FetchIgnoresLaterResponses(rs: seq<Response>, more: seq<Response>, i: nat)
    requires i <= |rs|
    requires !AtCursor(rs, i).Starved?
    decreases |rs| - i
    ensures AtCursor(rs + more, i) == AtCursor(rs, i)
  {
    assert (rs + more)[i] == rs[i];
    if Throttled(rs[i]) {
      FetchIgnoresLaterResponses(rs, more, i + 1);
    }
  }
}
