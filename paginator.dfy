/** The cursor paginator, paginated_get (exporter.py:88-108): fetch pages,
    feeding each page's cursor into the next fetch, and collect the list each
    page holds under the combine key, until a page has no cursor. */
module Paginator {
  import opened Json
  import opened Governor

  /** What one paginated_get call comes to. */
  datatype Pagination =
      /** the collected records, the number of pages fetched, the oracle
          position after the last one, the seconds slept, and the parameter
          map as the last request sent it */
    | Done(items: seq<Json>, pages: nat, next: nat, slept: nat, params: Record)
    | Aborted(why: Fatal)
      /** the responses ran out while the source was still retrying */
    | Unfinished

  /** `data[combine_key]` on a page body, as a list to extend the result with
      (exporter.py:96-103). */
  function PageItems(body: Record, key: string): (r: Result<seq<Json>>)
    ensures r.Success? <==> key in body && body[key].JArr?
    ensures r.Success? ==> r.value == body[key].items
    ensures key !in body ==> r == Failure(MissingKey(key))
  {
    if key !in body then Failure(MissingKey(key))
    else if body[key].JArr? then Success(body[key].items)
    else Failure(NotAList(key))
  }

  /** A run that follows `pages` pages holding `items` after `slept` seconds. */
  function Prefixed(items: seq<Json>, pages: nat, slept: nat, p: Pagination): Pagination {
    match p
    case Done(rest, n, next, s, ps) => Done(items + rest, pages + n, next, slept + s, ps)
    case _ => p
  }

  /** The paginator's loop from oracle position i, with the parameter map as
      it stands and the cursor the previous page handed back. */
  function Paginate(env: map<string, string>, rs: seq<Response>, i: nat, params: Record,
                    cursor: Option<Json>, key: string): (p: Pagination)
    requires i <= |rs|
    decreases |rs| - i
    ensures p.Done? ==> i < p.next <= |rs| && p.pages >= 1
  {
    var sent := WithCursor(params, cursor);
    match Fetched(env, rs, i)
    case Starved(_) => Unfinished
    case Failed(why, _) => Aborted(why)
    case Fallback(_, _) => Aborted(Unindexable(key))
    case Page(c, body, next, s) =>
      match PageItems(body, key)
      case Failure(why) => Aborted(why)
      case Success(items) =>
        if c.None? then Done(items, 1, next, s, sent)
        else Prefixed(items, 1, s, Paginate(env, rs, next, sent, c, key))
  }

  lemma PrefixedTwice(a: seq<Json>, m: nat, s: nat, b: seq<Json>, n: nat, t: nat, p: Pagination)
    ensures Prefixed(a, m, s, Prefixed(b, n, t, p)) == Prefixed(a + b, m + n, s + t, p)
  {
    if p.Done? {
      assert a + (b + p.items) == (a + b) + p.items;
    }
  }

  method PaginatedGet(env: map<string, string>, rs: seq<Response>, pos: nat, params: Params, key: string)
    returns (p: Pagination)
    requires pos <= |rs|
    modifies params
    ensures p == Paginate(env, rs, pos, old(params.entries), None, key)
    ensures p.Done? ==> params.entries == p.params
  {
    var nextCursor: Option<Json> := None;
    var result: seq<Json> := [];
    var i: nat, pages: nat, slept: nat := pos, 0, 0;
    assert result + [] == [];
    while true
      invariant pos <= i <= |rs|
      invariant Paginate(env, rs, pos, old(params.entries), None, key)
             == Prefixed(result, pages, slept, Paginate(env, rs, i, params.entries, nextCursor, key))
      decreases |rs| - i
    {
      ghost var before := params.entries;
      var f := GetAtCursor(env, rs, i, params, nextCursor);
      match f {
        case Starved(_) =>
          return Unfinished;
        case Failed(why, _) =>
          return Aborted(why);
        case Fallback(_, _) =>
          return Aborted(Unindexable(key));
        case Page(c, body, n, s) =>
          var got := PageItems(body, key);
          if got.Failure? {
            return Aborted(got.why);
          }
          PrefixedTwice(result, pages, slept, got.value, 1, s,
                        Paginate(env, rs, n, params.entries, c, key));
          result := result + got.value;
          pages, slept := pages + 1, slept + s;
          if c.None? {
            return Done(result, pages, n, slept, params.entries);
          }
          nextCursor := c;
          i := n;
      }
    }
  }

  /** The first n fetches a paginator starting at position i can make, each
      starting where the previous page ended; the chain stops early at the
      first fetch that is not a page. */
  function Chain(env: map<string, string>, rs: seq<Response>, i: nat, n: nat): (ch: seq<Fetch>)
    requires i <= |rs|
    decreases n
    ensures |ch| <= n
  {
    if n == 0 then []
    else
      var f := Fetched(env, rs, i);
      if f.Page? then [f] + Chain(env, rs, f.next, n - 1) else [f]
  }

  /** The records of the pages of a chain, in arrival order. */
  function Collected(ch: seq<Fetch>, key: string): seq<Json> {
    if ch == [] then []
    else
      (if ch[0].Page? && PageItems(ch[0].body, key).Success? then PageItems(ch[0].body, key).value else [])
      + Collected(ch[1..], key)
  }

  function SleptOn(ch: seq<Fetch>): nat {
    if ch == [] then 0 else ch[0].slept + SleptOn(ch[1..])
  }

  /** The first n fetches from position i are n pages, each holding a list
      under key; the first n - 1 hand back a cursor and the last one none. */
  ghost predicate Finishes(env: map<string, string>, rs: seq<Response>, i: nat, n: nat, key: string)
    requires i <= |rs|
  {
    var ch := Chain(env, rs, i, n);
    && n >= 1 && |ch| == n
    && (forall k :: 0 <= k < n ==> ch[k].Page? && PageItems(ch[k].body, key).Success?)
    && (forall k :: 0 <= k < n - 1 ==> ch[k].cursor.Some?)
    && ch[n - 1].cursor.None?
  }

  /** A chain that starts with a page continues where that page ended. */
  lemma ChainStep(env: map<string, string>, rs: seq<Response>, i: nat, n: nat)
    requires i <= |rs|
    requires n >= 1 && Fetched(env, rs, i).Page?
    ensures var f := Fetched(env, rs, i);
      Chain(env, rs, i, n) == [f] + Chain(env, rs, f.next, n - 1)
  {
  }

  /** The tail of a finishing chain of n >= 2 pages finishes in n - 1. */
  lemma FinishesTail(env: map<string, string>, rs: seq<Response>, i: nat, n: nat, key: string)
    requires i <= |rs|
    requires Finishes(env, rs, i, n, key) && n >= 2
    ensures var f := Fetched(env, rs, i);
      && f.Page? && f.cursor.Some? && PageItems(f.body, key).Success?
      && Finishes(env, rs, f.next, n - 1, key)
  {
    var ch := Chain(env, rs, i, n);
    var f := Fetched(env, rs, i);
    assert ch[0] == f;
    ChainStep(env, rs, i, n);
    var tail := Chain(env, rs, f.next, n - 1);
    forall k | 0 <= k < n - 1 ensures tail[k] == ch[k + 1] { }
  }

  /** The records and the sleeps of a chain that starts with a page. */
  lemma CollectedStep(ch: seq<Fetch>, key: string)
    requires ch != [] && ch[0].Page? && PageItems(ch[0].body, key).Success?
    ensures Collected(ch, key) == PageItems(ch[0].body, key).value + Collected(ch[1..], key)
    ensures SleptOn(ch) == ch[0].slept + SleptOn(ch[1..])
  {
  }

  /** Completeness: if the first page without a cursor is page n - 1, the
      paginator makes exactly those n page fetches, returns their lists
      concatenated in arrival order, stops right after the last one, and
      leaves in the parameter map the last cursor it wrote. */
  lemma {:induction false} PaginateCollectsChain(env: map<string, string>, rs: seq<Response>, i: nat,
                                                 params: Record, cursor: Option<Json>, key: string, n: nat)
    requires i <= |rs|
    requires Finishes(env, rs, i, n, key)
    decreases n
    ensures var p := Paginate(env, rs, i, params, cursor, key);
      var ch := Chain(env, rs, i, n);
      && p.Done?
      && p.items == Collected(ch, key)
      && p.pages == n
      && p.next == ch[n - 1].next
      && p.slept == SleptOn(ch)
      && p.params == (if n == 1 then WithCursor(params, cursor) else params["cursor" := ch[n - 2].cursor.value])
  {
    var ch := Chain(env, rs, i, n);
    var f := Fetched(env, rs, i);
    assert ch[0] == f;
    CollectedStep(ch, key);
    if n == 1 {
      assert ch[1..] == [];
    } else {
      var sent := WithCursor(params, cursor);
      FinishesTail(env, rs, i, n, key);
      PaginateCollectsChain(env, rs, f.next, sent, f.cursor, key, n - 1);
      CollectsChainStep(env, rs, i, params, cursor, key, n);
    }
  }

  /** The step of PaginateCollectsChain, from the run after the first page. */
  lemma CollectsChainStep(env: map<string, string>, rs: seq<Response>, i: nat,
                          params: Record, cursor: Option<Json>, key: string, n: nat)
    requires i <= |rs| && n >= 2
    requires var f := Fetched(env, rs, i);
      && f.Page? && f.cursor.Some? && PageItems(f.body, key).Success?
      && var ch := Chain(env, rs, f.next, n - 1);
         var p := Paginate(env, rs, f.next, WithCursor(params, cursor), f.cursor, key);
         && Finishes(env, rs, f.next, n - 1, key) && p.Done?
         && p.items == Collected(ch, key)
         && p.pages == n - 1
         && p.next == ch[n - 2].next
         && p.slept == SleptOn(ch)
         && p.params == (if n == 2 then WithCursor(WithCursor(params, cursor), f.cursor)
                         else WithCursor(params, cursor)["cursor" := ch[n - 3].cursor.value])
    ensures var p := Paginate(env, rs, i, params, cursor, key);
      var ch := Chain(env, rs, i, n);
      && p.Done?
      && p.items == Collected(ch, key)
      && p.pages == n
      && p.next == ch[n - 1].next
      && p.slept == SleptOn(ch)
      && p.params == params["cursor" := ch[n - 2].cursor.value]
  {
    var f := Fetched(env, rs, i);
    FinishesCons(env, rs, i, n, key);
    ChainStep(env, rs, i, n);
    var ch := Chain(env, rs, i, n);
    var tail := Chain(env, rs, f.next, n - 1);
    assert ch[0] == f && ch[1..] == tail;
    CollectedStep(ch, key);
    assert ch[n - 1] == tail[n - 2];
    if n == 2 {
      assert ch[0] == f;
    } else {
      assert tail[n - 3] == ch[n - 2];
    }
  }

  /** Soundness: a paginator that completes fetched exactly such a chain, so
      no page lacked the combine key and none after the first page without a
      cursor was asked for. */
  lemma {:induction false} DoneMeansChain(env: map<string, string>, rs: seq<Response>, i: nat,
                                          params: Record, cursor: Option<Json>, key: string)
    requires i <= |rs|
    requires Paginate(env, rs, i, params, cursor, key).Done?
    decreases |rs| - i
    ensures Finishes(env, rs, i, Paginate(env, rs, i, params, cursor, key).pages, key)
  {
    var p := Paginate(env, rs, i, params, cursor, key);
    var f := Fetched(env, rs, i);
    var sent := WithCursor(params, cursor);
    assert f.Page? && PageItems(f.body, key).Success?;
    if f.cursor.Some? {
      var rest := Paginate(env, rs, f.next, sent, f.cursor, key);
      DoneMeansChain(env, rs, f.next, sent, f.cursor, key);
      var n := p.pages;
      assert n == rest.pages + 1;
      ChainStep(env, rs, i, n);
      FinishesCons(env, rs, i, n, key);
    } else {
      ChainStep(env, rs, i, 1);
    }
  }

  /** A page with a list and a cursor in front of a finishing chain. */
  lemma FinishesCons(env: map<string, string>, rs: seq<Response>, i: nat, n: nat, key: string)
    requires i <= |rs| && n >= 2
    requires var f := Fetched(env, rs, i);
      && f.Page? && f.cursor.Some? && PageItems(f.body, key).Success?
      && Finishes(env, rs, f.next, n - 1, key)
    ensures Finishes(env, rs, i, n, key)
  {
    var f := Fetched(env, rs, i);
    ChainStep(env, rs, i, n);
    var ch := Chain(env, rs, i, n);
    var tail := Chain(env, rs, f.next, n - 1);
    forall k | 0 <= k < n ensures ch[k].Page? && PageItems(ch[k].body, key).Success? {
      if k > 0 { assert ch[k] == tail[k - 1]; }
    }
    forall k | 0 <= k < n - 1 ensures ch[k].cursor.Some? {
      if k > 0 { assert ch[k] == tail[k - 1]; }
    }
    assert ch[n - 1] == tail[n - 2];
  }

  /** A page body missing the combine key ends the run: if the first n
      fetches are pages with lists and cursors and the next page lacks the
      key, the run aborts and returns nothing. */
  lemma {:induction false} MissingKeyAborts(env: map<string, string>, rs: seq<Response>, i: nat,
                                            params: Record, cursor: Option<Json>, key: string, n: nat)
    requires i <= |rs|
    requires var ch := Chain(env, rs, i, n + 1);
      && |ch| == n + 1
      && (forall k :: 0 <= k < n ==> ch[k].Page? && PageItems(ch[k].body, key).Success? && ch[k].cursor.Some?)
      && ch[n].Page? && key !in ch[n].body
    decreases n
    ensures Paginate(env, rs, i, params, cursor, key) == Aborted(MissingKey(key))
  {
    var ch := Chain(env, rs, i, n + 1);
    var f := ch[0];
    if n > 0 {
      var tail := Chain(env, rs, f.next, n);
      assert ch == [f] + tail;
      forall k | 0 <= k < n - 1
        ensures tail[k].Page? && PageItems(tail[k].body, key).Success? && tail[k].cursor.Some?
      {
        assert tail[k] == ch[k + 1];
      }
      assert tail[n - 1] == ch[n];
      MissingKeyAborts(env, rs, f.next, WithCursor(params, cursor), f.cursor, key, n - 1);
    }
  }

  /** No later page is consumed: once the paginator has an outcome other than
      running out of responses, responses queued after the oracle change
      nothing. */
  lemma {:induction false} PaginateIgnoresLaterResponses(env: map<string, string>, rs: seq<Response>,
                                                         more: seq<Response>, i: nat,
                                                         params: Record, cursor: Option<Json>, key: string)
    requires i <= |rs|
    requires !Paginate(env, rs, i, params, cursor, key).Unfinished?
    decreases |rs| - i
    ensures Paginate(env, rs + more, i, params, cursor, key) == Paginate(env, rs, i, params, cursor, key)
  {
    if TokenVariable in env {
      FetchIgnoresLaterResponses(rs, more, i);
      var f := Fetched(env, rs, i);
      if f.Page? && PageItems(f.body, key).Success? && f.cursor.Some? {
        PaginateIgnoresLaterResponses(env, rs, more, f.next, WithCursor(params, cursor), f.cursor, key);
      }
    }
  }
}
