/**
 * Properties of the pagination loop of internal/s3tables/lister.go: the calls pass
 * each page's token on, stop exactly at a last page or an error, and the result is
 * the pages' items concatenated in order; a listing split into pages of any size
 * drains to the whole listing.
 */
module ListerProperties {
  import opened Wrappers
  import opened Errors
  import opened Lister

  /** The items of the pages answered for `tokens`, concatenated in order */
  ghost function PageItems<S>(pages: PageFn<S>, tokens: seq<Option<string>>): seq<S>
  {
    if |tokens| == 0 then []
    else (if pages(tokens[0]).Success? then pages(tokens[0]).value.items else []) + PageItems(pages, tokens[1..])
  }

  /** The call made with `token` answered a page that was not the last one and handed out `next` */
  ghost predicate Links<S>(pages: PageFn<S>, token: Option<string>, next: Option<string>)
  {
    pages(token).Success? && !IsLastPage(pages(token).value) && pages(token).value.next == next
  }

  /** Each token after the first is the one handed out by the call before it */
  ghost predicate Chained<S>(pages: PageFn<S>, tokens: seq<Option<string>>)
  {
    |tokens| <= 1 || (Links(pages, tokens[0], tokens[1]) && Chained(pages, tokens[1..]))
  }

  /** How a drain ended: on a last page (Done, its items the pages' items in order) or on an error */
  ghost predicate EndsRight<S>(pages: PageFn<S>, d: Drain<S>)
    requires !d.Stalled? && |d.tokens| >= 1
  {
    var last := pages(d.tokens[|d.tokens| - 1]);
    (d.Done? ==> d.items == PageItems(pages, d.tokens) && last.Success? && IsLastPage(last.value)) &&
    (d.Failed? ==> last == Failure(d.err))
  }

  /**
   * The first call carries the starting token; each later call carries the token of
   * the page before it, which was not a last page; a Done drain holds the pages'
   * items in order and ended on a last page; a Failed drain ended on that error.
   */
  lemma {:induction false} DrainFollowsTokens<S>(pages: PageFn<S>, token: Option<string>, fuel: nat, d: Drain<S>)
    requires d == DrainFrom(pages, token, fuel) && !d.Stalled?
    ensures |d.tokens| >= 1 && d.tokens[0] == token
    ensures Chained(pages, d.tokens)
    ensures EndsRight(pages, d)
    decreases fuel
  {
    match pages(token)
    case Failure(e) =>
      assert d == Failed(e, [token]);
    case Success(p) =>
      if IsLastPage(p) {
        assert d == Done(p.items, [token]);
        assert PageItems(pages, [token]) == p.items + PageItems(pages, []);
      } else {
        var rest := DrainFrom(pages, p.next, fuel - 1);
        DrainFollowsTokens(pages, p.next, fuel - 1, rest);
        assert d.tokens == [token] + rest.tokens;
        assert d.tokens[1..] == rest.tokens;
        if d.Done? {
          assert d.items == p.items + rest.items;
        }
      }
  }

  // ---------------------------------------------------------------------------
  // A listing served in pages of a fixed size

  /** The token for the page starting at `offset`: a string of that length */
  function TokenFor(offset: nat): (t: string)
    ensures |t| == offset
  {
    seq(offset, i => '+')
  }

  /** Where a token says the next page starts (the first page for nil) */
  function OffsetOf(token: Option<string>): nat
  {
    if token.Some? then |token.value| else 0
  }

  /** The page starting at `offset`: at most `size` items, and a token when more remain */
  function PageAt<S>(all: seq<S>, size: nat, offset: nat): Page<S>
  {
    var lo := if offset <= |all| then offset else |all|;
    var hi := if offset + size <= |all| then offset + size else |all|;
    Page(all[lo..hi], if offset + size < |all| then Some(TokenFor(offset + size)) else None)
  }

  /** A service that serves `all` in pages of `size` items */
  function SplitPages<S>(all: seq<S>, size: nat): PageFn<S>
  {
    token => Success(PageAt(all, size, OffsetOf(token)))
  }

  lemma {:induction false} SplitDrainsFrom<S>(all: seq<S>, size: nat, token: Option<string>, fuel: nat)
    requires size >= 1 && OffsetOf(token) <= |all|
    requires fuel > |all| - OffsetOf(token)
    ensures DrainFrom(SplitPages(all, size), token, fuel).Done?
    ensures DrainFrom(SplitPages(all, size), token, fuel).items == all[OffsetOf(token)..]
    decreases fuel
  {
    var o := OffsetOf(token);
    var p := PageAt(all, size, o);
    assert SplitPages(all, size)(token) == Success(p);
    if o + size < |all| {
      var next := Some(TokenFor(o + size));
      assert p.items == all[o..o + size] && p.next == next && !IsLastPage(p);
      assert OffsetOf(next) == o + size;
      SplitDrainsFrom(all, size, next, fuel - 1);
      assert all[o..o + size] + all[o + size..] == all[o..];
    } else {
      assert p.items == all[o..] && IsLastPage(p);
    }
  }

  /** Draining a listing served in pages of any positive size gives back the whole listing, in order */
  lemma PaginationComplete<S, T>(all: seq<S>, size: nat, convert: S -> T, operation: string)
    requires size >= 1
    ensures Drains(SplitPages(all, size))
    ensures Drained(SplitPages(all, size)).Done? && Drained(SplitPages(all, size)).items == all
    ensures Listed(SplitPages(all, size), convert, operation) == Success(MapSeq(all, convert))
  {
    var fuel := |all| + 1;
    SplitDrainsFrom(all, size, None, fuel);
    DrainedIs(SplitPages(all, size), fuel);
  }

  /** A page error stops the listing: nothing collected is returned, only the wrapped error */
  lemma ErrorDropsItems<S, T>(pages: PageFn<S>, convert: S -> T, operation: string)
    requires Drains(pages) && Drained(pages).Failed?
    ensures Listed(pages, convert, operation) == Failure(Wrap(operation, Drained(pages).err))
    ensures pages(Drained(pages).tokens[|Drained(pages).tokens| - 1]) == Failure(Drained(pages).err)
  {
    var n: nat :| !DrainFrom(pages, None, n).Stalled?;
    DrainedIs(pages, n);
    DrainFollowsTokens(pages, None, n, Drained(pages));
  }

  /** The first call is made without a token, and the prefix is sent only when non-empty */
  lemma FirstRequest(client: Client, prefix: string)
    requires Drains(BucketPages(client, prefix))
    ensures Drained(BucketPages(client, prefix)).tokens[0] == None
    ensures prefix == "" ==> forall t :: BucketPages(client, prefix)(t) == client.listTableBuckets(BucketsRequest(None, t))
  {
    var n: nat :| !DrainFrom(BucketPages(client, prefix), None, n).Stalled?;
    DrainedIs(BucketPages(client, prefix), n);
    DrainFollowsTokens(BucketPages(client, prefix), None, n, Drained(BucketPages(client, prefix)));
    if prefix == "" {
      forall t: Option<string>
        ensures BucketPages(client, prefix)(t) == client.listTableBuckets(BucketsRequest(None, t))
      {
        assert PrefixParam(prefix) == None;
      }
    }
  }
}
