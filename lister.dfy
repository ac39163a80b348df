/**
 * Listing (internal/s3tables/lister.go): each `List*All` drains a paginated listing
 * of the remote API into one slice, `GetTableBucketARN` looks a bucket up by name,
 * and `GetTableDetails` reads one table.
 *
 * The remote API is a `Client`: a record of functions from a request to the page
 * (or the error) the service answers with. Pagination ends only when the service
 * stops handing out continuation tokens; that the service does so is its contract,
 * written `Drains` below and required of the client.
 */
module Lister {
  import opened Wrappers
  import opened Errors

  /** A creation time; the listing only copies it */
  type Timestamp = int

  /** The service's summaries, with the SDK's nil-able fields */
  datatype TableBucketSummary = TableBucketSummary(name: Option<string>, arn: Option<string>, createdAt: Option<Timestamp>)
  datatype NamespaceSummary = NamespaceSummary(namespace: seq<string>, createdAt: Option<Timestamp>)
  datatype TableSummary = TableSummary(
    name: Option<string>, tableArn: Option<string>, namespace: seq<string>, createdAt: Option<Timestamp>, kind: string)
  datatype GetTableOutput = GetTableOutput(name: Option<string>, tableArn: Option<string>, createdAt: Option<Timestamp>, kind: string)

  /** TableBucketInfo, NamespaceInfo and TableInfo: what the program keeps of a summary */
  datatype TableBucketInfo = TableBucketInfo(name: string, arn: string, createdAt: Timestamp)
  datatype NamespaceInfo = NamespaceInfo(name: string, createdAt: Timestamp)
  datatype TableInfo = TableInfo(name: string, arn: string, namespace: string, createdAt: Timestamp, kind: string)

  /** A page of a listing and the token for the next one */
  datatype Page<S> = Page(items: seq<S>, next: Option<string>)

  datatype BucketsRequest = BucketsRequest(prefix: Option<string>, token: Option<string>)
  datatype NamespacesRequest = NamespacesRequest(bucketArn: string, prefix: Option<string>, token: Option<string>)
  datatype TablesRequest = TablesRequest(bucketArn: string, namespace: string, prefix: Option<string>, token: Option<string>)
  datatype GetTableRequest = GetTableRequest(bucketArn: string, namespace: string, name: string)

  /** The calls of the remote API that the lister makes */
  datatype Client = Client(
    listTableBuckets: BucketsRequest -> Result<Page<TableBucketSummary>, RemoteError>,
    listNamespaces: NamespacesRequest -> Result<Page<NamespaceSummary>, RemoteError>,
    listTables: TablesRequest -> Result<Page<TableSummary>, RemoteError>,
    getTable: GetTableRequest -> Result<GetTableOutput, RemoteError>)

  // ---------------------------------------------------------------------------
  // Field mapping

  /** `aws.ToString`: a nil string reads as "" */
  function ToString(s: Option<string>): string
  {
    if s.Some? then s.value else ""
  }

  /** `aws.ToTime`: a nil time reads as the zero time */
  function ToTime(t: Option<Timestamp>): Timestamp
  {
    if t.Some? then t.value else 0
  }

  /** The name kept for a namespace path: its first element, or "" for an empty path */
  function FirstPart(path: seq<string>): (r: string)
    ensures |path| > 0 ==> r == path[0]
    ensures |path| == 0 ==> r == ""
  {
    if |path| > 0 then path[0] else ""
  }

  function BucketInfoOf(s: TableBucketSummary): TableBucketInfo
  {
    TableBucketInfo(ToString(s.name), ToString(s.arn), ToTime(s.createdAt))
  }

  function NamespaceInfoOf(s: NamespaceSummary): NamespaceInfo
  {
    NamespaceInfo(FirstPart(s.namespace), ToTime(s.createdAt))
  }

  function TableInfoOf(s: TableSummary): TableInfo
  {
    TableInfo(ToString(s.name), ToString(s.tableArn), FirstPart(s.namespace), ToTime(s.createdAt), s.kind)
  }

  /** The prefix field of a request: set only for a non-empty prefix */
  function PrefixParam(prefix: string): (r: Option<string>)
    ensures r.Some? <==> prefix != ""
    ensures r.Some? ==> r.value == prefix
  {
    if prefix != "" then Some(prefix) else None
  }

  /** Applies `f` to every element, keeping the order */
  function MapSeq<S, T>(s: seq<S>, f: S -> T): (r: seq<T>)
    ensures |r| == |s| && forall i :: 0 <= i < |s| ==> r[i] == f(s[i])
  {
    seq(|s|, i requires 0 <= i < |s| => f(s[i]))
  }

  // ---------------------------------------------------------------------------
  // Pagination

  /** One listing as a function of the continuation token (nil for the first page) */
  type PageFn<S> = Option<string> -> Result<Page<S>, RemoteError>

  /** The loop stops when the token is absent or empty */
  predicate IsLastPage<S>(p: Page<S>)
  {
    p.next.None? || p.next.value == ""
  }

  /** Where draining a listing ends, with the tokens sent on the way */
  datatype Drain<S> =
    | Done(items: seq<S>, tokens: seq<Option<string>>)
    | Failed(err: RemoteError, tokens: seq<Option<string>>)
    | Stalled

  /** Draining from `token` with at most `fuel` calls; Stalled when the calls run out */
  function DrainFrom<S>(pages: PageFn<S>, token: Option<string>, fuel: nat): Drain<S>
    decreases fuel
  {
    if fuel == 0 then Stalled
    else match pages(token)
      case Failure(e) => Failed(e, [token])
      case Success(p) =>
        if IsLastPage(p) then Done(p.items, [token])
        else match DrainFrom(pages, p.next, fuel - 1)
          case Done(rest, ts) => Done(p.items + rest, [token] + ts)
          case Failed(e, ts) => Failed(e, [token] + ts)
          case Stalled => Stalled
  }

  /** The service ends the listing after finitely many pages */
  ghost predicate Drains<S>(pages: PageFn<S>)
  {
    exists fuel: nat :: !DrainFrom(pages, None, fuel).Stalled?
  }

  /** More calls than needed change nothing */
  lemma {:induction false} DrainStable<S>(pages: PageFn<S>, token: Option<string>, n: nat, m: nat)
    requires n <= m && !DrainFrom(pages, token, n).Stalled?
    ensures DrainFrom(pages, token, m) == DrainFrom(pages, token, n)
    decreases n
  {
    match pages(token)
    case Failure(_) =>
    case Success(p) =>
      if !IsLastPage(p) {
        DrainStable(pages, p.next, n - 1, m - 1);
      }
  }

  /** The outcome of draining a listing the service ends */
  ghost function Drained<S>(pages: PageFn<S>): (d: Drain<S>)
    requires Drains(pages)
    ensures !d.Stalled?
    ensures exists fuel: nat :: !DrainFrom(pages, None, fuel).Stalled? && d == DrainFrom(pages, None, fuel)
  {
    var fuel: nat :| !DrainFrom(pages, None, fuel).Stalled?;
    DrainFrom(pages, None, fuel)
  }

  /** Every sufficient number of calls gives the outcome */
  lemma DrainedIs<S>(pages: PageFn<S>, n: nat)
    requires !DrainFrom(pages, None, n).Stalled?
    ensures Drains(pages) && Drained(pages) == DrainFrom(pages, None, n)
  {
    var m: nat :| !DrainFrom(pages, None, m).Stalled? && Drained(pages) == DrainFrom(pages, None, m);
    if n <= m {
      DrainStable(pages, None, n, m);
    } else {
      DrainStable(pages, None, m, n);
    }
  }

  /** What a `List*All` returns: every item converted, or the first error wrapped */
  ghost function Listed<S, T>(pages: PageFn<S>, convert: S -> T, operation: string): Result<seq<T>, TablesError>
    requires Drains(pages)
  {
    var d := Drained(pages);
    if d.Done? then Success(MapSeq(d.items, convert)) else Failure(Wrap(operation, d.err))
  }

  /** The already-collected items and tokens put in front of the rest of a drain */
  function Resume<S>(items: seq<S>, tokens: seq<Option<string>>, rest: Drain<S>): Drain<S>
  {
    match rest
    case Done(more, ts) => Done(items + more, tokens + ts)
    case Failed(e, ts) => Failed(e, tokens + ts)
    case Stalled => Stalled
  }

  /** A page that is not the last: the rest of the drain continues from its token */
  lemma ResumeNext<S>(pages: PageFn<S>, token: Option<string>, fuel: nat, items: seq<S>, tokens: seq<Option<string>>)
    requires !DrainFrom(pages, token, fuel).Stalled?
    requires pages(token).Success? && !IsLastPage(pages(token).value)
    ensures fuel > 0 && !DrainFrom(pages, pages(token).value.next, fuel - 1).Stalled?
    ensures Resume(items, tokens, DrainFrom(pages, token, fuel)) ==
            Resume(items + pages(token).value.items, tokens + [token], DrainFrom(pages, pages(token).value.next, fuel - 1))
  {
    var p := pages(token).value;
    match DrainFrom(pages, p.next, fuel - 1)
    case Done(rest, ts) =>
      assert items + (p.items + rest) == items + p.items + rest;
      assert tokens + ([token] + ts) == tokens + [token] + ts;
    case Failed(e, ts) =>
      assert tokens + ([token] + ts) == tokens + [token] + ts;
  }

  /** The last page ends the drain with its items */
  lemma ResumeLast<S>(pages: PageFn<S>, token: Option<string>, fuel: nat, items: seq<S>, tokens: seq<Option<string>>)
    requires !DrainFrom(pages, token, fuel).Stalled?
    requires pages(token).Success? && IsLastPage(pages(token).value)
    ensures Resume(items, tokens, DrainFrom(pages, token, fuel)) ==
            Done(items + pages(token).value.items, tokens + [token])
  {
  }

  /** A failed call ends the drain with its error */
  lemma ResumeFailed<S>(pages: PageFn<S>, token: Option<string>, fuel: nat, items: seq<S>, tokens: seq<Option<string>>)
    requires !DrainFrom(pages, token, fuel).Stalled?
    requires pages(token).Failure?
    ensures Resume(items, tokens, DrainFrom(pages, token, fuel)) == Failed(pages(token).error, tokens + [token])
  {
  }

  /**
   * The loop shared by the three `List*All`: call with the current token, append the
   * page's items, stop on an error (dropping what was collected) or on a last page,
   * otherwise go on with the page's token.
   */
  method CollectPages<S, T>(pages: PageFn<S>, convert: S -> T, operation: string)
    returns (r: Result<seq<T>, TablesError>, sent: seq<Option<string>>)
    requires Drains(pages)
    ensures r == Listed(pages, convert, operation)
    ensures sent == Drained(pages).tokens
  {
    ghost var n: nat :| !DrainFrom(pages, None, n).Stalled?;
    DrainedIs(pages, n);
    var collected: seq<T> := [];
    var token: Option<string> := None;
    sent := [];
    ghost var raw: seq<S> := [];
    ghost var fuel: nat := n;
    while true
      invariant !DrainFrom(pages, token, fuel).Stalled?
      invariant collected == MapSeq(raw, convert)
      invariant DrainFrom(pages, None, n) == Resume(raw, sent, DrainFrom(pages, token, fuel))
      decreases fuel
    {
      var response := pages(token);
      if response.Failure? {
        ResumeFailed(pages, token, fuel, raw, sent);
        sent := sent + [token];
        r := Failure(Wrap(operation, response.error));
        return;
      }
      var page := response.value;
      assert MapSeq(raw + page.items, convert) == collected + MapSeq(page.items, convert);
      collected := collected + MapSeq(page.items, convert);
      if IsLastPage(page) {
        ResumeLast(pages, token, fuel, raw, sent);
        sent := sent + [token];
        raw := raw + page.items;
        r := Success(collected);
        return;
      }
      ResumeNext(pages, token, fuel, raw, sent);
      sent := sent + [token];
      raw := raw + page.items;
      token := page.next;
      fuel := fuel - 1;
    }
  }

  function BucketPages(client: Client, prefix: string): PageFn<TableBucketSummary>
  {
    token => client.listTableBuckets(BucketsRequest(PrefixParam(prefix), token))
  }

  function NamespacePages(client: Client, bucketArn: string, prefix: string): PageFn<NamespaceSummary>
  {
    token => client.listNamespaces(NamespacesRequest(bucketArn, PrefixParam(prefix), token))
  }

  function TablePages(client: Client, bucketArn: string, namespace: string, prefix: string): PageFn<TableSummary>
  {
    token => client.listTables(TablesRequest(bucketArn, namespace, PrefixParam(prefix), token))
  }

  ghost function BucketsListed(client: Client, prefix: string): Result<seq<TableBucketInfo>, TablesError>
    requires Drains(BucketPages(client, prefix))
  {
    Listed(BucketPages(client, prefix), BucketInfoOf, "ListTableBuckets")
  }

  ghost function NamespacesListed(client: Client, bucketArn: string, prefix: string): Result<seq<NamespaceInfo>, TablesError>
    requires Drains(NamespacePages(client, bucketArn, prefix))
  {
    Listed(NamespacePages(client, bucketArn, prefix), NamespaceInfoOf, "ListNamespaces")
  }

  ghost function TablesListed(client: Client, bucketArn: string, namespace: string, prefix: string)
    : Result<seq<TableInfo>, TablesError>
    requires Drains(TablePages(client, bucketArn, namespace, prefix))
  {
    Listed(TablePages(client, bucketArn, namespace, prefix), TableInfoOf, "ListTables")
  }

  /** `ListTableBucketsAll` */
  method ListTableBucketsAll(client: Client, prefix: string) returns (r: Result<seq<TableBucketInfo>, TablesError>)
    requires Drains(BucketPages(client, prefix))
    ensures r == BucketsListed(client, prefix)
  {
    var sent;
    r, sent := CollectPages(BucketPages(client, prefix), BucketInfoOf, "ListTableBuckets");
  }

  /** `ListNamespacesAll` */
  method ListNamespacesAll(client: Client, bucketArn: string, prefix: string) returns (r: Result<seq<NamespaceInfo>, TablesError>)
    requires Drains(NamespacePages(client, bucketArn, prefix))
    ensures r == NamespacesListed(client, bucketArn, prefix)
  {
    var sent;
    r, sent := CollectPages(NamespacePages(client, bucketArn, prefix), NamespaceInfoOf, "ListNamespaces");
  }

  /** `ListTablesAll` */
  method ListTablesAll(client: Client, bucketArn: string, namespace: string, prefix: string)
    returns (r: Result<seq<TableInfo>, TablesError>)
    requires Drains(TablePages(client, bucketArn, namespace, prefix))
    ensures r == TablesListed(client, bucketArn, namespace, prefix)
  {
    var sent;
    r, sent := CollectPages(TablePages(client, bucketArn, namespace, prefix), TableInfoOf, "ListTables");
  }

  // ---------------------------------------------------------------------------
  // Look-ups

  /** The index of the first bucket called `name` */
  function FirstNamed(buckets: seq<TableBucketInfo>, name: string): (r: Option<nat>)
    ensures r.Some? ==> r.value < |buckets| && buckets[r.value].name == name &&
                        forall j :: 0 <= j < r.value ==> buckets[j].name != name
    ensures r.None? ==> forall j :: 0 <= j < |buckets| ==> buckets[j].name != name
  {
    if |buckets| == 0 then None
    else if buckets[0].name == name then Some(0)
    else match FirstNamed(buckets[1..], name)
      case None => None
      case Some(k) => Some(k + 1)
  }

  /** The error `GetTableBucketARN` raises itself when no bucket has the name */
  function BucketNotFound(name: string): TablesError
  {
    TablesError(None, "GetTableBucketARN", "table bucket '" + name + "' not found",
                "verify the table bucket name and try again", NotFound)
  }

  /** `GetTableBucketARN`: lists the buckets with the name as prefix and takes the first exact match */
  method GetTableBucketArn(client: Client, name: string) returns (r: Result<string, TablesError>)
    requires Drains(BucketPages(client, name))
    ensures BucketsListed(client, name).Failure? ==> r == Failure(BucketsListed(client, name).error)
    ensures BucketsListed(client, name).Success? ==>
              var buckets := BucketsListed(client, name).value;
              match FirstNamed(buckets, name)
              case Some(i) => r == Success(buckets[i].arn)
              case None => r == Failure(BucketNotFound(name))
  {
    var listed := ListTableBucketsAll(client, name);
    if listed.Failure? {
      return Failure(listed.error);
    }
    var buckets := listed.value;
    var i := 0;
    while i < |buckets|
      invariant 0 <= i <= |buckets|
      invariant forall j :: 0 <= j < i ==> buckets[j].name != name
    {
      if buckets[i].name == name {
        return Success(buckets[i].arn);
      }
      i := i + 1;
    }
    return Failure(BucketNotFound(name));
  }

  /** `GetTableDetails`: one GetTable call; the namespace is the one asked for, not read back */
  function GetTableDetails(client: Client, bucketArn: string, namespace: string, table: string)
    : (r: Result<TableInfo, TablesError>)
    ensures var response := client.getTable(GetTableRequest(bucketArn, namespace, table));
            (response.Failure? <==> r.Failure?) &&
            (r.Failure? ==> r.error == Wrap("GetTable", response.error)) &&
            (r.Success? ==> r.value.namespace == namespace &&
                            r.value.name == ToString(response.value.name) &&
                            r.value.arn == ToString(response.value.tableArn))
  {
    match client.getTable(GetTableRequest(bucketArn, namespace, table))
    case Failure(e) => Failure(Wrap("GetTable", e))
    case Success(out) =>
      Success(TableInfo(ToString(out.name), ToString(out.tableArn), namespace, ToTime(out.createdAt), out.kind))
  }
}
