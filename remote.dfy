/**
 * The remote S3 Tables service as the provisioner sees it (the `S3TablesAPI` interface
 * of internal/s3tables/creator.go): a world of table buckets, namespaces and tables,
 * a script saying which operations fail and with what error, and the log of the
 * calls made so far. Each call appends itself to the log, fails if the script says
 * so, and otherwise answers as the service does: lookups of an absent resource
 * answer NotFoundException, creating an existing one answers ConflictException.
 */
module Remote {
  import opened Wrappers
  import opened Errors
  import opened Lister

  /** The operations of the service that the provisioner calls */
  datatype Op = ListTableBucketsOp | CreateTableBucketOp | GetNamespaceOp | CreateNamespaceOp | GetTableOp | CreateTableOp

  /** A call with its arguments, as recorded in the log */
  datatype Call =
    | ListTableBucketsCall(prefix: Option<string>)
    | CreateTableBucketCall(name: string)
    | GetNamespaceCall(bucketArn: string, namespace: string)
    | CreateNamespaceCall(bucketArn: string, namespaces: seq<string>)
    | GetTableCall(bucketArn: string, namespace: string, table: string)
    | CreateTableCall(bucketArn: string, namespace: string, table: string, format: string)

  /** A namespace is identified by its bucket's ARN and its name; a table also by its own name */
  datatype NamespaceKey = NamespaceKey(bucketArn: string, namespace: string)
  datatype TableKey = TableKey(bucketArn: string, namespace: string, table: string)

  datatype World = World(
    buckets: seq<TableBucketInfo>,
    namespaces: set<NamespaceKey>,
    tables: map<TableKey, string>,
    failing: map<Op, RemoteError>,
    log: seq<Call>)

  /** A call's answer and the world after it */
  datatype Answer<T> = Answer(response: Result<T, RemoteError>, after: World)

  /** The open table format the provisioner asks for (`types.OpenTableFormatIceberg`) */
  const Iceberg := "ICEBERG"

  /** ARNs the service hands out for new resources */
  const BucketArnBase := "arn:aws:s3tables:us-east-1:111122223333:bucket/"

  function BucketArnFor(name: string): string
  {
    BucketArnBase + name
  }

  function TableArnFor(bucketArn: string, namespace: string, table: string): string
  {
    bucketArn + "/table/" + namespace + "." + table
  }

  function Record(w: World, c: Call): World
  {
    w.(log := w.log + [c])
  }

  predicate HasBucketNamed(buckets: seq<TableBucketInfo>, name: string)
  {
    exists i | 0 <= i < |buckets| :: buckets[i].name == name
  }

  predicate HasBucketArn(buckets: seq<TableBucketInfo>, arn: string)
  {
    exists i | 0 <= i < |buckets| :: buckets[i].arn == arn
  }

  /** The buckets whose name starts with the prefix (every bucket for no prefix), in order */
  function Matching(buckets: seq<TableBucketInfo>, prefix: Option<string>): (r: seq<TableBucketInfo>)
    ensures |r| <= |buckets|
    ensures forall j :: 0 <= j < |r| ==> r[j] in buckets
  {
    if |buckets| == 0 then []
    else (if prefix.None? || prefix.value <= buckets[0].name then [buckets[0]] else []) + Matching(buckets[1..], prefix)
  }

  function Summary(b: TableBucketInfo): TableBucketSummary
  {
    TableBucketSummary(Some(b.name), Some(b.arn), Some(b.createdAt))
  }

  /** ListTableBuckets: one page holding every bucket that matches the prefix */
  function ListTableBuckets(w: World, prefix: Option<string>): Answer<seq<TableBucketSummary>>
  {
    var w' := Record(w, ListTableBucketsCall(prefix));
    if ListTableBucketsOp in w.failing then Answer(Failure(w.failing[ListTableBucketsOp]), w')
    else Answer(Success(MapSeq(Matching(w.buckets, prefix), Summary)), w')
  }

  /** CreateTableBucket: answers the new bucket's ARN */
  function CreateTableBucket(w: World, name: string): Answer<Option<string>>
  {
    var w' := Record(w, CreateTableBucketCall(name));
    if CreateTableBucketOp in w.failing then Answer(Failure(w.failing[CreateTableBucketOp]), w')
    else if HasBucketNamed(w.buckets, name) then Answer(Failure(ConflictException("table bucket already exists")), w')
    else
      var arn := BucketArnFor(name);
      Answer(Success(Some(arn)), w'.(buckets := w.buckets + [TableBucketInfo(name, arn, 0)]))
  }

  /** GetNamespace: answers the namespace path */
  function GetNamespace(w: World, bucketArn: string, namespace: string): Answer<seq<string>>
  {
    var w' := Record(w, GetNamespaceCall(bucketArn, namespace));
    if GetNamespaceOp in w.failing then Answer(Failure(w.failing[GetNamespaceOp]), w')
    else if NamespaceKey(bucketArn, namespace) in w.namespaces then Answer(Success([namespace]), w')
    else Answer(Failure(NotFoundException("namespace not found")), w')
  }

  /** CreateNamespace: the request carries the namespace as a one-element path */
  function CreateNamespace(w: World, bucketArn: string, namespaces: seq<string>): Answer<seq<string>>
  {
    var w' := Record(w, CreateNamespaceCall(bucketArn, namespaces));
    if CreateNamespaceOp in w.failing then Answer(Failure(w.failing[CreateNamespaceOp]), w')
    else if |namespaces| != 1 then Answer(Failure(BadRequestException("exactly one namespace is expected")), w')
    else if !HasBucketArn(w.buckets, bucketArn) then Answer(Failure(NotFoundException("table bucket not found")), w')
    else if NamespaceKey(bucketArn, namespaces[0]) in w.namespaces then
      Answer(Failure(ConflictException("namespace already exists")), w')
    else Answer(Success(namespaces), w'.(namespaces := w.namespaces + {NamespaceKey(bucketArn, namespaces[0])}))
  }

  /** GetTable: answers the table's ARN */
  function GetTable(w: World, bucketArn: string, namespace: string, table: string): Answer<Option<string>>
  {
    var w' := Record(w, GetTableCall(bucketArn, namespace, table));
    var key := TableKey(bucketArn, namespace, table);
    if GetTableOp in w.failing then Answer(Failure(w.failing[GetTableOp]), w')
    else if key in w.tables then Answer(Success(Some(w.tables[key])), w')
    else Answer(Failure(NotFoundException("table not found")), w')
  }

  /** CreateTable: answers the new table's ARN */
  function CreateTable(w: World, bucketArn: string, namespace: string, table: string, format: string): Answer<Option<string>>
  {
    var w' := Record(w, CreateTableCall(bucketArn, namespace, table, format));
    var key := TableKey(bucketArn, namespace, table);
    if CreateTableOp in w.failing then Answer(Failure(w.failing[CreateTableOp]), w')
    else if NamespaceKey(bucketArn, namespace) !in w.namespaces then
      Answer(Failure(NotFoundException("namespace not found")), w')
    else if key in w.tables then Answer(Failure(ConflictException("table already exists")), w')
    else
      var arn := TableArnFor(bucketArn, namespace, table);
      Answer(Success(Some(arn)), w'.(tables := w.tables[key := arn]))
  }
}
