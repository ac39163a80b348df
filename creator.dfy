/**
 * The provisioner (internal/s3tables/creator.go): `Create` makes sure a table bucket,
 * a namespace in it and a table in that exist, creating whichever is missing, in
 * that order, and stops at the first failure. It records what it did in a
 * `CreateResult`: the ARNs, one message per level and a `*Created` flag per level.
 *
 * The remote service is a `World` value (module Remote) that every call takes and
 * gives back with the call added to its log. Each Go function has a pure
 * counterpart here (`BucketCheck`, `BucketStep`, `Provision`, ...) that the method
 * modelling it is proved to follow.
 */
module Creator {
  import opened Wrappers
  import opened Errors
  import opened Lister
  import opened Remote

  /**
   * `isNotFoundError`: a typed NotFoundException, or else any error with a service
   * error code whose code is "NotFoundException".
   */
  function IsNotFound(e: RemoteError): (b: bool)
    ensures b <==> e.NotFoundException? || (e.ApiError? && e.code == "NotFoundException")
  {
    if e.NotFoundException? then true
    else if !e.Plain? then e.Code() == "NotFoundException"
    else false
  }

  /** What a `check*Exists` returns (`exists`, an ARN, an error) and the world after its call */
  datatype Check = Check(found: bool, arn: string, err: Option<TablesError>, after: World)

  /**
   * `checkTableBucketExists`: one ListTableBuckets call with the name as prefix; a
   * listed bucket counts only if its name is the name exactly.
   */
  function BucketCheck(w: World, tableBucket: string): (c: Check)
    ensures c.after == Record(w, ListTableBucketsCall(Some(tableBucket)))
    ensures c.err.Some? ==> !c.found && c.arn == ""
    ensures !c.found ==> c.arn == ""
  {
    var a := ListTableBuckets(w, Some(tableBucket));
    if a.response.Failure? then Check(false, "", Some(Wrap("ListTableBuckets", a.response.error)), a.after)
    else
      var listed := a.response.value;
      match FirstNamed(MapSeq(listed, BucketInfoOf), tableBucket)
      case Some(i) => Check(true, ToString(listed[i].arn), None, a.after)
      case None => Check(false, "", None, a.after)
  }

  /** `checkTableBucketExists`, with its scan for the exact name */
  method CheckTableBucketExists(w: World, tableBucket: string) returns (c: Check)
    ensures c == BucketCheck(w, tableBucket)
  {
    var a := ListTableBuckets(w, Some(tableBucket));
    if a.response.Failure? {
      return Check(false, "", Some(Wrap("ListTableBuckets", a.response.error)), a.after);
    }
    var listed := a.response.value;
    ghost var infos := MapSeq(listed, BucketInfoOf);
    var i := 0;
    while i < |listed|
      invariant 0 <= i <= |listed|
      invariant forall j :: 0 <= j < i ==> infos[j].name != tableBucket
    {
      if ToString(listed[i].name) == tableBucket {
        return Check(true, ToString(listed[i].arn), None, a.after);
      }
      i := i + 1;
    }
    return Check(false, "", None, a.after);
  }

  /**
   * `checkNamespaceExists`: one GetNamespace call; a NotFound error means absent and
   * is no error, any other error is returned wrapped.
   */
  function NamespaceCheck(w: World, bucketArn: string, namespace: string): (c: Check)
    ensures c.after == Record(w, GetNamespaceCall(bucketArn, namespace)) && c.arn == ""
    ensures GetNamespaceOp !in w.failing ==>
              c.err.None? && (c.found <==> NamespaceKey(bucketArn, namespace) in w.namespaces)
    ensures GetNamespaceOp in w.failing ==>
              !c.found && (c.err.None? <==> IsNotFound(w.failing[GetNamespaceOp])) &&
              (c.err.Some? ==> c.err.value == Wrap("GetNamespace", w.failing[GetNamespaceOp]))
  {
    var a := GetNamespace(w, bucketArn, namespace);
    if a.response.Failure? then
      if IsNotFound(a.response.error) then Check(false, "", None, a.after)
      else Check(false, "", Some(Wrap("GetNamespace", a.response.error)), a.after)
    else Check(true, "", None, a.after)
  }

  /**
   * `checkTableExists`: one GetTable call; a NotFound error means absent, any other
   * error is returned wrapped; a table found comes with its ARN.
   */
  function TableCheck(w: World, bucketArn: string, namespace: string, table: string): (c: Check)
    ensures c.after == Record(w, GetTableCall(bucketArn, namespace, table))
    ensures GetTableOp !in w.failing ==>
              c.err.None? && (c.found <==> TableKey(bucketArn, namespace, table) in w.tables) &&
              (c.found ==> c.arn == w.tables[TableKey(bucketArn, namespace, table)])
    ensures GetTableOp in w.failing ==>
              !c.found && (c.err.None? <==> IsNotFound(w.failing[GetTableOp])) &&
              (c.err.Some? ==> c.err.value == Wrap("GetTable", w.failing[GetTableOp]))
  {
    var a := GetTable(w, bucketArn, namespace, table);
    if a.response.Failure? then
      if IsNotFound(a.response.error) then Check(false, "", None, a.after)
      else Check(false, "", Some(Wrap("GetTable", a.response.error)), a.after)
    else Check(true, ToString(a.response.value), None, a.after)
  }

  // ---------------------------------------------------------------------------
  // The result and the three steps

  /** The fields of a `CreateResult`, as a value */
  datatype Progress = Progress(
    tableBucketArn: string,
    tableArn: string,
    messages: seq<string>,
    tableBucketCreated: bool,
    namespaceCreated: bool,
    tableCreated: bool)

  const Blank := Progress("", "", [], false, false, false)

  function BucketMessage(tableBucket: string, created: bool): string
  {
    "Table Bucket '" + tableBucket + (if created then "' created" else "' already exists")
  }

  function NamespaceMessage(namespace: string, created: bool): string
  {
    "Namespace '" + namespace + (if created then "' created" else "' already exists")
  }

  function TableMessage(table: string, created: bool): string
  {
    "Table '" + table + (if created then "' created" else "' already exists")
  }

  /** CreateResult: filled in step by step by the `ensure*` methods */
  class CreateResult {
    var tableBucketArn: string
    var tableArn: string
    var messages: seq<string>
    var tableBucketCreated: bool
    var namespaceCreated: bool
    var tableCreated: bool

    constructor ()
      ensures Snapshot() == Blank
    {
      tableBucketArn := "";
      tableArn := "";
      messages := [];
      tableBucketCreated := false;
      namespaceCreated := false;
      tableCreated := false;
    }

    function Snapshot(): Progress
      reads this
    {
      Progress(tableBucketArn, tableArn, messages, tableBucketCreated, namespaceCreated, tableCreated)
    }
  }

  /** What an `ensure*` step returns (the bucket ARN for the first step), the result after it and the world */
  datatype Outcome = Outcome(arn: string, err: Option<TablesError>, progress: Progress, after: World)

  /** `ensureTableBucket` */
  function BucketStep(w: World, tableBucket: string, p: Progress): Outcome
  {
    var c := BucketCheck(w, tableBucket);
    if c.err.Some? then Outcome("", c.err, p, c.after)
    else if c.found then
      Outcome(c.arn, None, p.(tableBucketArn := c.arn, messages := p.messages + [BucketMessage(tableBucket, false)]), c.after)
    else
      var a := CreateTableBucket(c.after, tableBucket);
      if a.response.Failure? then Outcome("", Some(Wrap("CreateTableBucket", a.response.error)), p, a.after)
      else
        var arn := ToString(a.response.value);
        Outcome(arn, None,
                p.(tableBucketCreated := true, tableBucketArn := arn,
                   messages := p.messages + [BucketMessage(tableBucket, true)]),
                a.after)
  }

  /** `ensureNamespace` */
  function NamespaceStep(w: World, bucketArn: string, namespace: string, p: Progress): Outcome
  {
    var c := NamespaceCheck(w, bucketArn, namespace);
    if c.err.Some? then Outcome("", c.err, p, c.after)
    else if c.found then
      Outcome("", None, p.(messages := p.messages + [NamespaceMessage(namespace, false)]), c.after)
    else
      var a := CreateNamespace(c.after, bucketArn, [namespace]);
      if a.response.Failure? then Outcome("", Some(Wrap("CreateNamespace", a.response.error)), p, a.after)
      else
        Outcome("", None,
                p.(namespaceCreated := true, messages := p.messages + [NamespaceMessage(namespace, true)]),
                a.after)
  }

  /** `ensureTable` */
  function TableStep(w: World, bucketArn: string, namespace: string, table: string, p: Progress): Outcome
  {
    var c := TableCheck(w, bucketArn, namespace, table);
    if c.err.Some? then Outcome("", c.err, p, c.after)
    else if c.found then
      Outcome("", None, p.(tableArn := c.arn, messages := p.messages + [TableMessage(table, false)]), c.after)
    else
      var a := CreateTable(c.after, bucketArn, namespace, table, Iceberg);
      if a.response.Failure? then Outcome("", Some(Wrap("CreateTable", a.response.error)), p, a.after)
      else
        Outcome("", None,
                p.(tableCreated := true, tableArn := ToString(a.response.value),
                   messages := p.messages + [TableMessage(table, true)]),
                a.after)
  }

  /** What `Create` returns (a result or an error, never both) and the world after it */
  datatype Provisioned = Provisioned(result: Result<Progress, TablesError>, after: World)

  /** `Create`: bucket, then namespace, then table, all under the bucket ARN of the first step */
  function Provision(w: World, tableBucket: string, namespace: string, table: string): Provisioned
  {
    var s1 := BucketStep(w, tableBucket, Blank);
    if s1.err.Some? then Provisioned(Failure(s1.err.value), s1.after)
    else
      var s2 := NamespaceStep(s1.after, s1.arn, namespace, s1.progress);
      if s2.err.Some? then Provisioned(Failure(s2.err.value), s2.after)
      else
        var s3 := TableStep(s2.after, s1.arn, namespace, table, s2.progress);
        if s3.err.Some? then Provisioned(Failure(s3.err.value), s3.after)
        else Provisioned(Success(s3.progress), s3.after)
  }

  /** `ensureTableBucket` */
  method EnsureTableBucket(w: World, tableBucket: string, result: CreateResult)
    returns (arn: string, err: Option<TablesError>, w': World)
    modifies result
    ensures Outcome(arn, err, result.Snapshot(), w') == BucketStep(w, tableBucket, old(result.Snapshot()))
  {
    var c := CheckTableBucketExists(w, tableBucket);
    if c.err.Some? {
      return "", c.err, c.after;
    }
    if c.found {
      result.tableBucketArn := c.arn;
      result.messages := result.messages + [BucketMessage(tableBucket, false)];
      return c.arn, None, c.after;
    }
    var a := CreateTableBucket(c.after, tableBucket);
    if a.response.Failure? {
      return "", Some(Wrap("CreateTableBucket", a.response.error)), a.after;
    }
    result.tableBucketCreated := true;
    result.tableBucketArn := ToString(a.response.value);
    result.messages := result.messages + [BucketMessage(tableBucket, true)];
    return result.tableBucketArn, None, a.after;
  }

  /** `ensureNamespace` */
  method EnsureNamespace(w: World, bucketArn: string, namespace: string, result: CreateResult)
    returns (err: Option<TablesError>, w': World)
    modifies result
    ensures Outcome("", err, result.Snapshot(), w') == NamespaceStep(w, bucketArn, namespace, old(result.Snapshot()))
  {
    var c := NamespaceCheck(w, bucketArn, namespace);
    if c.err.Some? {
      return c.err, c.after;
    }
    if c.found {
      result.messages := result.messages + [NamespaceMessage(namespace, false)];
      return None, c.after;
    }
    var a := CreateNamespace(c.after, bucketArn, [namespace]);
    if a.response.Failure? {
      return Some(Wrap("CreateNamespace", a.response.error)), a.after;
    }
    result.namespaceCreated := true;
    result.messages := result.messages + [NamespaceMessage(namespace, true)];
    return None, a.after;
  }

  /** `ensureTable` */
  method EnsureTable(w: World, bucketArn: string, namespace: string, table: string, result: CreateResult)
    returns (err: Option<TablesError>, w': World)
    modifies result
    ensures Outcome("", err, result.Snapshot(), w') == TableStep(w, bucketArn, namespace, table, old(result.Snapshot()))
  {
    var c := TableCheck(w, bucketArn, namespace, table);
    if c.err.Some? {
      return c.err, c.after;
    }
    if c.found {
      result.tableArn := c.arn;
      result.messages := result.messages + [TableMessage(table, false)];
      return None, c.after;
    }
    var a := CreateTable(c.after, bucketArn, namespace, table, Iceberg);
    if a.response.Failure? {
      return Some(Wrap("CreateTable", a.response.error)), a.after;
    }
    result.tableCreated := true;
    result.tableArn := ToString(a.response.value);
    result.messages := result.messages + [TableMessage(table, true)];
    return None, a.after;
  }

  /** `Create`: a fresh result on success, only the error on failure */
  method Create(w: World, tableBucket: string, namespace: string, table: string)
    returns (r: Result<CreateResult, TablesError>, w': World)
    ensures w' == Provision(w, tableBucket, namespace, table).after
    ensures r.Failure? <==> Provision(w, tableBucket, namespace, table).result.Failure?
    ensures r.Failure? ==> r.error == Provision(w, tableBucket, namespace, table).result.error
    ensures r.Success? ==> fresh(r.value) && r.value.Snapshot() == Provision(w, tableBucket, namespace, table).result.value
  {
    var result := new CreateResult();
    var arn, err, w1 := EnsureTableBucket(w, tableBucket, result);
    if err.Some? {
      return Failure(err.value), w1;
    }
    var w2;
    err, w2 := EnsureNamespace(w1, arn, namespace, result);
    if err.Some? {
      return Failure(err.value), w2;
    }
    var w3;
    err, w3 := EnsureTable(w2, arn, namespace, table, result);
    if err.Some? {
      return Failure(err.value), w3;
    }
    return Success(result), w3;
  }
}
