/**
 * What `Create` (internal/s3tables/creator.go) promises, stated against the world it
 * runs in: which calls it makes and in what order, which levels it creates, what it
 * reports, where it stops when a call fails, and that running it twice creates
 * nothing the second time.
 */
module CreatorProperties {
  import opened Wrappers
  import opened Errors
  import opened Lister
  import opened Remote
  import opened Creator

  // ---------------------------------------------------------------------------
  // The bucket check against the world

  /** Listing by prefix keeps every bucket of that exact name, in order, so the first one found is the world's first one */
  lemma {:induction false} MatchingKeepsFirstNamed(buckets: seq<TableBucketInfo>, name: string)
    ensures FirstNamed(Matching(buckets, Some(name)), name).Some? == FirstNamed(buckets, name).Some?
    ensures FirstNamed(buckets, name).Some? ==>
              Matching(buckets, Some(name))[FirstNamed(Matching(buckets, Some(name)), name).value] ==
              buckets[FirstNamed(buckets, name).value]
  {
    if |buckets| > 0 {
      var rest := Matching(buckets[1..], Some(name));
      MatchingKeepsFirstNamed(buckets[1..], name);
      if buckets[0].name == name {
        assert name <= buckets[0].name;
        assert Matching(buckets, Some(name)) == [buckets[0]] + rest;
      } else if name <= buckets[0].name {
        var m := [buckets[0]] + rest;
        assert Matching(buckets, Some(name)) == m;
        assert m[1..] == rest;
      } else {
        assert Matching(buckets, Some(name)) == rest;
      }
    }
  }

  /** Reading back a summary of a bucket gives the bucket */
  lemma SummariesReadBack(buckets: seq<TableBucketInfo>)
    ensures MapSeq(MapSeq(buckets, Summary), BucketInfoOf) == buckets
  {
    var r := MapSeq(MapSeq(buckets, Summary), BucketInfoOf);
    assert forall i :: 0 <= i < |buckets| ==> r[i] == BucketInfoOf(Summary(buckets[i]));
  }

  /**
   * `checkTableBucketExists` against the world: a list error is returned wrapped;
   * otherwise the bucket is found exactly when one is named the name (a bucket whose
   * name only starts with it does not count), and its ARN is the first such bucket's.
   */
  lemma BucketCheckFindsExactName(w: World, name: string)
    ensures ListTableBucketsOp in w.failing ==>
              BucketCheck(w, name).err == Some(Wrap("ListTableBuckets", w.failing[ListTableBucketsOp]))
    ensures ListTableBucketsOp !in w.failing ==>
              BucketCheck(w, name).err.None? &&
              (BucketCheck(w, name).found <==> FirstNamed(w.buckets, name).Some?) &&
              (BucketCheck(w, name).found ==> BucketCheck(w, name).arn == w.buckets[FirstNamed(w.buckets, name).value].arn)
  {
    if ListTableBucketsOp !in w.failing {
      var m := Matching(w.buckets, Some(name));
      SummariesReadBack(m);
      MatchingKeepsFirstNamed(w.buckets, name);
      var listed := MapSeq(m, Summary);
      assert MapSeq(listed, BucketInfoOf) == m;
      match FirstNamed(m, name)
      case Some(i) =>
        assert ToString(listed[i].arn) == m[i].arn;
      case None =>
    }
  }

  /** A bucket called "demo-2" does not make "demo" exist */
  lemma PrefixOnlyMatchIsAbsent()
    ensures BucketCheck(World([TableBucketInfo("demo-2", "arn-2", 0)], {}, map[], map[], []), "demo").found == false
  {
    var w := World([TableBucketInfo("demo-2", "arn-2", 0)], {}, map[], map[], []);
    BucketCheckFindsExactName(w, "demo");
    assert w.buckets[0].name != "demo" by {
      assert |w.buckets[0].name| == 6;
    }
  }

  // ---------------------------------------------------------------------------
  // A run in which no call fails

  /** The ARN of the first bucket with the name, if there is one */
  function ExistingArn(w: World, tableBucket: string): Option<string>
  {
    match FirstNamed(w.buckets, tableBucket)
    case Some(i) => Some(w.buckets[i].arn)
    case None => None
  }

  /** The bucket ARN the namespace and table steps use: the existing bucket's or the one the service hands out */
  function ArnUsed(w: World, tableBucket: string): string
  {
    if ExistingArn(w, tableBucket).Some? then ExistingArn(w, tableBucket).value else BucketArnFor(tableBucket)
  }

  predicate NamespaceThere(w: World, tableBucket: string, namespace: string)
  {
    NamespaceKey(ArnUsed(w, tableBucket), namespace) in w.namespaces
  }

  predicate TableThere(w: World, tableBucket: string, namespace: string, table: string)
  {
    TableKey(ArnUsed(w, tableBucket), namespace, table) in w.tables
  }

  function TableArnUsed(w: World, tableBucket: string, namespace: string, table: string): string
  {
    var key := TableKey(ArnUsed(w, tableBucket), namespace, table);
    if key in w.tables then w.tables[key] else TableArnFor(ArnUsed(w, tableBucket), namespace, table)
  }

  /** The calls of one level: its check, then its create only if the check found nothing */
  function BucketCalls(tableBucket: string, absent: bool): seq<Call>
  {
    [ListTableBucketsCall(Some(tableBucket))] + (if absent then [CreateTableBucketCall(tableBucket)] else [])
  }

  function NamespaceCalls(bucketArn: string, namespace: string, absent: bool): seq<Call>
  {
    [GetNamespaceCall(bucketArn, namespace)] + (if absent then [CreateNamespaceCall(bucketArn, [namespace])] else [])
  }

  function TableCalls(bucketArn: string, namespace: string, table: string, absent: bool): seq<Call>
  {
    [GetTableCall(bucketArn, namespace, table)] + (if absent then [CreateTableCall(bucketArn, namespace, table, Iceberg)] else [])
  }

  /** The calls of a run that does not fail, level by level */
  function ExpectedCalls(w: World, tableBucket: string, namespace: string, table: string): seq<Call>
  {
    var arn := ArnUsed(w, tableBucket);
    BucketCalls(tableBucket, ExistingArn(w, tableBucket).None?) +
    NamespaceCalls(arn, namespace, !NamespaceThere(w, tableBucket, namespace)) +
    TableCalls(arn, namespace, table, !TableThere(w, tableBucket, namespace, table))
  }

  /** The result of a run that does not fail: a flag per level that is set exactly when the level was absent */
  function ExpectedResult(w: World, tableBucket: string, namespace: string, table: string): Progress
  {
    var bucketCreated := ExistingArn(w, tableBucket).None?;
    var namespaceCreated := !NamespaceThere(w, tableBucket, namespace);
    var tableCreated := !TableThere(w, tableBucket, namespace, table);
    Progress(
      ArnUsed(w, tableBucket),
      TableArnUsed(w, tableBucket, namespace, table),
      [BucketMessage(tableBucket, bucketCreated), NamespaceMessage(namespace, namespaceCreated), TableMessage(table, tableCreated)],
      bucketCreated, namespaceCreated, tableCreated)
  }

  /** The bucket step when its calls do not fail: it finds the bucket or creates it */
  lemma BucketStepWithoutFailure(w: World, tableBucket: string, p: Progress)
    requires ListTableBucketsOp !in w.failing && CreateTableBucketOp !in w.failing
    ensures BucketStep(w, tableBucket, p) ==
            Outcome(ArnUsed(w, tableBucket), None,
                    p.(tableBucketCreated := p.tableBucketCreated || ExistingArn(w, tableBucket).None?,
                       tableBucketArn := ArnUsed(w, tableBucket),
                       messages := p.messages + [BucketMessage(tableBucket, ExistingArn(w, tableBucket).None?)]),
                    w.(log := w.log + BucketCalls(tableBucket, ExistingArn(w, tableBucket).None?),
                       buckets := w.buckets + (if ExistingArn(w, tableBucket).None?
                                               then [TableBucketInfo(tableBucket, BucketArnFor(tableBucket), 0)] else [])))
  {
    BucketCheckFindsExactName(w, tableBucket);
    if ExistingArn(w, tableBucket).None? {
      assert !HasBucketNamed(w.buckets, tableBucket);
    }
  }

  /** The namespace step when its calls do not fail and the bucket exists: it finds the namespace or creates it */
  lemma NamespaceStepWithoutFailure(w: World, bucketArn: string, namespace: string, p: Progress)
    requires GetNamespaceOp !in w.failing && CreateNamespaceOp !in w.failing
    requires HasBucketArn(w.buckets, bucketArn)
    ensures NamespaceStep(w, bucketArn, namespace, p) ==
            Outcome("", None,
                    p.(namespaceCreated := p.namespaceCreated || NamespaceKey(bucketArn, namespace) !in w.namespaces,
                       messages := p.messages + [NamespaceMessage(namespace, NamespaceKey(bucketArn, namespace) !in w.namespaces)]),
                    w.(log := w.log + NamespaceCalls(bucketArn, namespace, NamespaceKey(bucketArn, namespace) !in w.namespaces),
                       namespaces := w.namespaces + {NamespaceKey(bucketArn, namespace)}))
  {
  }

  /** The table step when its calls do not fail and the namespace exists: it finds the table or creates it */
  lemma TableStepWithoutFailure(w: World, bucketArn: string, namespace: string, table: string, p: Progress)
    requires GetTableOp !in w.failing && CreateTableOp !in w.failing
    requires NamespaceKey(bucketArn, namespace) in w.namespaces
    ensures TableStep(w, bucketArn, namespace, table, p) ==
            Outcome("", None,
                    p.(tableCreated := p.tableCreated || TableKey(bucketArn, namespace, table) !in w.tables,
                       tableArn := if TableKey(bucketArn, namespace, table) in w.tables
                                   then w.tables[TableKey(bucketArn, namespace, table)]
                                   else TableArnFor(bucketArn, namespace, table),
                       messages := p.messages + [TableMessage(table, TableKey(bucketArn, namespace, table) !in w.tables)]),
                    w.(log := w.log + TableCalls(bucketArn, namespace, table, TableKey(bucketArn, namespace, table) !in w.tables),
                       tables := w.tables[TableKey(bucketArn, namespace, table) :=
                                            if TableKey(bucketArn, namespace, table) in w.tables
                                            then w.tables[TableKey(bucketArn, namespace, table)]
                                            else TableArnFor(bucketArn, namespace, table)]))
  {
  }

  lemma LogAppends(log: seq<Call>, l1: seq<Call>, l2: seq<Call>, l3: seq<Call>)
    ensures log + l1 + l2 + l3 == log + (l1 + l2 + l3)
  {
  }

  /** After the bucket step, the bucket the later steps use exists */
  lemma BucketThereAfterStep(w: World, tableBucket: string)
    requires ListTableBucketsOp !in w.failing && CreateTableBucketOp !in w.failing
    ensures HasBucketArn(BucketStep(w, tableBucket, Blank).after.buckets, ArnUsed(w, tableBucket))
  {
    BucketStepWithoutFailure(w, tableBucket, Blank);
    var after := BucketStep(w, tableBucket, Blank).after;
    match FirstNamed(w.buckets, tableBucket)
    case Some(i) =>
      assert after.buckets[i].arn == ArnUsed(w, tableBucket);
    case None =>
      assert after.buckets[|after.buckets| - 1].arn == ArnUsed(w, tableBucket);
  }

  /** A run that no call fails sets each `*Created` flag exactly when the level was absent */
  lemma FlagsWithoutFailures(w: World, tableBucket: string, namespace: string, table: string)
    requires w.failing == map[]
    ensures Provision(w, tableBucket, namespace, table).result.Success?
    ensures Provision(w, tableBucket, namespace, table).result.value.tableBucketCreated == ExistingArn(w, tableBucket).None?
    ensures Provision(w, tableBucket, namespace, table).result.value.namespaceCreated == !NamespaceThere(w, tableBucket, namespace)
    ensures Provision(w, tableBucket, namespace, table).result.value.tableCreated == !TableThere(w, tableBucket, namespace, table)
  {
    var arn := ArnUsed(w, tableBucket);
    BucketStepWithoutFailure(w, tableBucket, Blank);
    BucketThereAfterStep(w, tableBucket);
    var s1 := BucketStep(w, tableBucket, Blank);
    NamespaceStepWithoutFailure(s1.after, arn, namespace, s1.progress);
    var s2 := NamespaceStep(s1.after, arn, namespace, s1.progress);
    TableStepWithoutFailure(s2.after, arn, namespace, table, s2.progress);
    var s3 := TableStep(s2.after, arn, namespace, table, s2.progress);
    assert Provision(w, tableBucket, namespace, table) == Provisioned(Success(s3.progress), s3.after);
    assert s1.after.namespaces == w.namespaces;
    assert s2.after.tables == w.tables;
  }

  /** A run that no call fails reports the ARNs of the bucket and the table, found or created */
  lemma ArnsWithoutFailures(w: World, tableBucket: string, namespace: string, table: string)
    requires w.failing == map[]
    ensures Provision(w, tableBucket, namespace, table).result.Success?
    ensures Provision(w, tableBucket, namespace, table).result.value.tableBucketArn == ArnUsed(w, tableBucket)
    ensures Provision(w, tableBucket, namespace, table).result.value.tableArn == TableArnUsed(w, tableBucket, namespace, table)
  {
    var arn := ArnUsed(w, tableBucket);
    BucketStepWithoutFailure(w, tableBucket, Blank);
    BucketThereAfterStep(w, tableBucket);
    var s1 := BucketStep(w, tableBucket, Blank);
    NamespaceStepWithoutFailure(s1.after, arn, namespace, s1.progress);
    var s2 := NamespaceStep(s1.after, arn, namespace, s1.progress);
    TableStepWithoutFailure(s2.after, arn, namespace, table, s2.progress);
    var s3 := TableStep(s2.after, arn, namespace, table, s2.progress);
    assert Provision(w, tableBucket, namespace, table) == Provisioned(Success(s3.progress), s3.after);
    assert s2.after.tables == w.tables;
  }

  /** A run that no call fails reports one message per level, in order */
  lemma MessagesWithoutFailures(w: World, tableBucket: string, namespace: string, table: string)
    requires w.failing == map[]
    ensures Provision(w, tableBucket, namespace, table).result.Success?
    ensures Provision(w, tableBucket, namespace, table).result.value.messages ==
            [BucketMessage(tableBucket, ExistingArn(w, tableBucket).None?),
             NamespaceMessage(namespace, !NamespaceThere(w, tableBucket, namespace)),
             TableMessage(table, !TableThere(w, tableBucket, namespace, table))]
  {
    var arn := ArnUsed(w, tableBucket);
    BucketStepWithoutFailure(w, tableBucket, Blank);
    BucketThereAfterStep(w, tableBucket);
    var s1 := BucketStep(w, tableBucket, Blank);
    NamespaceStepWithoutFailure(s1.after, arn, namespace, s1.progress);
    var s2 := NamespaceStep(s1.after, arn, namespace, s1.progress);
    TableStepWithoutFailure(s2.after, arn, namespace, table, s2.progress);
    var s3 := TableStep(s2.after, arn, namespace, table, s2.progress);
    assert Provision(w, tableBucket, namespace, table) == Provisioned(Success(s3.progress), s3.after);
    assert s1.after.namespaces == w.namespaces;
    assert s2.after.tables == w.tables;
  }

  /** A run that no call fails reports the expected result */
  lemma ResultWithoutFailures(w: World, tableBucket: string, namespace: string, table: string)
    requires w.failing == map[]
    ensures Provision(w, tableBucket, namespace, table).result == Success(ExpectedResult(w, tableBucket, namespace, table))
  {
    FlagsWithoutFailures(w, tableBucket, namespace, table);
    ArnsWithoutFailures(w, tableBucket, namespace, table);
    MessagesWithoutFailures(w, tableBucket, namespace, table);
  }

  /** A run that no call fails makes the expected calls */
  lemma LogWithoutFailures(w: World, tableBucket: string, namespace: string, table: string)
    requires w.failing == map[]
    ensures Provision(w, tableBucket, namespace, table).after.log == w.log + ExpectedCalls(w, tableBucket, namespace, table)
  {
    var arn := ArnUsed(w, tableBucket);
    BucketStepWithoutFailure(w, tableBucket, Blank);
    BucketThereAfterStep(w, tableBucket);
    var s1 := BucketStep(w, tableBucket, Blank);
    NamespaceStepWithoutFailure(s1.after, arn, namespace, s1.progress);
    var s2 := NamespaceStep(s1.after, arn, namespace, s1.progress);
    TableStepWithoutFailure(s2.after, arn, namespace, table, s2.progress);
    var s3 := TableStep(s2.after, arn, namespace, table, s2.progress);
    assert Provision(w, tableBucket, namespace, table) == Provisioned(Success(s3.progress), s3.after);
    assert s1.after.namespaces == w.namespaces;
    assert s2.after.tables == w.tables;
    var l1 := BucketCalls(tableBucket, ExistingArn(w, tableBucket).None?);
    var l2 := NamespaceCalls(arn, namespace, !NamespaceThere(w, tableBucket, namespace));
    var l3 := TableCalls(arn, namespace, table, !TableThere(w, tableBucket, namespace, table));
    LogAppends(w.log, l1, l2, l3);
  }

  /** A run that no call fails leaves the three levels in the world, and nothing else changed */
  lemma WorldWithoutFailures(w: World, tableBucket: string, namespace: string, table: string)
    requires w.failing == map[]
    ensures Provision(w, tableBucket, namespace, table).after.failing == w.failing
    ensures Provision(w, tableBucket, namespace, table).after.buckets ==
              w.buckets + (if ExistingArn(w, tableBucket).None?
                           then [TableBucketInfo(tableBucket, BucketArnFor(tableBucket), 0)] else [])
    ensures Provision(w, tableBucket, namespace, table).after.namespaces ==
              w.namespaces + {NamespaceKey(ArnUsed(w, tableBucket), namespace)}
    ensures Provision(w, tableBucket, namespace, table).after.tables ==
              w.tables[TableKey(ArnUsed(w, tableBucket), namespace, table) := TableArnUsed(w, tableBucket, namespace, table)]
  {
    var arn := ArnUsed(w, tableBucket);
    BucketStepWithoutFailure(w, tableBucket, Blank);
    BucketThereAfterStep(w, tableBucket);
    var s1 := BucketStep(w, tableBucket, Blank);
    NamespaceStepWithoutFailure(s1.after, arn, namespace, s1.progress);
    var s2 := NamespaceStep(s1.after, arn, namespace, s1.progress);
    TableStepWithoutFailure(s2.after, arn, namespace, table, s2.progress);
    var s3 := TableStep(s2.after, arn, namespace, table, s2.progress);
    assert Provision(w, tableBucket, namespace, table) == Provisioned(Success(s3.progress), s3.after);
    assert s1.after.namespaces == w.namespaces;
    assert s2.after.tables == w.tables;
  }

  /**
   * When no call fails, `Create` succeeds whatever exists beforehand (all eight
   * combinations): each `*Created` flag says the level was absent, a create call is
   * made exactly for the absent levels, the messages are one per level in order,
   * both ARNs are set on either branch, and the world then holds all three.
   */
  lemma RunWithoutFailures(w: World, tableBucket: string, namespace: string, table: string)
    requires w.failing == map[]
    ensures Provision(w, tableBucket, namespace, table).result == Success(ExpectedResult(w, tableBucket, namespace, table))
    ensures Provision(w, tableBucket, namespace, table).after.log == w.log + ExpectedCalls(w, tableBucket, namespace, table)
    ensures Provision(w, tableBucket, namespace, table).after.failing == w.failing
    ensures Provision(w, tableBucket, namespace, table).after.buckets ==
              w.buckets + (if ExistingArn(w, tableBucket).None?
                           then [TableBucketInfo(tableBucket, BucketArnFor(tableBucket), 0)] else [])
    ensures Provision(w, tableBucket, namespace, table).after.namespaces ==
              w.namespaces + {NamespaceKey(ArnUsed(w, tableBucket), namespace)}
    ensures Provision(w, tableBucket, namespace, table).after.tables ==
              w.tables[TableKey(ArnUsed(w, tableBucket), namespace, table) := TableArnUsed(w, tableBucket, namespace, table)]
  {
    ResultWithoutFailures(w, tableBucket, namespace, table);
    LogWithoutFailures(w, tableBucket, namespace, table);
    WorldWithoutFailures(w, tableBucket, namespace, table);
  }

  /** When everything already exists, `Create` makes no create call and reports nothing created */
  lemma AllPresentCreatesNothing(w: World, tableBucket: string, namespace: string, table: string)
    requires w.failing == map[]
    requires ExistingArn(w, tableBucket).Some?
    requires NamespaceThere(w, tableBucket, namespace) && TableThere(w, tableBucket, namespace, table)
    ensures Provision(w, tableBucket, namespace, table).result.Success?
    ensures !Provision(w, tableBucket, namespace, table).result.value.tableBucketCreated
    ensures !Provision(w, tableBucket, namespace, table).result.value.namespaceCreated
    ensures !Provision(w, tableBucket, namespace, table).result.value.tableCreated
    ensures Provision(w, tableBucket, namespace, table).after.log == w.log +
              [ListTableBucketsCall(Some(tableBucket)),
               GetNamespaceCall(ArnUsed(w, tableBucket), namespace),
               GetTableCall(ArnUsed(w, tableBucket), namespace, table)]
  {
    RunWithoutFailures(w, tableBucket, namespace, table);
  }

  /** After a run that no call failed, the three exist, under the ARNs that run reported */
  lemma RunLeavesAllThere(w: World, tableBucket: string, namespace: string, table: string)
    requires w.failing == map[]
    ensures Provision(w, tableBucket, namespace, table).after.failing == map[]
    ensures ExistingArn(Provision(w, tableBucket, namespace, table).after, tableBucket) == Some(ArnUsed(w, tableBucket))
    ensures NamespaceThere(Provision(w, tableBucket, namespace, table).after, tableBucket, namespace)
    ensures TableThere(Provision(w, tableBucket, namespace, table).after, tableBucket, namespace, table)
    ensures TableArnUsed(Provision(w, tableBucket, namespace, table).after, tableBucket, namespace, table) ==
            TableArnUsed(w, tableBucket, namespace, table)
  {
    WorldWithoutFailures(w, tableBucket, namespace, table);
    AllThereInFinalWorld(w, Provision(w, tableBucket, namespace, table).after, tableBucket, namespace, table);
  }

  /** A world grown as a run without failures grows it holds all three, under the ARNs of that run */
  lemma AllThereInFinalWorld(w: World, w1: World, tableBucket: string, namespace: string, table: string)
    requires w1.buckets == w.buckets + (if ExistingArn(w, tableBucket).None?
                                        then [TableBucketInfo(tableBucket, BucketArnFor(tableBucket), 0)] else [])
    requires w1.namespaces == w.namespaces + {NamespaceKey(ArnUsed(w, tableBucket), namespace)}
    requires w1.tables == w.tables[TableKey(ArnUsed(w, tableBucket), namespace, table) := TableArnUsed(w, tableBucket, namespace, table)]
    ensures ExistingArn(w1, tableBucket) == Some(ArnUsed(w, tableBucket))
    ensures NamespaceThere(w1, tableBucket, namespace) && TableThere(w1, tableBucket, namespace, table)
    ensures TableArnUsed(w1, tableBucket, namespace, table) == TableArnUsed(w, tableBucket, namespace, table)
  {
    if ExistingArn(w, tableBucket).None? {
      var i := |w.buckets|;
      assert w1.buckets[i].name == tableBucket;
      assert forall j :: 0 <= j < i ==> w1.buckets[j] == w.buckets[j];
      assert FirstNamed(w1.buckets, tableBucket) == Some(i);
    } else {
      assert w1.buckets == w.buckets;
    }
    assert ArnUsed(w1, tableBucket) == ArnUsed(w, tableBucket);
  }

  /**
   * Idempotence: after a run that no call failed, a second run finds all three,
   * makes no create call, sets no `*Created` flag and reports the same ARNs.
   */
  lemma SecondRunCreatesNothing(w: World, tableBucket: string, namespace: string, table: string)
    requires w.failing == map[]
    ensures Provision(w, tableBucket, namespace, table).result.Success?
    ensures Provision(Provision(w, tableBucket, namespace, table).after, tableBucket, namespace, table).result ==
            Success(Provision(w, tableBucket, namespace, table).result.value.(
                      tableBucketCreated := false, namespaceCreated := false, tableCreated := false,
                      messages := [BucketMessage(tableBucket, false), NamespaceMessage(namespace, false),
                                   TableMessage(table, false)]))
    ensures Provision(Provision(w, tableBucket, namespace, table).after, tableBucket, namespace, table).after.log ==
            Provision(w, tableBucket, namespace, table).after.log +
            [ListTableBucketsCall(Some(tableBucket)),
             GetNamespaceCall(ArnUsed(w, tableBucket), namespace),
             GetTableCall(ArnUsed(w, tableBucket), namespace, table)]
  {
    ResultWithoutFailures(w, tableBucket, namespace, table);
    RunLeavesAllThere(w, tableBucket, namespace, table);
    var w1 := Provision(w, tableBucket, namespace, table).after;
    ResultWithoutFailures(w1, tableBucket, namespace, table);
    LogWithoutFailures(w1, tableBucket, namespace, table);
    ExpectedWhenAllThere(w, w1, tableBucket, namespace, table);
  }

  /** In a world that holds all three under the ARNs of `w`, nothing is expected to be created */
  lemma ExpectedWhenAllThere(w: World, w1: World, tableBucket: string, namespace: string, table: string)
    requires ExistingArn(w1, tableBucket) == Some(ArnUsed(w, tableBucket))
    requires NamespaceThere(w1, tableBucket, namespace) && TableThere(w1, tableBucket, namespace, table)
    requires TableArnUsed(w1, tableBucket, namespace, table) == TableArnUsed(w, tableBucket, namespace, table)
    ensures ExpectedResult(w1, tableBucket, namespace, table) ==
            ExpectedResult(w, tableBucket, namespace, table).(
              tableBucketCreated := false, namespaceCreated := false, tableCreated := false,
              messages := [BucketMessage(tableBucket, false), NamespaceMessage(namespace, false), TableMessage(table, false)])
    ensures ExpectedCalls(w1, tableBucket, namespace, table) ==
            [ListTableBucketsCall(Some(tableBucket)),
             GetNamespaceCall(ArnUsed(w, tableBucket), namespace),
             GetTableCall(ArnUsed(w, tableBucket), namespace, table)]
  {
    assert ArnUsed(w1, tableBucket) == ArnUsed(w, tableBucket);
  }

  // ---------------------------------------------------------------------------
  // A run that fails

  /** Nothing of the three exists yet */
  predicate AllAbsent(w: World, tableBucket: string, namespace: string, table: string)
  {
    FirstNamed(w.buckets, tableBucket).None? &&
    NamespaceKey(BucketArnFor(tableBucket), namespace) !in w.namespaces &&
    TableKey(BucketArnFor(tableBucket), namespace, table) !in w.tables
  }

  /** The bucket step when the bucket is absent and one of its calls fails */
  lemma BucketStepFailing(w: World, tableBucket: string, p: Progress)
    requires FirstNamed(w.buckets, tableBucket).None?
    requires ListTableBucketsOp in w.failing || CreateTableBucketOp in w.failing
    ensures ListTableBucketsOp in w.failing ==>
              BucketStep(w, tableBucket, p).err == Some(Wrap("ListTableBuckets", w.failing[ListTableBucketsOp])) &&
              BucketStep(w, tableBucket, p).after.log == w.log + [ListTableBucketsCall(Some(tableBucket))]
    ensures ListTableBucketsOp !in w.failing ==>
              BucketStep(w, tableBucket, p).err == Some(Wrap("CreateTableBucket", w.failing[CreateTableBucketOp])) &&
              BucketStep(w, tableBucket, p).after.log == w.log + BucketCalls(tableBucket, true)
  {
    BucketCheckFindsExactName(w, tableBucket);
  }

  /** The namespace step when the namespace is absent and one of its calls fails (a lookup not with NotFound) */
  lemma NamespaceStepFailing(w: World, bucketArn: string, namespace: string, p: Progress)
    requires NamespaceKey(bucketArn, namespace) !in w.namespaces
    requires GetNamespaceOp in w.failing || CreateNamespaceOp in w.failing
    requires GetNamespaceOp in w.failing ==> !IsNotFound(w.failing[GetNamespaceOp])
    ensures GetNamespaceOp in w.failing ==>
              NamespaceStep(w, bucketArn, namespace, p).err == Some(Wrap("GetNamespace", w.failing[GetNamespaceOp])) &&
              NamespaceStep(w, bucketArn, namespace, p).after.log == w.log + [GetNamespaceCall(bucketArn, namespace)]
    ensures GetNamespaceOp !in w.failing ==>
              NamespaceStep(w, bucketArn, namespace, p).err == Some(Wrap("CreateNamespace", w.failing[CreateNamespaceOp])) &&
              NamespaceStep(w, bucketArn, namespace, p).after.log == w.log + NamespaceCalls(bucketArn, namespace, true)
  {
  }

  /** The table step when the table is absent and one of its calls fails (a lookup not with NotFound) */
  lemma TableStepFailing(w: World, bucketArn: string, namespace: string, table: string, p: Progress)
    requires TableKey(bucketArn, namespace, table) !in w.tables
    requires GetTableOp in w.failing || CreateTableOp in w.failing
    requires GetTableOp in w.failing ==> !IsNotFound(w.failing[GetTableOp])
    ensures GetTableOp in w.failing ==>
              TableStep(w, bucketArn, namespace, table, p).err == Some(Wrap("GetTable", w.failing[GetTableOp])) &&
              TableStep(w, bucketArn, namespace, table, p).after.log == w.log + [GetTableCall(bucketArn, namespace, table)]
    ensures GetTableOp !in w.failing ==>
              TableStep(w, bucketArn, namespace, table, p).err == Some(Wrap("CreateTable", w.failing[CreateTableOp])) &&
              TableStep(w, bucketArn, namespace, table, p).after.log == w.log + TableCalls(bucketArn, namespace, table, true)
  {
  }

  /**
   * Short-circuit, first step: when nothing exists and a call of the bucket step
   * fails, `Create` returns that call's error wrapped with its operation name, no
   * result, and makes no call after it.
   */
  lemma FailsAtBucket(w: World, tableBucket: string, namespace: string, table: string)
    requires AllAbsent(w, tableBucket, namespace, table)
    requires ListTableBucketsOp in w.failing || CreateTableBucketOp in w.failing
    ensures Provision(w, tableBucket, namespace, table).result.Failure?
    ensures ListTableBucketsOp in w.failing ==>
              Provision(w, tableBucket, namespace, table).result.error == Wrap("ListTableBuckets", w.failing[ListTableBucketsOp]) &&
              Provision(w, tableBucket, namespace, table).after.log == w.log + [ListTableBucketsCall(Some(tableBucket))]
    ensures ListTableBucketsOp !in w.failing ==>
              Provision(w, tableBucket, namespace, table).result.error == Wrap("CreateTableBucket", w.failing[CreateTableBucketOp]) &&
              Provision(w, tableBucket, namespace, table).after.log == w.log + BucketCalls(tableBucket, true)
  {
    BucketStepFailing(w, tableBucket, Blank);
  }

  /**
   * Short-circuit, second step: when nothing exists, the bucket step's calls succeed
   * and a call of the namespace step fails (a lookup not with NotFound), `Create`
   * returns that call's error, no result, and makes no call after it.
   */
  lemma FailsAtNamespace(w: World, tableBucket: string, namespace: string, table: string)
    requires AllAbsent(w, tableBucket, namespace, table)
    requires ListTableBucketsOp !in w.failing && CreateTableBucketOp !in w.failing
    requires GetNamespaceOp in w.failing || CreateNamespaceOp in w.failing
    requires GetNamespaceOp in w.failing ==> !IsNotFound(w.failing[GetNamespaceOp])
    ensures Provision(w, tableBucket, namespace, table).result.Failure?
    ensures GetNamespaceOp in w.failing ==>
              Provision(w, tableBucket, namespace, table).result.error == Wrap("GetNamespace", w.failing[GetNamespaceOp]) &&
              Provision(w, tableBucket, namespace, table).after.log ==
              w.log + BucketCalls(tableBucket, true) + [GetNamespaceCall(BucketArnFor(tableBucket), namespace)]
    ensures GetNamespaceOp !in w.failing ==>
              Provision(w, tableBucket, namespace, table).result.error == Wrap("CreateNamespace", w.failing[CreateNamespaceOp]) &&
              Provision(w, tableBucket, namespace, table).after.log ==
              w.log + BucketCalls(tableBucket, true) + NamespaceCalls(BucketArnFor(tableBucket), namespace, true)
  {
    var arn := BucketArnFor(tableBucket);
    BucketStepWithoutFailure(w, tableBucket, Blank);
    var s1 := BucketStep(w, tableBucket, Blank);
    assert s1.arn == arn && s1.err.None? && s1.after.namespaces == w.namespaces;
    NamespaceStepFailing(s1.after, arn, namespace, s1.progress);
  }

  /**
   * Short-circuit, third step: when nothing exists, the first two steps' calls
   * succeed and a call of the table step fails (a lookup not with NotFound),
   * `Create` returns that call's error, no result, and makes no call after it.
   */
  lemma FailsAtTable(w: World, tableBucket: string, namespace: string, table: string)
    requires AllAbsent(w, tableBucket, namespace, table)
    requires ListTableBucketsOp !in w.failing && CreateTableBucketOp !in w.failing
    requires GetNamespaceOp !in w.failing && CreateNamespaceOp !in w.failing
    requires GetTableOp in w.failing || CreateTableOp in w.failing
    requires GetTableOp in w.failing ==> !IsNotFound(w.failing[GetTableOp])
    ensures Provision(w, tableBucket, namespace, table).result.Failure?
    ensures GetTableOp in w.failing ==>
              Provision(w, tableBucket, namespace, table).result.error == Wrap("GetTable", w.failing[GetTableOp]) &&
              Provision(w, tableBucket, namespace, table).after.log ==
              w.log + BucketCalls(tableBucket, true) + NamespaceCalls(BucketArnFor(tableBucket), namespace, true) +
              [GetTableCall(BucketArnFor(tableBucket), namespace, table)]
    ensures GetTableOp !in w.failing ==>
              Provision(w, tableBucket, namespace, table).result.error == Wrap("CreateTable", w.failing[CreateTableOp]) &&
              Provision(w, tableBucket, namespace, table).after.log ==
              w.log + BucketCalls(tableBucket, true) + NamespaceCalls(BucketArnFor(tableBucket), namespace, true) +
              TableCalls(BucketArnFor(tableBucket), namespace, table, true)
  {
    var arn := BucketArnFor(tableBucket);
    BucketStepWithoutFailure(w, tableBucket, Blank);
    BucketThereAfterStep(w, tableBucket);
    var s1 := BucketStep(w, tableBucket, Blank);
    assert s1.arn == arn && s1.err.None?;
    NamespaceStepWithoutFailure(s1.after, arn, namespace, s1.progress);
    var s2 := NamespaceStep(s1.after, arn, namespace, s1.progress);
    assert s2.err.None? && s2.after.tables == w.tables;
    TableStepFailing(s2.after, arn, namespace, table, s2.progress);
  }
}
