/**
 * What a navigation session promises: the level transitions, the caches that spare
 * repeated listings, the handling of empty lists and failures, and when the picker
 * offers to go back.
 */
module NavigatorProperties {
  import opened Wrappers
  import opened Errors
  import opened Lister
  import opened Navigator

  /** The transition table: the level the next screen shows, or None when the session ends */
  function Next(level: Level, action: Action): Option<Level>
  {
    match (level, action)
    case (TableBucketLevel, Select) => Some(NamespaceLevel)
    case (NamespaceLevel, Select) => Some(TableLevel)
    case (NamespaceLevel, Back) => Some(TableBucketLevel)
    case (TableLevel, Back) => Some(NamespaceLevel)
    case _ => None
  }

  /** The screen of the session's current level */
  ghost function ScreenAt(client: Client, s: Session): Screen
    requires Serves(client)
  {
    match s.state.level
    case TableBucketLevel => BucketScreen(client, s)
    case NamespaceLevel => NamespaceScreen(client, s)
    case TableLevel => TableScreen(client, s)
  }

  /** One step of a session: an error ends it, otherwise the transition table decides */
  lemma NavigationFollowsTable(client: Client, s: Session)
    requires Serves(client)
    ensures var r := ScreenAt(client, s);
            RunNav(client, s) ==
              if r.err.Some? then Ended(r.err, r.session)
              else match Next(s.state.level, r.action)
                   case None => Ended(None, r.session)
                   case Some(level) => RunNav(client, AtLevel(r.session, level))
  {
  }

  // ---------------------------------------------------------------------------
  // Caches

  /** A listing is fetched only when its cache is empty, and then exactly once */
  lemma BucketsFetchedOnlyWhenUncached(client: Client, s: Session)
    requires Serves(client)
    ensures BucketScreen(client, s).session.fetches ==
            s.fetches + (if s.state.buckets.None? then [BucketsFetched] else [])
  {
  }

  lemma NamespacesFetchedOnlyWhenUncached(client: Client, s: Session)
    requires Serves(client)
    ensures NamespaceScreen(client, s).session.fetches ==
            s.fetches + (if s.state.namespaces.None? then [NamespacesFetched(s.state.selectedBucketArn)] else [])
  {
  }

  lemma TablesFetchedOnlyWhenUncached(client: Client, s: Session)
    requires Serves(client)
    ensures TableScreen(client, s).session.fetches ==
            s.fetches + (if s.state.tables.None? then [TablesFetched(s.state.selectedBucketArn, s.state.selectedNamespace)] else [])
  {
  }

  /** A cached list is shown as it was cached, whatever the service would answer now */
  lemma CachedListIsShown(client: Client, s: Session)
    requires Serves(client)
    ensures s.state.buckets.Some? && |s.state.buckets.value| > 0 ==>
            BucketScreen(client, s).session.prompts ==
            s.prompts + [Prompt(BucketLabel, MapSeq(s.state.buckets.value, BucketName), false)]
    ensures s.state.namespaces.Some? && |s.state.namespaces.value| > 0 ==>
            NamespaceScreen(client, s).session.prompts ==
            s.prompts + [Prompt(NamespaceLabel, MapSeq(s.state.namespaces.value, NamespaceName), true)]
    ensures s.state.tables.Some? && |s.state.tables.value| > 0 ==>
            TableScreen(client, s).session.prompts ==
            s.prompts + [Prompt(TableLabel, MapSeq(s.state.tables.value, TableName), true)]
  {
  }

  /** No cache ever holds an empty list: an empty listing leaves the cache nil */
  ghost predicate CachesNonEmpty(st: NavState)
  {
    (st.buckets.Some? ==> |st.buckets.value| > 0) &&
    (st.namespaces.Some? ==> |st.namespaces.value| > 0) &&
    (st.tables.Some? ==> |st.tables.value| > 0)
  }

  lemma BucketScreenKeepsCachesNonEmpty(client: Client, s: Session)
    requires Serves(client) && CachesNonEmpty(s.state)
    ensures CachesNonEmpty(BucketScreen(client, s).session.state)
  {
    if s.state.buckets.None? && BucketsListed(client, "").Success? {
      assert BucketScreen(client, s).session.state.buckets == Cached(BucketsListed(client, "").value);
    }
  }

  lemma NamespaceScreenKeepsCachesNonEmpty(client: Client, s: Session)
    requires Serves(client) && CachesNonEmpty(s.state)
    ensures CachesNonEmpty(NamespaceScreen(client, s).session.state)
  {
  }

  lemma TableScreenKeepsCachesNonEmpty(client: Client, s: Session)
    requires Serves(client) && CachesNonEmpty(s.state)
    ensures CachesNonEmpty(TableScreen(client, s).session.state)
  {
  }

  lemma ScreensKeepCachesNonEmpty(client: Client, s: Session)
    requires Serves(client) && CachesNonEmpty(s.state)
    ensures CachesNonEmpty(ScreenAt(client, s).session.state)
  {
    match s.state.level
    case TableBucketLevel => BucketScreenKeepsCachesNonEmpty(client, s);
    case NamespaceLevel => NamespaceScreenKeepsCachesNonEmpty(client, s);
    case TableLevel => TableScreenKeepsCachesNonEmpty(client, s);
  }

  lemma {:induction false} RunKeepsCachesNonEmpty(client: Client, s: Session)
    requires Serves(client) && CachesNonEmpty(s.state)
    ensures CachesNonEmpty(RunNav(client, s).session.state)
    decreases |s.replies|, Rank(s.state.level)
  {
    ScreensKeepCachesNonEmpty(client, s);
    NavigationFollowsTable(client, s);
    var r := ScreenAt(client, s);
    if r.err.None? && Next(s.state.level, r.action).Some? {
      RunKeepsCachesNonEmpty(client, AtLevel(r.session, Next(s.state.level, r.action).value));
    }
  }

  /** Picking a bucket drops the namespaces and tables of the previous one, and keeps the bucket list */
  lemma PickingBucketDropsLowerCaches(client: Client, s: Session)
    requires Serves(client)
    requires BucketScreen(client, s).err.None? && BucketScreen(client, s).action == Select
    ensures var st := BucketScreen(client, s).session.state;
            st.namespaces.None? && st.tables.None? && st.buckets.Some? &&
            (s.state.buckets.Some? ==> st.buckets == s.state.buckets)
  {
  }

  /** Picking a namespace drops only the tables of the previous one */
  lemma PickingNamespaceDropsTableCache(client: Client, s: Session)
    requires Serves(client)
    requires NamespaceScreen(client, s).err.None? && NamespaceScreen(client, s).action == Select
    ensures var st := NamespaceScreen(client, s).session.state;
            st.tables.None? && st.namespaces.Some? && st.buckets == s.state.buckets &&
            st.selectedBucket == s.state.selectedBucket && st.selectedBucketArn == s.state.selectedBucketArn &&
            st.selectedNamespace == s.replies[0].value.selected
  {
  }

  /** The bucket picked by name is the first listed bucket of that name; its ARN is the one remembered */
  lemma PickedBucketIsFirstOfItsName(client: Client, s: Session, i: nat)
    requires Serves(client)
    requires s.state.buckets.Some? && i < |s.state.buckets.value|
    requires |s.replies| > 0 && s.replies[0] == Success(SelectionResult(s.state.buckets.value[i].name, Select))
    ensures var st := BucketScreen(client, s).session.state;
            exists j | 0 <= j <= i ::
              s.state.buckets.value[j].name == s.state.buckets.value[i].name &&
              st.selectedBucket == s.state.buckets.value[j].name && st.selectedBucketArn == s.state.buckets.value[j].arn
  {
    var bs := s.state.buckets.value;
    var j := FirstNamed(bs, bs[i].name).value;
    assert bs[j].name == bs[i].name;
  }

  // ---------------------------------------------------------------------------
  // Empty lists and failures

  /** No table bucket at all ends the session at once, without a prompt */
  lemma NoBucketsEndsSession(client: Client, s: Session)
    requires Serves(client) && s.state.level == TableBucketLevel && s.state.buckets.None?
    requires BucketsListed(client, "") == Success([])
    ensures RunNav(client, s) == Ended(None, s.(fetches := s.fetches + [BucketsFetched]))
  {
  }

  /** A bucket without namespaces sends the user back to the buckets, without a prompt */
  lemma NoNamespacesGoesBack(client: Client, s: Session)
    requires Serves(client) && s.state.level == NamespaceLevel && s.state.namespaces.None?
    requires NamespacesListed(client, s.state.selectedBucketArn, "") == Success([])
    ensures var f := s.fetches + [NamespacesFetched(s.state.selectedBucketArn)];
            RunNav(client, s) == RunNav(client, AtLevel(s.(fetches := f), TableBucketLevel))
  {
  }

  /** A namespace without tables sends the user back to the namespaces, without a prompt */
  lemma NoTablesGoesBack(client: Client, s: Session)
    requires Serves(client) && s.state.level == TableLevel && s.state.tables.None?
    requires TablesListed(client, s.state.selectedBucketArn, s.state.selectedNamespace, "") == Success([])
    ensures var f := s.fetches + [TablesFetched(s.state.selectedBucketArn, s.state.selectedNamespace)];
            RunNav(client, s) == RunNav(client, AtLevel(s.(fetches := f), NamespaceLevel))
  {
  }

  /** A failed listing ends the session with the lister's error, before any prompt */
  lemma ListingFailureEndsSession(client: Client, s: Session, e: TablesError)
    requires Serves(client) && s.state.level == TableBucketLevel && s.state.buckets.None?
    requires BucketsListed(client, "") == Failure(e)
    ensures RunNav(client, s) == Ended(Some(ListFailed(e)), s.(fetches := s.fetches + [BucketsFetched]))
  {
  }

  /** A picker failure ends the session with that failure, whatever the level */
  lemma PickerFailureEndsSession(client: Client, s: Session, reason: string)
    requires Serves(client) && CachesNonEmpty(s.state)
    requires s.state.level == TableBucketLevel ==> s.state.buckets.Some?
    requires s.state.level == NamespaceLevel ==> s.state.namespaces.Some?
    requires s.state.level == TableLevel ==> s.state.tables.Some?
    requires |s.replies| > 0 && s.replies[0] == Failure(reason)
    ensures RunNav(client, s).err == Some(SelectFailed(reason))
    ensures RunNav(client, s).session.replies == s.replies[1..]
  {
  }

  /** A used-up script answers Exit, so a prompt shown then ends the session */
  lemma ExhaustedScriptEndsSession(client: Client, s: Session)
    requires Serves(client) && CachesNonEmpty(s.state)
    requires s.state.level == TableBucketLevel ==> s.state.buckets.Some?
    requires s.state.level == NamespaceLevel ==> s.state.namespaces.Some?
    requires s.state.level == TableLevel ==> s.state.tables.Some?
    requires s.replies == []
    ensures RunNav(client, s) == Ended(None, ScreenAt(client, s).session)
    ensures |RunNav(client, s).session.prompts| == |s.prompts| + 1
  {
  }

  // ---------------------------------------------------------------------------
  // The Back entry

  /** Only the table bucket prompt goes without ".. (Back)" */
  ghost predicate BackOfferedBelowBuckets(prompts: seq<Prompt>)
  {
    forall i :: 0 <= i < |prompts| ==> (prompts[i].showBack <==> prompts[i].title != BucketLabel)
  }

  /** A log that grows by at most one prompt following the rule keeps following it */
  lemma OnePromptMore(before: seq<Prompt>, after: seq<Prompt>)
    requires BackOfferedBelowBuckets(before)
    requires before <= after && |after| <= |before| + 1
    requires |after| > |before| ==> (after[|before|].showBack <==> after[|before|].title != BucketLabel)
    ensures BackOfferedBelowBuckets(after)
  {
    forall k | 0 <= k < |after|
      ensures after[k].showBack <==> after[k].title != BucketLabel
    {
      if k < |before| {
        assert after[k] == before[k];
      }
    }
  }

  lemma ScreensOfferBackBelowBuckets(client: Client, s: Session)
    requires Serves(client) && BackOfferedBelowBuckets(s.prompts)
    ensures BackOfferedBelowBuckets(ScreenAt(client, s).session.prompts)
  {
    match s.state.level
    case TableBucketLevel => OnePromptMore(s.prompts, BucketScreen(client, s).session.prompts);
    case NamespaceLevel => OnePromptMore(s.prompts, NamespaceScreen(client, s).session.prompts);
    case TableLevel => OnePromptMore(s.prompts, TableScreen(client, s).session.prompts);
  }

  lemma {:induction false} SessionOffersBackBelowBuckets(client: Client, s: Session)
    requires Serves(client) && BackOfferedBelowBuckets(s.prompts)
    ensures BackOfferedBelowBuckets(RunNav(client, s).session.prompts)
    decreases |s.replies|, Rank(s.state.level)
  {
    ScreensOfferBackBelowBuckets(client, s);
    NavigationFollowsTable(client, s);
    var r := ScreenAt(client, s);
    if r.err.None? && Next(s.state.level, r.action).Some? {
      SessionOffersBackBelowBuckets(client, AtLevel(r.session, Next(s.state.level, r.action).value));
    }
  }

  // ---------------------------------------------------------------------------
  // A whole session

  /** The rest of a session depends only on what its current screen does */
  lemma SameScreenSameRun(client: Client, s: Session, t: Session)
    requires Serves(client) && s.state.level == t.state.level && ScreenAt(client, s) == ScreenAt(client, t)
    ensures RunNav(client, s) == RunNav(client, t)
  {
    NavigationFollowsTable(client, s);
    NavigationFollowsTable(client, t);
  }

  /** A bucket screen that fetches a non-empty list acts as if the list had been cached */
  lemma FetchedBucketsAsCached(client: Client, s: Session, buckets: seq<TableBucketInfo>)
    requires Serves(client) && s.state.buckets.None?
    requires BucketsListed(client, "") == Success(buckets) && |buckets| > 0
    ensures BucketScreen(client, s) ==
            BucketScreen(client, s.(state := s.state.(buckets := Some(buckets)), fetches := s.fetches + [BucketsFetched]))
  {
  }

  /** A bucket screen whose list is cached, answered by picking the bucket of that name */
  lemma CachedBucketSelect(client: Client, s: Session, bucket: string, i: nat)
    requires Serves(client) && s.state.level == TableBucketLevel
    requires s.state.buckets.Some? && i < |s.state.buckets.value| && FirstNamed(s.state.buckets.value, bucket) == Some(i)
    requires |s.replies| > 0 && s.replies[0] == Success(SelectionResult(bucket, Select))
    ensures var bs := s.state.buckets.value;
            RunNav(client, s) ==
            RunNav(client, s.(state := s.state.(level := NamespaceLevel, selectedBucket := bs[i].name, selectedBucketArn := bs[i].arn,
                                                namespaces := None, tables := None),
                              replies := s.replies[1..],
                              prompts := s.prompts + [Prompt(BucketLabel, MapSeq(bs, BucketName), false)]))
  {
  }

  /** A bucket screen that fetches its list first and is answered by picking the bucket of that name */
  lemma FetchedBucketSelect(client: Client, s: Session, bucket: string, buckets: seq<TableBucketInfo>, i: nat)
    requires Serves(client) && s.state.level == TableBucketLevel && s.state.buckets.None?
    requires BucketsListed(client, "") == Success(buckets) && i < |buckets| && FirstNamed(buckets, bucket) == Some(i)
    requires |s.replies| > 0 && s.replies[0] == Success(SelectionResult(bucket, Select))
    ensures RunNav(client, s) ==
            RunNav(client, s.(state := s.state.(level := NamespaceLevel, buckets := Some(buckets), selectedBucket := bucket,
                                                selectedBucketArn := buckets[i].arn, namespaces := None, tables := None),
                              replies := s.replies[1..],
                              prompts := s.prompts + [Prompt(BucketLabel, MapSeq(buckets, BucketName), false)],
                              fetches := s.fetches + [BucketsFetched]))
  {
    var s1 := s.(state := s.state.(buckets := Some(buckets)), fetches := s.fetches + [BucketsFetched]);
    FetchedBucketsAsCached(client, s, buckets);
    SameScreenSameRun(client, s, s1);
    CachedBucketSelect(client, s1, bucket, i);
  }

  /** A namespace screen whose list is already cached, answered with a selection or Back */
  lemma CachedNamespaceStep(client: Client, s: Session, reply: SelectionResult)
    requires Serves(client) && s.state.level == NamespaceLevel
    requires s.state.namespaces.Some? && |s.state.namespaces.value| > 0
    requires |s.replies| > 0 && s.replies[0] == Success(reply) && reply.action != Exit
    ensures var p := s.prompts + [Prompt(NamespaceLabel, MapSeq(s.state.namespaces.value, NamespaceName), true)];
            RunNav(client, s) ==
              if reply.action == Back then RunNav(client, s.(state := s.state.(level := TableBucketLevel), replies := s.replies[1..], prompts := p))
              else RunNav(client, s.(state := s.state.(level := TableLevel, selectedNamespace := reply.selected, tables := None),
                                     replies := s.replies[1..], prompts := p))
  {
  }

  /** A namespace screen that fetches its list first */
  lemma FetchedNamespaceStep(client: Client, s: Session, namespaces: seq<NamespaceInfo>, reply: SelectionResult)
    requires Serves(client) && s.state.level == NamespaceLevel && s.state.namespaces.None?
    requires NamespacesListed(client, s.state.selectedBucketArn, "") == Success(namespaces) && |namespaces| > 0
    requires |s.replies| > 0 && s.replies[0] == Success(reply) && reply.action != Exit
    ensures var s1 := s.(state := s.state.(namespaces := Some(namespaces)),
                         fetches := s.fetches + [NamespacesFetched(s.state.selectedBucketArn)]);
            RunNav(client, s) == RunNav(client, s1)
  {
    var s1 := s.(state := s.state.(namespaces := Some(namespaces)),
                 fetches := s.fetches + [NamespacesFetched(s.state.selectedBucketArn)]);
    assert NamespaceScreen(client, s) == NamespaceScreen(client, s1);
    CachedNamespaceStep(client, s1, reply);
  }

  /** A table screen that fetches its list first and is answered with Back */
  lemma FetchedTablesBack(client: Client, s: Session, tables: seq<TableInfo>)
    requires Serves(client) && s.state.level == TableLevel && s.state.tables.None?
    requires TablesListed(client, s.state.selectedBucketArn, s.state.selectedNamespace, "") == Success(tables) && |tables| > 0
    requires |s.replies| > 0 && s.replies[0] == Success(SelectionResult("", Back))
    ensures RunNav(client, s) ==
            RunNav(client, s.(state := s.state.(level := NamespaceLevel, tables := Some(tables)),
                              replies := s.replies[1..],
                              prompts := s.prompts + [Prompt(TableLabel, MapSeq(tables, TableName), true)],
                              fetches := s.fetches + [TablesFetched(s.state.selectedBucketArn, s.state.selectedNamespace)]))
  {
    assert Items(Cached(tables)) == tables;
  }

  /** A bucket screen whose list is cached, once the script is used up */
  lemma CachedBucketsExit(client: Client, s: Session)
    requires Serves(client) && s.state.level == TableBucketLevel
    requires s.state.buckets.Some? && |s.state.buckets.value| > 0 && s.replies == []
    ensures RunNav(client, s) ==
            Ended(None, s.(prompts := s.prompts + [Prompt(BucketLabel, MapSeq(s.state.buckets.value, BucketName), false)]))
  {
  }

  /** Down two levels: the buckets and then the namespaces are fetched and picked from */
  lemma DownToTables(client: Client, s: Session, bucket: string, namespace: string,
                     buckets: seq<TableBucketInfo>, namespaces: seq<NamespaceInfo>, i: nat)
    requires Serves(client) && s.state.level == TableBucketLevel && s.state.buckets.None?
    requires BucketsListed(client, "") == Success(buckets) && i < |buckets| && FirstNamed(buckets, bucket) == Some(i)
    requires NamespacesListed(client, buckets[i].arn, "") == Success(namespaces) && |namespaces| > 0
    requires |s.replies| >= 2
    requires s.replies[0] == Success(SelectionResult(bucket, Select))
    requires s.replies[1] == Success(SelectionResult(namespace, Select))
    ensures RunNav(client, s) ==
            RunNav(client, Session(NavState(TableLevel, Some(buckets), Some(namespaces), None, bucket, buckets[i].arn, namespace),
                                   s.replies[2..],
                                   s.prompts + [Prompt(BucketLabel, MapSeq(buckets, BucketName), false)]
                                             + [Prompt(NamespaceLabel, MapSeq(namespaces, NamespaceName), true)],
                                   s.fetches + [BucketsFetched] + [NamespacesFetched(buckets[i].arn)]))
  {
    var arn := buckets[i].arn;
    var pb := Prompt(BucketLabel, MapSeq(buckets, BucketName), false);
    FetchedBucketSelect(client, s, bucket, buckets, i);
    var s1 := Session(NavState(NamespaceLevel, Some(buckets), None, None, bucket, arn, s.state.selectedNamespace),
                      s.replies[1..], s.prompts + [pb], s.fetches + [BucketsFetched]);
    FetchedNamespaceStep(client, s1, namespaces, SelectionResult(namespace, Select));
  }

  /** The way down: buckets, then namespaces, then tables, each fetched once, then Back from the tables */
  lemma GoingDown(client: Client, s: Session, bucket: string, namespace: string,
                  buckets: seq<TableBucketInfo>, namespaces: seq<NamespaceInfo>, tables: seq<TableInfo>, i: nat)
    requires Serves(client) && s.state.level == TableBucketLevel && s.state.buckets.None?
    requires BucketsListed(client, "") == Success(buckets) && i < |buckets| && FirstNamed(buckets, bucket) == Some(i)
    requires NamespacesListed(client, buckets[i].arn, "") == Success(namespaces) && |namespaces| > 0
    requires TablesListed(client, buckets[i].arn, namespace, "") == Success(tables) && |tables| > 0
    requires |s.replies| >= 3
    requires s.replies[0] == Success(SelectionResult(bucket, Select))
    requires s.replies[1] == Success(SelectionResult(namespace, Select))
    requires s.replies[2] == Success(SelectionResult("", Back))
    ensures RunNav(client, s) ==
            RunNav(client, Session(NavState(NamespaceLevel, Some(buckets), Some(namespaces), Some(tables), bucket, buckets[i].arn, namespace),
                                   s.replies[3..],
                                   s.prompts + [Prompt(BucketLabel, MapSeq(buckets, BucketName), false)]
                                             + [Prompt(NamespaceLabel, MapSeq(namespaces, NamespaceName), true)]
                                             + [Prompt(TableLabel, MapSeq(tables, TableName), true)],
                                   s.fetches + [BucketsFetched] + [NamespacesFetched(buckets[i].arn)]
                                             + [TablesFetched(buckets[i].arn, namespace)]))
  {
    var arn := buckets[i].arn;
    var pb := Prompt(BucketLabel, MapSeq(buckets, BucketName), false);
    var pn := Prompt(NamespaceLabel, MapSeq(namespaces, NamespaceName), true);
    DownToTables(client, s, bucket, namespace, buckets, namespaces, i);
    var s2 := Session(NavState(TableLevel, Some(buckets), Some(namespaces), None, bucket, arn, namespace),
                      s.replies[2..], s.prompts + [pb] + [pn], s.fetches + [BucketsFetched] + [NamespacesFetched(arn)]);
    FetchedTablesBack(client, s2, tables);
  }

  /** The way back: Back from the namespaces, then the script runs out at the buckets */
  lemma GoingBack(client: Client, s: Session)
    requires Serves(client) && s.state.level == NamespaceLevel
    requires s.state.buckets.Some? && |s.state.buckets.value| > 0
    requires s.state.namespaces.Some? && |s.state.namespaces.value| > 0
    requires s.replies == [Success(SelectionResult("", Back))]
    ensures RunNav(client, s) ==
            Ended(None, s.(state := s.state.(level := TableBucketLevel), replies := [],
                           prompts := s.prompts + [Prompt(NamespaceLabel, MapSeq(s.state.namespaces.value, NamespaceName), true),
                                                   Prompt(BucketLabel, MapSeq(s.state.buckets.value, BucketName), false)]))
  {
    CachedNamespaceStep(client, s, SelectionResult("", Back));
    var pn := Prompt(NamespaceLabel, MapSeq(s.state.namespaces.value, NamespaceName), true);
    var s1 := s.(state := s.state.(level := TableBucketLevel), replies := [], prompts := s.prompts + [pn]);
    CachedBucketsExit(client, s1);
  }

  /**
   * Down to a table and back up to the buckets, from a bucket screen that has not
   * fetched yet: each list is fetched once, and going back shows the very lists
   * shown on the way down; the session ends when the script runs out
   */
  lemma DownAndBackReusesLists(client: Client, s: Session, bucket: string, namespace: string,
                               buckets: seq<TableBucketInfo>, namespaces: seq<NamespaceInfo>, tables: seq<TableInfo>, i: nat)
    requires Serves(client) && s.state.level == TableBucketLevel && s.state.buckets.None?
    requires BucketsListed(client, "") == Success(buckets) && i < |buckets| && FirstNamed(buckets, bucket) == Some(i)
    requires NamespacesListed(client, buckets[i].arn, "") == Success(namespaces) && |namespaces| > 0
    requires TablesListed(client, buckets[i].arn, namespace, "") == Success(tables) && |tables| > 0
    requires s.replies == [Success(SelectionResult(bucket, Select)), Success(SelectionResult(namespace, Select)),
                           Success(SelectionResult("", Back)), Success(SelectionResult("", Back))]
    ensures var e := RunNav(client, s);
            var pb := Prompt(BucketLabel, MapSeq(buckets, BucketName), false);
            var pn := Prompt(NamespaceLabel, MapSeq(namespaces, NamespaceName), true);
            var pt := Prompt(TableLabel, MapSeq(tables, TableName), true);
            e.err.None? &&
            e.session.fetches == s.fetches + [BucketsFetched, NamespacesFetched(buckets[i].arn), TablesFetched(buckets[i].arn, namespace)] &&
            e.session.prompts == s.prompts + [pb, pn, pt, pn, pb] &&
            e.session.state.selectedBucket == bucket && e.session.state.selectedNamespace == namespace
  {
    var pb := Prompt(BucketLabel, MapSeq(buckets, BucketName), false);
    var pn := Prompt(NamespaceLabel, MapSeq(namespaces, NamespaceName), true);
    var pt := Prompt(TableLabel, MapSeq(tables, TableName), true);
    var arn := buckets[i].arn;
    GoingDown(client, s, bucket, namespace, buckets, namespaces, tables, i);
    var s3 := Session(NavState(NamespaceLevel, Some(buckets), Some(namespaces), Some(tables), bucket, arn, namespace),
                      s.replies[3..], s.prompts + [pb] + [pn] + [pt],
                      s.fetches + [BucketsFetched] + [NamespacesFetched(arn)] + [TablesFetched(arn, namespace)]);
    GoingBack(client, s3);
    FiveAppended(s.prompts, pb, pn, pt, pn, pb);
    ThreeAppended(s.fetches, BucketsFetched, NamespacesFetched(arn), TablesFetched(arn, namespace));
  }

  lemma ThreeAppended<T>(s: seq<T>, a: T, b: T, c: T)
    ensures s + [a] + [b] + [c] == s + [a, b, c]
  {
  }

  lemma FiveAppended<T>(s: seq<T>, a: T, b: T, c: T, d: T, e: T)
    ensures s + [a] + [b] + [c] + [d, e] == s + [a, b, c, d, e]
  {
  }
}
