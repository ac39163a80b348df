/**
 * Interactive navigation (internal/s3tables/navigator.go): a three-level walk,
 * table bucket → namespace → table. Each level fetches its list once and keeps it
 * in a cache, shows it in a picker and acts on the user's choice: Select goes one
 * level down, Back one level up, Exit ends the session.
 *
 * The picker is a `ScriptedSelector`: it answers the prompts it is shown with a
 * fixed sequence of replies, and with Exit once they are used up (what the real
 * picker answers to Ctrl+C). The lister calls go to a `Client` (module Lister).
 *
 * `BucketScreen`, `NamespaceScreen`, `TableScreen` and `RunNav` say, as functions
 * of a `Session` value, what the methods of `NavigationController` do to the state,
 * the selector and the record of fetched listings.
 */
module Navigator {
  import opened Wrappers
  import opened Errors
  import opened Lister

  /** NavigationLevel */
  datatype Level = TableBucketLevel | NamespaceLevel | TableLevel

  /** NavigationAction */
  datatype Action = Select | Back | Exit

  /** SelectionResult: the item picked (for Select) and the action */
  datatype SelectionResult = SelectionResult(selected: string, action: Action)

  /** A prompt shown to the user: its label, the names listed and whether ".. (Back)" is offered */
  datatype Prompt = Prompt(title: string, items: seq<string>, showBack: bool)

  /** The picker's answer: a selection, or the error it failed with */
  type Reply = Result<SelectionResult, string>

  /** What ends a session with an error: a listing failed, or the picker did */
  datatype NavError = ListFailed(err: TablesError) | SelectFailed(reason: string)

  /** A listing fetched from the service, with its arguments */
  datatype Fetch = BucketsFetched | NamespacesFetched(bucketArn: string) | TablesFetched(bucketArn: string, namespace: string)

  const BucketLabel := "Select Table Bucket"
  const NamespaceLabel := "Select Namespace"
  const TableLabel := "Select Table"

  /** The fields of a NavigationState, as a value; a `None` cache is Go's nil slice */
  datatype NavState = NavState(
    level: Level,
    buckets: Option<seq<TableBucketInfo>>,
    namespaces: Option<seq<NamespaceInfo>>,
    tables: Option<seq<TableInfo>>,
    selectedBucket: string,
    selectedBucketArn: string,
    selectedNamespace: string)

  /** The zero NavigationState */
  const Initial := NavState(TableBucketLevel, None, None, None, "", "", "")

  /** Everything a session changes: the state, the replies not used yet, the prompts shown, the listings fetched */
  datatype Session = Session(state: NavState, replies: seq<Reply>, prompts: seq<Prompt>, fetches: seq<Fetch>)

  /** The service ends every listing the navigator asks for (all of them without prefix) */
  ghost predicate Serves(client: Client)
  {
    Drains(BucketPages(client, "")) &&
    (forall arn :: Drains(NamespacePages(client, arn, ""))) &&
    (forall arn, namespace :: Drains(TablePages(client, arn, namespace, "")))
  }

  /** What a listing leaves in the cache: the lister returns a nil slice for no items */
  function Cached<T>(items: seq<T>): (r: Option<seq<T>>)
    ensures r.None? <==> |items| == 0
    ensures r.Some? ==> r.value == items
  {
    if |items| == 0 then None else Some(items)
  }

  /** A cache read as a slice: nil has no items */
  function Items<T>(cache: Option<seq<T>>): seq<T>
  {
    if cache.Some? then cache.value else []
  }

  function BucketName(b: TableBucketInfo): string { b.name }
  function NamespaceName(n: NamespaceInfo): string { n.name }
  function TableName(t: TableInfo): string { t.name }

  // ---------------------------------------------------------------------------
  // The picker

  /** The reply to the next prompt: the next scripted one, or Exit when none is left */
  function NextReply(replies: seq<Reply>): Reply
  {
    if |replies| == 0 then Success(SelectionResult("", Exit)) else replies[0]
  }

  function Remaining(replies: seq<Reply>): (r: seq<Reply>)
    ensures |replies| > 0 ==> |r| == |replies| - 1
    ensures |replies| == 0 ==> r == []
  {
    if |replies| == 0 then [] else replies[1..]
  }

  class ScriptedSelector {
    var replies: seq<Reply>
    var prompts: seq<Prompt>

    constructor (replies: seq<Reply>)
      ensures this.replies == replies && prompts == []
    {
      this.replies := replies;
      prompts := [];
    }

    /** `SelectWithFilter` */
    method SelectWithFilter(title: string, items: seq<string>, showBack: bool) returns (r: Reply)
      modifies this
      ensures r == NextReply(old(replies)) && replies == Remaining(old(replies))
      ensures prompts == old(prompts) + [Prompt(title, items, showBack)]
    {
      prompts := prompts + [Prompt(title, items, showBack)];
      if |replies| == 0 {
        r := Success(SelectionResult("", Exit));
      } else {
        r := replies[0];
        replies := replies[1..];
      }
    }
  }

  /** The names shown in a prompt, in the order of the list */
  method Names<T>(items: seq<T>, name: T -> string) returns (names: seq<string>)
    ensures names == MapSeq(items, name)
  {
    names := [];
    var i := 0;
    while i < |items|
      invariant 0 <= i <= |items|
      invariant names == MapSeq(items[..i], name)
    {
      names := names + [name(items[i])];
      i := i + 1;
      assert items[..i] == items[..i - 1] + [items[i - 1]];
    }
    assert items[..|items|] == items;
  }

  // ---------------------------------------------------------------------------
  // One screen per level

  /** A prompt answered: the reply and the session after it */
  datatype Answered = Answered(reply: Reply, session: Session)

  function Ask(s: Session, p: Prompt): Answered
  {
    Answered(NextReply(s.replies), s.(replies := Remaining(s.replies), prompts := s.prompts + [p]))
  }

  /** What a `navigate*` returns and the session after it */
  datatype Screen = Screen(action: Action, err: Option<NavError>, session: Session)

  /**
   * A bucket picked: the first bucket of that name becomes the selected one (nothing
   * is selected when no bucket has the name), and the namespace and table caches,
   * which belonged to the previous bucket, are dropped
   */
  function Chosen(st: NavState, buckets: seq<TableBucketInfo>, name: string): NavState
  {
    var picked := match FirstNamed(buckets, name)
                  case Some(i) => st.(selectedBucket := buckets[i].name, selectedBucketArn := buckets[i].arn)
                  case None => st;
    picked.(namespaces := None, tables := None)
  }

  /** `navigateTableBuckets` */
  ghost function BucketScreen(client: Client, s: Session): (r: Screen)
    requires Serves(client)
    ensures s.prompts <= r.session.prompts && |r.session.prompts| <= |s.prompts| + 1
    ensures |r.session.prompts| > |s.prompts| ==>
              r.session.prompts[|s.prompts|].title == BucketLabel && !r.session.prompts[|s.prompts|].showBack
    ensures |r.session.replies| <= |s.replies|
    ensures r.err.None? && r.action == Select ==> |r.session.replies| < |s.replies|
  {
    if s.state.buckets.None? && BucketsListed(client, "").Failure? then
      Screen(Exit, Some(ListFailed(BucketsListed(client, "").error)), s.(fetches := s.fetches + [BucketsFetched]))
    else
      var s1 := if s.state.buckets.Some? then s
                else s.(state := s.state.(buckets := Cached(BucketsListed(client, "").value)),
                        fetches := s.fetches + [BucketsFetched]);
      var buckets := Items(s1.state.buckets);
      if |buckets| == 0 then Screen(Exit, None, s1)
      else
        var a := Ask(s1, Prompt(BucketLabel, MapSeq(buckets, BucketName), false));
        if a.reply.Failure? then Screen(Exit, Some(SelectFailed(a.reply.error)), a.session)
        else if a.reply.value.action != Select then Screen(a.reply.value.action, None, a.session)
        else
          Screen(Select, None, a.session.(state := Chosen(a.session.state, buckets, a.reply.value.selected)))
  }

  /** `navigateNamespaces` */
  ghost function NamespaceScreen(client: Client, s: Session): (r: Screen)
    requires Serves(client)
    ensures s.prompts <= r.session.prompts && |r.session.prompts| <= |s.prompts| + 1
    ensures |r.session.prompts| > |s.prompts| ==>
              r.session.prompts[|s.prompts|].title == NamespaceLabel && r.session.prompts[|s.prompts|].showBack
    ensures |r.session.replies| <= |s.replies|
    ensures r.err.None? && r.action == Select ==> |r.session.replies| < |s.replies|
  {
    var arn := s.state.selectedBucketArn;
    if s.state.namespaces.None? && NamespacesListed(client, arn, "").Failure? then
      Screen(Exit, Some(ListFailed(NamespacesListed(client, arn, "").error)), s.(fetches := s.fetches + [NamespacesFetched(arn)]))
    else
      var s1 := if s.state.namespaces.Some? then s
                else s.(state := s.state.(namespaces := Cached(NamespacesListed(client, arn, "").value)),
                        fetches := s.fetches + [NamespacesFetched(arn)]);
      var namespaces := Items(s1.state.namespaces);
      if |namespaces| == 0 then Screen(Back, None, s1)
      else
        var a := Ask(s1, Prompt(NamespaceLabel, MapSeq(namespaces, NamespaceName), true));
        if a.reply.Failure? then Screen(Exit, Some(SelectFailed(a.reply.error)), a.session)
        else if a.reply.value.action != Select then Screen(a.reply.value.action, None, a.session)
        else
          Screen(Select, None,
                 a.session.(state := a.session.state.(selectedNamespace := a.reply.value.selected, tables := None)))
  }

  /** `navigateTables`; showing the chosen table's details is printing and is not modelled */
  ghost function TableScreen(client: Client, s: Session): (r: Screen)
    requires Serves(client)
    ensures s.prompts <= r.session.prompts && |r.session.prompts| <= |s.prompts| + 1
    ensures |r.session.prompts| > |s.prompts| ==>
              r.session.prompts[|s.prompts|].title == TableLabel && r.session.prompts[|s.prompts|].showBack
    ensures |r.session.replies| <= |s.replies|
  {
    var arn := s.state.selectedBucketArn;
    var ns := s.state.selectedNamespace;
    if s.state.tables.None? && TablesListed(client, arn, ns, "").Failure? then
      Screen(Exit, Some(ListFailed(TablesListed(client, arn, ns, "").error)), s.(fetches := s.fetches + [TablesFetched(arn, ns)]))
    else
      var s1 := if s.state.tables.Some? then s
                else s.(state := s.state.(tables := Cached(TablesListed(client, arn, ns, "").value)),
                        fetches := s.fetches + [TablesFetched(arn, ns)]);
      var tables := Items(s1.state.tables);
      if |tables| == 0 then Screen(Back, None, s1)
      else
        var a := Ask(s1, Prompt(TableLabel, MapSeq(tables, TableName), true));
        if a.reply.Failure? then Screen(Exit, Some(SelectFailed(a.reply.error)), a.session)
        else Screen(a.reply.value.action, None, a.session)
  }

  function Rank(level: Level): nat
  {
    match level
    case TableBucketLevel => 0
    case NamespaceLevel => 1
    case TableLevel => 2
  }

  function AtLevel(s: Session, level: Level): Session
  {
    s.(state := s.state.(level := level))
  }

  /** How a session ends: nil or an error, and the session at that point */
  datatype Ended = Ended(err: Option<NavError>, session: Session)

  /** The loop of `Navigate`, from the session's current level */
  ghost function RunNav(client: Client, s: Session): Ended
    requires Serves(client)
    decreases |s.replies|, Rank(s.state.level)
  {
    match s.state.level
    case TableBucketLevel =>
      var r := BucketScreen(client, s);
      if r.err.Some? then Ended(r.err, r.session)
      else if r.action == Back || r.action == Exit then Ended(None, r.session)
      else RunNav(client, AtLevel(r.session, NamespaceLevel))
    case NamespaceLevel =>
      var r := NamespaceScreen(client, s);
      if r.err.Some? then Ended(r.err, r.session)
      else if r.action == Exit then Ended(None, r.session)
      else if r.action == Back then RunNav(client, AtLevel(r.session, TableBucketLevel))
      else RunNav(client, AtLevel(r.session, TableLevel))
    case TableLevel =>
      var r := TableScreen(client, s);
      if r.err.Some? then Ended(r.err, r.session)
      else if r.action == Exit then Ended(None, r.session)
      else if r.action == Back then RunNav(client, AtLevel(r.session, NamespaceLevel))
      else Ended(None, r.session)
  }

  // ---------------------------------------------------------------------------
  // The state and the controller

  /** NavigationState */
  class NavigationState {
    var level: Level
    var buckets: Option<seq<TableBucketInfo>>
    var namespaces: Option<seq<NamespaceInfo>>
    var tables: Option<seq<TableInfo>>
    var selectedBucket: string
    var selectedBucketArn: string
    var selectedNamespace: string

    constructor ()
      ensures Snapshot() == Initial
    {
      level := TableBucketLevel;
      buckets := None;
      namespaces := None;
      tables := None;
      selectedBucket := "";
      selectedBucketArn := "";
      selectedNamespace := "";
    }

    function Snapshot(): NavState
      reads this
    {
      NavState(level, buckets, namespaces, tables, selectedBucket, selectedBucketArn, selectedNamespace)
    }
  }

  /** NavigationController; `fetches` records the listings it has asked the service for */
  class NavigationController {
    const client: Client
    const selector: ScriptedSelector
    const state: NavigationState
    ghost var fetches: seq<Fetch>

    /** `NewNavigationController` */
    constructor (client: Client, selector: ScriptedSelector)
      ensures this.client == client && this.selector == selector
      ensures fresh(state) && state.Snapshot() == Initial && fetches == []
    {
      this.client := client;
      this.selector := selector;
      state := new NavigationState();
      fetches := [];
    }

    ghost function Current(): Session
      reads this, state, selector
    {
      Session(state.Snapshot(), selector.replies, selector.prompts, fetches)
    }

    /** `SetInitialState`: only the three selection fields change */
    method SetInitialState(bucketName: string, bucketArn: string, namespace: string)
      modifies state
      ensures state.Snapshot() ==
              old(state.Snapshot()).(selectedBucket := bucketName, selectedBucketArn := bucketArn, selectedNamespace := namespace)
    {
      state.selectedBucket := bucketName;
      state.selectedBucketArn := bucketArn;
      state.selectedNamespace := namespace;
    }

    /** `navigateTableBuckets` */
    method NavigateTableBuckets() returns (action: Action, err: Option<NavError>)
      requires Serves(client)
      modifies this, state, selector
      ensures Screen(action, err, Current()) == BucketScreen(client, old(Current()))
    {
      if state.buckets.None? {
        var listed := ListTableBucketsAll(client, "");
        fetches := fetches + [BucketsFetched];
        if listed.Failure? {
          return Exit, Some(ListFailed(listed.error));
        }
        state.buckets := Cached(listed.value);
      }
      var buckets := Items(state.buckets);
      if |buckets| == 0 {
        return Exit, None;
      }
      var names := Names(buckets, BucketName);
      var reply := selector.SelectWithFilter(BucketLabel, names, false);
      if reply.Failure? {
        return Exit, Some(SelectFailed(reply.error));
      }
      if reply.value.action != Select {
        return reply.value.action, None;
      }
      ChooseBucket(buckets, reply.value.selected);
      return Select, None;
    }

    /** The end of `navigateTableBuckets` once a bucket is picked */
    method ChooseBucket(buckets: seq<TableBucketInfo>, name: string)
      modifies state
      ensures state.Snapshot() == Chosen(old(state.Snapshot()), buckets, name)
    {
      var i := 0;
      while i < |buckets|
        invariant 0 <= i <= |buckets|
        invariant forall j :: 0 <= j < i ==> buckets[j].name != name
        invariant state.Snapshot() == old(state.Snapshot())
      {
        if buckets[i].name == name {
          state.selectedBucket := buckets[i].name;
          state.selectedBucketArn := buckets[i].arn;
          break;
        }
        i := i + 1;
      }
      state.namespaces := None;
      state.tables := None;
    }

    /** `navigateNamespaces` */
    method NavigateNamespaces() returns (action: Action, err: Option<NavError>)
      requires Serves(client)
      modifies this, state, selector
      ensures Screen(action, err, Current()) == NamespaceScreen(client, old(Current()))
    {
      if state.namespaces.None? {
        var listed := ListNamespacesAll(client, state.selectedBucketArn, "");
        fetches := fetches + [NamespacesFetched(state.selectedBucketArn)];
        if listed.Failure? {
          return Exit, Some(ListFailed(listed.error));
        }
        state.namespaces := Cached(listed.value);
      }
      var namespaces := Items(state.namespaces);
      if |namespaces| == 0 {
        return Back, None;
      }
      var names := Names(namespaces, NamespaceName);
      var reply := selector.SelectWithFilter(NamespaceLabel, names, true);
      if reply.Failure? {
        return Exit, Some(SelectFailed(reply.error));
      }
      if reply.value.action == Back {
        return Back, None;
      }
      if reply.value.action == Exit {
        return Exit, None;
      }
      state.selectedNamespace := reply.value.selected;
      state.tables := None;
      return Select, None;
    }

    /** `navigateTables` */
    method NavigateTables() returns (action: Action, err: Option<NavError>)
      requires Serves(client)
      modifies this, state, selector
      ensures Screen(action, err, Current()) == TableScreen(client, old(Current()))
    {
      if state.tables.None? {
        var listed := ListTablesAll(client, state.selectedBucketArn, state.selectedNamespace, "");
        fetches := fetches + [TablesFetched(state.selectedBucketArn, state.selectedNamespace)];
        if listed.Failure? {
          return Exit, Some(ListFailed(listed.error));
        }
        state.tables := Cached(listed.value);
      }
      var tables := Items(state.tables);
      if |tables| == 0 {
        return Back, None;
      }
      var names := Names(tables, TableName);
      var reply := selector.SelectWithFilter(TableLabel, names, true);
      if reply.Failure? {
        return Exit, Some(SelectFailed(reply.error));
      }
      if reply.value.action == Back {
        return Back, None;
      }
      if reply.value.action == Exit {
        return Exit, None;
      }
      return Select, None;
    }

    /** `Navigate`: starts at `startLevel` and runs screens until one ends the session */
    method Navigate(startLevel: Level) returns (err: Option<NavError>)
      requires Serves(client)
      modifies this, state, selector
      ensures Ended(err, Current()) == RunNav(client, AtLevel(old(Current()), startLevel))
    {
      state.level := startLevel;
      assert Current() == AtLevel(old(Current()), startLevel);
      while true
        invariant RunNav(client, Current()) == RunNav(client, AtLevel(old(Current()), startLevel))
        decreases |selector.replies|, Rank(state.level)
      {
        ghost var before := Current();
        var action;
        match state.level
        case TableBucketLevel =>
          action, err := NavigateTableBuckets();
          if err.Some? {
            return;
          }
          if action == Back || action == Exit {
            return None;
          }
          state.level := NamespaceLevel;
        case NamespaceLevel =>
          action, err := NavigateNamespaces();
          if err.Some? {
            return;
          }
          if action == Exit {
            return None;
          }
          if action == Back {
            state.level := TableBucketLevel;
          } else {
            state.level := TableLevel;
          }
        case TableLevel =>
          action, err := NavigateTables();
          if err.Some? {
            return;
          }
          if action == Exit {
            return None;
          }
          if action == Back {
            state.level := NamespaceLevel;
          } else {
            return None;
          }
      }
    }
  }
}
