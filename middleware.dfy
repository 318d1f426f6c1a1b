/**
  The offline-store middleware. On a rehydrate it either resets the stored
  state for a new app version or trims it: for the last channels viewed in
  each team it keeps at most 60 post ids, drops posts older than the
  retention period, and copies the kept posts' reactions and files. A data
  cleanup action runs the same trim while keeping the current channel whole.

  The device version and build, the retention configuration, the clock, the
  initial state and the DATA_CLEANUP action type are inputs (`Env`).
*/
module Middleware {
  import opened Wrappers
  import opened JsValues

  const Rehydrate := "persist/REHYDRATE"
  const PostsPerChannel := 60
  /** Milliseconds in a day: 1000 * 3600 * 24. */
  const DayMs := 86400000

  datatype Env = Env(
    version: string,
    build: string,
    retentionEnabled: bool,
    retentionPeriod: int,
    now: int,
    initial: Json,
    dataCleanup: string)

  /** `j.k1.k2...`, undefined as soon as a step is not an object. */
  function Path(j: Json, keys: seq<string>): Json
    decreases |keys|
  {
    if |keys| == 0 then j else Path(Get(j, keys[0]), keys[1..])
  }

  // ---------------------------------------------------------------------------
  // messageRetention and resetStateForNewVersion

  /** The stored app is missing, has no version, or differs from the device's version or build. */
  predicate IsNewVersion(app: Json, env: Env)
  {
    !Truthy(app) || !Truthy(Get(app, "version"))
    || Get(app, "version") != JStr(env.version) || Get(app, "build") != JStr(env.build)
  }

  /**
    getLastChannelForTeam: a copy of the stored map; when any value is not an
    array, every value is wrapped in a one-element array.
  */
  function LastChannelForTeam(payload: Json): (r: Fields)
    ensures var copy := Spread(Path(payload, ["views", "team", "lastChannelForTeam"]));
      && Keys(r) == Keys(copy)
      && (forall i :: 0 <= i < |r| ==> r[i].1.JArr?)
      && ((exists i :: 0 <= i < |copy| && !copy[i].1.JArr?) ==>
            forall i :: 0 <= i < |r| ==> r[i].1 == JArr([copy[i].1]))
      && ((forall i :: 0 <= i < |copy| ==> copy[i].1.JArr?) ==> r == copy)
  {
    var copy := Spread(Path(payload, ["views", "team", "lastChannelForTeam"]));
    if exists i :: 0 <= i < |copy| && !copy[i].1.JArr? then
      seq(|copy|, i requires 0 <= i < |copy| => (copy[i].0, JArr([copy[i].1])))
    else copy
  }

  /** The users slice after a reset: only the current user and that user's profile, or the initial slice. */
  function ResetUsers(users: Json, initialUsers: Json): Json
  {
    if Truthy(users) && Truthy(Get(users, "currentUserId")) then
      var currentUserId := Get(users, "currentUserId");
      JObj([("currentUserId", currentUserId),
            ("profiles", JObj([(Key(currentUserId), GetAt(Get(users, "profiles"), currentUserId))]))])
    else initialUsers
  }

  /** A stored value when truthy, the initial state's otherwise. */
  function OrInitial(stored: Json, initial: Json): Json
  {
    if Truthy(stored) then stored else initial
  }

  /** The app slice after a reset: the device's build and version. */
  function ResetApp(env: Env): Json
  {
    JObj([("build", JStr(env.build)), ("version", JStr(env.version))])
  }

  /** The entities after a reset: general, teams, users, preferences and recent searches. */
  function ResetEntities(entities: Json, init: Json): Json
  {
    var teamsIn := Get(entities, "teams");
    var teams :=
      if Truthy(teamsIn) then
        JObj([("currentTeamId", Get(teamsIn, "currentTeamId")),
              ("teams", Get(teamsIn, "teams")),
              ("myMembers", Get(teamsIn, "myMembers"))])
      else Path(init, ["entities", "teams"]);
    var searchIn := Get(entities, "search");
    var search :=
      if Truthy(searchIn) && Truthy(Get(searchIn, "recent")) then JObj([("recent", Get(searchIn, "recent"))])
      else Path(init, ["entities", "search"]);
    JObj([
      ("general", OrInitial(Get(entities, "general"), Path(init, ["entities", "general"]))),
      ("teams", teams),
      ("users", ResetUsers(Get(entities, "users"), Path(init, ["entities", "users"]))),
      ("preferences", OrInitial(Get(entities, "preferences"), Path(init, ["entities", "preferences"]))),
      ("search", search)])
  }

  /** `views[slice][key]` when both are truthy, the initial state's value otherwise. */
  function Nested(views: Json, slice: string, key: string, init: Json): Json
  {
    if Truthy(Get(views, slice)) && Truthy(Get(Get(views, slice), key)) then Get(Get(views, slice), key)
    else Path(init, ["views", slice, key])
  }

  /** The views after a reset: drafts, i18n, fetch cache, last team and channels, server selection. */
  function ResetViews(payload: Json, init: Json): Json
  {
    var views := Get(payload, "views");
    JObj([
      ("channel", JObj([("drafts", Nested(views, "channel", "drafts", init))])),
      ("i18n", OrInitial(Get(views, "i18n"), Path(init, ["views", "i18n"]))),
      ("fetchCache", OrInitial(Get(views, "fetchCache"), Path(init, ["views", "fetchCache"]))),
      ("team", JObj([("lastTeamId", Nested(views, "team", "lastTeamId", init)),
                     ("lastChannelForTeam", JObj(LastChannelForTeam(payload)))])),
      ("thread", JObj([("drafts", Nested(views, "thread", "drafts", init))])),
      ("selectServer", OrInitial(Get(views, "selectServer"), Path(init, ["views", "selectServer"])))])
  }

  function ResetPayload(payload: Json, env: Env): Json
  {
    JObj([
      ("app", ResetApp(env)),
      ("entities", ResetEntities(Get(payload, "entities"), env.initial)),
      ("views", ResetViews(payload, env.initial))])
  }

  /** resetStateForNewVersion: the few slices that survive an upgrade, stamped with the device's version. */
  function ResetStateForNewVersion(action: Json, env: Env): Json
  {
    JObj([("type", Get(action, "type")),
          ("payload", ResetPayload(Get(action, "payload"), env)),
          ("error", Get(action, "error"))])
  }

  /** The reset action's payload and its three slices. */
  lemma ResetShape(action: Json, env: Env)
    ensures var payload := Get(action, "payload");
      var out := Get(ResetStateForNewVersion(action, env), "payload");
      && out == ResetPayload(payload, env)
      && Get(out, "app") == ResetApp(env)
      && Get(out, "entities") == ResetEntities(Get(payload, "entities"), env.initial)
      && Get(out, "views") == ResetViews(payload, env.initial)
  {
    var payload := Get(action, "payload");
    GetOfThree("type", Get(action, "type"), "payload", ResetPayload(payload, env), "error", Get(action, "error"));
    GetOfThree("app", ResetApp(env), "entities", ResetEntities(Get(payload, "entities"), env.initial),
      "views", ResetViews(payload, env.initial));
  }

  lemma ResetEntitiesUsers(entities: Json, init: Json)
    ensures Get(ResetEntities(entities, init), "users") == ResetUsers(Get(entities, "users"), Path(init, ["entities", "users"]))
  {
    var out := ResetEntities(entities, init);
    LookupAt(out.fields, "users", 2);
  }

  lemma ResetUsersShape(users: Json, initialUsers: Json)
    ensures var out := ResetUsers(users, initialUsers);
      var currentUserId := Get(users, "currentUserId");
      if Truthy(users) && Truthy(currentUserId) then
        && out.JObj? && Keys(out.fields) == ["currentUserId", "profiles"]
        && Get(out, "currentUserId") == currentUserId
        && Get(out, "profiles").JObj? && Keys(Get(out, "profiles").fields) == [Key(currentUserId)]
        && GetAt(Get(out, "profiles"), currentUserId) == GetAt(Get(users, "profiles"), currentUserId)
      else out == initialUsers
  {
    var out := ResetUsers(users, initialUsers);
    var currentUserId := Get(users, "currentUserId");
    if Truthy(users) && Truthy(currentUserId) {
      LookupAt(out.fields, "currentUserId", 0);
      LookupAt(out.fields, "profiles", 1);
      LookupAt(Get(out, "profiles").fields, Key(currentUserId), 0);
    }
  }

  /**
    After a reset the users slice holds exactly the current user id and
    that user's profile when the stored slice names a current user, and is
    the initial slice otherwise.
  */
  lemma ResetKeepsOnlyCurrentUser(action: Json, env: Env)
    ensures var stored := Get(Get(Get(action, "payload"), "entities"), "users");
      var users := Get(Get(Get(ResetStateForNewVersion(action, env), "payload"), "entities"), "users");
      var currentUserId := Get(stored, "currentUserId");
      if Truthy(stored) && Truthy(currentUserId) then
        && users.JObj? && Keys(users.fields) == ["currentUserId", "profiles"]
        && Get(users, "currentUserId") == currentUserId
        && Get(users, "profiles").JObj? && Keys(Get(users, "profiles").fields) == [Key(currentUserId)]
        && GetAt(Get(users, "profiles"), currentUserId) == GetAt(Get(stored, "profiles"), currentUserId)
      else users == Path(env.initial, ["entities", "users"])
  {
    ResetShape(action, env);
    ResetEntitiesUsers(Get(Get(action, "payload"), "entities"), env.initial);
    ResetUsersShape(Get(Get(Get(action, "payload"), "entities"), "users"), Path(env.initial, ["entities", "users"]));
  }

  lemma ResetAppFacts(env: Env)
    ensures Get(ResetApp(env), "build") == JStr(env.build)
    ensures Get(ResetApp(env), "version") == JStr(env.version)
  {
    GetOfTwo("build", JStr(env.build), "version", JStr(env.version));
  }

  /**
    A reset state is stamped with the device's version and build and keeps
    its entities and views, so rehydrating it again does not reset it again.
  */
  lemma ResetIsCurrent(action: Json, env: Env)
    requires env.version != ""
    ensures var payload := Get(ResetStateForNewVersion(action, env), "payload");
      && Truthy(Get(payload, "entities")) && Truthy(Get(payload, "views"))
      && !IsNewVersion(Get(payload, "app"), env)
  {
    ResetShape(action, env);
    ResetAppFacts(env);
    var payload := Get(ResetStateForNewVersion(action, env), "payload");
    assert Get(payload, "entities").JObj?;
    assert Get(payload, "views").JObj?;
    var app := Get(payload, "app");
    assert app == ResetApp(env);
    assert Truthy(app) && Truthy(Get(app, "version"));
  }

  // ---------------------------------------------------------------------------
  // cleanupState: what it reads

  /** The parts of the stored state the trim reads, with keepCurrent and the retention settings. */
  datatype Source = Source(
    postsInChannel: Json,
    posts: Json,
    reactions: Json,
    fileIdsByPostId: Json,
    files: Json,
    currentChannelId: Json,
    keepCurrent: bool,
    retentionPeriod: int,
    now: int)

  /** Retention in days plus one when enabled, 0 (off) otherwise. */
  function RetentionPeriod(env: Env): int
  {
    if env.retentionEnabled then env.retentionPeriod + 1 else 0
  }

  function SourceOf(action: Json, keepCurrent: bool, env: Env): Source
  {
    var entities := Path(action, ["payload", "entities"]);
    Source(
      Path(entities, ["posts", "postsInChannel"]),
      Path(entities, ["posts", "posts"]),
      Path(entities, ["posts", "reactions"]),
      Path(entities, ["files", "fileIdsByPostId"]),
      Path(entities, ["files", "files"]),
      Path(entities, ["channels", "currentChannelId"]),
      keepCurrent,
      RetentionPeriod(env),
      env.now)
  }

  /** The number a value becomes in arithmetic, when it is not NaN. */
  function Numeric(j: Json): Option<int>
  {
    match j
    case JNum(n) => Some(n)
    case JNull => Some(0)
    case JBool(b) => Some(if b then 1 else 0)
    case _ => None
  }

  /**
    A post the retention rule drops: retention is on, the post is not in the
    current channel under keepCurrent, and more than the retention period in
    days has passed since it was created.
  */
  predicate Expired(src: Source, post: Json)
  {
    var skip := src.keepCurrent && src.currentChannelId == Get(post, "channel_id");
    !skip && src.retentionPeriod != 0 &&
      match Numeric(Get(post, "create_at"))
      case None => false
      case Some(createAt) => src.now - createAt > src.retentionPeriod * DayMs
  }

  // ---------------------------------------------------------------------------
  // cleanupState, first part: the kept channel lists

  /** Channel id (as a key) and its post ids, in insertion order. */
  type Lists = seq<(string, seq<Json>)>

  function Min(a: int, b: int): int
  {
    if a < b then a else b
  }

  /** The post ids kept for a channel: all of them for the current channel under keepCurrent, else the first 60. */
  function ListFor(src: Source, id: Json): (r: seq<Json>)
    ensures var full := Items(GetAt(src.postsInChannel, id));
      && r <= full
      && (src.keepCurrent && src.currentChannelId == id ==> r == full)
      && (!(src.keepCurrent && src.currentChannelId == id) ==> |r| == Min(PostsPerChannel, |full|))
  {
    var full := Items(GetAt(src.postsInChannel, id));
    if src.keepCurrent && src.currentChannelId == id then full
    else if |full| <= PostsPerChannel then full
    else full[..PostsPerChannel]
  }

  datatype Collection = Collection(lists: Lists, toKeep: seq<Json>)

  /** One channel id of the reduce: skipped when already kept or when the store has no list for it. */
  function CollectStep(src: Source, c: Collection, id: Json): Collection
  {
    if !HasKey(c.lists, Key(id)) && Truthy(GetAt(src.postsInChannel, id)) then
      var postIds := ListFor(src, id);
      Collection(c.lists + [(Key(id), postIds)], c.toKeep + postIds)
    else c
  }

  function CollectAll(src: Source, ids: seq<Json>): Collection
  {
    if ids == [] then Collection([], [])
    else CollectStep(src, CollectAll(src, ids[..|ids| - 1]), ids[|ids| - 1])
  }

  /** The channel ids of every team, team after team. */
  function ChannelIdsOf(teams: Fields): seq<Json>
  {
    if teams == [] then []
    else ChannelIdsOf(teams[..|teams| - 1]) + Items(teams[|teams| - 1].1)
  }

  /** The concatenation of the kept lists. */
  function Flatten(lists: Lists): seq<Json>
  {
    if lists == [] then [] else Flatten(lists[..|lists| - 1]) + lists[|lists| - 1].1
  }

  lemma CollectSnoc(src: Source, ids: seq<Json>, id: Json)
    ensures CollectAll(src, ids + [id]) == CollectStep(src, CollectAll(src, ids), id)
  {
    assert (ids + [id])[..|ids|] == ids;
  }

  /** A channel id met twice is kept once, and the post ids to keep are the kept lists one after the other. */
  lemma {:induction false} CollectUnique(src: Source, ids: seq<Json>)
    ensures UniqueKeys(CollectAll(src, ids).lists)
    ensures CollectAll(src, ids).toKeep == Flatten(CollectAll(src, ids).lists)
  {
    if ids != [] {
      var init := ids[..|ids| - 1];
      var last := ids[|ids| - 1];
      assert ids == init + [last];
      CollectSnoc(src, init, last);
      CollectUnique(src, init);
      var c0 := CollectAll(src, init);
      if !HasKey(c0.lists, Key(last)) && Truthy(GetAt(src.postsInChannel, last)) {
        var lists := c0.lists + [(Key(last), ListFor(src, last))];
        assert lists[..|lists| - 1] == c0.lists;
        assert forall m :: 0 <= m < |c0.lists| ==> lists[m] == c0.lists[m];
      }
    }
  }

  /** Every kept list is the kept list of one of the channel ids, which has a stored list. */
  lemma {:induction false} CollectSound(src: Source, ids: seq<Json>)
    ensures forall e :: e in CollectAll(src, ids).lists ==>
      exists id :: id in ids && Key(id) == e.0 && e.1 == ListFor(src, id) && Truthy(GetAt(src.postsInChannel, id))
  {
    if ids != [] {
      var init := ids[..|ids| - 1];
      var last := ids[|ids| - 1];
      assert ids == init + [last];
      CollectSnoc(src, init, last);
      CollectSound(src, init);
    }
  }

  /** Every channel id with a stored list is kept. */
  lemma {:induction false} CollectComplete(src: Source, ids: seq<Json>)
    ensures forall id :: id in ids && Truthy(GetAt(src.postsInChannel, id)) ==> HasKey(CollectAll(src, ids).lists, Key(id))
  {
    if ids != [] {
      var init := ids[..|ids| - 1];
      var last := ids[|ids| - 1];
      assert ids == init + [last];
      CollectSnoc(src, init, last);
      CollectComplete(src, init);
      var c0 := CollectAll(src, init);
      var c := CollectAll(src, ids);
      assert forall k :: HasKey(c0.lists, k) ==> HasKey(c.lists, k) by {
        forall k | HasKey(c0.lists, k)
          ensures HasKey(c.lists, k)
        {
          var m :| 0 <= m < |c0.lists| && c0.lists[m].0 == k;
          assert c.lists[m] == c0.lists[m];
        }
      }
      if !HasKey(c0.lists, Key(last)) && Truthy(GetAt(src.postsInChannel, last)) {
        assert c.lists[|c0.lists|].0 == Key(last);
      }
    }
  }

  // ---------------------------------------------------------------------------
  // cleanupState, second part: the kept posts

  datatype Next = Next(lists: Lists, posts: Fields, reactions: Fields, fileIds: Fields, files: Fields)

  /** Remove the first occurrence of `postId` from the list kept under `key`, if there is one. */
  function SpliceFrom(lists: Lists, key: string, postId: Json): Lists
  {
    var h := IndexOfKey(lists, key);
    if h == -1 then lists
    else
      var index := IndexOf(lists[h].1, postId);
      if index == -1 then lists else lists[h := (lists[h].0, RemoveAt(lists[h].1, index))]
  }

  /** The first kept list, in key order, holding `postId`, or -1. */
  function FirstHolder(lists: Lists, postId: Json): (r: int)
    ensures -1 <= r < |lists|
    ensures r == -1 <==> forall m :: 0 <= m < |lists| ==> postId !in lists[m].1
    ensures r >= 0 ==> postId in lists[r].1 && forall m :: 0 <= m < r ==> postId !in lists[m].1
  {
    if |lists| == 0 then -1
    else if postId in lists[0].1 then 0
    else
      var r := FirstHolder(lists[1..], postId);
      assert forall m :: 1 <= m < |lists| ==> lists[m] == lists[1..][m - 1];
      if r == -1 then -1 else r + 1
  }

  /** The id of a missing post leaves the first kept list that holds it. */
  function DropMissing(lists: Lists, postId: Json): Lists
  {
    var h := FirstHolder(lists, postId);
    if h == -1 then lists
    else lists[h := (lists[h].0, RemoveAt(lists[h].1, IndexOf(lists[h].1, postId)))]
  }

  /** Copy each referenced file, undefined for a file the store lacks. */
  function CopyFiles(files: Fields, ids: seq<Json>, source: Json): (r: Fields)
    ensures forall e :: e in r && e !in files ==> e.1 == Get(source, e.0)
    ensures forall k :: HasKey(files, k) ==> HasKey(r, k)
    ensures forall f :: f in ids ==> HasKey(r, Key(f))
  {
    if ids == [] then files
    else
      var init := ids[..|ids| - 1];
      var last := ids[|ids| - 1];
      assert forall f :: f in ids ==> f in init || f == last;
      Put(CopyFiles(files, init, source), Key(last), GetAt(source, last))
  }

  /** The forEach body of cleanupState for one post id. */
  function KeepStep(src: Source, nx: Next, postId: Json): Next
  {
    var post := GetAt(src.posts, postId);
    if !Truthy(post) then nx.(lists := DropMissing(nx.lists, postId))
    else if Expired(src, post) then nx.(lists := SpliceFrom(nx.lists, Key(Get(post, "channel_id")), postId))
    else
      var k := Key(postId);
      var reaction := GetAt(src.reactions, postId);
      var fileIds := GetAt(src.fileIdsByPostId, postId);
      Next(nx.lists,
        Put(nx.posts, k, post),
        if Truthy(reaction) then Put(nx.reactions, k, reaction) else nx.reactions,
        if Truthy(fileIds) then Put(nx.fileIds, k, fileIds) else nx.fileIds,
        if Truthy(fileIds) then CopyFiles(nx.files, Items(fileIds), src.files) else nx.files)
  }

  function KeepAll(src: Source, lists: Lists, ids: seq<Json>): Next
  {
    if ids == [] then Next(lists, [], [], [], [])
    else KeepStep(src, KeepAll(src, lists, ids[..|ids| - 1]), ids[|ids| - 1])
  }

  /** Every kept entry is the stored value under its key; no kept post is missing or expired. */
  ghost predicate Copied(src: Source, nx: Next)
  {
    && (forall e :: e in nx.posts ==> e.1 == Get(src.posts, e.0) && Truthy(e.1) && !Expired(src, e.1))
    && (forall e :: e in nx.reactions ==> e.1 == Get(src.reactions, e.0))
    && (forall e :: e in nx.fileIds ==> e.1 == Get(src.fileIdsByPostId, e.0))
    && (forall e :: e in nx.files ==> e.1 == Get(src.files, e.0))
  }

  /** A live post id that was processed is kept with its reactions, its file ids and their files. */
  ghost predicate KeptWithData(src: Source, nx: Next, postId: Json)
  {
    var post := GetAt(src.posts, postId);
    var fileIds := GetAt(src.fileIdsByPostId, postId);
    Truthy(post) && !Expired(src, post) ==>
      && HasKey(nx.posts, Key(postId))
      && (Truthy(GetAt(src.reactions, postId)) ==> HasKey(nx.reactions, Key(postId)))
      && (Truthy(fileIds) ==>
            HasKey(nx.fileIds, Key(postId)) && forall f :: f in Items(fileIds) ==> HasKey(nx.files, Key(f)))
  }

  lemma KeepStepCopies(src: Source, nx: Next, postId: Json)
    requires Copied(src, nx)
    ensures Copied(src, KeepStep(src, nx, postId))
  {
  }

  lemma KeepStepGrows(src: Source, nx: Next, postId: Json, q: Json)
    requires q != postId ==> KeptWithData(src, nx, q)
    ensures KeptWithData(src, KeepStep(src, nx, postId), q)
  {
  }

  lemma KeepSnoc(src: Source, lists: Lists, ids: seq<Json>, postId: Json)
    ensures KeepAll(src, lists, ids + [postId]) == KeepStep(src, KeepAll(src, lists, ids), postId)
  {
    assert (ids + [postId])[..|ids|] == ids;
  }

  /**
    After the forEach every kept post, reaction, file-id list and file is
    the stored one under the same key, and no missing or expired post is kept.
  */
  lemma {:induction false} KeepCopies(src: Source, lists: Lists, ids: seq<Json>)
    ensures Copied(src, KeepAll(src, lists, ids))
  {
    if ids != [] {
      var init := ids[..|ids| - 1];
      var last := ids[|ids| - 1];
      assert ids == init + [last];
      KeepSnoc(src, lists, init, last);
      KeepCopies(src, lists, init);
      KeepStepCopies(src, KeepAll(src, lists, init), last);
    }
  }

  /** Every live post to keep is kept with its reactions, its file-id list and its files. */
  lemma {:induction false} KeepComplete(src: Source, lists: Lists, ids: seq<Json>)
    ensures forall p :: p in ids ==> KeptWithData(src, KeepAll(src, lists, ids), p)
  {
    if ids != [] {
      var init := ids[..|ids| - 1];
      var last := ids[|ids| - 1];
      assert ids == init + [last];
      KeepSnoc(src, lists, init, last);
      KeepComplete(src, lists, init);
      var nx := KeepAll(src, lists, init);
      forall p | p in ids
        ensures KeptWithData(src, KeepAll(src, lists, ids), p)
      {
        if p in init {
          KeepStepGrows(src, nx, last, p);
        } else {
          KeepStepGrows(src, nx, last, last);
        }
      }
    }
  }

  /** The kept channels keep their keys and their order. */
  lemma {:induction false} KeepListKeys(src: Source, lists: Lists, ids: seq<Json>)
    ensures Keys(KeepAll(src, lists, ids).lists) == Keys(lists)
  {
    if ids != [] {
      KeepListKeys(src, lists, ids[..|ids| - 1]);
    }
  }

  /** Both splices of the forEach only remove ids: every list keeps or loses elements. */
  predicate Shrunk(before: Lists, after: Lists)
  {
    |after| == |before| && forall h :: 0 <= h < |before| ==> multiset(after[h].1) <= multiset(before[h].1)
  }

  lemma ShrunkAt(lists: Lists, h: nat, list: seq<Json>)
    requires h < |lists| && multiset(list) <= multiset(lists[h].1)
    ensures Shrunk(lists, lists[h := (lists[h].0, list)])
  {
  }

  lemma SpliceShrinks(lists: Lists, key: string, postId: Json)
    ensures Shrunk(lists, SpliceFrom(lists, key, postId))
  {
    var h := IndexOfKey(lists, key);
    if h != -1 {
      var index := IndexOf(lists[h].1, postId);
      if index != -1 {
        ShrunkAt(lists, h, RemoveAt(lists[h].1, index));
      }
    }
  }

  lemma DropShrinks(lists: Lists, postId: Json)
    ensures Shrunk(lists, DropMissing(lists, postId))
  {
    var h := FirstHolder(lists, postId);
    if h != -1 {
      ShrunkAt(lists, h, RemoveAt(lists[h].1, IndexOf(lists[h].1, postId)));
    }
  }

  /** One pass of the forEach only removes ids from the kept lists. */
  lemma KeepStepShrinks(src: Source, nx: Next, postId: Json)
    ensures Shrunk(nx.lists, KeepStep(src, nx, postId).lists)
  {
    var post := GetAt(src.posts, postId);
    if !Truthy(post) {
      DropShrinks(nx.lists, postId);
    } else if Expired(src, post) {
      SpliceShrinks(nx.lists, Key(Get(post, "channel_id")), postId);
    } else {
      assert KeepStep(src, nx, postId).lists == nx.lists;
    }
  }

  /** Over the whole forEach the kept lists only lose ids: no list gains one. */
  lemma {:induction false} KeepListsShrink(src: Source, lists: Lists, ids: seq<Json>)
    ensures |KeepAll(src, lists, ids).lists| == |lists|
    ensures forall h :: 0 <= h < |lists| ==>
      multiset(KeepAll(src, lists, ids).lists[h].1) <= multiset(lists[h].1)
  {
    if ids != [] {
      var init := ids[..|ids| - 1];
      var nx := KeepAll(src, lists, init);
      KeepListsShrink(src, lists, init);
      KeepStepShrinks(src, nx, ids[|ids| - 1]);
      assert KeepAll(src, lists, ids).lists == KeepStep(src, nx, ids[|ids| - 1]).lists;
    }
  }

  /**
    An expired post leaves one occurrence of its id in its own channel's
    kept list, and nothing else changes.
  */
  lemma ExpiredStep(src: Source, nx: Next, postId: Json)
    requires Truthy(GetAt(src.posts, postId)) && Expired(src, GetAt(src.posts, postId))
    ensures var r := KeepStep(src, nx, postId);
      var h := IndexOfKey(nx.lists, Key(Get(GetAt(src.posts, postId), "channel_id")));
      && r.posts == nx.posts && r.reactions == nx.reactions && r.fileIds == nx.fileIds && r.files == nx.files
      && |r.lists| == |nx.lists|
      && (forall m :: 0 <= m < |r.lists| && m != h ==> r.lists[m] == nx.lists[m])
      && (h != -1 ==>
            r.lists[h].0 == nx.lists[h].0
            && multiset(r.lists[h].1) == multiset(nx.lists[h].1) - multiset{postId}
            && RemovedFirst(nx.lists[h].1, postId, r.lists[h].1))
  {
    var h := IndexOfKey(nx.lists, Key(Get(GetAt(src.posts, postId), "channel_id")));
    if h != -1 && postId in nx.lists[h].1 {
      RemoveFirstFound(nx.lists[h].1, postId);
    }
  }

  /**
    The id of a post the store lacks leaves the first kept list holding it,
    once; the lists before it do not hold it and no other list changes.
  */
  lemma MissingStep(src: Source, nx: Next, postId: Json)
    requires !Truthy(GetAt(src.posts, postId))
    ensures var r := KeepStep(src, nx, postId);
      var h := FirstHolder(nx.lists, postId);
      && r.posts == nx.posts && r.reactions == nx.reactions && r.fileIds == nx.fileIds && r.files == nx.files
      && |r.lists| == |nx.lists|
      && (forall m :: 0 <= m < |r.lists| && m != h ==> r.lists[m] == nx.lists[m])
      && (h != -1 ==>
            r.lists[h].0 == nx.lists[h].0
            && multiset(r.lists[h].1) == multiset(nx.lists[h].1) - multiset{postId}
            && RemovedFirst(nx.lists[h].1, postId, r.lists[h].1)
            && forall m :: 0 <= m < h ==> postId !in nx.lists[m].1)
  {
    var h := FirstHolder(nx.lists, postId);
    if h != -1 {
      RemoveFirstFound(nx.lists[h].1, postId);
    }
  }

  // ---------------------------------------------------------------------------
  // cleanupState, the result

  function ListsJson(lists: Lists): Fields
  {
    seq(|lists|, i requires 0 <= i < |lists| => (lists[i].0, JArr(lists[i].1)))
  }

  /** The posts slice of the trimmed state. */
  function NextPosts(postsState: Json, nx: Next): Json
  {
    JObj([
      ("posts", JObj(nx.posts)),
      ("postsInChannel", JObj(ListsJson(nx.lists))),
      ("reactions", JObj(nx.reactions)),
      ("openGraph", Get(postsState, "openGraph")),
      ("selectedPostId", Get(postsState, "selectedPostId")),
      ("currentFocusedPostId", Get(postsState, "currentFocusedPostId"))])
  }

  /** The files slice of the trimmed state. */
  function NextFiles(nx: Next): Json
  {
    JObj([("files", JObj(nx.files)), ("fileIdsByPostId", JObj(nx.fileIds))])
  }

  /** The trimmed slices, the stored channels, emojis and users, and the reset's other entities. */
  function CleanupEntities(entities: Json, resetEntities: Json, nx: Next): Json
  {
    JObj([
      ("posts", NextPosts(Get(entities, "posts"), nx)),
      ("files", NextFiles(nx)),
      ("channels", Get(entities, "channels")),
      ("emojis", Get(entities, "emojis")),
      ("general", Get(resetEntities, "general")),
      ("preferences", Get(resetEntities, "preferences")),
      ("search", Get(resetEntities, "search")),
      ("teams", Get(resetEntities, "teams")),
      ("users", Get(entities, "users"))])
  }

  /** The reset's views with the stored channel view merged over the reset's. */
  function CleanupViews(payload: Json, resetViews: Json): Json
  {
    var channel := Merge(Spread(Get(resetViews, "channel")), Spread(Get(Get(payload, "views"), "channel")));
    JObj(Put(Spread(resetViews), "channel", JObj(channel)))
  }

  function CleanupPayload(action: Json, env: Env, nx: Next): Json
  {
    var payload := Get(action, "payload");
    var reset := ResetPayload(payload, env);
    JObj(Put([("app", Get(reset, "app")),
              ("entities", CleanupEntities(Get(payload, "entities"), Get(reset, "entities"), nx)),
              ("views", CleanupViews(payload, Get(reset, "views")))],
             "errors", Get(payload, "errors")))
  }

  /** The rehydrate action cleanupState builds from the trimmed slices and the reset state. */
  function CleanupOutput(action: Json, env: Env, nx: Next): Json
  {
    JObj([("type", JStr(Rehydrate)), ("payload", CleanupPayload(action, env, nx)), ("error", Get(action, "error"))])
  }

  /** What cleanupState returns. */
  function Cleaned(action: Json, keepCurrent: bool, env: Env): Json
  {
    var src := SourceOf(action, keepCurrent, env);
    var c := CollectAll(src, ChannelIdsOf(LastChannelForTeam(Get(action, "payload"))));
    CleanupOutput(action, env, KeepAll(src, c.lists, c.toKeep))
  }

  lemma NextPostsPaths(postsState: Json, nx: Next)
    ensures var out := NextPosts(postsState, nx);
      && Get(out, "posts") == JObj(nx.posts)
      && Get(out, "postsInChannel") == JObj(ListsJson(nx.lists))
      && Get(out, "reactions") == JObj(nx.reactions)
  {
    var out := NextPosts(postsState, nx);
    LookupAt(out.fields, "posts", 0);
    LookupAt(out.fields, "postsInChannel", 1);
    LookupAt(out.fields, "reactions", 2);
  }

  lemma NextFilesPaths(nx: Next)
    ensures Get(NextFiles(nx), "files") == JObj(nx.files)
    ensures Get(NextFiles(nx), "fileIdsByPostId") == JObj(nx.fileIds)
  {
    GetOfTwo("files", JObj(nx.files), "fileIdsByPostId", JObj(nx.fileIds));
  }

  /** The users slice of the trimmed state is the stored one. */
  lemma CleanupKeepsUsers(entities: Json, resetEntities: Json, nx: Next)
    ensures Get(CleanupEntities(entities, resetEntities, nx), "users") == Get(entities, "users")
  {
    LookupAt(CleanupEntities(entities, resetEntities, nx).fields, "users", 8);
  }

  lemma CleanupEntitiesPaths(entities: Json, resetEntities: Json, nx: Next)
    ensures var out := CleanupEntities(entities, resetEntities, nx);
      && Get(out, "posts") == NextPosts(Get(entities, "posts"), nx)
      && Get(out, "files") == NextFiles(nx)
      && Get(out, "users") == Get(entities, "users")
  {
    var out := CleanupEntities(entities, resetEntities, nx);
    LookupAt(out.fields, "posts", 0);
    LookupAt(out.fields, "files", 1);
    CleanupKeepsUsers(entities, resetEntities, nx);
  }

  /** The payload object cleanupState builds, with the stored errors written last. */
  lemma PayloadEntities(app: Json, entities: Json, views: Json, errors: Json)
    ensures Lookup(Put([("app", app), ("entities", entities), ("views", views)], "errors", errors), "entities") == entities
  {
    var fields := [("app", app), ("entities", entities), ("views", views)];
    LookupAt(fields, "entities", 1);
  }

  lemma CleanupPayloadEntities(action: Json, env: Env, nx: Next)
    ensures var payload := Get(action, "payload");
      Get(CleanupPayload(action, env, nx), "entities")
        == CleanupEntities(Get(payload, "entities"), Get(ResetPayload(payload, env), "entities"), nx)
  {
    var payload := Get(action, "payload");
    var reset := ResetPayload(payload, env);
    PayloadEntities(Get(reset, "app"), CleanupEntities(Get(payload, "entities"), Get(reset, "entities"), nx),
      CleanupViews(payload, Get(reset, "views")), Get(payload, "errors"));
  }

  /**
    The trimmed posts, channel lists, reactions, file-id lists and files
    land where the next state's reader looks for them; the users slice is
    the stored one.
  */
  lemma CleanupPaths(action: Json, env: Env, nx: Next)
    ensures var out := CleanupOutput(action, env, nx);
      var entities := Get(Get(out, "payload"), "entities");
      && Get(out, "type") == JStr(Rehydrate)
      && Get(Get(entities, "posts"), "posts") == JObj(nx.posts)
      && Get(Get(entities, "posts"), "postsInChannel") == JObj(ListsJson(nx.lists))
      && Get(Get(entities, "posts"), "reactions") == JObj(nx.reactions)
      && Get(Get(entities, "files"), "files") == JObj(nx.files)
      && Get(Get(entities, "files"), "fileIdsByPostId") == JObj(nx.fileIds)
      && Get(entities, "users") == Get(Get(Get(action, "payload"), "entities"), "users")
  {
    GetOfThree("type", JStr(Rehydrate), "payload", CleanupPayload(action, env, nx), "error", Get(action, "error"));
    CleanupPayloadEntities(action, env, nx);
    var payload := Get(action, "payload");
    var entities := Get(payload, "entities");
    CleanupEntitiesPaths(entities, Get(ResetPayload(payload, env), "entities"), nx);
    NextPostsPaths(Get(entities, "posts"), nx);
    NextFilesPaths(nx);
  }

  // ---------------------------------------------------------------------------
  // the imperative steps

  /** The two nested reduces of cleanupState over the last viewed channels of every team. */
  method CollectKept(src: Source, lastChannelForTeam: Fields) returns (c: Collection)
    ensures c == CollectAll(src, ChannelIdsOf(lastChannelForTeam))
  {
    var kept: Lists := [];
    var postIdsToKeep: seq<Json> := [];
    var t := 0;
    while t < |lastChannelForTeam|
      invariant 0 <= t <= |lastChannelForTeam|
      invariant Collection(kept, postIdsToKeep) == CollectAll(src, ChannelIdsOf(lastChannelForTeam[..t]))
    {
      assert lastChannelForTeam[..t + 1][..t] == lastChannelForTeam[..t];
      var channelIds := Items(lastChannelForTeam[t].1);
      var ids;
      kept, ids := CollectTeam(src, kept, postIdsToKeep, ChannelIdsOf(lastChannelForTeam[..t]), channelIds);
      postIdsToKeep := postIdsToKeep + ids;
      t := t + 1;
    }
    assert lastChannelForTeam[..t] == lastChannelForTeam;
    c := Collection(kept, postIdsToKeep);
  }

  lemma CollectStepShape(src: Source, kept: Lists, toKeep: seq<Json>, ids: seq<Json>, id: Json)
    ensures var step := CollectStep(src, Collection(kept, toKeep + ids), id);
      if IndexOfKey(kept, Key(id)) == -1 && Truthy(GetAt(src.postsInChannel, id)) then
        step == Collection(kept + [(Key(id), ListFor(src, id))], toKeep + (ids + ListFor(src, id)))
      else step == Collection(kept, toKeep + ids)
  {
    assert (toKeep + ids) + ListFor(src, id) == toKeep + (ids + ListFor(src, id));
  }

  /** The inner reduce over one team's channel ids, continuing the lists kept so far. */
  method CollectTeam(src: Source, kept0: Lists, toKeep: seq<Json>, ghost before: seq<Json>, channelIds: seq<Json>)
    returns (kept: Lists, ids: seq<Json>)
    requires Collection(kept0, toKeep) == CollectAll(src, before)
    ensures Collection(kept, toKeep + ids) == CollectAll(src, before + channelIds)
  {
    kept := kept0;
    ids := [];
    assert toKeep + ids == toKeep && before + channelIds[..0] == before;
    var i := 0;
    while i < |channelIds|
      invariant 0 <= i <= |channelIds|
      invariant Collection(kept, toKeep + ids) == CollectAll(src, before + channelIds[..i])
    {
      var id := channelIds[i];
      assert before + channelIds[..i + 1] == (before + channelIds[..i]) + [id];
      CollectSnoc(src, before + channelIds[..i], id);
      CollectStepShape(src, kept, toKeep, ids, id);
      if IndexOfKey(kept, Key(id)) == -1 && Truthy(GetAt(src.postsInChannel, id)) {
        var postIds := ListFor(src, id);
        kept := kept + [(Key(id), postIds)];
        ids := ids + postIds;
      }
      i := i + 1;
    }
    assert channelIds[..i] == channelIds;
  }

  /** Copy every file a kept post references. */
  method CopyFileEntries(files: Fields, ids: seq<Json>, source: Json) returns (r: Fields)
    ensures r == CopyFiles(files, ids, source)
  {
    r := files;
    var i := 0;
    while i < |ids|
      invariant 0 <= i <= |ids|
      invariant r == CopyFiles(files, ids[..i], source)
    {
      assert ids[..i + 1][..i] == ids[..i];
      r := Put(r, Key(ids[i]), GetAt(source, ids[i]));
      i := i + 1;
    }
    assert ids[..i] == ids;
  }

  /** The search over the kept channel lists for the id of a post the store lacks. */
  method DropMissingPost(lists: Lists, postId: Json) returns (r: Lists)
    ensures r == DropMissing(lists, postId)
  {
    r := lists;
    var i := 0;
    while i < |lists|
      invariant 0 <= i <= |lists|
      invariant r == lists
      invariant forall m :: 0 <= m < i ==> postId !in lists[m].1
    {
      var index := IndexOf(lists[i].1, postId);
      if index != -1 {
        assert FirstHolder(lists, postId) == i;
        r := lists[i := (lists[i].0, RemoveAt(lists[i].1, index))];
        return;
      }
      i := i + 1;
    }
  }

  /** One pass of the forEach over the post ids to keep. */
  method KeepPost(src: Source, nx: Next, postId: Json) returns (r: Next)
    ensures r == KeepStep(src, nx, postId)
  {
    var post := GetAt(src.posts, postId);
    if !Truthy(post) {
      var lists := DropMissingPost(nx.lists, postId);
      return nx.(lists := lists);
    }
    if Expired(src, post) {
      return nx.(lists := SpliceFrom(nx.lists, Key(Get(post, "channel_id")), postId));
    }
    var k := Key(postId);
    var posts := Put(nx.posts, k, post);
    var reactions := nx.reactions;
    var reaction := GetAt(src.reactions, postId);
    if Truthy(reaction) {
      reactions := Put(reactions, k, reaction);
    }
    var fileIdsByPostId := nx.fileIds;
    var files := nx.files;
    var fileIds := GetAt(src.fileIdsByPostId, postId);
    if Truthy(fileIds) {
      fileIdsByPostId := Put(fileIdsByPostId, k, fileIds);
      files := CopyFileEntries(files, Items(fileIds), src.files);
    }
    r := Next(nx.lists, posts, reactions, fileIdsByPostId, files);
  }

  method KeepPosts(src: Source, lists: Lists, postIdsToKeep: seq<Json>) returns (nx: Next)
    ensures nx == KeepAll(src, lists, postIdsToKeep)
  {
    nx := Next(lists, [], [], [], []);
    var i := 0;
    while i < |postIdsToKeep|
      invariant 0 <= i <= |postIdsToKeep|
      invariant nx == KeepAll(src, lists, postIdsToKeep[..i])
    {
      assert postIdsToKeep[..i + 1][..i] == postIdsToKeep[..i];
      nx := KeepPost(src, nx, postIdsToKeep[i]);
      i := i + 1;
    }
    assert postIdsToKeep[..i] == postIdsToKeep;
  }

  /** cleanupState: the trimmed rehydrate action. */
  method CleanupState(action: Json, keepCurrent: bool, env: Env) returns (next: Json)
    ensures next == Cleaned(action, keepCurrent, env)
  {
    var src := SourceOf(action, keepCurrent, env);
    var lastChannelForTeam := LastChannelForTeam(Get(action, "payload"));
    var c := CollectKept(src, lastChannelForTeam);
    var nx := KeepPosts(src, c.lists, c.toKeep);
    next := CleanupOutput(action, env, nx);
  }

  /** messageRetention: the action handed on to the next middleware. */
  method MessageRetention(action: Json, env: Env) returns (next: Json)
    ensures var kind := Get(action, "type");
      var payload := Get(action, "payload");
      && (kind != JStr(Rehydrate) && kind != JStr(env.dataCleanup) ==> next == action)
      && (kind == JStr(Rehydrate) && !(Truthy(Get(payload, "entities")) && Truthy(Get(payload, "views"))) ==>
            next == action)
      && ((kind == JStr(Rehydrate) && Truthy(Get(payload, "entities")) && Truthy(Get(payload, "views"))
            && IsNewVersion(Get(payload, "app"), env)) ==> next == ResetStateForNewVersion(action, env))
      && ((kind == JStr(Rehydrate) && Truthy(Get(payload, "entities")) && Truthy(Get(payload, "views"))
            && !IsNewVersion(Get(payload, "app"), env)) ==> next == Cleaned(action, false, env))
      && (kind != JStr(Rehydrate) && kind == JStr(env.dataCleanup) ==> next == Cleaned(action, true, env))
  {
    var kind := Get(action, "type");
    if kind == JStr(Rehydrate) {
      var payload := Get(action, "payload");
      if !Truthy(Get(payload, "entities")) || !Truthy(Get(payload, "views")) {
        return action;
      }
      if IsNewVersion(Get(payload, "app"), env) {
        return ResetStateForNewVersion(action, env);
      }
      next := CleanupState(action, false, env);
    } else if kind == JStr(env.dataCleanup) {
      next := CleanupState(action, true, env);
    } else {
      next := action;
    }
  }
}
