/**
  What each handler of the data operator prepares and commits, as pure
  functions of the two connections: reactions, files, post metadata, the
  thread index, the per-channel chunk index, and handlePosts, which
  composes them.
*/
module Handlers {
  import opened Wrappers
  import opened Store
  import opened RawTypes
  import opened Reconcile
  import opened Engine

  /** Commits an already prepared batch on the connection of `t` when there is anything in it. */
  function CommitPrepared(d: Dbs, t: Table, prepared: Result<seq<Mutation>, Error>): Effect
  {
    match prepared
    case Failure(e) => Effect(d, Fail(e))
    case Success(models) =>
      if |models| == 0 then Effect(d, Pass)
      else
        match GetDatabase(d, t)
        case Failure(e) => Effect(d, Fail(e))
        case Success(db) => Batch(d, t, db, models)
  }

  /** A prepared-create batch lands every row at the end of its table. */
  lemma {:induction false} CreatedInCreates(t: Table, rows: seq<Row>)
    ensures AllCreates(PrepareBase(t, rows, []))
    ensures CreatedIn(PrepareBase(t, rows, []), t) == rows
  {
    if rows != [] {
      CreatedInCreates(t, rows[1..]);
      assert PrepareBase(t, rows, [])[1..] == PrepareBase(t, rows[1..], []);
    }
  }

  /**
    handleBase with creates only: it throws only without a connection, and
    otherwise the table keeps its records and gains exactly the new rows, in order.
  */
  lemma BaseCreatesLand(d: Dbs, t: Table, rows: seq<Row>)
    requires rows != []
    ensures BaseEffect(d, t, rows, []).outcome.Fail? <==> GetDatabase(d, t).Failure?
    ensures GetDatabase(d, t).Success? ==>
      var db := GetDatabase(d, t).value;
      var db' := ApplyAll(db, PrepareBase(t, rows, [])).value;
      && BaseEffect(d, t, rows, []).dbs == Write(d, t, db')
      && RowsOf(Rows(db', t)) == RowsOf(Rows(db, t)) + rows
  {
    BaseOutcome(d, t, rows, []);
    if GetDatabase(d, t).Success? {
      CreatedInCreates(t, rows);
      CreatesLand(GetDatabase(d, t).value, PrepareBase(t, rows, []), t);
    }
  }

  // ---------------------------------------------------------------------------
  // handleReactions

  /** The stored reactions of a post. */
  function LocalReactions(db: Store, postId: string): seq<Record>
  {
    Where(Rows(db, Reaction), "post_id", Str(postId))
  }

  function ReactionRows(rs: seq<RawReaction>): seq<Row>
  {
    seq(|rs|, i requires 0 <= i < |rs| => ReactionRow(rs[i]))
  }

  function EmojiRows(names: seq<string>): seq<Row>
  {
    seq(|names|, i requires 0 <= i < |names| => EmojiRow(names[i]))
  }

  function Destroys(t: Table, rs: seq<Record>): seq<Mutation>
  {
    seq(|rs|, i requires 0 <= i < |rs| => Destroy(t, rs[i]))
  }

  /** The reaction creates, then the reaction destroys, then the custom-emoji creates. */
  function ReactionBatch(diff: ReactionDiff): seq<Mutation>
  {
    PrepareBase(Reaction, ReactionRows(diff.createReactions), [])
    + Destroys(Reaction, diff.deleteReactions)
    + PrepareBase(CustomEmoji, EmojiRows(diff.createEmojis), [])
  }

  /**
    handleReactions with prepareRowsOnly: nothing for no reactions; otherwise
    the diff against the stored reactions of the first reaction's post.
  */
  function ReactionsPrepared(d: Dbs, raws: seq<RawReaction>): Result<seq<Mutation>, Error>
  {
    if raws == [] then Success([])
    else
      match GetDatabase(d, Reaction)
      case Failure(e) => Failure(e)
      case Success(db) => Success(ReactionBatch(DiffReactions(LocalReactions(db, raws[0].post_id), raws)))
  }

  lemma {:induction false} OutcastsUnique(local: seq<Record>, similar: seq<Record>)
    requires UniqueIds(local)
    ensures UniqueIds(Outcasts(local, similar))
  {
    if local != [] {
      OutcastsUnique(local[1..], similar);
      OutcastMembers(local[1..], similar);
      assert forall x :: x in local[1..] ==> x.id != local[0].id;
    }
  }

  /**
    On a store whose identities are unique, the reaction batch is never
    rejected: its destroys name distinct stored reactions and creates remove nothing.
  */
  lemma ReactionBatchAccepted(db: Store, postId: string, raws: seq<RawReaction>)
    requires Valid(db)
    ensures ApplyAll(db, ReactionBatch(DiffReactions(LocalReactions(db, postId), raws))).Some?
  {
    var batch := ReactionBatch(DiffReactions(LocalReactions(db, postId), raws));
    ReactionBatchNoUpdates(DiffReactions(LocalReactions(db, postId), raws));
    ReactionDestroysPresent(db, postId, raws);
    ReactionDestroysDistinct(db, postId, raws);
    assert CreatesAndDestroys(db, batch);
    CreatesAndDestroysApply(db, batch);
  }

  /** The reaction batch holds creates and destroys only. */
  lemma ReactionBatchNoUpdates(diff: ReactionDiff)
    ensures forall i :: 0 <= i < |ReactionBatch(diff)| ==> !ReactionBatch(diff)[i].Update?
  {
    var a := PrepareBase(Reaction, ReactionRows(diff.createReactions), []);
    var b := Destroys(Reaction, diff.deleteReactions);
    var c := PrepareBase(CustomEmoji, EmojiRows(diff.createEmojis), []);
    assert ReactionBatch(diff) == a + b + c;
    forall i | 0 <= i < |a + b + c|
      ensures !(a + b + c)[i].Update?
    {
      if i < |a| {
        assert (a + b + c)[i] == a[i];
      } else if i < |a| + |b| {
        assert (a + b + c)[i] == b[i - |a|];
      } else {
        assert (a + b + c)[i] == c[i - |a| - |b|];
      }
    }
  }

  /** Every reaction the batch destroys is stored in the reaction table. */
  lemma ReactionDestroysPresent(db: Store, postId: string, raws: seq<RawReaction>)
    ensures var batch := ReactionBatch(DiffReactions(LocalReactions(db, postId), raws));
      forall i :: 0 <= i < |batch| && batch[i].Destroy? ==> batch[i].target in Rows(db, batch[i].table)
  {
    var local := LocalReactions(db, postId);
    var diff := DiffReactions(local, raws);
    OutcastMembers(local, Similar(local, raws));
    var batch := ReactionBatch(diff);
    ReactionBatchDestroys(diff);
    var n := |diff.createReactions|;
    forall i | 0 <= i < |batch| && batch[i].Destroy?
      ensures batch[i].target in Rows(db, batch[i].table)
    {
      assert diff.deleteReactions[i - n] in local;
    }
  }

  /** No reaction is destroyed twice by the batch. */
  lemma ReactionDestroysDistinct(db: Store, postId: string, raws: seq<RawReaction>)
    requires Valid(db)
    ensures var batch := ReactionBatch(DiffReactions(LocalReactions(db, postId), raws));
      forall i, j :: 0 <= i < j < |batch| && batch[i].Destroy? && batch[j].Destroy? ==>
        batch[i].target.id != batch[j].target.id
  {
    var local := LocalReactions(db, postId);
    var diff := DiffReactions(local, raws);
    assert ValidTable(Rows(db, Reaction), db.nextId);
    WhereUnique(Rows(db, Reaction), "post_id", Str(postId));
    OutcastsUnique(local, Similar(local, raws));
    ReactionBatchDestroys(diff);
  }

  /** The destroys of the reaction batch are the outcasts, in order, after the reaction creates. */
  lemma ReactionBatchDestroys(diff: ReactionDiff)
    ensures forall i :: 0 <= i < |ReactionBatch(diff)| && ReactionBatch(diff)[i].Destroy? ==>
      && |diff.createReactions| <= i < |diff.createReactions| + |diff.deleteReactions|
      && ReactionBatch(diff)[i] == Destroy(Reaction, diff.deleteReactions[i - |diff.createReactions|])
  {
    var a := PrepareBase(Reaction, ReactionRows(diff.createReactions), []);
    var b := Destroys(Reaction, diff.deleteReactions);
    var c := PrepareBase(CustomEmoji, EmojiRows(diff.createEmojis), []);
    assert ReactionBatch(diff) == a + b + c;
    forall i | 0 <= i < |a + b + c|
      ensures (a + b + c)[i].Destroy? ==> |a| <= i < |a| + |b| && (a + b + c)[i] == b[i - |a|]
    {
      if i < |a| {
        assert (a + b + c)[i] == a[i];
      } else if i < |a| + |b| {
        assert (a + b + c)[i] == b[i - |a|];
      } else {
        assert (a + b + c)[i] == c[i - |a| - |b|];
      }
    }
  }

  /**
    handleReactions (committing): throws only when the server connection is
    missing, given a store whose identities are unique.
  */
  lemma ReactionsOutcome(d: Dbs, raws: seq<RawReaction>)
    requires d.serverDb.Some? ==> Valid(d.serverDb.value)
    ensures CommitPrepared(d, Reaction, ReactionsPrepared(d, raws)).outcome.Fail? <==>
      raws != [] && d.serverDb.None?
  {
    if raws != [] && d.serverDb.Some? {
      ReactionBatchAccepted(d.serverDb.value, raws[0].post_id, raws);
    }
  }

  // ---------------------------------------------------------------------------
  // handleFiles

  /** handleFiles with prepareRowsOnly: one create per file. */
  function FilesPrepared(d: Dbs, files: seq<Row>): Result<seq<Mutation>, Error>
  {
    if files == [] then Success([])
    else
      match GetDatabase(d, File)
      case Failure(e) => Failure(e)
      case Success(_) => Success(PrepareBase(File, files, []))
  }

  /** handleFiles (committing) appends every file to the file table, in order. */
  lemma FilesLand(d: Dbs, files: seq<Row>)
    requires files != [] && d.serverDb.Some?
    ensures CommitPrepared(d, File, FilesPrepared(d, files)).outcome == Pass
    ensures RowsOf(Rows(CommitPrepared(d, File, FilesPrepared(d, files)).dbs.serverDb.value, File))
         == RowsOf(Rows(d.serverDb.value, File)) + files
  {
    BaseCreatesLand(d, File, files);
  }

  // ---------------------------------------------------------------------------
  // handlePostMetadata

  /** The images of one post: its image dictionary as (url, image) entries in key order. */
  datatype ImageEntry = ImageEntry(images: seq<(string, Row)>, postId: string)

  /** The embeds of one post. */
  datatype EmbedEntry = EmbedEntry(embed: seq<RawEmbed>, postId: string)

  function MetadataRow(data: Row, kind: string, postId: string): Row
  {
    map["data" := Obj(data), "type" := Str(kind), "postId" := Str(postId)]
  }

  /** The first image of the dictionary with its key as url; an empty dictionary gives no data. */
  function ImageData(images: seq<(string, Row)>): Row
  {
    if images == [] then map[] else images[0].1["url" := Str(images[0].0)]
  }

  function ImageRows(images: seq<ImageEntry>): seq<Row>
  {
    seq(|images|, i requires 0 <= i < |images| => MetadataRow(ImageData(images[i].images), "images", images[i].postId))
  }

  function EmbedRowsOf(e: EmbedEntry): seq<Row>
  {
    seq(|e.embed|, j requires 0 <= j < |e.embed| => MetadataRow(e.embed[j].data, e.embed[j].kind, e.postId))
  }

  function EmbedRows(embeds: seq<EmbedEntry>): seq<Row>
  {
    if embeds == [] then [] else EmbedRows(embeds[..|embeds| - 1]) + EmbedRowsOf(embeds[|embeds| - 1])
  }

  function EmbedCount(embeds: seq<EmbedEntry>): nat
  {
    if embeds == [] then 0 else EmbedCount(embeds[..|embeds| - 1]) + |embeds[|embeds| - 1].embed|
  }

  /** One metadata row per post with images, then one per embed, in order. */
  function MetadataRows(images: seq<ImageEntry>, embeds: seq<EmbedEntry>): seq<Row>
  {
    ImageRows(images) + EmbedRows(embeds)
  }

  /**
    There is one metadata row per image entry and one per embed; an image
    row has type "images" and keeps the first image under its url; every
    embed row carries an embed's data and type and its post's id.
  */
  lemma {:induction false} MetadataRowsShape(images: seq<ImageEntry>, embeds: seq<EmbedEntry>)
    ensures |MetadataRows(images, embeds)| == |images| + EmbedCount(embeds)
    ensures forall i :: 0 <= i < |images| && images[i].images != [] ==>
      var row := MetadataRows(images, embeds)[i];
      && row["type"] == Str("images")
      && row["postId"] == Str(images[i].postId)
      && row["data"] == Obj(images[i].images[0].1["url" := Str(images[i].images[0].0)])
    ensures forall row :: row in EmbedRows(embeds) ==>
      exists e, j :: e in embeds && 0 <= j < |e.embed| && row == MetadataRow(e.embed[j].data, e.embed[j].kind, e.postId)
  {
    EmbedRowsShape(embeds);
  }

  /**
    The embed rows follow the image rows in forEach order: the j-th embed of
    the k-th entry is the row after the image rows and after the rows of the
    entries before it.
  */
  lemma MetadataRowAt(images: seq<ImageEntry>, embeds: seq<EmbedEntry>, k: nat, j: nat)
    requires k < |embeds| && j < |embeds[k].embed|
    ensures |images| + EmbedCount(embeds[..k]) + j < |MetadataRows(images, embeds)|
    ensures MetadataRows(images, embeds)[|images| + EmbedCount(embeds[..k]) + j]
         == MetadataRow(embeds[k].embed[j].data, embeds[k].embed[j].kind, embeds[k].postId)
  {
    EmbedRowAt(embeds, k, j);
    assert |ImageRows(images)| == |images|;
  }

  lemma {:induction false} EmbedRowsLength(embeds: seq<EmbedEntry>)
    ensures |EmbedRows(embeds)| == EmbedCount(embeds)
  {
    if embeds != [] {
      EmbedRowsLength(embeds[..|embeds| - 1]);
    }
  }

  /**
    The j-th embed of the k-th entry has its row right after the rows of the
    entries before it: one row per embed, in forEach order.
  */
  lemma {:induction false} EmbedRowAt(embeds: seq<EmbedEntry>, k: nat, j: nat)
    requires k < |embeds| && j < |embeds[k].embed|
    ensures EmbedCount(embeds[..k]) + j < |EmbedRows(embeds)|
    ensures EmbedRows(embeds)[EmbedCount(embeds[..k]) + j]
         == MetadataRow(embeds[k].embed[j].data, embeds[k].embed[j].kind, embeds[k].postId)
  {
    var init := embeds[..|embeds| - 1];
    var last := embeds[|embeds| - 1];
    EmbedRowsLength(init);
    assert EmbedRows(embeds) == EmbedRows(init) + EmbedRowsOf(last);
    if k < |init| {
      assert embeds[..k] == init[..k];
      assert embeds[k] == init[k];
      EmbedRowAt(init, k, j);
    } else {
      assert embeds[..k] == init;
    }
  }

  lemma {:induction false} EmbedRowsShape(embeds: seq<EmbedEntry>)
    ensures |EmbedRows(embeds)| == EmbedCount(embeds)
    ensures forall row :: row in EmbedRows(embeds) ==>
      exists e, j :: e in embeds && 0 <= j < |e.embed| && row == MetadataRow(e.embed[j].data, e.embed[j].kind, e.postId)
  {
    if embeds != [] {
      var init := embeds[..|embeds| - 1];
      var last := embeds[|embeds| - 1];
      EmbedRowsShape(init);
      assert last in embeds;
      forall row | row in EmbedRows(embeds)
        ensures exists e, j :: e in embeds && 0 <= j < |e.embed| && row == MetadataRow(e.embed[j].data, e.embed[j].kind, e.postId)
      {
        if row in EmbedRows(init) {
          var e, j :| e in init && 0 <= j < |e.embed| && row == MetadataRow(e.embed[j].data, e.embed[j].kind, e.postId);
          assert e in embeds;
        } else {
          var j :| 0 <= j < |EmbedRowsOf(last)| && EmbedRowsOf(last)[j] == row;
        }
      }
    }
  }

  /** handlePostMetadata with prepareRowsOnly: nothing without rows, else one create per row. */
  function MetadataPrepared(d: Dbs, images: seq<ImageEntry>, embeds: seq<EmbedEntry>): Result<seq<Mutation>, Error>
  {
    var rows := MetadataRows(images, embeds);
    if rows == [] then Success([])
    else
      match GetDatabase(d, PostMetadata)
      case Failure(e) => Failure(e)
      case Success(_) => Success(PrepareBase(PostMetadata, rows, []))
  }

  // ---------------------------------------------------------------------------
  // handlePostsInThread

  /** A root post of a thread and its create_at. */
  datatype ThreadRoot = ThreadRoot(post_id: string, earliest: int)

  function RootIds(roots: seq<ThreadRoot>): seq<Field>
  {
    seq(|roots|, i requires 0 <= i < |roots| => Str(roots[i].post_id))
  }

  /** The running maximum of create_at over the fetched thread posts, starting from 0. */
  function LatestOf(threads: seq<Record>): int
  {
    if threads == [] then 0
    else
      var m := LatestOf(threads[..|threads| - 1]);
      var c := NumOf(threads[|threads| - 1].row, "create_at");
      if c > m then c else m
  }

  /** The latest value is 0 or some thread post's create_at, and no thread post is later. */
  lemma {:induction false} LatestBounds(threads: seq<Record>)
    ensures LatestOf(threads) >= 0
    ensures forall i :: 0 <= i < |threads| ==> NumOf(threads[i].row, "create_at") <= LatestOf(threads)
    ensures LatestOf(threads) == 0 || exists i :: 0 <= i < |threads| && NumOf(threads[i].row, "create_at") == LatestOf(threads)
  {
    if threads != [] {
      var init := threads[..|threads| - 1];
      LatestBounds(init);
      if LatestOf(init) != 0 && LatestOf(threads) == LatestOf(init) {
        var i :| 0 <= i < |init| && NumOf(init[i].row, "create_at") == LatestOf(init);
        assert threads[i] == init[i];
      }
      forall i | 0 <= i < |threads| ensures NumOf(threads[i].row, "create_at") <= LatestOf(threads) {
        if i < |init| {
          assert threads[i] == init[i];
        }
      }
    }
  }

  function ThreadRow(root: ThreadRoot, latest: int): Row
  {
    map["post_id" := Str(root.post_id), "earliest" := Num(root.earliest), "latest" := Num(latest)]
  }

  function ThreadRows(roots: seq<ThreadRoot>, latest: int): seq<Row>
  {
    seq(|roots|, i requires 0 <= i < |roots| => ThreadRow(roots[i], latest))
  }

  /** The stored posts answering any of the roots. */
  function ThreadPosts(db: Store, roots: seq<ThreadRoot>): seq<Record>
  {
    WhereOneOf(Rows(db, Post), "root_id", RootIds(roots))
  }

  function ThreadsEffect(d: Dbs, roots: seq<ThreadRoot>): Effect
  {
    if roots == [] then Effect(d, Pass)
    else
      match GetDatabase(d, PostsInThread)
      case Failure(e) => Effect(d, Fail(e))
      case Success(db) =>
        var models := PrepareBase(PostsInThread, ThreadRows(roots, LatestOf(ThreadPosts(db, roots))), []);
        if |models| == 0 then Effect(d, Pass) else Batch(d, PostsInThread, db, models)
  }

  /**
    handlePostsInThread appends one row per root, each with that root's
    earliest and the same latest: the latest create_at over the posts of all
    the roots together, not of the root's own thread.
  */
  lemma ThreadsLand(d: Dbs, roots: seq<ThreadRoot>)
    requires roots != []
    ensures ThreadsEffect(d, roots).outcome.Fail? <==> d.serverDb.None?
    ensures d.serverDb.Some? ==>
      var db := d.serverDb.value;
      var latest := LatestOf(ThreadPosts(db, roots));
      RowsOf(Rows(ThreadsEffect(d, roots).dbs.serverDb.value, PostsInThread))
        == RowsOf(Rows(db, PostsInThread)) + ThreadRows(roots, latest)
    ensures d.serverDb.Some? ==> forall p :: p in ThreadPosts(d.serverDb.value, roots) ==>
      NumOf(p.row, "create_at") <= LatestOf(ThreadPosts(d.serverDb.value, roots))
  {
    if d.serverDb.Some? {
      var db := d.serverDb.value;
      var rows := ThreadRows(roots, LatestOf(ThreadPosts(db, roots)));
      BaseCreatesLand(d, PostsInThread, rows);
      LatestBounds(ThreadPosts(db, roots));
    }
  }

  // ---------------------------------------------------------------------------
  // handlePostsInChannel

  function CreateAts(posts: seq<RawPost>): seq<int>
  {
    seq(|posts|, i requires 0 <= i < |posts| => posts[i].create_at)
  }

  /** The position a stable ascending sort moves to the front: the first minimum. */
  function FirstMinIndex(xs: seq<int>): (k: nat)
    requires |xs| > 0
    ensures k < |xs|
    ensures forall j :: 0 <= j < |xs| ==> xs[k] <= xs[j]
    ensures forall j :: 0 <= j < k ==> xs[j] > xs[k]
  {
    if |xs| == 1 then 0
    else
      var k := FirstMinIndex(xs[..|xs| - 1]);
      if xs[|xs| - 1] < xs[k] then |xs| - 1 else k
  }

  /** The value a stable ascending sort moves to the back: the maximum. */
  function MaxOf(xs: seq<int>): (m: int)
    requires |xs| > 0
    ensures m in xs
    ensures forall j :: 0 <= j < |xs| ==> xs[j] <= m
  {
    if |xs| == 1 then xs[0]
    else
      var m := MaxOf(xs[..|xs| - 1]);
      if xs[|xs| - 1] > m then xs[|xs| - 1] else m
  }

  /** The tip of the chain: the first post with the smallest create_at. */
  function Tip(posts: seq<RawPost>): RawPost
    requires posts != []
  {
    posts[FirstMinIndex(CreateAts(posts))]
  }

  function Latest(posts: seq<RawPost>): int
    requires posts != []
  {
    MaxOf(CreateAts(posts))
  }

  /** earliest is the smallest create_at of the chain, latest the largest, and both occur in it. */
  lemma ChainBounds(posts: seq<RawPost>)
    requires posts != []
    ensures Tip(posts) in posts
    ensures forall p :: p in posts ==> Tip(posts).create_at <= p.create_at <= Latest(posts)
    ensures exists p :: p in posts && p.create_at == Latest(posts)
  {
    var xs := CreateAts(posts);
    forall p | p in posts ensures Tip(posts).create_at <= p.create_at <= Latest(posts) {
      var j :| 0 <= j < |posts| && posts[j] == p;
      assert xs[j] == p.create_at;
    }
    var j :| 0 <= j < |xs| && xs[j] == Latest(posts);
    assert posts[j] in posts;
  }

  function ChunkRow(channelId: string, earliest: int, latest: int): Row
  {
    map["channel_id" := Str(channelId), "earliest" := Num(earliest), "latest" := Num(latest)]
  }

  function Earliests(chunks: seq<Record>): seq<int>
  {
    seq(|chunks|, i requires 0 <= i < |chunks| => NumOf(chunks[i].row, "earliest"))
  }

  /**
    The chunk the scan over chunks sorted by earliest stops at: the smallest
    earliest above `e`, the first in query order among equals; -1 when none.
  */
  function FirstLeastAbove(xs: seq<int>, e: int): (k: int)
    ensures -1 <= k < |xs|
    ensures k == -1 <==> forall j :: 0 <= j < |xs| ==> xs[j] <= e
    ensures k >= 0 ==> xs[k] > e
    ensures k >= 0 ==> forall j :: 0 <= j < |xs| && xs[j] > e ==> xs[k] <= xs[j]
    ensures k >= 0 ==> forall j :: 0 <= j < k && xs[j] > e ==> xs[j] > xs[k]
  {
    if xs == [] then -1
    else
      var k := FirstLeastAbove(xs[..|xs| - 1], e);
      var last := xs[|xs| - 1];
      if last > e && (k == -1 || last < xs[k]) then |xs| - 1 else k
  }

  /** The chain tip's previous-post link as a stored column value. */
  function PrevLink(p: RawPost): Option<Field>
  {
    if p.prev_post_id.Some? then Some(Str(p.prev_post_id.value)) else None
  }

  datatype ChannelPlan = NoChange | NewChunk(row: Row) | Lower(chunk: Record, earliest: int)

  /**
    The decision of handlePostsInChannel, from the chain, the chunks of its
    channel and the stored posts whose create_at is the chain's earliest.
  */
  function PlanChannel(posts: seq<RawPost>, chunks: seq<Record>, potential: seq<Record>): ChannelPlan
    requires posts != []
  {
    var tip := Tip(posts);
    var earliest := tip.create_at;
    var created := NewChunk(ChunkRow(tip.channel_id, earliest, Latest(posts)));
    if chunks == [] then created
    else
      var k := FirstLeastAbove(Earliests(chunks), earliest);
      if k == -1 then created
      else if potential == [] then NoChange
      else if PrevLink(tip) == Get(potential[0].row, "prev_post_id") then Lower(chunks[k], earliest)
      else created
  }

  /**
    A new chunk {channel_id, earliest, latest} is planned when the channel has
    no chunk, when no chunk starts after the chain, or when the tip's link
    differs from that of the first stored post created at the chain's
    earliest. With a later chunk and an equal link, the chunk with the
    smallest earliest above the chain is lowered to the chain's earliest;
    with a later chunk but no stored post at that instant, nothing changes.
  */
  lemma PlanCases(posts: seq<RawPost>, chunks: seq<Record>, potential: seq<Record>)
    requires posts != []
    ensures var tip := Tip(posts);
      var created := NewChunk(ChunkRow(tip.channel_id, tip.create_at, Latest(posts)));
      var later := exists i :: 0 <= i < |chunks| && NumOf(chunks[i].row, "earliest") > tip.create_at;
      && (!later ==> PlanChannel(posts, chunks, potential) == created)
      && (later && potential == [] ==> PlanChannel(posts, chunks, potential) == NoChange)
      && (later && potential != [] && PrevLink(tip) != Get(potential[0].row, "prev_post_id") ==>
            PlanChannel(posts, chunks, potential) == created)
      && (later && potential != [] && PrevLink(tip) == Get(potential[0].row, "prev_post_id") ==>
            PlanChannel(posts, chunks, potential).Lower?
            && PlanChannel(posts, chunks, potential).chunk in chunks
            && PlanChannel(posts, chunks, potential).earliest == tip.create_at
            && tip.create_at < NumOf(PlanChannel(posts, chunks, potential).chunk.row, "earliest")
            && forall i :: 0 <= i < |chunks| && NumOf(chunks[i].row, "earliest") > tip.create_at ==>
                 NumOf(PlanChannel(posts, chunks, potential).chunk.row, "earliest") <= NumOf(chunks[i].row, "earliest"))
  {
    var tip := Tip(posts);
    var xs := Earliests(chunks);
    if exists i :: 0 <= i < |chunks| && NumOf(chunks[i].row, "earliest") > tip.create_at {
      var i :| 0 <= i < |chunks| && NumOf(chunks[i].row, "earliest") > tip.create_at;
      assert xs[i] > tip.create_at;
      assert forall j :: 0 <= j < |chunks| ==> xs[j] == NumOf(chunks[j].row, "earliest");
    } else {
      assert forall j :: 0 <= j < |xs| ==> xs[j] <= tip.create_at;
    }
  }

  /** The chunk's row with only its earliest rewritten. */
  function LoweredRow(chunk: Record, earliest: int): Row
  {
    chunk.row["earliest" := Num(earliest)]
  }

  /** `targetChunk.update`: the chunk record gets the lowered row in place. */
  function LowerChunk(db: Store, chunk: Record, earliest: int): Store
  {
    db.(tables := db.tables[PostsInChannel := ReplaceRow(Rows(db, PostsInChannel), chunk.id, LoweredRow(chunk, earliest))])
  }

  /**
    Lowering a chunk changes only that record's earliest: its channel and
    latest stay, every other chunk and every other table is unchanged, and
    the store's identities stay valid.
  */
  lemma LowerOnlyEarliest(db: Store, chunk: Record, earliest: int, t: Table)
    ensures t != PostsInChannel ==> Rows(LowerChunk(db, chunk, earliest), t) == Rows(db, t)
    ensures var rs := Rows(db, PostsInChannel);
      var rs' := Rows(LowerChunk(db, chunk, earliest), PostsInChannel);
      && |rs'| == |rs|
      && forall i :: 0 <= i < |rs| ==>
           rs'[i] == if rs[i].id == chunk.id then Record(chunk.id, LoweredRow(chunk, earliest)) else rs[i]
    ensures Get(LoweredRow(chunk, earliest), "earliest") == Some(Num(earliest))
    ensures forall c :: c != "earliest" ==> Get(LoweredRow(chunk, earliest), c) == Get(chunk.row, c)
    ensures Valid(db) ==> Valid(LowerChunk(db, chunk, earliest))
  {
    if Valid(db) {
      var db' := LowerChunk(db, chunk, earliest);
      ReplaceRowKeepsIds(Rows(db, PostsInChannel), chunk.id, LoweredRow(chunk, earliest));
      forall t' ensures ValidTable(Rows(db', t'), db'.nextId) {
        assert ValidTable(Rows(db, t'), db.nextId);
      }
    }
  }

  /** The chunks of a channel. */
  function ChunksOf(db: Store, channelId: string): seq<Record>
  {
    Where(Rows(db, PostsInChannel), "channel_id", Str(channelId))
  }

  /** The stored posts created at a given instant. */
  function PostsAt(db: Store, createAt: int): seq<Record>
  {
    Where(Rows(db, Post), "create_at", Num(createAt))
  }

  function ChannelEffect(d: Dbs, posts: seq<RawPost>): Effect
  {
    if posts == [] then Effect(d, Pass)
    else
      match GetDatabase(d, PostsInChannel)
      case Failure(e) => Effect(d, Fail(e))
      case Success(db) =>
        var tip := Tip(posts);
        match PlanChannel(posts, ChunksOf(db, tip.channel_id), PostsAt(db, tip.create_at))
        case NoChange => Effect(d, Pass)
        case NewChunk(row) => BaseEffect(d, PostsInChannel, [row], [])
        case Lower(chunk, earliest) => Effect(Write(d, PostsInChannel, LowerChunk(db, chunk, earliest)), Pass)
  }

  /**
    handlePostsInChannel does nothing for an empty chain and throws only when
    the server connection is missing; a new chunk is appended to the chunk
    table, and a lowered chunk is rewritten in place.
  */
  lemma ChannelOutcome(d: Dbs, posts: seq<RawPost>)
    ensures posts == [] ==> ChannelEffect(d, posts) == Effect(d, Pass)
    ensures ChannelEffect(d, posts).outcome.Fail? <==> posts != [] && d.serverDb.None?
    ensures posts != [] && d.serverDb.Some? ==>
      var db := d.serverDb.value;
      var tip := Tip(posts);
      match PlanChannel(posts, ChunksOf(db, tip.channel_id), PostsAt(db, tip.create_at))
      case NoChange => ChannelEffect(d, posts).dbs == d
      case NewChunk(row) =>
        RowsOf(Rows(ChannelEffect(d, posts).dbs.serverDb.value, PostsInChannel)) == RowsOf(Rows(db, PostsInChannel)) + [row]
      case Lower(chunk, earliest) => ChannelEffect(d, posts).dbs.serverDb == Some(LowerChunk(db, chunk, earliest))
  {
    if posts != [] && d.serverDb.Some? {
      var db := d.serverDb.value;
      var tip := Tip(posts);
      match PlanChannel(posts, ChunksOf(db, tip.channel_id), PostsAt(db, tip.create_at))
      case NoChange =>
      case NewChunk(row) => BaseCreatesLand(d, PostsInChannel, [row]);
      case Lower(chunk, earliest) =>
    }
  }

  // ---------------------------------------------------------------------------
  // handlePosts

  /** What the loop over the ordered posts gathers for the related entities. */
  datatype Collected = Collected(
    threads: seq<ThreadRoot>,
    reactions: seq<RawReaction>,
    emojis: seq<Row>,
    files: seq<Row>,
    images: seq<ImageEntry>,
    embeds: seq<EmbedEntry>)

  function OrEmpty<T>(o: Option<seq<T>>): seq<T>
  {
    if o.Some? then o.value else []
  }

  /** One iteration: a post whose id is its root_id opens a thread; a post with metadata keys contributes them. */
  function CollectStep(c: Collected, post: RawPost): Collected
  {
    var c1 := if post.id == post.root_id then c.(threads := c.threads + [ThreadRoot(post.id, post.create_at)]) else c;
    if post.metadata.Some? && HasMetadataKeys(post.metadata.value) then
      var m := post.metadata.value;
      c1.(reactions := c1.reactions + OrEmpty(m.reactions),
          emojis := c1.emojis + OrEmpty(m.emojis),
          files := c1.files + OrEmpty(m.files),
          images := if m.images.Some? then c1.images + [ImageEntry(m.images.value, post.id)] else c1.images,
          embeds := if m.embeds.Some? then c1.embeds + [EmbedEntry(m.embeds.value, post.id)] else c1.embeds)
    else c1
  }

  function Collect(posts: seq<RawPost>): Collected
  {
    if posts == [] then Collected([], [], [], [], [], [])
    else CollectStep(Collect(posts[..|posts| - 1]), posts[|posts| - 1])
  }

  /**
    A thread entry is opened exactly for the posts whose id equals their
    root_id, with the post's create_at as earliest; the reactions gathered are
    exactly those of the posts whose metadata has keys.
  */
  lemma {:induction false} CollectMembers(posts: seq<RawPost>)
    ensures forall th :: th in Collect(posts).threads <==>
      exists p :: p in posts && p.id == p.root_id && th == ThreadRoot(p.id, p.create_at)
    ensures forall r :: r in Collect(posts).reactions <==>
      exists p :: p in posts && p.metadata.Some? && HasMetadataKeys(p.metadata.value) && r in OrEmpty(p.metadata.value.reactions)
  {
    if posts != [] {
      var init := posts[..|posts| - 1];
      var last := posts[|posts| - 1];
      CollectMembers(init);
      assert posts == init + [last];
      assert forall p :: p in posts <==> p in init || p == last;
    }
  }

  function Anchor(prev: Option<string>): string
  {
    if prev.Some? then prev.value else ""
  }

  function PostRows(ps: seq<RawPost>): seq<Row>
  {
    seq(|ps|, i requires 0 <= i < |ps| => PostRow(ps[i]))
  }

  /** The posts batch: the chained posts, then the reactions, files and metadata prepared for them. */
  function PostsPrepared(d: Dbs, orders: seq<string>, values: seq<RawPost>, prev: Option<string>): Result<seq<Mutation>, Error>
  {
    var ordered := OrderedOf(values, orders);
    var linked := ChainOf(orders, ordered, Anchor(prev));
    match GetDatabase(d, Post)
    case Failure(e) => Failure(e)
    case Success(_) =>
      var c := Collect(ordered);
      match ReactionsPrepared(d, c.reactions)
      case Failure(e) => Failure(e)
      case Success(rb) =>
        match FilesPrepared(d, c.files)
        case Failure(e) => Failure(e)
        case Success(fb) =>
          match MetadataPrepared(d, c.images, c.embeds)
          case Failure(e) => Failure(e)
          case Success(mb) => Success(PrepareBase(Post, PostRows(linked), []) + rb + fb + mb)
  }

  const EmptyOrder := "An empty \"order\" array has been passed to the HandlePosts method"

  /**
    handlePosts: the posts batch, then the custom emojis, the thread index,
    the channel chunks, and last the update of the posts outside `orders`;
    the first step that throws ends the handler.
  */
  function PostsEffect(d: Dbs, cmp: Comparator, orders: seq<string>, values: seq<RawPost>, prev: Option<string>): Effect
  {
    if orders == [] then Effect(d, Fail(DataOperatorException(EmptyOrder, "")))
    else
      var ordered := OrderedOf(values, orders);
      var c := Collect(ordered);
      var e1 := CommitPrepared(d, Post, PostsPrepared(d, orders, values, prev));
      if e1.outcome.Fail? then e1
      else
        var e2 := EntityEffect(e1.dbs, cmp, CustomEmoji, "name", c.emojis);
        if e2.outcome.Fail? then e2
        else
          var e3 := ThreadsEffect(e2.dbs, c.threads);
          if e3.outcome.Fail? then e3
          else
            var e4 := ChannelEffect(e3.dbs, ordered);
            if e4.outcome.Fail? then e4
            else EntityEffect(e4.dbs, cmp, Post, "id", PostRows(UnorderedOf(values, orders)))
  }

  /** handlePosts rejects an empty order list before touching either connection. */
  lemma PostsEmptyOrders(d: Dbs, cmp: Comparator, values: seq<RawPost>, prev: Option<string>)
    ensures PostsEffect(d, cmp, [], values, prev) == Effect(d, Fail(DataOperatorException(EmptyOrder, "")))
  {
  }

  /**
    The posts batch opens with one create per chained post, in the chain's
    order; with duplicate-free orders, the post at orders[j] is stored
    linked to orders[j - 1], or to the anchor when j is 0.
  */
  lemma PostsBatchLeadsWithChain(d: Dbs, orders: seq<string>, values: seq<RawPost>, prev: Option<string>, i: nat, j: nat)
    requires forall a, b :: 0 <= a < b < |orders| ==> orders[a] != orders[b]
    requires PostsPrepared(d, orders, values, prev).Success?
    requires i < |ChainOf(orders, OrderedOf(values, orders), Anchor(prev))|
    requires j < |orders| && ChainOf(orders, OrderedOf(values, orders), Anchor(prev))[i].id == orders[j]
    ensures i < |PostsPrepared(d, orders, values, prev).value|
    ensures PostsPrepared(d, orders, values, prev).value[i]
         == Create(Post, PostRow(ChainOf(orders, OrderedOf(values, orders), Anchor(prev))[i]))
    ensures Get(PostRow(ChainOf(orders, OrderedOf(values, orders), Anchor(prev))[i]), "prev_post_id")
         == Some(Str(if j == 0 then Anchor(prev) else orders[j - 1]))
  {
    var linked := ChainOf(orders, OrderedOf(values, orders), Anchor(prev));
    ChainFollowsOrders(orders, OrderedOf(values, orders), Anchor(prev), i, j);
    assert PrepareBase(Post, PostRows(linked), [])[i] == Create(Post, PostRow(linked[i]));
  }
}
