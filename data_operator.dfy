/**
  The data operator: the object whose handlers merge raw server payloads
  into the default and server databases. Its two fields are the connections
  the database manager hands out (None when a connection cannot be
  retrieved); the entity comparators it is configured with are one opaque
  function.

  Every handler is proved to leave the connections and return the outcome
  that the matching function of Engine or Handlers describes; the
  properties of those functions are proved there.
*/
module DataOperatorModel {
  import opened Wrappers
  import opened Store
  import opened RawTypes
  import opened Reconcile
  import opened Engine
  import opened Handlers

  /** What a handler that may also return prepared records reports once it has committed. */
  function OutcomeOf(r: Result<seq<Mutation>, Error>): Outcome<Error>
  {
    if r.Failure? then Fail(r.error) else Pass
  }

  /** getOneOfs: the truthy values of the lookup column, in raw-value order. */
  method GetOneOfs(raws: seq<Row>, oneOfField: string) returns (oneOfs: seq<Field>)
    ensures oneOfs == OneOfs(raws, oneOfField)
  {
    oneOfs := [];
    var i := 0;
    while i < |raws|
      invariant 0 <= i <= |raws|
      invariant oneOfs == OneOfs(raws[..i], oneOfField)
    {
      OneOfsStep(raws, i, oneOfField);
      var value := Get(raws[i], oneOfField);
      if Truthy(value) {
        oneOfs := oneOfs + [value.value];
      }
      i := i + 1;
    }
    assert raws[..i] == raws;
  }

  class DataOperator {
    var defaultDb: Option<Store>
    var serverDb: Option<Store>
    const compare: Comparator

    constructor(defaultDb: Option<Store>, serverDb: Option<Store>, compare: Comparator)
      ensures this.defaultDb == defaultDb && this.serverDb == serverDb && this.compare == compare
    {
      this.defaultDb := defaultDb;
      this.serverDb := serverDb;
      this.compare := compare;
    }

    function State(): Dbs
      reads this
    {
      Dbs(defaultDb, serverDb)
    }

    method SetState(d: Dbs)
      modifies this
      ensures State() == d
    {
      defaultDb := d.defaultDb;
      serverDb := d.serverDb;
    }

    /** batchOperations: one atomic batch on the connection of `t`. */
    method BatchOperations(t: Table, db: Store, models: seq<Mutation>) returns (out: Outcome<Error>)
      modifies this
      ensures Effect(State(), out) == Batch(old(State()), t, db, models)
    {
      if |models| > 0 {
        var committed := ApplyAll(db, models);
        if committed.None? {
          out := Fail(DataOperatorException(BatchError, RejectedBatch));
          return;
        }
        SetState(Write(State(), t, committed.value));
        out := Pass;
      } else {
        out := Fail(DataOperatorException(BatchError, EmptyBatch));
      }
    }

    /** handleBase: prepare on the table's connection, and batch when anything was prepared. */
    method HandleBase(t: Table, creates: seq<Row>, updates: seq<UpdatePair>) returns (out: Outcome<Error>)
      modifies this
      ensures Effect(State(), out) == BaseEffect(old(State()), t, creates, updates)
    {
      var database := GetDatabase(State(), t);
      if database.Failure? {
        return Fail(database.error);
      }
      var models := PrepareBase(t, creates, updates);
      if |models| > 0 {
        out := BatchOperations(t, database.value, models);
      } else {
        out := Pass;
      }
    }

    /** getCreateUpdateRecords: the lookup keys, the stored matches, and the create/update split. */
    method GetCreateUpdateRecords(t: Table, oneOfField: string, rawValues: seq<Row>) returns (r: Result<Split, Error>)
      ensures r == CreateUpdate(State(), compare, t, oneOfField, rawValues)
    {
      var columnValues := GetOneOfs(rawValues, oneOfField);
      var database := GetDatabase(State(), t);
      if database.Failure? {
        return Failure(database.error);
      }
      var existingRecords := WhereOneOf(Rows(database.value, t), oneOfField, columnValues);

      var createRaws: seq<Row> := [];
      var updateRaws: seq<UpdatePair> := [];
      if |existingRecords| > 0 {
        var j := 0;
        while j < |rawValues|
          invariant 0 <= j <= |rawValues|
          invariant Split(createRaws, updateRaws) == Partition(compare, t, existingRecords, rawValues[..j])
        {
          PartitionStep(compare, t, existingRecords, rawValues, j, createRaws, updateRaws);
          var newElement := rawValues[j];
          var findIndex := FindExisting(compare, t, existingRecords, newElement);
          if findIndex != -1 && !HasSimilarUpdateAt(t, newElement, existingRecords[findIndex]) {
            updateRaws := updateRaws + [UpdatePair(existingRecords[findIndex], newElement)];
          } else {
            createRaws := createRaws + [newElement];
          }
          j := j + 1;
        }
        assert rawValues[..j] == rawValues;
        return Success(Split(createRaws, updateRaws));
      }
      return Success(Split(rawValues, updateRaws));
    }

    /** handleEntityRecords: nothing for no raw values, else split and handleBase. */
    method HandleEntityRecords(t: Table, oneOfField: string, rawValues: seq<Row>) returns (out: Outcome<Error>)
      modifies this
      ensures Effect(State(), out) == EntityEffect(old(State()), compare, t, oneOfField, rawValues)
    {
      if |rawValues| == 0 {
        return Pass;
      }
      var split := GetCreateUpdateRecords(t, oneOfField, rawValues);
      if split.Failure? {
        return Fail(split.error);
      }
      out := HandleBase(t, split.value.creates, split.value.updates);
    }

    /** handleIsolatedEntity: the six isolated tables by their lookup column; any other table throws. */
    method HandleIsolatedEntity(tableName: Table, values: seq<Row>) returns (out: Outcome<Error>)
      modifies this
      ensures Effect(State(), out) == IsolatedEffect(old(State()), compare, tableName, values)
    {
      var oneOfField := IsolatedKey(tableName);
      if oneOfField.None? {
        return Fail(DataOperatorException(InvalidIsolated + TableName(tableName), ""));
      }
      out := HandleEntityRecords(tableName, oneOfField.value, values);
    }

    method HandleDraft(drafts: seq<Row>) returns (out: Outcome<Error>)
      modifies this
      ensures Effect(State(), out) == EntityEffect(old(State()), compare, Draft, "channel_id", drafts)
    {
      if |drafts| == 0 {
        return Pass;
      }
      out := HandleEntityRecords(Draft, "channel_id", drafts);
    }

    method HandleUsers(users: seq<Row>) returns (out: Outcome<Error>)
      modifies this
      ensures Effect(State(), out) == EntityEffect(old(State()), compare, User, "id", users)
    {
      out := HandleEntityRecords(User, "id", users);
    }

    method HandlePreferences(preferences: seq<Row>) returns (out: Outcome<Error>)
      modifies this
      ensures Effect(State(), out) == EntityEffect(old(State()), compare, Preference, "user_id", preferences)
    {
      out := HandleEntityRecords(Preference, "user_id", preferences);
    }

    method HandleTeamMemberships(teamMemberships: seq<Row>) returns (out: Outcome<Error>)
      modifies this
      ensures Effect(State(), out) == EntityEffect(old(State()), compare, TeamMembership, "user_id", teamMemberships)
    {
      out := HandleEntityRecords(TeamMembership, "user_id", teamMemberships);
    }

    method HandleCustomEmojis(customEmojis: seq<Row>) returns (out: Outcome<Error>)
      modifies this
      ensures Effect(State(), out) == EntityEffect(old(State()), compare, CustomEmoji, "name", customEmojis)
    {
      out := HandleEntityRecords(CustomEmoji, "name", customEmojis);
    }

    method HandleGroupMembership(groupMemberships: seq<Row>) returns (out: Outcome<Error>)
      modifies this
      ensures Effect(State(), out) == EntityEffect(old(State()), compare, GroupMembership, "user_id", groupMemberships)
    {
      out := HandleEntityRecords(GroupMembership, "user_id", groupMemberships);
    }

    method HandleChannelMembership(channelMemberships: seq<Row>) returns (out: Outcome<Error>)
      modifies this
      ensures Effect(State(), out) == EntityEffect(old(State()), compare, ChannelMembership, "user_id", channelMemberships)
    {
      out := HandleEntityRecords(ChannelMembership, "user_id", channelMemberships);
    }

    /** handleReactions: the reaction diff of the first reaction's post, returned or committed. */
    method HandleReactions(reactions: seq<RawReaction>, prepareRowsOnly: bool) returns (out: Result<seq<Mutation>, Error>)
      modifies this
      ensures prepareRowsOnly ==> State() == old(State()) && out == ReactionsPrepared(old(State()), reactions)
      ensures !prepareRowsOnly ==>
        Effect(State(), OutcomeOf(out)) == CommitPrepared(old(State()), Reaction, ReactionsPrepared(old(State()), reactions))
      ensures !prepareRowsOnly && out.Success? ==> out.value == []
    {
      if |reactions| == 0 {
        return Success([]);
      }
      var database := GetDatabase(State(), Reaction);
      if database.Failure? {
        return Failure(database.error);
      }
      var db := database.value;
      var createReactions, createEmojis, deleteReactions :=
        SanitizeReactions(LocalReactions(db, reactions[0].post_id), reactions);
      var postReactions := PrepareBase(Reaction, ReactionRows(createReactions), []);
      var reactionEmojis := PrepareBase(CustomEmoji, EmojiRows(createEmojis), []);
      var batchRecords := postReactions + Destroys(Reaction, deleteReactions) + reactionEmojis;
      if prepareRowsOnly {
        return Success(batchRecords);
      }
      if |batchRecords| > 0 {
        var committed := BatchOperations(Reaction, db, batchRecords);
        if committed.Fail? {
          return Failure(committed.error);
        }
      }
      return Success([]);
    }

    /** handleFiles: one create per file, returned or committed. */
    method HandleFiles(files: seq<Row>, prepareRowsOnly: bool) returns (out: Result<seq<Mutation>, Error>)
      modifies this
      ensures prepareRowsOnly ==> State() == old(State()) && out == FilesPrepared(old(State()), files)
      ensures !prepareRowsOnly ==>
        Effect(State(), OutcomeOf(out)) == CommitPrepared(old(State()), File, FilesPrepared(old(State()), files))
      ensures !prepareRowsOnly && out.Success? ==> out.value == []
    {
      if |files| == 0 {
        return Success([]);
      }
      var database := GetDatabase(State(), File);
      if database.Failure? {
        return Failure(database.error);
      }
      var postFiles := PrepareBase(File, files, []);
      if prepareRowsOnly {
        return Success(postFiles);
      }
      if |postFiles| > 0 {
        var committed := BatchOperations(File, database.value, postFiles);
        if committed.Fail? {
          return Failure(committed.error);
        }
      }
      return Success([]);
    }

    /** handlePostMetadata: one metadata row per image entry and per embed, returned or committed. */
    method HandlePostMetadata(images: seq<ImageEntry>, embeds: seq<EmbedEntry>, prepareRowsOnly: bool)
      returns (out: Result<seq<Mutation>, Error>)
      modifies this
      ensures prepareRowsOnly ==> State() == old(State()) && out == MetadataPrepared(old(State()), images, embeds)
      ensures !prepareRowsOnly ==>
        Effect(State(), OutcomeOf(out)) == CommitPrepared(old(State()), PostMetadata, MetadataPrepared(old(State()), images, embeds))
      ensures !prepareRowsOnly && out.Success? ==> out.value == []
    {
      var metadata := BuildMetadata(images, embeds);
      if |metadata| == 0 {
        return Success([]);
      }
      var database := GetDatabase(State(), PostMetadata);
      if database.Failure? {
        return Failure(database.error);
      }
      var postMetas := PrepareBase(PostMetadata, metadata, []);
      if prepareRowsOnly {
        return Success(postMetas);
      }
      if |postMetas| > 0 {
        var committed := BatchOperations(PostMetadata, database.value, postMetas);
        if committed.Fail? {
          return Failure(committed.error);
        }
      }
      return Success([]);
    }

    /** handlePostsInThread: one thread row per root, each with the latest create_at of all fetched thread posts. */
    method HandlePostsInThread(postsInThreads: seq<ThreadRoot>) returns (out: Outcome<Error>)
      modifies this
      ensures Effect(State(), out) == ThreadsEffect(old(State()), postsInThreads)
    {
      if |postsInThreads| == 0 {
        return Pass;
      }
      var postIds := RootIds(postsInThreads);
      var database := GetDatabase(State(), PostsInThread);
      if database.Failure? {
        return Fail(database.error);
      }
      var db := database.value;
      var threads := WhereOneOf(Rows(db, Post), "root_id", postIds);
      var rawPostsInThreads := ThreadRowsFor(postsInThreads, threads);
      assert threads == ThreadPosts(db, postsInThreads);
      var postInThreadRecords := PrepareBase(PostsInThread, rawPostsInThreads, []);
      if |postInThreadRecords| > 0 {
        out := BatchOperations(PostsInThread, db, postInThreadRecords);
      } else {
        out := Pass;
      }
    }

    /** handlePostsInChannel: extend the chunk after the chain, or record the chain as a new chunk. */
    method HandlePostsInChannel(posts: seq<RawPost>) returns (out: Outcome<Error>)
      modifies this
      ensures Effect(State(), out) == ChannelEffect(old(State()), posts)
    {
      if |posts| == 0 {
        return Pass;
      }
      var tipOfChain := Tip(posts);
      var channelId := tipOfChain.channel_id;
      var earliest := tipOfChain.create_at;
      var latest := Latest(posts);
      var database := GetDatabase(State(), PostsInChannel);
      if database.Failure? {
        return Fail(database.error);
      }
      var db := database.value;
      var chunks := ChunksOf(db, channelId);
      if |chunks| == 0 {
        out := HandleBase(PostsInChannel, [ChunkRow(channelId, earliest, latest)], []);
        return;
      }
      var target := FirstLeastAbove(Earliests(chunks), earliest);
      if target != -1 {
        var potentialPosts := PostsAt(db, earliest);
        if |potentialPosts| > 0 {
          var targetPost := potentialPosts[0];
          var isChainable := PrevLink(tipOfChain) == Get(targetPost.row, "prev_post_id");
          if isChainable {
            SetState(Write(State(), PostsInChannel, LowerChunk(db, chunks[target], earliest)));
            out := Pass;
          } else {
            out := HandleBase(PostsInChannel, [ChunkRow(channelId, earliest, latest)], []);
          }
        } else {
          out := Pass;
        }
      } else {
        out := HandleBase(PostsInChannel, [ChunkRow(channelId, earliest, latest)], []);
      }
    }

    /**
      handlePosts: split the page, chain the ordered posts, batch them with
      their reactions, files and metadata, then run the related handlers and
      update the posts outside the order list.
    */
    method HandlePosts(orders: seq<string>, values: seq<RawPost>, previousPostId: Option<string>) returns (out: Outcome<Error>)
      modifies this
      ensures Effect(State(), out) == PostsEffect(old(State()), compare, orders, values, previousPostId)
    {
      if |orders| == 0 {
        return Fail(DataOperatorException(EmptyOrder, ""));
      }
      var orderedPosts, unOrderedPosts := SanitizePosts(values, orders);
      var linkedRawPosts := CreatePostsChain(orders, orderedPosts, Anchor(previousPostId));
      var database := GetDatabase(State(), Post);
      if database.Failure? {
        return Fail(database.error);
      }
      var db := database.value;
      var batch := PrepareBase(Post, PostRows(linkedRawPosts), []);
      var related := CollectRelated(orderedPosts);

      var postReactions := HandleReactions(related.reactions, true);
      if postReactions.Failure? {
        return Fail(postReactions.error);
      }
      batch := batch + postReactions.value;
      var postFiles := HandleFiles(related.files, true);
      if postFiles.Failure? {
        return Fail(postFiles.error);
      }
      batch := batch + postFiles.value;
      var postMetadata := HandlePostMetadata(related.images, related.embeds, true);
      if postMetadata.Failure? {
        return Fail(postMetadata.error);
      }
      batch := batch + postMetadata.value;

      if |batch| > 0 {
        out := BatchOperations(Post, db, batch);
        if out.Fail? {
          return;
        }
      }
      out := HandleCustomEmojis(related.emojis);
      if out.Fail? {
        return;
      }
      out := HandlePostsInThread(related.threads);
      if out.Fail? {
        return;
      }
      out := HandlePostsInChannel(orderedPosts);
      if out.Fail? {
        return;
      }
      out := HandleEntityRecords(Post, "id", PostRows(unOrderedPosts));
    }
  }

  /** The metadata rows of handlePostMetadata: image entries first, then every embed of every post. */
  method BuildMetadata(images: seq<ImageEntry>, embeds: seq<EmbedEntry>) returns (metadata: seq<Row>)
    ensures metadata == MetadataRows(images, embeds)
    ensures |metadata| == |images| + EmbedCount(embeds)
  {
    metadata := [];
    var i := 0;
    while i < |images|
      invariant 0 <= i <= |images|
      invariant metadata == ImageRows(images[..i])
    {
      var image := images[i];
      metadata := metadata + [MetadataRow(ImageData(image.images), "images", image.postId)];
      assert ImageRows(images[..i + 1]) == ImageRows(images[..i]) + [MetadataRow(ImageData(image.images), "images", image.postId)];
      i := i + 1;
    }
    assert images[..i] == images;
    var k := 0;
    while k < |embeds|
      invariant 0 <= k <= |embeds|
      invariant metadata == ImageRows(images) + EmbedRows(embeds[..k])
    {
      var postEmbed := embeds[k];
      assert embeds[..k + 1][..k] == embeds[..k];
      var j := 0;
      while j < |postEmbed.embed|
        invariant 0 <= j <= |postEmbed.embed|
        invariant metadata == ImageRows(images) + EmbedRows(embeds[..k]) + EmbedRowsOf(postEmbed)[..j]
      {
        var embed := postEmbed.embed[j];
        metadata := metadata + [MetadataRow(embed.data, embed.kind, postEmbed.postId)];
        assert EmbedRowsOf(postEmbed)[..j + 1] == EmbedRowsOf(postEmbed)[..j] + [MetadataRow(embed.data, embed.kind, postEmbed.postId)];
        j := j + 1;
      }
      assert EmbedRowsOf(postEmbed)[..j] == EmbedRowsOf(postEmbed);
      k := k + 1;
    }
    assert embeds[..k] == embeds;
    MetadataRowsShape(images, embeds);
  }

  /** The per-root loop of handlePostsInThread: one row per root, all with the latest create_at of the thread posts. */
  method ThreadRowsFor(postsInThreads: seq<ThreadRoot>, threads: seq<Record>) returns (rawPostsInThreads: seq<Row>)
    ensures rawPostsInThreads == ThreadRows(postsInThreads, LatestOf(threads))
  {
    rawPostsInThreads := [];
    var k := 0;
    while k < |postsInThreads|
      invariant 0 <= k <= |postsInThreads|
      invariant rawPostsInThreads == ThreadRows(postsInThreads[..k], LatestOf(threads))
    {
      var maxCreateAt := LatestCreateAt(threads);
      rawPostsInThreads := rawPostsInThreads + [ThreadRow(postsInThreads[k], maxCreateAt)];
      assert ThreadRows(postsInThreads[..k + 1], LatestOf(threads))
          == ThreadRows(postsInThreads[..k], LatestOf(threads)) + [ThreadRow(postsInThreads[k], maxCreateAt)];
      k := k + 1;
    }
    assert postsInThreads[..k] == postsInThreads;
  }

  /** The running maximum of handlePostsInThread over the fetched thread posts. */
  method LatestCreateAt(threads: seq<Record>) returns (maxCreateAt: int)
    ensures maxCreateAt == LatestOf(threads)
    ensures maxCreateAt >= 0
    ensures forall i :: 0 <= i < |threads| ==> NumOf(threads[i].row, "create_at") <= maxCreateAt
  {
    maxCreateAt := 0;
    var i := 0;
    while i < |threads|
      invariant 0 <= i <= |threads|
      invariant maxCreateAt == LatestOf(threads[..i])
    {
      assert threads[..i + 1][..i] == threads[..i];
      var createAt := NumOf(threads[i].row, "create_at");
      maxCreateAt := if createAt > maxCreateAt then createAt else maxCreateAt;
      i := i + 1;
    }
    assert threads[..i] == threads;
    LatestBounds(threads);
  }

  /** The loop of handlePosts over the ordered posts, gathering threads, reactions, emojis, files, images and embeds. */
  method CollectRelated(orderedPosts: seq<RawPost>) returns (c: Collected)
    ensures c == Collect(orderedPosts)
  {
    var postsInThread: seq<ThreadRoot> := [];
    var reactions: seq<RawReaction> := [];
    var emojis: seq<Row> := [];
    var files: seq<Row> := [];
    var images: seq<ImageEntry> := [];
    var embeds: seq<EmbedEntry> := [];
    var i := 0;
    while i < |orderedPosts|
      invariant 0 <= i <= |orderedPosts|
      invariant Collected(postsInThread, reactions, emojis, files, images, embeds) == Collect(orderedPosts[..i])
    {
      var post := orderedPosts[i];
      assert orderedPosts[..i + 1][..i] == orderedPosts[..i];
      if post.id == post.root_id {
        postsInThread := postsInThread + [ThreadRoot(post.id, post.create_at)];
      }
      if post.metadata.Some? && HasMetadataKeys(post.metadata.value) {
        var metadata := post.metadata.value;
        reactions := reactions + OrEmpty(metadata.reactions);
        emojis := emojis + OrEmpty(metadata.emojis);
        files := files + OrEmpty(metadata.files);
        if metadata.images.Some? {
          images := images + [ImageEntry(metadata.images.value, post.id)];
        }
        if metadata.embeds.Some? {
          embeds := embeds + [EmbedEntry(metadata.embeds.value, post.id)];
        }
      }
      i := i + 1;
    }
    assert orderedPosts[..i] == orderedPosts;
    c := Collected(postsInThread, reactions, emojis, files, images, embeds);
  }
}
