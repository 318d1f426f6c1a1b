/**
  The reconciliation primitives of the data operator's utilities: splitting a
  fetched page into ordered and unordered posts, linking ordered posts into a
  chain, diffing a post's reactions against the local ones, and the
  update_at short-circuit used when a raw value matches a stored record.
*/
module Reconcile {
  import opened Wrappers
  import opened Store
  import opened RawTypes

  // ---------------------------------------------------------------------------
  // sanitizePosts

  /** A post belongs to the chain when its id is non-empty and listed in `orders`. */
  predicate IsOrdered(p: RawPost, orders: seq<string>)
  {
    p.id != "" && p.id in orders
  }

  function OrderedOf(posts: seq<RawPost>, orders: seq<string>): seq<RawPost>
  {
    if posts == [] then []
    else
      var last := posts[|posts| - 1];
      OrderedOf(posts[..|posts| - 1], orders) + (if IsOrdered(last, orders) then [last] else [])
  }

  function UnorderedOf(posts: seq<RawPost>, orders: seq<string>): seq<RawPost>
  {
    if posts == [] then []
    else
      var last := posts[|posts| - 1];
      UnorderedOf(posts[..|posts| - 1], orders) + (if IsOrdered(last, orders) then [] else [last])
  }

  /** Splits `posts` into those listed in `orders` and the rest, keeping input order. */
  method SanitizePosts(posts: seq<RawPost>, orders: seq<string>)
    returns (orderedPosts: seq<RawPost>, unOrderedPosts: seq<RawPost>)
    ensures orderedPosts == OrderedOf(posts, orders)
    ensures unOrderedPosts == UnorderedOf(posts, orders)
    ensures forall p :: p in orderedPosts <==> p in posts && IsOrdered(p, orders)
    ensures forall p :: p in unOrderedPosts <==> p in posts && !IsOrdered(p, orders)
    ensures multiset(orderedPosts) + multiset(unOrderedPosts) == multiset(posts)
  {
    orderedPosts, unOrderedPosts := [], [];
    var i := 0;
    while i < |posts|
      invariant 0 <= i <= |posts|
      invariant orderedPosts == OrderedOf(posts[..i], orders)
      invariant unOrderedPosts == UnorderedOf(posts[..i], orders)
    {
      var post := posts[i];
      assert posts[..i + 1][..i] == posts[..i];
      if post.id != "" && post.id in orders {
        orderedPosts := orderedPosts + [post];
      } else {
        unOrderedPosts := unOrderedPosts + [post];
      }
      i := i + 1;
    }
    assert posts[..i] == posts;
    SplitIsPartition(posts, orders);
  }

  lemma {:induction false} OrderedMembers(posts: seq<RawPost>, orders: seq<string>)
    ensures forall p :: p in OrderedOf(posts, orders) <==> p in posts && IsOrdered(p, orders)
  {
    if posts != [] {
      var init := posts[..|posts| - 1];
      OrderedMembers(init, orders);
      assert posts == init + [posts[|posts| - 1]];
    }
  }

  lemma {:induction false} UnorderedMembers(posts: seq<RawPost>, orders: seq<string>)
    ensures forall p :: p in UnorderedOf(posts, orders) <==> p in posts && !IsOrdered(p, orders)
  {
    if posts != [] {
      var init := posts[..|posts| - 1];
      UnorderedMembers(init, orders);
      assert posts == init + [posts[|posts| - 1]];
    }
  }

  lemma {:induction false} SplitCounts(posts: seq<RawPost>, orders: seq<string>)
    ensures multiset(OrderedOf(posts, orders)) + multiset(UnorderedOf(posts, orders)) == multiset(posts)
  {
    if posts != [] {
      var init := posts[..|posts| - 1];
      var last := posts[|posts| - 1];
      SplitCounts(init, orders);
      var o := OrderedOf(init, orders);
      var u := UnorderedOf(init, orders);
      assert posts == init + [last];
      assert multiset(posts) == multiset(init) + multiset{last};
      if IsOrdered(last, orders) {
        assert OrderedOf(posts, orders) == o + [last];
        assert UnorderedOf(posts, orders) == u + [];
        assert u + [] == u;
      } else {
        assert OrderedOf(posts, orders) == o + [];
        assert o + [] == o;
        assert UnorderedOf(posts, orders) == u + [last];
      }
    }
  }

  /** Every post lands in exactly one of the two lists, ordered iff it is listed in `orders`. */
  lemma SplitIsPartition(posts: seq<RawPost>, orders: seq<string>)
    ensures forall p :: p in OrderedOf(posts, orders) <==> p in posts && IsOrdered(p, orders)
    ensures forall p :: p in UnorderedOf(posts, orders) <==> p in posts && !IsOrdered(p, orders)
    ensures multiset(OrderedOf(posts, orders)) + multiset(UnorderedOf(posts, orders)) == multiset(posts)
  {
    OrderedMembers(posts, orders);
    UnorderedMembers(posts, orders);
    SplitCounts(posts, orders);
  }

  // ---------------------------------------------------------------------------
  // createPostsChain

  /** `findIndex` of an id in `orders`: the first position holding it, or -1. */
  function IndexOf(orders: seq<string>, id: string): (k: int)
    ensures -1 <= k < |orders|
    ensures k >= 0 ==> orders[k] == id && forall j :: 0 <= j < k ==> orders[j] != id
    ensures k == -1 <==> id !in orders
  {
    if orders == [] then -1
    else if orders[0] == id then 0
    else
      var k := IndexOf(orders[1..], id);
      if k == -1 then -1 else k + 1
  }

  /** The post with its previous-post link set from its position in `orders`. */
  function Linked(p: RawPost, orders: seq<string>, previousPostId: string): RawPost
    requires p.id in orders
  {
    var k := IndexOf(orders, p.id);
    p.(prev_post_id := Some(if k == 0 then previousPostId else orders[k - 1]))
  }

  function ChainOf(orders: seq<string>, rawPosts: seq<RawPost>, previousPostId: string): seq<RawPost>
  {
    if rawPosts == [] then []
    else
      var last := rawPosts[|rawPosts| - 1];
      ChainOf(orders, rawPosts[..|rawPosts| - 1], previousPostId)
      + (if last.id in orders then [Linked(last, orders, previousPostId)] else [])
  }

  /** The raw posts whose id occurs in `orders`, in input order. */
  function FoundIn(rawPosts: seq<RawPost>, orders: seq<string>): seq<RawPost>
  {
    if rawPosts == [] then []
    else
      var last := rawPosts[|rawPosts| - 1];
      FoundIn(rawPosts[..|rawPosts| - 1], orders) + (if last.id in orders then [last] else [])
  }

  /** Links each raw post found in `orders` to the id before it (the first one to `previousPostId`). */
  method CreatePostsChain(orders: seq<string>, rawPosts: seq<RawPost>, previousPostId: string)
    returns (posts: seq<RawPost>)
    ensures posts == ChainOf(orders, rawPosts, previousPostId)
    ensures |posts| <= |rawPosts|
  {
    posts := [];
    var i := 0;
    while i < |rawPosts|
      invariant 0 <= i <= |rawPosts|
      invariant posts == ChainOf(orders, rawPosts[..i], previousPostId)
      invariant |posts| <= i
    {
      var post := rawPosts[i];
      assert rawPosts[..i + 1][..i] == rawPosts[..i];
      var orderIndex := IndexOf(orders, post.id);
      if orderIndex == -1 {
        // not part of the chain
      } else if orderIndex == 0 {
        posts := posts + [post.(prev_post_id := Some(previousPostId))];
      } else {
        posts := posts + [post.(prev_post_id := Some(orders[orderIndex - 1]))];
      }
      i := i + 1;
    }
    assert rawPosts[..i] == rawPosts;
  }

  /** The chain has one entry per raw post found in `orders`. */
  lemma {:induction false} ChainLength(orders: seq<string>, rawPosts: seq<RawPost>, previousPostId: string)
    ensures |ChainOf(orders, rawPosts, previousPostId)| == |FoundIn(rawPosts, orders)|
  {
    if rawPosts != [] {
      ChainLength(orders, rawPosts[..|rawPosts| - 1], previousPostId);
    }
  }

  /**
    Entry i of the chain is the i-th raw post found in `orders` with only its
    previous-post link changed: the anchor for the post at `orders[0]`, the
    preceding order entry otherwise.
  */
  lemma {:induction false} ChainAt(orders: seq<string>, rawPosts: seq<RawPost>, previousPostId: string, i: nat)
    requires i < |FoundIn(rawPosts, orders)|
    ensures |ChainOf(orders, rawPosts, previousPostId)| == |FoundIn(rawPosts, orders)|
    ensures FoundIn(rawPosts, orders)[i].id in orders
    ensures ChainOf(orders, rawPosts, previousPostId)[i]
         == Linked(FoundIn(rawPosts, orders)[i], orders, previousPostId)
  {
    ChainLength(orders, rawPosts, previousPostId);
    var init := rawPosts[..|rawPosts| - 1];
    ChainLength(orders, init, previousPostId);
    if i < |FoundIn(init, orders)| {
      ChainAt(orders, init, previousPostId, i);
    }
  }

  /**
    With duplicate-free `orders`, a chained post whose id sits at position i
    links to `orders[i - 1]`, and the one at position 0 to the anchor.
  */
  lemma ChainFollowsOrders(orders: seq<string>, rawPosts: seq<RawPost>, previousPostId: string, k: nat, i: nat)
    requires forall a, b :: 0 <= a < b < |orders| ==> orders[a] != orders[b]
    requires k < |ChainOf(orders, rawPosts, previousPostId)| && i < |orders|
    requires ChainOf(orders, rawPosts, previousPostId)[k].id == orders[i]
    ensures ChainOf(orders, rawPosts, previousPostId)[k].prev_post_id
         == Some(if i == 0 then previousPostId else orders[i - 1])
  {
    ChainLength(orders, rawPosts, previousPostId);
    ChainAt(orders, rawPosts, previousPostId, k);
    assert IndexOf(orders, orders[i]) == i;
  }

  // ---------------------------------------------------------------------------
  // sanitizeReactions

  /** A stored reaction and a raw one agree on user and emoji. */
  predicate SameReaction(local: Record, raw: RawReaction)
  {
    && Get(local.row, "user_id") == Some(Str(raw.user_id))
    && Get(local.row, "emoji_name") == Some(Str(raw.emoji_name))
  }

  /** `findIndex` of the first stored reaction matching `raw`, or -1. */
  function FirstMatch(local: seq<Record>, raw: RawReaction): (k: int)
    ensures -1 <= k < |local|
    ensures k >= 0 ==> SameReaction(local[k], raw) && forall j :: 0 <= j < k ==> !SameReaction(local[j], raw)
    ensures k == -1 <==> forall j :: 0 <= j < |local| ==> !SameReaction(local[j], raw)
  {
    if local == [] then -1
    else if SameReaction(local[0], raw) then 0
    else
      var k := FirstMatch(local[1..], raw);
      if k == -1 then -1 else k + 1
  }

  /** The raw reactions with no stored counterpart, in input order. */
  function Unmatched(local: seq<Record>, raws: seq<RawReaction>): seq<RawReaction>
  {
    if raws == [] then []
    else
      var last := raws[|raws| - 1];
      Unmatched(local, raws[..|raws| - 1]) + (if FirstMatch(local, last) == -1 then [last] else [])
  }

  /** The stored reactions found first by some raw reaction. */
  function Similar(local: seq<Record>, raws: seq<RawReaction>): seq<Record>
  {
    if raws == [] then []
    else
      var last := raws[|raws| - 1];
      var k := FirstMatch(local, last);
      Similar(local, raws[..|raws| - 1]) + (if k == -1 then [] else [local[k]])
  }

  /** The emoji names of `creates`, each once, in order of first appearance (a JavaScript Set). */
  function EmojiSet(creates: seq<RawReaction>): seq<string>
  {
    if creates == [] then []
    else
      var last := creates[|creates| - 1];
      var prior := EmojiSet(creates[..|creates| - 1]);
      if last.emoji_name in prior then prior else prior + [last.emoji_name]
  }

  /** The stored reactions not in `similar`, in stored order. */
  function Outcasts(local: seq<Record>, similar: seq<Record>): seq<Record>
  {
    if local == [] then []
    else (if local[0] in similar then [] else [local[0]]) + Outcasts(local[1..], similar)
  }

  datatype ReactionDiff = ReactionDiff(
    createReactions: seq<RawReaction>,
    createEmojis: seq<string>,
    deleteReactions: seq<Record>)

  function DiffReactions(local: seq<Record>, raws: seq<RawReaction>): ReactionDiff
  {
    var creates := Unmatched(local, raws);
    ReactionDiff(creates, EmojiSet(creates), Outcasts(local, Similar(local, raws)))
  }

  /**
    The full-replace reaction diff of a post: unmatched raw reactions are
    created, their emoji names collected once each, and the stored reactions
    that no raw reaction found are destroyed.
  */
  method SanitizeReactions(reactions: seq<Record>, rawReactions: seq<RawReaction>)
    returns (createReactions: seq<RawReaction>, createEmojis: seq<string>, deleteReactions: seq<Record>)
    ensures ReactionDiff(createReactions, createEmojis, deleteReactions) == DiffReactions(reactions, rawReactions)
    ensures forall r :: r in createReactions <==> r in rawReactions && FirstMatch(reactions, r) == -1
    ensures forall e :: e in createEmojis <==> exists r :: r in createReactions && r.emoji_name == e
    ensures forall a, b :: 0 <= a < b < |createEmojis| ==> createEmojis[a] != createEmojis[b]
  {
    var similarObjects: seq<Record> := [];
    createReactions := [];
    createEmojis := [];
    var i := 0;
    while i < |rawReactions|
      invariant 0 <= i <= |rawReactions|
      invariant createReactions == Unmatched(reactions, rawReactions[..i])
      invariant similarObjects == Similar(reactions, rawReactions[..i])
      invariant createEmojis == EmojiSet(createReactions)
    {
      var rawReaction := rawReactions[i];
      assert rawReactions[..i + 1][..i] == rawReactions[..i];
      var idxPresent := FirstMatch(reactions, rawReaction);
      if idxPresent == -1 {
        assert (createReactions + [rawReaction])[..|createReactions|] == createReactions;
        createReactions := createReactions + [rawReaction];
        if rawReaction.emoji_name !in createEmojis {
          createEmojis := createEmojis + [rawReaction.emoji_name];
        }
      } else {
        similarObjects := similarObjects + [reactions[idxPresent]];
      }
      i := i + 1;
    }
    assert rawReactions[..i] == rawReactions;

    deleteReactions := [];
    var j := |reactions|;
    while j > 0
      invariant 0 <= j <= |reactions|
      invariant deleteReactions == Outcasts(reactions[j..], similarObjects)
    {
      j := j - 1;
      assert reactions[j..][1..] == reactions[j + 1..];
      if reactions[j] !in similarObjects {
        deleteReactions := [reactions[j]] + deleteReactions;
      }
    }
    assert reactions[0..] == reactions;
    EmojiSetFacts(createReactions);
    UnmatchedMembers(reactions, rawReactions);
  }

  lemma {:induction false} EmojiSetFacts(creates: seq<RawReaction>)
    ensures forall e :: e in EmojiSet(creates) <==> exists r :: r in creates && r.emoji_name == e
    ensures forall a, b :: 0 <= a < b < |EmojiSet(creates)| ==> EmojiSet(creates)[a] != EmojiSet(creates)[b]
  {
    if creates != [] {
      var init := creates[..|creates| - 1];
      EmojiSetFacts(init);
      assert creates == init + [creates[|creates| - 1]];
    }
  }

  lemma {:induction false} SimilarSound(local: seq<Record>, raws: seq<RawReaction>, l: Record)
    requires l in Similar(local, raws)
    ensures exists r :: r in raws && SameReaction(l, r)
  {
    var init := raws[..|raws| - 1];
    var last := raws[|raws| - 1];
    assert last in raws;
    if l in Similar(local, init) {
      SimilarSound(local, init, l);
      var r :| r in init && SameReaction(l, r);
      assert r in raws;
    } else {
      assert l == local[FirstMatch(local, last)];
    }
  }

  lemma {:induction false} SimilarComplete(local: seq<Record>, raws: seq<RawReaction>, r: RawReaction)
    requires r in raws && FirstMatch(local, r) >= 0
    ensures local[FirstMatch(local, r)] in Similar(local, raws)
  {
    var init := raws[..|raws| - 1];
    assert raws == init + [raws[|raws| - 1]];
    if r != raws[|raws| - 1] {
      SimilarComplete(local, init, r);
    }
  }

  lemma {:induction false} OutcastMembers(local: seq<Record>, similar: seq<Record>)
    ensures forall l :: l in Outcasts(local, similar) <==> l in local && l !in similar
  {
    if local != [] {
      OutcastMembers(local[1..], similar);
      assert local == [local[0]] + local[1..];
    }
  }

  /**
    When no two stored reactions of the post share a user and an emoji, a
    stored reaction is destroyed exactly when no raw reaction matches it.
  */
  lemma DeletedIffUnmatched(local: seq<Record>, raws: seq<RawReaction>, l: Record)
    requires forall a, b :: 0 <= a < b < |local| ==>
      !(Get(local[a].row, "user_id") == Get(local[b].row, "user_id")
        && Get(local[a].row, "emoji_name") == Get(local[b].row, "emoji_name"))
    requires l in local
    ensures l in DiffReactions(local, raws).deleteReactions <==> forall r :: r in raws ==> !SameReaction(l, r)
  {
    OutcastMembers(local, Similar(local, raws));
    if l in Similar(local, raws) {
      SimilarSound(local, raws, l);
    }
    if r :| r in raws && SameReaction(l, r) {
      var k := FirstMatch(local, r);
      var a :| 0 <= a < |local| && local[a] == l;
      assert k == a;
      SimilarComplete(local, raws, r);
    }
  }

  /** A raw reaction is created exactly when no stored reaction of the post matches it. */
  lemma CreatedIffUnmatched(local: seq<Record>, raws: seq<RawReaction>)
    ensures forall r :: r in DiffReactions(local, raws).createReactions <==>
      r in raws && forall l :: l in local ==> !SameReaction(l, r)
  {
    UnmatchedMembers(local, raws);
  }

  lemma {:induction false} UnmatchedMembers(local: seq<Record>, raws: seq<RawReaction>)
    ensures forall r :: r in Unmatched(local, raws) <==> r in raws && FirstMatch(local, r) == -1
  {
    if raws != [] {
      var init := raws[..|raws| - 1];
      UnmatchedMembers(local, init);
      assert raws == init + [raws[|raws| - 1]];
    }
  }

  // ---------------------------------------------------------------------------
  // hasSimilarUpdateAt

  const GuardTables: set<Table> := {Post}

  /**
    Whether a raw value and the stored record it matched carry the same
    update_at. Only the post table is guarded; the user branch of the switch
    is unreachable because the user table is not a guard table.
  */
  function HasSimilarUpdateAt(tableName: Table, newValue: Row, existingRecord: Record): bool
  {
    if tableName in GuardTables then
      match tableName
      case Post => Get(newValue, "update_at") == Get(existingRecord.row, "update_at")
      case User => Get(newValue, "update_at") == Get(existingRecord.row, "update_at")
      case _ => false
    else false
  }

  /** True only for posts with equal update_at; false for every other table, users included. */
  lemma SimilarUpdateAtOnlyForPosts(tableName: Table, newValue: Row, existingRecord: Record)
    ensures HasSimilarUpdateAt(tableName, newValue, existingRecord)
      <==> tableName == Post && Get(newValue, "update_at") == Get(existingRecord.row, "update_at")
    ensures !HasSimilarUpdateAt(User, newValue, existingRecord)
  {
  }
}
