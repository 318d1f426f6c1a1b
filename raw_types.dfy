/**
  The raw server payloads the reconciliation engine consumes, and the rows
  they become once prepared for the store.
*/
module RawTypes {
  import opened Wrappers
  import opened Store

  datatype RawReaction = RawReaction(user_id: string, post_id: string, emoji_name: string, create_at: int)

  /** An embed of a post: its `type`, its url and its free-form data. */
  datatype RawEmbed = RawEmbed(kind: string, url: string, data: Row)

  /**
    The side-channel metadata of a post. A key the server left out is None;
    `images` keeps the entries of the image dictionary in key order.
  */
  datatype RawPostMetadata = RawPostMetadata(
    reactions: Option<seq<RawReaction>>,
    emojis: Option<seq<Row>>,
    files: Option<seq<Row>>,
    images: Option<seq<(string, Row)>>,
    embeds: Option<seq<RawEmbed>>)

  /** A post as the server sends it; `prev_post_id` is None when the payload has none. */
  datatype RawPost = RawPost(
    id: string,
    channel_id: string,
    create_at: int,
    update_at: int,
    root_id: string,
    prev_post_id: Option<string>,
    message: string,
    metadata: Option<RawPostMetadata>)

  /** The metadata object has at least one key. */
  predicate HasMetadataKeys(m: RawPostMetadata)
  {
    m.reactions.Some? || m.emojis.Some? || m.files.Some? || m.images.Some? || m.embeds.Some?
  }

  function PostRow(p: RawPost): Row
  {
    var base := map[
      "id" := Str(p.id),
      "channel_id" := Str(p.channel_id),
      "create_at" := Num(p.create_at),
      "update_at" := Num(p.update_at),
      "root_id" := Str(p.root_id),
      "message" := Str(p.message)];
    if p.prev_post_id.Some? then base["prev_post_id" := Str(p.prev_post_id.value)] else base
  }

  function ReactionRow(r: RawReaction): Row
  {
    map[
      "user_id" := Str(r.user_id),
      "post_id" := Str(r.post_id),
      "emoji_name" := Str(r.emoji_name),
      "create_at" := Num(r.create_at)]
  }

  function EmojiRow(name: string): Row
  {
    map["name" := Str(name)]
  }
}
