# Mattermost mobile: data operator, offline-store middleware and helpers, in Dafny

This project models the core of the Mattermost mobile app's local data
layer, along with the small pieces of client logic around it.

- **The DataOperator** (`app/database/admin/data_operator/index.ts` and its
  `utils/index.ts`) writes server payloads into the two local databases:
  - the *default* database holds the app, global, servers and
    server-independent records;
  - the *server* database holds every other table.

  Each handler works in the same way. It looks up the records that already
  exist, splits the raw values into creates and updates, prepares the
  records and commits them as one atomic batch. Some handlers only return
  the prepared records, so that `handlePosts` can commit them together with
  the posts. The operator is a `class DataOperator` whose two connection
  fields are rewritten by every handler. A connection is `None` when the
  database manager cannot provide it. A database is a value of type
  `Store`: tables of records with local identities. A batch either applies
  whole or is rejected and changes nothing.
- **The offline-store middleware** (`app/store/middleware.js`) acts when the
  persisted redux state is rehydrated:
  - after an app upgrade it resets the state to the few slices worth
    keeping, stamped with the device's version;
  - otherwise it trims the state: at most 60 posts per last-viewed channel,
    message retention applied, and the kept posts' reactions, file ids and
    files copied across.

  The same trim runs on a data-cleanup action, keeping the current channel
  whole.
- **The custom-emoji helpers** (`app/mm-redux/utils/emoji_utils.ts`):
  - tell system emojis from custom ones;
  - scan a message for the `:name:` references that still need to be
    fetched.
- **The REST client base** (`app/client/rest/base.ts`):
  - the route builders;
  - `getOptions`, which adds the CSRF header;
  - the request-method switch and server-version tracking of `doFetch`.
- **The redux `files` reducers** (`service/reducers/entities/files.js`).
- **The slash-command normalisation and dispatch of `executeCommand`**
  (`app/actions/views/command.ts`).

JavaScript values that the middleware, the reducers, the command action and
the client handle are modelled by the `Json` datatype of `JsValues`:

- an object is a list of fields in insertion order (integer-like keys are not moved to the front, see "Left out");
- `Lookup`, `Put`, `Spread` and `Merge` give property reads, writes and
  object spreads their JavaScript meaning;
- `Truthy` is JavaScript truthiness.

The following behaviour is modelled as the code is written:

- `getCreateUpdateRecords` (index.ts 795-806): a raw post whose matching
  record has the same `update_at` is not skipped. It is prepared as a
  **create**. `EqualUpdateAtRecreated` states this.
- `hasSimilarUpdateAt` (utils 160-180): the `USER` case sits inside a guard
  that admits only `POST`, so it can never run, and users never count as
  unchanged. `SimilarUpdateAtOnlyForPosts` states this.
- `handlePostsInChannel` (index.ts 474-490) decides contiguity by
  comparing the chain tip's `prev_post_id` with the `prev_post_id` of the
  first stored post that has the same `create_at`. `PlanCases` states this.
- `handlePostsInThread` (index.ts 360-376) gives every thread the latest
  `create_at` over **all** fetched thread posts, not only its own.
  `ThreadsLand` states this.

## Model

| member | source | states |
|---|---|---|
| Store.Where | app/database/admin/data_operator/utils/index.ts:146-149 | A `Q.where` query returns exactly the records whose column holds the value. It never returns more records than the table has. |
| Store.WhereOneOf | app/database/admin/data_operator/index.ts:780-784 | A `Q.oneOf` query returns exactly the records whose column holds one of the listed values. |
| Store.WhereUnique | app/database/admin/data_operator/utils/index.ts:146-149 | A query over records with distinct identities returns records with distinct identities. |
| Store.RemoveIdKeeps | app/database/admin/data_operator/index.ts:827-851 | Destroying a record permanently removes exactly that identity and keeps the table's identities valid. |
| Store.RemoveIdMembers | app/database/admin/data_operator/index.ts:827-851 | After a destroy, the table holds every record except the one with the destroyed identity. |
| Store.ApplyMutationPreservesValid | app/database/admin/data_operator/index.ts:827-851 | One create, update or destroy keeps every identity fresh and unique. |
| Store.ApplyAllPreservesValid | app/database/admin/data_operator/index.ts:827-851 | A committed batch keeps every identity fresh and unique. |
| Store.RowsOfAppend | app/database/admin/data_operator/index.ts:852-899 | Appending a record appends its row. |
| Store.CreateStep | app/database/admin/data_operator/index.ts:852-899 | A prepared create is always accepted. It hands out one new identity and appends one record to its own table only. |
| Store.CreatesApply | app/database/admin/data_operator/index.ts:827-851 | A batch of creates is never rejected and consumes one identity per create. |
| Store.CreatesLand | app/database/admin/data_operator/index.ts:827-851 | After a batch of creates, each table holds its old records unchanged, followed by the rows created for it, in batch order. |
| Store.CreatesAppend | app/database/admin/data_operator/index.ts:827-851 | A batch of creates is accepted, and each table becomes its old records followed by the records created in it, with fresh ids in batch order. |
| Store.AppendedRows | app/database/admin/data_operator/index.ts:827-851 | The appended records carry exactly the raw rows the batch created in that table, in order. |
| Store.CreatesKeep | app/database/admin/data_operator/index.ts:827-851 | Creates never remove or alter a record that was present. |
| Store.UpdateRewritesOnlyTarget | app/database/admin/data_operator/index.ts:852-899 | Updating a present record rewrites that record's row in place. Every other record and every other table is left as it was. |
| Store.ReplaceRowKeepsIds | app/database/admin/data_operator/index.ts:852-899 | A row rewrite keeps the table's length and every identity at its position. |
| Store.ApplyAllAppend | app/database/admin/data_operator/index.ts:827-851 | A batch is its first part followed by its second part. It is rejected when either part is rejected. |
| Store.UpdatesApply | app/database/admin/data_operator/index.ts:827-851 | Updates of records present in their table are never rejected. |
| Store.CreatesAndDestroysApply | app/database/admin/data_operator/index.ts:827-851 | A batch of creates and of destroys of distinct present records is never rejected. |
| Reconcile.SanitizePosts | app/database/admin/data_operator/utils/index.ts:31-56 | The posts are split into those listed in `orders` and the rest. Input order is kept, every post lands in exactly one list, and the two lists together are a permutation of the input. |
| Reconcile.OrderedMembers | app/database/admin/data_operator/utils/index.ts:31-56 | A post is in the ordered list exactly when it is in the input with a non-empty id listed in the order. |
| Reconcile.UnorderedMembers | app/database/admin/data_operator/utils/index.ts:31-56 | A post is in the unordered list exactly when it is in the input and not ordered. |
| Reconcile.SplitCounts | app/database/admin/data_operator/utils/index.ts:31-56 | Together, the two lists hold every input post exactly as often as the input does. |
| Reconcile.SplitIsPartition | app/database/admin/data_operator/utils/index.ts:31-56 | A post is ordered exactly when its id is non-empty and listed. The ordered and unordered posts together are a permutation of the input. |
| Reconcile.IndexOf | app/database/admin/data_operator/utils/index.ts:63-65 | `findIndex` gives the first position holding the id, or -1 exactly when the id is absent. |
| Reconcile.CreatePostsChain | app/database/admin/data_operator/utils/index.ts:58-78 | The loop builds the chain specification: one linked post per raw post found in `orders`, never more posts than were given. |
| Reconcile.ChainLength | app/database/admin/data_operator/utils/index.ts:58-78 | The chain has exactly one entry per raw post whose id occurs in `orders`. |
| Reconcile.ChainAt | app/database/admin/data_operator/utils/index.ts:58-78 | Entry i of the chain is the i-th found raw post with its `prev_post_id` set. The link is the id before it in `orders`, or `previousPostId` at position 0. |
| Reconcile.ChainFollowsOrders | app/database/admin/data_operator/utils/index.ts:58-78 | With distinct order ids, a chained post at order position i links to `orders[i-1]`, and the first one links to `previousPostId`. |
| Reconcile.SanitizeReactions | app/database/admin/data_operator/utils/index.ts:90-145 | A raw reaction is created exactly when no stored reaction of the post has the same user and emoji. The emoji names of the created reactions are each listed once. The stored reactions that no raw reaction matched are deleted. |
| Reconcile.FirstMatch | app/database/admin/data_operator/utils/index.ts:107-112 | The first stored reaction with the raw reaction's user and emoji, or -1 exactly when there is none. |
| Reconcile.EmojiSetFacts | app/database/admin/data_operator/utils/index.ts:101-133 | The emoji set holds exactly the emoji names of the created reactions, without repetition. |
| Reconcile.SimilarSound | app/database/admin/data_operator/utils/index.ts:103-124 | Every reaction marked similar matches some raw reaction. |
| Reconcile.SimilarComplete | app/database/admin/data_operator/utils/index.ts:103-124 | The first stored match of every raw reaction is marked similar. |
| Reconcile.OutcastMembers | app/database/admin/data_operator/utils/index.ts:127-129 | The reactions to delete are exactly the stored reactions that are not similar. |
| Reconcile.DeletedIffUnmatched | app/database/admin/data_operator/utils/index.ts:90-145 | Given distinct (user, emoji) pairs in the store, a stored reaction is deleted exactly when no raw reaction has its user and emoji. |
| Reconcile.CreatedIffUnmatched | app/database/admin/data_operator/utils/index.ts:90-145 | A raw reaction is created exactly when no stored reaction matches it. |
| Reconcile.UnmatchedMembers | app/database/admin/data_operator/utils/index.ts:103-124 | The unmatched raw reactions are exactly those whose first match is -1. |
| Reconcile.SimilarUpdateAtOnlyForPosts | app/database/admin/data_operator/utils/index.ts:160-180 | The answer is true only for a post whose `update_at` equals the record's. It is false for users, because their branch is unreachable, and for every other table. |
| Engine.GetDatabaseRoutes | app/database/admin/data_operator/index.ts:930-975 | A default-schema table is served by the default connection and every other table by the server connection. A missing connection is a connection error. A write to one connection is read back there and leaves the other untouched. |
| Engine.CommitOutcome | app/database/admin/data_operator/index.ts:827-851 | A batch commits exactly when it is non-empty and the store accepts every mutation. An empty batch is an error. A committed batch keeps the identities valid. |
| Engine.PreparedBatchAccepted | app/database/admin/data_operator/index.ts:852-899 | A prepared batch whose updates all name stored records is never rejected. |
| Engine.BaseOutcome | app/database/admin/data_operator/index.ts:900-929 | handleBase throws exactly when the table's connection is missing. Otherwise the creates and updates are committed on that connection. |
| Engine.OneOfsTruthy | app/database/admin/data_operator/index.ts:764-775 | The lookup keys are exactly the truthy key values of the raw values. |
| Engine.FindExisting | app/database/admin/data_operator/index.ts:790-794 | The first existing record the comparator accepts, or -1 exactly when none does. |
| Engine.ClassifySizes | app/database/admin/data_operator/index.ts:786-817 | Every raw value is either created or updated: never both, never dropped. |
| Engine.OneOfsStep | app/database/admin/data_operator/index.ts:765-771 | One more raw value adds its key value to the lookup keys exactly when that value is truthy. |
| Engine.PartitionStep | app/database/admin/data_operator/index.ts:789-806 | One more raw value joins the updates, paired with its first match, unless it has no match or the match has the same update_at. Then it joins the creates. |
| Engine.PartitionSizes | app/database/admin/data_operator/index.ts:789-808 | Per-value split: creates plus updates is the number of raw values. |
| Engine.ClassifyMembers | app/database/admin/data_operator/index.ts:786-817 | A raw value is an update exactly when its first matching record has a different `update_at`. Otherwise it is a create, and every update names that first match. |
| Engine.PartitionMembers | app/database/admin/data_operator/index.ts:789-808 | The same membership statement for the per-value loop. |
| Engine.DecideMeaning | app/database/admin/data_operator/index.ts:795-806 | An update names the first matching record, and that record's `update_at` differs. There is no update when nothing matches or `update_at` is equal. |
| Engine.EqualUpdateAtRecreated | app/database/admin/data_operator/index.ts:795-806 | A post whose matching record has the same `update_at` is prepared as a create and never as an update. |
| Engine.NoMatchAllCreates | app/database/admin/data_operator/index.ts:786-817 | When no existing record matches, every raw value is created, in order. |
| Engine.NoMatchPartition | app/database/admin/data_operator/index.ts:789-808 | The per-value loop creates every value when nothing matches. |
| Engine.UpdatesTargetExisting | app/database/admin/data_operator/index.ts:795-802 | Every update targets one of the fetched existing records. |
| Engine.EntityOutcome | app/database/admin/data_operator/index.ts:731-762 | No raw values means no change. Otherwise the handler throws exactly when the connection is missing, and else commits the split's creates and updates. |
| Engine.IsolatedTables | app/database/admin/data_operator/index.ts:112-174 | The six isolated tables (App, Global, Servers, Role, System, TermsOfService) are keyed by their lookup column. Any other table throws without touching a database. |
| Handlers.CreatedInCreates | app/database/admin/data_operator/index.ts:852-899 | Preparing creates only yields a create for each row, in order, in that table. |
| Handlers.BaseCreatesLand | app/database/admin/data_operator/index.ts:900-929 | handleBase with creates throws exactly when the connection is missing. Otherwise the rows are appended to the table in order. |
| Handlers.OutcastsUnique | app/database/admin/data_operator/utils/index.ts:127-129 | The reactions to delete are distinct stored records. |
| Handlers.ReactionBatchAccepted | app/database/admin/data_operator/index.ts:196-253 | The reaction batch (creates, destroys of the outcasts, emoji creates) is never rejected by a valid store. |
| Handlers.ReactionBatchNoUpdates | app/database/admin/data_operator/index.ts:214-231 | The reaction batch prepares creates and destroys only, never an update. |
| Handlers.ReactionDestroysPresent | app/database/admin/data_operator/index.ts:196-231 | Every reaction the batch destroys is one of the stored reactions of the post. |
| Handlers.ReactionDestroysDistinct | app/database/admin/data_operator/index.ts:196-231 | No stored reaction is destroyed twice in the batch. |
| Handlers.ReactionBatchDestroys | app/database/admin/data_operator/index.ts:214-231 | The batch's destroys are exactly the outcasts, in order, after the reaction creates. |
| Handlers.ReactionsOutcome | app/database/admin/data_operator/index.ts:196-253 | Committing handleReactions throws exactly when there are reactions and the server connection is missing. |
| Handlers.FilesLand | app/database/admin/data_operator/index.ts:254-288 | Committed files are appended to the file table in order, and the commit succeeds. |
| Handlers.MetadataRowsShape | app/database/admin/data_operator/index.ts:289-313 | There is one metadata row per image entry and one per embed. An image row carries the first image with its key as `url`. Every embed row comes from some embed of its post. |
| Handlers.EmbedRowsShape | app/database/admin/data_operator/index.ts:303-313 | There is one embed row per embed, and every embed row comes from an embed of its post, typed and attributed to that post. |
| Handlers.EmbedRowAt | app/database/admin/data_operator/index.ts:303-313 | One row per embed in forEach order: the j-th embed of the k-th post is the row right after the rows of the posts before it, with that embed's data and type and the post's id. |
| Handlers.MetadataRowAt | app/database/admin/data_operator/index.ts:289-313 | The embed rows come after the image rows in forEach order: the j-th embed of the k-th post is at the number of image entries plus the embeds of the posts before it plus j. |
| Handlers.LatestBounds | app/database/admin/data_operator/index.ts:360-376 | The latest value is at least 0, no thread post is later, and it is 0 or some thread post's `create_at`. |
| Handlers.ThreadsLand | app/database/admin/data_operator/index.ts:346-398 | handlePostsInThread throws exactly when the server connection is missing. Otherwise it appends one thread row per root, each carrying the latest `create_at` of all the fetched thread posts. |
| Handlers.FirstMinIndex | app/database/admin/data_operator/index.ts:407-422 | The element a stable ascending sort puts first: a minimum, with no equal minimum before it. |
| Handlers.MaxOf | app/database/admin/data_operator/index.ts:407-422 | The element a stable ascending sort puts last: a maximum that occurs in the list. |
| Handlers.ChainBounds | app/database/admin/data_operator/index.ts:407-422 | The chain's tip has the smallest `create_at`, `latest` is the largest, and both occur in the chain. |
| Handlers.FirstLeastAbove | app/database/admin/data_operator/index.ts:447-465 | The chunk with the least earliest strictly above the chain's earliest, the first on ties, or -1 exactly when no chunk starts later. |
| Handlers.PlanCases | app/database/admin/data_operator/index.ts:441-495 | A new chunk is planned when no chunk starts later or the tip's link differs. With no stored post at the earliest instant nothing changes. Otherwise the least later chunk is lowered to the chain's earliest. |
| Handlers.LowerOnlyEarliest | app/database/admin/data_operator/index.ts:480-486 | Lowering a chunk rewrites only its `earliest`, in place, and keeps the store valid. |
| Handlers.ChannelOutcome | app/database/admin/data_operator/index.ts:399-498 | An empty chain does nothing. The handler throws only when the server connection is missing. A planned chunk is appended, and a lowered chunk is rewritten. |
| Handlers.CollectMembers | app/database/admin/data_operator/index.ts:555-588 | Exactly the posts whose id is their root id open a thread. The reactions gathered are exactly those of the posts that have metadata. |
| Handlers.PostsEmptyOrders | app/database/admin/data_operator/index.ts:511-516 | An empty order list throws before either connection is touched. |
| Handlers.PostsBatchLeadsWithChain | app/database/admin/data_operator/index.ts:533-552 | The posts batch begins with the chained posts. Each one is a create of the post linked to the id before it in `orders`. |
| DataOperatorModel.DataOperator.constructor | app/database/admin/data_operator/index.ts:930-975 | The operator starts with the given connections and comparator. |
| DataOperatorModel.DataOperator.SetState | app/database/admin/data_operator/index.ts:930-975 | The connections are replaced. |
| DataOperatorModel.DataOperator.BatchOperations | app/database/admin/data_operator/index.ts:827-851 | The connection of the table becomes the committed store, or the error is returned and the state is unchanged. |
| DataOperatorModel.DataOperator.HandleBase | app/database/admin/data_operator/index.ts:900-929 | The connections and outcome are those of handleBase (see BaseOutcome). |
| DataOperatorModel.GetOneOfs | app/database/admin/data_operator/index.ts:764-773 | The reduce collects the truthy lookup-column values in raw-value order (see OneOfsTruthy). |
| DataOperatorModel.DataOperator.GetCreateUpdateRecords | app/database/admin/data_operator/index.ts:763-817 | The key lookup, existing-record query and split loop compute the create/update split (see ClassifyMembers). |
| DataOperatorModel.DataOperator.HandleEntityRecords | app/database/admin/data_operator/index.ts:731-762 | The new state and outcome are those of handleEntityRecords (see EntityOutcome). |
| DataOperatorModel.DataOperator.HandleIsolatedEntity | app/database/admin/data_operator/index.ts:112-174 | The new state and outcome are those of the isolated-entity dispatch (see IsolatedTables). |
| DataOperatorModel.DataOperator.HandleDraft | app/database/admin/data_operator/index.ts:175-195 | Drafts are reconciled by `channel_id`. |
| DataOperatorModel.DataOperator.HandleUsers | app/database/admin/data_operator/index.ts:636-650 | Users are reconciled by `id`. |
| DataOperatorModel.DataOperator.HandlePreferences | app/database/admin/data_operator/index.ts:651-665 | Preferences are reconciled by `user_id`. |
| DataOperatorModel.DataOperator.HandleTeamMemberships | app/database/admin/data_operator/index.ts:666-680 | Team memberships are reconciled by `user_id`. |
| DataOperatorModel.DataOperator.HandleCustomEmojis | app/database/admin/data_operator/index.ts:681-695 | Custom emojis are reconciled by `name`. |
| DataOperatorModel.DataOperator.HandleGroupMembership | app/database/admin/data_operator/index.ts:696-710 | Group memberships are reconciled by `user_id`. |
| DataOperatorModel.DataOperator.HandleChannelMembership | app/database/admin/data_operator/index.ts:711-730 | Channel memberships are reconciled by `user_id`. |
| DataOperatorModel.DataOperator.HandleReactions | app/database/admin/data_operator/index.ts:196-253 | With prepareRowsOnly the state is unchanged and the prepared reaction batch is returned. Otherwise the batch is committed and nothing is returned. |
| DataOperatorModel.DataOperator.HandleFiles | app/database/admin/data_operator/index.ts:254-288 | With prepareRowsOnly the state is unchanged and one create per file is returned. Otherwise the files are committed. |
| DataOperatorModel.DataOperator.HandlePostMetadata | app/database/admin/data_operator/index.ts:289-345 | With prepareRowsOnly the state is unchanged and one create per metadata row is returned. Otherwise the rows are committed. |
| DataOperatorModel.DataOperator.HandlePostsInThread | app/database/admin/data_operator/index.ts:346-392 | The new state and outcome are those of ThreadsLand. |
| DataOperatorModel.DataOperator.HandlePostsInChannel | app/database/admin/data_operator/index.ts:399-498 | The new state and outcome are those of ChannelOutcome. |
| DataOperatorModel.DataOperator.HandlePosts | app/database/admin/data_operator/index.ts:508-629 | An empty order list throws. The chained posts and their reactions, files and metadata are committed as one batch. Then the custom emojis, threads and channel chunk are handled, and the unordered posts are reconciled by id. |
| DataOperatorModel.BuildMetadata | app/database/admin/data_operator/index.ts:289-313 | The two loops produce one row per image entry and one per embed, in order (see MetadataRowsShape). |
| DataOperatorModel.ThreadRowsFor | app/database/admin/data_operator/index.ts:360-376 | One thread row per root, in order, each with the running maximum of the thread posts. |
| DataOperatorModel.LatestCreateAt | app/database/admin/data_operator/index.ts:362-372 | The running maximum is at least 0 and no thread post is later. |
| DataOperatorModel.CollectRelated | app/database/admin/data_operator/index.ts:555-588 | The loop over ordered posts gathers the thread roots, reactions, emojis, files, images and embeds (see CollectMembers). |
| JsValues.Put | app/store/middleware.js:152-154 | `obj[k] = v`: k reads back as v, every other key is unchanged, an existing key keeps its place, and a new key goes last. |
| JsValues.MergeLookup | service/reducers/entities/files.js:10-12 | In `{...a, ...b}`, a key of `b` reads `b`'s value and any other key reads `a`'s. |
| JsValues.IndexOf | app/store/middleware.js:211-213 | `indexOf` gives the first position holding the value, or -1 exactly when it is absent. |
| JsValues.RemoveAt | app/store/middleware.js:213 | `splice(i, 1)` removes exactly one occurrence of the element at i. The elements before i keep their places, and those after it move down by one. |
| JsValues.RemoveFirstFound | app/store/middleware.js:211-213 | Splicing out the index that `indexOf` finds removes the first occurrence of the id, and the rest of the list keeps its order. |
| Middleware.LastChannelForTeam | app/store/middleware.js:147-158 | The copy keeps the stored keys. When any value is not an array, every value is wrapped in a one-element array. Otherwise the copy equals the stored map. |
| Middleware.ResetShape | app/store/middleware.js:38-145 | The reset payload is built from the app stamp, the kept entities and the kept views. |
| Middleware.ResetEntitiesUsers | app/store/middleware.js:56-67 | The reset's users slice is computed from the stored users slice. |
| Middleware.ResetUsersShape | app/store/middleware.js:56-67 | With a current user, the users slice holds just that id and that user's profile. Otherwise it is the initial slice. |
| Middleware.ResetKeepsOnlyCurrentUser | app/store/middleware.js:38-145 | After an upgrade only the current user and their profile survive, or the initial users slice when there is no current user. |
| Middleware.ResetAppFacts | app/store/middleware.js:111-115 | The reset state carries the device's build and version. |
| Middleware.ResetIsCurrent | app/store/middleware.js:10-36 | A reset state is not seen as a new version again, and its entities and views are present. |
| Middleware.ListFor | app/store/middleware.js:187-194 | The kept list is a prefix of the stored one: all of it for the current channel under keepCurrent, else the first 60. |
| Middleware.CollectSnoc | app/store/middleware.js:182-201 | The reduce over the channel ids takes one step per id. |
| Middleware.CollectUnique | app/store/middleware.js:182-201 | A channel met twice is kept once. The post ids to keep are the kept lists, one after the other. |
| Middleware.CollectSound | app/store/middleware.js:182-201 | Every kept list belongs to one of the channel ids, which has a stored list. |
| Middleware.CollectComplete | app/store/middleware.js:182-201 | Every channel id with a stored list is kept. |
| Middleware.FirstHolder | app/store/middleware.js:234-243 | The first kept list holding the post id, or -1 exactly when no list holds it. |
| Middleware.CopyFiles | app/store/middleware.js:228-230 | Every file id referenced is present after the copy, with the stored file or undefined. |
| Middleware.KeepStepCopies | app/store/middleware.js:203-245 | One step keeps everything copied equal to the stored value and keeps no missing or expired post. |
| Middleware.KeepStepGrows | app/store/middleware.js:203-245 | A post already kept with its data stays kept after another step. |
| Middleware.KeepSnoc | app/store/middleware.js:203-245 | The forEach takes one step per post id. |
| Middleware.KeepCopies | app/store/middleware.js:203-245 | Every kept post, reaction, file-id list and file is the stored value under the same key. No missing or expired post is kept. |
| Middleware.KeepComplete | app/store/middleware.js:203-245 | Every live post to keep is kept with its reactions, its file ids and its files. |
| Middleware.KeepListKeys | app/store/middleware.js:203-245 | The kept channels keep their keys and order. |
| Middleware.SpliceShrinks | app/store/middleware.js:210-214 | The splice of an expired post only removes ids: every list keeps its place and loses elements or stays as it was. |
| Middleware.DropShrinks | app/store/middleware.js:232-244 | The splice of a missing post only removes ids, in the same sense. |
| Middleware.KeepStepShrinks | app/store/middleware.js:203-245 | One pass of the forEach only removes ids from the kept lists. |
| Middleware.KeepListsShrink | app/store/middleware.js:203-245 | After the whole forEach there are as many kept lists as before, and each list's ids are a sub-multiset of its ids before: the lists only shrink. |
| Middleware.ExpiredStep | app/store/middleware.js:206-216 | An expired post removes the first occurrence of its id from its own channel's list, and the rest of that list keeps its order. Nothing else changes. |
| Middleware.MissingStep | app/store/middleware.js:232-244 | A post the store lacks leaves the first list holding it: its first occurrence is removed and the rest of that list keeps its order. The lists before that one do not hold it, and nothing else changes. |
| Middleware.NextPostsPaths | app/store/middleware.js:166-174 | The trimmed posts, channel lists and reactions sit under the posts slice. |
| Middleware.NextFilesPaths | app/store/middleware.js:175-178 | The trimmed files and file-id lists sit under the files slice. |
| Middleware.CleanupKeepsUsers | app/store/middleware.js:257 | The trimmed state's users slice is the stored users slice, not the reset one. |
| Middleware.CleanupEntitiesPaths | app/store/middleware.js:247-258 | The next entities carry the trimmed posts and files and the stored users. |
| Middleware.CleanupPayloadEntities | app/store/middleware.js:247-268 | The next payload's entities combine the stored state with the reset's entities. |
| Middleware.CleanupPaths | app/store/middleware.js:247-275 | The trimmed action is a rehydrate whose posts, channel lists, reactions, files and file ids are the trimmed ones, and whose users are the stored ones. |
| Middleware.CollectKept | app/store/middleware.js:182-201 | The two nested reduces compute the kept lists and the post ids to keep (see CollectUnique). |
| Middleware.CollectStepShape | app/store/middleware.js:183-199 | A new channel with a stored list adds its kept list. Otherwise the accumulator is unchanged. |
| Middleware.CollectTeam | app/store/middleware.js:183-199 | The inner reduce continues the collection over one team's channel ids. |
| Middleware.CopyFileEntries | app/store/middleware.js:228-230 | The inner forEach copies every referenced file (see CopyFiles). |
| Middleware.DropMissingPost | app/store/middleware.js:234-243 | The search removes the missing post's id from the first list holding it (see MissingStep). |
| Middleware.KeepPost | app/store/middleware.js:204-244 | One pass of the forEach (see ExpiredStep, MissingStep and KeepStepCopies). |
| Middleware.KeepPosts | app/store/middleware.js:203-245 | The forEach over the post ids to keep (see KeepCopies and KeepComplete). |
| Middleware.CleanupState | app/store/middleware.js:160-275 | The trimmed rehydrate action (see CleanupPaths). |
| Middleware.MessageRetention | app/store/middleware.js:10-36 | Other actions and rehydrates without entities or views pass through unchanged. A new version resets the state; otherwise the rehydrate is trimmed. A data cleanup is trimmed with the current channel kept whole. |
| EmojiUtils.EmojiKindsByKey | app/mm-redux/utils/emoji_utils.ts:7-13 | An emoji is a system emoji exactly when it has a `batch` key, and custom exactly when it has an `id` key, whatever their values. |
| EmojiUtils.RunEnd | app/mm-redux/utils/emoji_utils.ts:29 | The greedy run of `[A-Za-z0-9_-]` characters stops at the end of the text or at the first character outside the class. |
| EmojiUtils.RunChars | app/mm-redux/utils/emoji_utils.ts:29 | Every character inside the run is in the class `[A-Za-z0-9_-]`. |
| EmojiUtils.MatchAt | app/mm-redux/utils/emoji_utils.ts:29 | A match at i is a colon, one or more name characters and a closing colon. The closing colon is the one that ends the greedy run. |
| EmojiUtils.Exec | app/mm-redux/utils/emoji_utils.ts:32 | A match `exec` returns starts at or after `lastIndex` and is a real match of the pattern. |
| EmojiUtils.ExecNone | app/mm-redux/utils/emoji_utils.ts:32 | When `exec` returns null, no position at or after `lastIndex` starts a match. |
| EmojiUtils.ExecNoColon | app/mm-redux/utils/emoji_utils.ts:25-27 | Text without a colon has no match from any position. |
| EmojiUtils.NoColonNoMatches | app/mm-redux/utils/emoji_utils.ts:25-27 | The early return for text without a colon agrees with the scan. |
| EmojiUtils.MatchesAreNames | app/mm-redux/utils/emoji_utils.ts:29-48 | Every captured name is a non-empty run of name characters between two colons of the text. |
| EmojiUtils.ClosingColonIsConsumed | app/mm-redux/utils/emoji_utils.ts:29-32 | Matches do not overlap: `:a:b:` yields only `a`. |
| EmojiUtils.NeededMembers | app/mm-redux/utils/emoji_utils.ts:37-47 | A name is kept exactly when it was captured, is not known to be missing, and is not loaded. |
| EmojiUtils.MatchesStep | app/mm-redux/utils/emoji_utils.ts:32 | After a match, the captures are its name followed by those found after its closing colon, where `lastIndex` now points. |
| EmojiUtils.ScanStep | app/mm-redux/utils/emoji_utils.ts:37-47 | One iteration either skips a missing or loaded name or adds it, and the names gathered plus those still to come remain the whole answer. |
| EmojiUtils.ParseNeededCustomEmojisFromText | app/mm-redux/utils/emoji_utils.ts:24-51 | The result is the set of names kept from all the captures of the global scan, including after the early return for text without a colon. By NeededMembers, these are exactly the captured names that are neither known missing nor loaded. |
| FilesReducer.Files | service/reducers/entities/files.js:7-19 | Received files win over the slice's entries, and every other entry keeps its value and key. Logout empties the slice, and other actions return it as it was. |
| FilesReducer.PostKeyOf | service/reducers/entities/files.js:24-26 | The post key exists exactly when the data is an object whose first value is neither null nor undefined. It is that value's `post_id` as a property key. |
| FilesReducer.KeyArray | service/reducers/entities/files.js:24 | `Object.keys` gives one string per field, in order. |
| FilesReducer.FileIdsByPostId | service/reducers/entities/files.js:21-37 | On receipt, the post's entry is the array of file ids, and every other post's entry is unchanged. An unreadable first file throws. Logout empties the slice, and other actions return it as it was. |
| FilesReducer.Reduce | service/reducers/entities/files.js:39-42 | The combined reducer succeeds exactly when fileIdsByPostId does. Logout empties both slices, and other actions return the state as it was. |
| Command.CommandEnd | app/actions/views/command.ts:32-35 | The command token ends at the first space, or at the end of the message when there is none. |
| Command.Normalized | app/actions/views/command.ts:37-38 | The normalised message has the same length: the token lower-cased, then the rest unchanged. |
| Command.NormalizeCommand | app/actions/views/command.ts:30-38 | The reassignments compute the token length and the normalised message. |
| Command.SameCommandEnd | app/actions/views/command.ts:32-35 | Messages with spaces at the same places have the same token end. |
| Command.NormalizeIdempotent | app/actions/views/command.ts:30-38 | Normalising twice is the same as normalising once. |
| Command.ExecuteCommand | app/actions/views/command.ts:40-65 | An app command without a call gives 'Error submitting command'. An app call's `data.error` becomes the error, otherwise its result is returned. A server command returns its data and error and dispatches a truthy `trigger_id`; a null or undefined dispatch result throws. |
| ClientBase.ExtendUnderApiVersion | app/client/rest/base.ts:84-226 | Extending a route under `/api/v4` keeps it under `/api/v4`. |
| ClientBase.TopRoutesUnderApiVersion | app/client/rest/base.ts:84-226 | Every top-level route except OAuth and the apps proxy starts with `/api/v4`. |
| ClientBase.RoutesUnderApiVersion | app/client/rest/base.ts:60-62 | A route starts with `/api/v4` exactly when it is neither the OAuth route nor the apps proxy. |
| ClientBase.MemberRoutesUnderApiVersion | app/client/rest/base.ts:84-226 | Every member route (of a team or channel) starts with `/api/v4`. |
| ClientBase.ItemRoutesUnderApiVersion | app/client/rest/base.ts:84-226 | Every route for one user, post or file, and every preferences route, starts with `/api/v4`. |
| ClientBase.ResourceRoutesUnderApiVersion | app/client/rest/base.ts:84-226 | Every route for one OAuth app, emoji or bot, and the brand image route, starts with `/api/v4`. |
| ClientBase.TeamMemberRoute | app/client/rest/base.ts:92-110 | A team member route is `/api/v4/teams/{team}/members/{user}`. |
| ClientBase.ChannelMemberRoute | app/client/rest/base.ts:116-126 | A channel member route is `/api/v4/channels/{channel}/members/{user}`. |
| ClientBase.PreferencesRoute | app/client/rest/base.ts:152-154 | A preferences route is `/api/v4/users/{user}/preferences`. |
| ClientBase.SelectRequest | app/client/rest/base.ts:228-255 | A request function is chosen exactly when the method lower-cases to get, put, post, patch or delete. A missing or unknown method is 'Invalid request method', and a method that is not a string throws. |
| ClientBase.AnnouncedVersion | app/client/rest/base.ts:272-279 | The server version is the exact-name header or its lower-case form, whichever is truthy first. It is recorded only without a `Cache-Control` header. |
| ClientBase.ResponseError | app/client/rest/base.ts:285-290 | The error carries the response's message (or ''), its error id, its status code and the url. |
| ClientBase.OptionsHeaders | app/client/rest/base.ts:40-52 | The CSRF header is present only for a non-GET method with a token. Given headers override it, and every other header is a given one. |
| ClientBase.Client.constructor | app/client/rest/base.ts:14-33 | A new client has an empty CSRF token and an empty server version. |
| ClientBase.Client.SetCSRF | app/client/rest/base.ts:70-72 | The token is replaced and the server version is kept. |
| ClientBase.Client.GetOptions | app/client/rest/base.ts:37-58 | The options pass through with `headers` replaced by a header object. A truthy method that is not a string throws. |
| ClientBase.Client.DoFetch | app/client/rest/base.ts:228-291 | A method that is not a string, undefined or null throws a TypeError (not a ClientError). A missing or unknown method throws the 'Invalid request method' ClientError, and a failed request throws its own ClientError. A non-ok response gives ResponseError, and an ok one is returned. The server version is updated only from an announced version. |

## Left out

- The network half of `doFetch` is not modelled: the request itself becomes the `response` parameter (None when it throws). The analytics, the underlying client and its `baseUrl` are left out.
- `setAcceptLanguage`, `setDiagnosticId` and `setEnableLogging` (base.ts 66-80) only store a value that nothing in the model reads, so they are not modelled.
- The header names `HEADER_X_CSRF_TOKEN` and `HEADER_X_VERSION_ID` come from a constants file that is not part of this model. They are constructor parameters of `Client`.
- `getEmojiImageUrl` (emoji_utils.ts 15-22) is not modelled: it calls the REST client's emoji routes through the `Client4` singleton, which is not part of this model.
- JsValues.Lower and JsValues.LowerChar lower-case ASCII letters only. Unicode case mapping (`toLowerCase`, `toLocaleLowerCase`) is not modelled.
- The database manager, WatermelonDB's collections, `database.action` and its record operators are not part of this model. A prepared record is the raw row it was prepared from, and `batch` is an atomic apply over the `Store` value.
- Store.ApplyMutation: the rule for which batches the store accepts is the model's own. Every create is accepted and takes a fresh local id; only an update or a destroy of an id that is not stored is rejected. The rows that say a batch "is never rejected", that a commit succeeds, or that a handler throws exactly when its connection is missing (Store.CreateStep, Store.CreatesApply, Engine.BaseOutcome, Engine.EntityOutcome, Handlers.BaseCreatesLand, Handlers.ReactionsOutcome, Handlers.FilesLand, Handlers.ThreadsLand, Handlers.ChannelOutcome) hold under this rule only. Storage and I/O failures of `database.batch`, which index.ts:827-840 turns into a DataOperatorException, are never raised. A post that is already stored is created again by handlePosts (the open question at index.ts:541); the model then stores a second record for it, where the database might reject the batch.
- EmojiUtils.ParseNeededCustomEmojisFromText: the result is a `set<string>`, so the order of the JavaScript `Set` (emoji_utils.ts:30, 47), which iterates names in the order they were first captured, is not modelled.
- Comparators (`comparePostRecord` and the others) are not part of this model. They are the `compare` field of the operator, a function of the table, the stored record and the raw value.
- The `await`ed calls of a handler run one after another in the model. Interleaving between concurrent handlers is not modelled.
- Sorting in handlePostsInChannel is modelled by its result (the first minimum, the maximum, and the least later chunk), not by a sort routine.
- The `!database` branch of prepareBase (index.ts 852-899) cannot be reached once getDatabase has returned, so it is not modelled.
- The `childPosts` array of handlePostsInThread is built but never read, so it is not modelled.
- `findMatchingRecords` (utils 146-149) is modelled by the `Where`/`WhereOneOf` queries it runs.
- Table names other than those the handlers write are not modelled; a table is a constructor of `Store.Table`.
- Engine.TableName: the table-name strings are the model's own, because the constants file that defines them is not part of this model. `handleIsolatedEntity` takes any string and throws in its default case (index.ts:154-156); the model takes a `Table`, so the error is modelled only for the other known tables, not for an unknown name.
- JsValues.Put: JavaScript lists integer-like keys ("0", "42") first, in ascending order, before the other keys in insertion order. The model keeps every key in insertion order. The order matters for the team-list reduce (middleware.js:149-152, 182), the search for the first list holding a missing post (middleware.js:234, Middleware.FirstHolder) and the post keys of the files reducer (files.js:24-26). Ids are 26-character strings and never integer-like, so this only differs on inputs the app does not produce.
- An image entry without images gives a metadata row with no data fields; the `url: undefined` key is not modelled.
- Floating point is not modelled. Times are integers, and the retention test compares `now - create_at` with the period in days times 86400000, which agrees with the division in middleware.js for integer inputs.
- Middleware.Numeric reads numbers, null and booleans as JavaScript arithmetic does. A string `create_at` is read as NaN, so such a post never expires, rather than being parsed as a number.
- The device version and build, the retention configuration, the clock, `initialState` and `ViewTypes.DATA_CLEANUP` are inputs of the middleware (`Env`), not read from the device or configuration files.
- Some payloads make the middleware's property reads throw. The model reads undefined (or `{}`) instead and carries on. This covers: rehydrate entities that lack `channels`, `posts` or `files`; views without `team`, since `getLastChannelForTeam` (middleware.js:148) reads `views.team.lastChannelForTeam` on both the reset and the cleanup path, where Middleware.LastChannelForTeam reads `{}`; users with a `currentUserId` but no `profiles` (middleware.js:63), where Middleware.ResetUsers stores undefined; and a DATA_CLEANUP action without entities or views, which middleware.js:29-31 passes to `cleanupState` without the guard of lines 16-18, where Middleware.MessageRetention gives the cleaned state.
- Under keepCurrent, `postIds` is the stored array itself, so the later `splice` mutates the stored list too. The model copies, so that aliasing is not captured.
- Spreading a string or an array into an object is treated as spreading nothing; only object fields are spread.
- Redux's `combineReducers` returns the previous state object when no slice changed. The model compares states by value, so object identity is not modelled.
- The files action types are modelled as the `FileAction` datatype, since their string constants are in a constants file that is not part of this model.
- The app-command parser, `doAppCall` and `executeCommandService` are function parameters of `ExecuteCommand`, and `AppCallTypes.SUBMIT` is the `submitType` parameter. The RECEIVED_DIALOG_TRIGGER_ID dispatch is the result's `triggerId`.
- The argument object (`channel_id`, `team_id`, `root_id`, `parent_id`) handed to `executeCommandService` is not modelled, because it does not influence the result.
- Object prototype keys (`toString` and the like) are not modelled; a property read only sees an object's own fields.
