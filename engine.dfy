/**
  The write path shared by every handler of the data operator: picking the
  connection a table lives in, preparing create/update records, the atomic
  batch, and the split of raw values into creates and updates against the
  records already stored (getCreateUpdateRecords).

  Everything here is a pure function of the two connections; the class in
  DataOperatorModel runs the same steps imperatively and is proved equal to
  these functions.
*/
module Engine {
  import opened Wrappers
  import opened Store
  import opened Reconcile

  datatype Error =
    | DataOperatorException(message: string, cause: string)
    | DatabaseConnectionException(message: string)

  /** The default connection and the active server connection; None when it cannot be retrieved. */
  datatype Dbs = Dbs(defaultDb: Option<Store>, serverDb: Option<Store>)

  /** The connections after a handler ran, and whether it threw. */
  datatype Effect = Effect(dbs: Dbs, outcome: Outcome<Error>)

  /** The tables of the default schema; every other table lives in the server database. */
  const DefaultTables: set<Table> := {App, Global, Servers}

  const DefaultDbError := "An error occurred while retrieving the default database"
  const ServerDbError := "An error occurred while retrieving the server database"

  /** getDatabase: the connection that holds `t`, or the connection error. */
  function GetDatabase(d: Dbs, t: Table): Result<Store, Error>
  {
    if t in DefaultTables then
      if d.defaultDb.Some? then Success(d.defaultDb.value)
      else Failure(DatabaseConnectionException(DefaultDbError))
    else if d.serverDb.Some? then Success(d.serverDb.value)
    else Failure(DatabaseConnectionException(ServerDbError))
  }

  /** Stores `s` back into the connection that holds `t`. */
  function Write(d: Dbs, t: Table, s: Store): Dbs
  {
    if t in DefaultTables then d.(defaultDb := Some(s)) else d.(serverDb := Some(s))
  }

  /**
    A connection error names the connection that is missing, and writing a
    table's connection is seen by every table of that connection and by no
    table of the other one.
  */
  lemma GetDatabaseRoutes(d: Dbs, t: Table, s: Store, t': Table)
    ensures GetDatabase(d, t).Failure? <==> (if t in DefaultTables then d.defaultDb.None? else d.serverDb.None?)
    ensures GetDatabase(d, t).Failure? ==>
      GetDatabase(d, t).error == DatabaseConnectionException(if t in DefaultTables then DefaultDbError else ServerDbError)
    ensures GetDatabase(Write(d, t, s), t) == Success(s)
    ensures (t in DefaultTables <==> t' in DefaultTables) ==> GetDatabase(Write(d, t, s), t') == Success(s)
    ensures (t in DefaultTables <==> t' !in DefaultTables) ==> GetDatabase(Write(d, t, s), t') == GetDatabase(d, t')
  {
  }

  // ---------------------------------------------------------------------------
  // batchOperations

  const BatchError := "batchOperations error "
  const EmptyBatch := "batchOperations does not process empty model array"
  const RejectedBatch := "the store rejected the batch"

  /** batchOperations: the whole batch in one action, or an exception wrapping the failure. */
  function Commit(db: Store, models: seq<Mutation>): Result<Store, Error>
  {
    if |models| == 0 then Failure(DataOperatorException(BatchError, EmptyBatch))
    else
      match ApplyAll(db, models)
      case None => Failure(DataOperatorException(BatchError, RejectedBatch))
      case Some(s) => Success(s)
  }

  /**
    The batch commits exactly when it is non-empty and the store accepts
    every mutation; every failure, the empty batch included, is a
    DataOperatorException with the same message; and a commit keeps the
    store's identities fresh and unique.
  */
  lemma CommitOutcome(db: Store, models: seq<Mutation>)
    ensures Commit(db, models).Success? <==> models != [] && ApplyAll(db, models).Some?
    ensures Commit(db, models).Success? ==> Commit(db, models).value == ApplyAll(db, models).value
    ensures Commit(db, models).Failure? ==>
      Commit(db, models).error.DataOperatorException? && Commit(db, models).error.message == BatchError
    ensures models == [] ==> Commit(db, models).error.cause == EmptyBatch
    ensures Valid(db) && Commit(db, models).Success? ==> Valid(Commit(db, models).value)
  {
    if Valid(db) && Commit(db, models).Success? {
      ApplyAllPreservesValid(db, models);
    }
  }

  /** Runs batchOperations on `db`, the connection of `t`, and stores the result back. */
  function Batch(d: Dbs, t: Table, db: Store, models: seq<Mutation>): Effect
  {
    match Commit(db, models)
    case Failure(e) => Effect(d, Fail(e))
    case Success(s) => Effect(Write(d, t, s), Pass)
  }

  // ---------------------------------------------------------------------------
  // prepareBase and handleBase

  /** A raw value matched to the stored record it will update. */
  datatype UpdatePair = UpdatePair(record: Record, raw: Row)

  /** prepareBase: the prepared creates, then the prepared updates. */
  function PrepareBase(t: Table, creates: seq<Row>, updates: seq<UpdatePair>): seq<Mutation>
  {
    seq(|creates|, i requires 0 <= i < |creates| => Create(t, creates[i]))
    + seq(|updates|, i requires 0 <= i < |updates| => Update(t, updates[i].record, updates[i].raw))
  }

  /** handleBase: prepares the records on the table's connection and commits them when there are any. */
  function BaseEffect(d: Dbs, t: Table, creates: seq<Row>, updates: seq<UpdatePair>): Effect
  {
    match GetDatabase(d, t)
    case Failure(e) => Effect(d, Fail(e))
    case Success(db) =>
      var models := PrepareBase(t, creates, updates);
      if |models| == 0 then Effect(d, Pass) else Batch(d, t, db, models)
  }

  /** A prepared batch whose updates all target stored records is never rejected. */
  lemma PreparedBatchAccepted(db: Store, t: Table, creates: seq<Row>, updates: seq<UpdatePair>)
    requires forall u :: u in updates ==> u.record in Rows(db, t)
    ensures ApplyAll(db, PrepareBase(t, creates, updates)).Some?
  {
    var cs := seq(|creates|, i requires 0 <= i < |creates| => Create(t, creates[i]));
    var us := seq(|updates|, i requires 0 <= i < |updates| => Update(t, updates[i].record, updates[i].raw));
    assert PrepareBase(t, creates, updates) == cs + us;
    ApplyAllAppend(db, cs, us);
    CreatesApply(db, cs);
    var s1 := ApplyAll(db, cs).value;
    forall i | 0 <= i < |us|
      ensures us[i].Update? && us[i].table == t && HasId(Rows(s1, t), us[i].target.id)
    {
      assert updates[i] in updates;
      CreatesKeep(db, cs, t, updates[i].record);
      var k :| 0 <= k < |Rows(s1, t)| && Rows(s1, t)[k] == updates[i].record;
      assert Rows(s1, t)[k].id == us[i].target.id;
    }
    UpdatesApply(s1, t, us);
  }

  /**
    handleBase throws only when the table's connection is missing; with a
    connection and updates of stored records it commits every prepared record.
  */
  lemma BaseOutcome(d: Dbs, t: Table, creates: seq<Row>, updates: seq<UpdatePair>)
    requires GetDatabase(d, t).Success? ==> forall u :: u in updates ==> u.record in Rows(GetDatabase(d, t).value, t)
    ensures BaseEffect(d, t, creates, updates).outcome.Fail? <==> GetDatabase(d, t).Failure?
    ensures GetDatabase(d, t).Success? && (creates != [] || updates != []) ==>
      BaseEffect(d, t, creates, updates).dbs
        == Write(d, t, ApplyAll(GetDatabase(d, t).value, PrepareBase(t, creates, updates)).value)
  {
    if GetDatabase(d, t).Success? {
      PreparedBatchAccepted(GetDatabase(d, t).value, t, creates, updates);
    }
  }

  // ---------------------------------------------------------------------------
  // getCreateUpdateRecords

  /** An entity comparator: does the stored record describe the same entity as the raw value? */
  type Comparator = (Table, Record, Row) -> bool

  /** getOneOfs: the truthy values of the key column among the raw values, in order. */
  function OneOfs(raws: seq<Row>, key: string): seq<Field>
  {
    if raws == [] then []
    else
      var last := raws[|raws| - 1];
      OneOfs(raws[..|raws| - 1], key) + (if Truthy(Get(last, key)) then [Get(last, key).value] else [])
  }

  /** One more raw value adds its key value when that value is truthy. */
  lemma OneOfsStep(raws: seq<Row>, i: nat, key: string)
    requires i < |raws|
    ensures OneOfs(raws[..i + 1], key)
         == OneOfs(raws[..i], key) + (if Truthy(Get(raws[i], key)) then [Get(raws[i], key).value] else [])
  {
    assert raws[..i + 1][..i] == raws[..i];
  }

  /** Only truthy key values reach the lookup, and every raw value's truthy key does. */
  lemma {:induction false} OneOfsTruthy(raws: seq<Row>, key: string)
    ensures forall v :: v in OneOfs(raws, key) <==> Truthy(Some(v)) && exists r :: r in raws && Get(r, key) == Some(v)
  {
    if raws != [] {
      var init := raws[..|raws| - 1];
      OneOfsTruthy(init, key);
      assert raws == init + [raws[|raws| - 1]];
    }
  }

  /** The stored records of `t` whose key column is one of the raw values' truthy keys. */
  function ExistingFor(db: Store, t: Table, key: string, raws: seq<Row>): seq<Record>
  {
    WhereOneOf(Rows(db, t), key, OneOfs(raws, key))
  }

  /** `findIndex` of the first existing record the comparator matches with `raw`, or -1. */
  function FindExisting(cmp: Comparator, t: Table, existing: seq<Record>, raw: Row): (k: int)
    ensures -1 <= k < |existing|
    ensures k >= 0 ==> cmp(t, existing[k], raw) && forall j :: 0 <= j < k ==> !cmp(t, existing[j], raw)
    ensures k == -1 <==> forall j :: 0 <= j < |existing| ==> !cmp(t, existing[j], raw)
  {
    if existing == [] then -1
    else if cmp(t, existing[0], raw) then 0
    else
      var k := FindExisting(cmp, t, existing[1..], raw);
      if k == -1 then -1 else k + 1
  }

  /** The record a raw value updates: its first match, unless that match has the same update_at. */
  function Decide(cmp: Comparator, t: Table, existing: seq<Record>, raw: Row): Option<Record>
  {
    var k := FindExisting(cmp, t, existing, raw);
    if k != -1 && !HasSimilarUpdateAt(t, raw, existing[k]) then Some(existing[k]) else None
  }

  datatype Split = Split(creates: seq<Row>, updates: seq<UpdatePair>)

  /** The per-value decision applied to every raw value, in order. */
  function Partition(cmp: Comparator, t: Table, existing: seq<Record>, raws: seq<Row>): Split
  {
    if raws == [] then Split([], [])
    else
      var last := raws[|raws| - 1];
      var prior := Partition(cmp, t, existing, raws[..|raws| - 1]);
      match Decide(cmp, t, existing, last)
      case Some(rec) => prior.(updates := prior.updates + [UpdatePair(rec, last)])
      case None => prior.(creates := prior.creates + [last])
  }

  /**
    One more raw value: it joins the updates, paired with its first match,
    unless there is no match or the match has the same update_at, in which
    case it joins the creates.
  */
  lemma PartitionStep(cmp: Comparator, t: Table, existing: seq<Record>, raws: seq<Row>, j: nat,
                      creates: seq<Row>, updates: seq<UpdatePair>)
    requires j < |raws|
    requires Split(creates, updates) == Partition(cmp, t, existing, raws[..j])
    ensures var k := FindExisting(cmp, t, existing, raws[j]);
      Partition(cmp, t, existing, raws[..j + 1])
        == if k != -1 && !HasSimilarUpdateAt(t, raws[j], existing[k])
           then Split(creates, updates + [UpdatePair(existing[k], raws[j])])
           else Split(creates + [raws[j]], updates)
  {
    assert raws[..j + 1][..j] == raws[..j];
  }

  /** With no existing record every raw value is created; otherwise each is decided on its own. */
  function Classify(cmp: Comparator, t: Table, existing: seq<Record>, raws: seq<Row>): Split
  {
    if |existing| > 0 then Partition(cmp, t, existing, raws) else Split(raws, [])
  }

  /** getCreateUpdateRecords: looks up the existing records on the table's connection and classifies. */
  function CreateUpdate(d: Dbs, cmp: Comparator, t: Table, key: string, raws: seq<Row>): Result<Split, Error>
  {
    match GetDatabase(d, t)
    case Failure(e) => Failure(e)
    case Success(db) => Success(Classify(cmp, t, ExistingFor(db, t, key, raws), raws))
  }

  /** Every raw value is either created or updated, never both and never dropped. */
  lemma {:induction false} ClassifySizes(cmp: Comparator, t: Table, existing: seq<Record>, raws: seq<Row>)
    ensures |Classify(cmp, t, existing, raws).creates| + |Classify(cmp, t, existing, raws).updates| == |raws|
  {
    if |existing| > 0 {
      PartitionSizes(cmp, t, existing, raws);
    }
  }

  lemma {:induction false} PartitionSizes(cmp: Comparator, t: Table, existing: seq<Record>, raws: seq<Row>)
    ensures |Partition(cmp, t, existing, raws).creates| + |Partition(cmp, t, existing, raws).updates| == |raws|
  {
    if raws != [] {
      PartitionSizes(cmp, t, existing, raws[..|raws| - 1]);
    }
  }

  /**
    A raw value is updated exactly when some existing record matches it and
    the first match does not carry the same update_at; the update targets
    that first match. Every other raw value is created.
  */
  lemma {:induction false} ClassifyMembers(cmp: Comparator, t: Table, existing: seq<Record>, raws: seq<Row>)
    ensures forall r :: r in Classify(cmp, t, existing, raws).creates <==>
      r in raws && Decide(cmp, t, existing, r).None?
    ensures forall u :: u in Classify(cmp, t, existing, raws).updates <==>
      u.raw in raws && Decide(cmp, t, existing, u.raw) == Some(u.record)
  {
    if |existing| > 0 {
      PartitionMembers(cmp, t, existing, raws);
    }
  }

  lemma {:induction false} PartitionMembers(cmp: Comparator, t: Table, existing: seq<Record>, raws: seq<Row>)
    ensures forall r :: r in Partition(cmp, t, existing, raws).creates <==>
      r in raws && Decide(cmp, t, existing, r).None?
    ensures forall u :: u in Partition(cmp, t, existing, raws).updates <==>
      u.raw in raws && Decide(cmp, t, existing, u.raw) == Some(u.record)
  {
    if raws != [] {
      var init := raws[..|raws| - 1];
      PartitionMembers(cmp, t, existing, init);
      assert raws == init + [raws[|raws| - 1]];
    }
  }

  /** What Decide means: an update names a matching existing record with a different update_at. */
  lemma DecideMeaning(cmp: Comparator, t: Table, existing: seq<Record>, raw: Row)
    ensures Decide(cmp, t, existing, raw).Some? ==>
      var rec := Decide(cmp, t, existing, raw).value;
      rec in existing && cmp(t, rec, raw) && !HasSimilarUpdateAt(t, raw, rec)
    ensures Decide(cmp, t, existing, raw).None? <==>
      (forall j :: 0 <= j < |existing| ==> !cmp(t, existing[j], raw))
      || HasSimilarUpdateAt(t, raw, existing[FindExisting(cmp, t, existing, raw)])
  {
  }

  /**
    A post matched by a stored post with the same update_at is not skipped:
    it goes to the creates, and so is prepared as a second record.
  */
  lemma EqualUpdateAtRecreated(cmp: Comparator, existing: seq<Record>, raws: seq<Row>, raw: Row, k: nat)
    requires raw in raws
    requires k < |existing| && cmp(Post, existing[k], raw)
    requires forall j :: 0 <= j < |existing| ==> Get(existing[j].row, "update_at") == Get(raw, "update_at")
    ensures raw in Classify(cmp, Post, existing, raws).creates
    ensures forall u :: u in Classify(cmp, Post, existing, raws).updates ==> u.raw != raw
  {
    ClassifyMembers(cmp, Post, existing, raws);
    SimilarUpdateAtOnlyForPosts(Post, raw, existing[FindExisting(cmp, Post, existing, raw)]);
  }

  /** When no existing record matches any raw value, every raw value is created, in order. */
  lemma {:induction false} NoMatchAllCreates(cmp: Comparator, t: Table, existing: seq<Record>, raws: seq<Row>)
    requires forall r, j :: r in raws && 0 <= j < |existing| ==> !cmp(t, existing[j], r)
    ensures Classify(cmp, t, existing, raws) == Split(raws, [])
  {
    if |existing| > 0 {
      NoMatchPartition(cmp, t, existing, raws);
    }
  }

  lemma {:induction false} NoMatchPartition(cmp: Comparator, t: Table, existing: seq<Record>, raws: seq<Row>)
    requires forall r, j :: r in raws && 0 <= j < |existing| ==> !cmp(t, existing[j], r)
    ensures Partition(cmp, t, existing, raws) == Split(raws, [])
  {
    if raws != [] {
      var init := raws[..|raws| - 1];
      var last := raws[|raws| - 1];
      assert raws == init + [last];
      assert last in raws;
      assert forall r :: r in init ==> r in raws;
      NoMatchPartition(cmp, t, existing, init);
      assert FindExisting(cmp, t, existing, last) == -1;
    }
  }

  /** Every update of the split targets one of the existing records. */
  lemma UpdatesTargetExisting(cmp: Comparator, t: Table, existing: seq<Record>, raws: seq<Row>)
    ensures forall u :: u in Classify(cmp, t, existing, raws).updates ==> u.record in existing
  {
    ClassifyMembers(cmp, t, existing, raws);
  }

  // ---------------------------------------------------------------------------
  // handleEntityRecords

  /** handleEntityRecords: nothing for no raw values; otherwise split, then handleBase. */
  function EntityEffect(d: Dbs, cmp: Comparator, t: Table, key: string, raws: seq<Row>): Effect
  {
    if raws == [] then Effect(d, Pass)
    else
      match CreateUpdate(d, cmp, t, key, raws)
      case Failure(e) => Effect(d, Fail(e))
      case Success(split) => BaseEffect(d, t, split.creates, split.updates)
  }

  /**
    handleEntityRecords throws only when the table's connection is missing;
    otherwise the store commits the creates and updates of the split.
  */
  lemma EntityOutcome(d: Dbs, cmp: Comparator, t: Table, key: string, raws: seq<Row>)
    ensures EntityEffect(d, cmp, t, key, raws).outcome.Fail? <==> raws != [] && GetDatabase(d, t).Failure?
    ensures raws == [] ==> EntityEffect(d, cmp, t, key, raws).dbs == d
    ensures raws != [] && GetDatabase(d, t).Success? ==>
      var db := GetDatabase(d, t).value;
      var split := Classify(cmp, t, ExistingFor(db, t, key, raws), raws);
      EntityEffect(d, cmp, t, key, raws).dbs
        == Write(d, t, ApplyAll(db, PrepareBase(t, split.creates, split.updates)).value)
  {
    if raws != [] && GetDatabase(d, t).Success? {
      var db := GetDatabase(d, t).value;
      var existing := ExistingFor(db, t, key, raws);
      UpdatesTargetExisting(cmp, t, existing, raws);
      ClassifySizes(cmp, t, existing, raws);
      var split := Classify(cmp, t, existing, raws);
      BaseOutcome(d, t, split.creates, split.updates);
    }
  }

  // ---------------------------------------------------------------------------
  // handleIsolatedEntity and the per-entity handlers

  /** The lookup column of each isolated entity; None for a table that is not one. */
  function IsolatedKey(t: Table): Option<string>
  {
    match t
    case App => Some("version_number")
    case Global => Some("name")
    case Servers => Some("db_path")
    case Role => Some("name")
    case System => Some("name")
    case TermsOfService => Some("accepted_at")
    case _ => None
  }

  /** The table names of the two schemas. */
  function TableName(t: Table): string
  {
    match t
    case App => "app"
    case Global => "global"
    case Servers => "servers"
    case Role => "Role"
    case System => "System"
    case TermsOfService => "TermsOfService"
    case ChannelMembership => "ChannelMembership"
    case CustomEmoji => "CustomEmoji"
    case Draft => "Draft"
    case File => "File"
    case GroupMembership => "GroupMembership"
    case Post => "Post"
    case PostsInChannel => "PostsInChannel"
    case PostsInThread => "PostsInThread"
    case PostMetadata => "PostMetadata"
    case Preference => "Preference"
    case Reaction => "Reaction"
    case TeamMembership => "TeamMembership"
    case User => "User"
  }

  const InvalidIsolated := "handleIsolatedEntity was called with an invalid table name "

  function IsolatedEffect(d: Dbs, cmp: Comparator, t: Table, values: seq<Row>): Effect
  {
    match IsolatedKey(t)
    case None => Effect(d, Fail(DataOperatorException(InvalidIsolated + TableName(t), "")))
    case Some(key) => EntityEffect(d, cmp, t, key, values)
  }

  /**
    handleIsolatedEntity accepts exactly the six isolated tables; any other
    table throws naming the table and leaves both connections as they were.
  */
  lemma IsolatedTables(d: Dbs, cmp: Comparator, t: Table, values: seq<Row>)
    ensures IsolatedKey(t).Some? <==> t in {App, Global, Servers, Role, System, TermsOfService}
    ensures IsolatedKey(t).None? ==>
      IsolatedEffect(d, cmp, t, values) == Effect(d, Fail(DataOperatorException(InvalidIsolated + TableName(t), "")))
    ensures IsolatedKey(t).Some? ==>
      (IsolatedEffect(d, cmp, t, values).outcome.Fail? <==> values != [] && GetDatabase(d, t).Failure?)
  {
    if IsolatedKey(t).Some? {
      EntityOutcome(d, cmp, t, IsolatedKey(t).value, values);
    }
  }
}
