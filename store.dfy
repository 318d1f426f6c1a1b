/**
  The local store the reconciliation engine writes into, seen through the
  small interface the engine uses: per-table record lists, queries by column
  value, prepared create/update/destroy mutations and an all-or-nothing batch.

  A record is a local identity plus a row of named columns. The record
  mappers of the engine are not part of this model: a prepared record holds
  the raw server fields under their raw names.
*/
module Store {
  import opened Wrappers

  /** A column value: a string, a number, or a nested object. */
  datatype Field = Str(s: string) | Num(n: int) | Obj(fields: map<string, Field>)

  type Row = map<string, Field>

  function Get(row: Row, column: string): Option<Field>
  {
    if column in row then Some(row[column]) else None
  }

  /** JavaScript truthiness of a looked-up column (undefined, '' and 0 are falsy). */
  predicate Truthy(f: Option<Field>)
  {
    match f
    case None => false
    case Some(Str(s)) => s != ""
    case Some(Num(n)) => n != 0
    case Some(Obj(_)) => true
  }

  /** A numeric column read as a number; a missing or non-numeric column reads as 0. */
  function NumOf(row: Row, column: string): int
  {
    match Get(row, column)
    case Some(Num(n)) => n
    case _ => 0
  }

  /** The tables of the default and of the server schema that the engine writes. */
  datatype Table =
    | App | Global | Servers
    | Role | System | TermsOfService
    | ChannelMembership | CustomEmoji | Draft | File | GroupMembership
    | Post | PostsInChannel | PostsInThread | PostMetadata
    | Preference | Reaction | TeamMembership | User

  datatype Record = Record(id: nat, row: Row)

  /** A prepared record: prepareCreate, prepareUpdate or prepareDestroyPermanently. */
  datatype Mutation =
    | Create(table: Table, raw: Row)
    | Update(table: Table, target: Record, raw: Row)
    | Destroy(table: Table, target: Record)

  /** One database: its tables and the next free local identity. */
  datatype Store = Store(tables: map<Table, seq<Record>>, nextId: nat)

  function Rows(s: Store, t: Table): seq<Record>
  {
    if t in s.tables then s.tables[t] else []
  }

  /** Every identity in a table was handed out before and no two records share one. */
  ghost predicate ValidTable(rs: seq<Record>, nextId: nat)
  {
    && (forall i :: 0 <= i < |rs| ==> rs[i].id < nextId)
    && (forall i, j :: 0 <= i < j < |rs| ==> rs[i].id != rs[j].id)
  }

  ghost predicate Valid(s: Store)
  {
    forall t :: ValidTable(Rows(s, t), s.nextId)
  }

  /** Query: the records whose `column` equals `value`, in table order. */
  function Where(rs: seq<Record>, column: string, value: Field): (r: seq<Record>)
    ensures forall x :: x in r <==> x in rs && Get(x.row, column) == Some(value)
    ensures |r| <= |rs|
  {
    if rs == [] then []
    else (if Get(rs[0].row, column) == Some(value) then [rs[0]] else []) + Where(rs[1..], column, value)
  }

  /** Query: the records whose `column` is one of `values`, in table order. */
  function WhereOneOf(rs: seq<Record>, column: string, values: seq<Field>): (r: seq<Record>)
    ensures forall x :: x in r <==> x in rs && exists v :: v in values && Get(x.row, column) == Some(v)
    ensures |r| <= |rs|
  {
    if rs == [] then []
    else
      (if exists v :: v in values && Get(rs[0].row, column) == Some(v) then [rs[0]] else [])
      + WhereOneOf(rs[1..], column, values)
  }

  function HasId(rs: seq<Record>, id: nat): bool
  {
    exists i :: 0 <= i < |rs| && rs[i].id == id
  }

  function ReplaceRow(rs: seq<Record>, id: nat, raw: Row): seq<Record>
  {
    seq(|rs|, i requires 0 <= i < |rs| => if rs[i].id == id then Record(id, raw) else rs[i])
  }

  function RemoveId(rs: seq<Record>, id: nat): seq<Record>
  {
    if rs == [] then []
    else (if rs[0].id == id then [] else [rs[0]]) + RemoveId(rs[1..], id)
  }

  /** One mutation; updating or destroying a record that is not in its table is rejected. */
  function ApplyMutation(s: Store, m: Mutation): Option<Store>
  {
    match m
    case Create(t, raw) =>
      Some(Store(s.tables[t := Rows(s, t) + [Record(s.nextId, raw)]], s.nextId + 1))
    case Update(t, target, raw) =>
      if HasId(Rows(s, t), target.id)
      then Some(s.(tables := s.tables[t := ReplaceRow(Rows(s, t), target.id, raw)]))
      else None
    case Destroy(t, target) =>
      if HasId(Rows(s, t), target.id)
      then Some(s.(tables := s.tables[t := RemoveId(Rows(s, t), target.id)]))
      else None
  }

  /** The atomic batch: every mutation in order, or nothing at all. */
  function ApplyAll(s: Store, ms: seq<Mutation>): Option<Store>
    decreases ms
  {
    if ms == [] then Some(s)
    else
      match ApplyMutation(s, ms[0])
      case None => None
      case Some(s1) => ApplyAll(s1, ms[1..])
  }

  function RowsOf(rs: seq<Record>): seq<Row>
  {
    seq(|rs|, i requires 0 <= i < |rs| => rs[i].row)
  }

  predicate AllCreates(ms: seq<Mutation>)
  {
    forall i :: 0 <= i < |ms| ==> ms[i].Create?
  }

  /** The raw rows that the creates of `ms` add to table `t`, in batch order. */
  function CreatedIn(ms: seq<Mutation>, t: Table): seq<Row>
  {
    if ms == [] then []
    else (if ms[0].Create? && ms[0].table == t then [ms[0].raw] else []) + CreatedIn(ms[1..], t)
  }

  lemma RemoveIdKeeps(rs: seq<Record>, id: nat, nextId: nat)
    requires ValidTable(rs, nextId)
    ensures ValidTable(RemoveId(rs, id), nextId)
    ensures forall x :: x in RemoveId(rs, id) <==> x in rs && x.id != id
  {
    if rs != [] {
      RemoveIdKeeps(rs[1..], id, nextId);
    }
  }

  /** A single mutation keeps identities fresh and unique. */
  lemma ApplyMutationPreservesValid(s: Store, m: Mutation)
    requires Valid(s)
    requires ApplyMutation(s, m).Some?
    ensures Valid(ApplyMutation(s, m).value)
  {
    var s' := ApplyMutation(s, m).value;
    forall t
      ensures ValidTable(Rows(s', t), s'.nextId)
    {
      assert ValidTable(Rows(s, t), s.nextId);
      if t == m.table {
        match m
        case Create(_, raw) =>
          assert Rows(s', t) == Rows(s, t) + [Record(s.nextId, raw)];
        case Update(_, target, raw) =>
          assert Rows(s', t) == ReplaceRow(Rows(s, t), target.id, raw);
        case Destroy(_, target) =>
          RemoveIdKeeps(Rows(s, t), target.id, s.nextId);
      }
    }
  }

  /** A committed batch keeps identities fresh and unique. */
  lemma {:induction false} ApplyAllPreservesValid(s: Store, ms: seq<Mutation>)
    requires Valid(s)
    requires ApplyAll(s, ms).Some?
    ensures Valid(ApplyAll(s, ms).value)
    decreases ms
  {
    if ms != [] {
      ApplyMutationPreservesValid(s, ms[0]);
      ApplyAllPreservesValid(ApplyMutation(s, ms[0]).value, ms[1..]);
    }
  }

  lemma RowsOfAppend(rs: seq<Record>, x: Record)
    ensures RowsOf(rs + [x]) == RowsOf(rs) + [x.row]
  {
  }

  /** Applying one create: only its own table grows, by one record at the end. */
  lemma CreateStep(s: Store, m: Mutation, t: Table)
    requires m.Create?
    ensures ApplyMutation(s, m).Some?
    ensures ApplyMutation(s, m).value.nextId == s.nextId + 1
    ensures Rows(ApplyMutation(s, m).value, t)
         == if m.table == t then Rows(s, t) + [Record(s.nextId, m.raw)] else Rows(s, t)
  {
  }

  lemma {:induction false} CreatesApply(s: Store, ms: seq<Mutation>)
    requires AllCreates(ms)
    ensures ApplyAll(s, ms).Some?
    ensures ApplyAll(s, ms).value.nextId == s.nextId + |ms|
    decreases ms
  {
    if ms != [] {
      CreateStep(s, ms[0], App);
      AllCreatesTail(ms);
      CreatesApply(ApplyMutation(s, ms[0]).value, ms[1..]);
    }
  }

  /** The records the creates of `ms` append to table `t`, identities handed out from `id` on. */
  function Appended(ms: seq<Mutation>, t: Table, id: nat): seq<Record>
    decreases ms
  {
    if ms == [] then []
    else (if ms[0].Create? && ms[0].table == t then [Record(id, ms[0].raw)] else []) + Appended(ms[1..], t, id + 1)
  }

  lemma AllCreatesTail(ms: seq<Mutation>)
    requires AllCreates(ms) && ms != []
    ensures AllCreates(ms[1..])
  {
    forall i | 0 <= i < |ms[1..]| ensures ms[1..][i].Create? { assert ms[1..][i] == ms[i + 1]; }
  }

  /** A batch whose first mutation is accepted continues from the store that mutation leaves. */
  lemma ApplyAllStep(s: Store, ms: seq<Mutation>)
    requires ms != [] && ApplyMutation(s, ms[0]).Some?
    ensures ApplyAll(s, ms) == ApplyAll(ApplyMutation(s, ms[0]).value, ms[1..])
  {
  }

  lemma ConcatAssoc(base: seq<Record>, mine: seq<Record>, rest: seq<Record>)
    ensures (base + mine) + rest == base + (mine + rest)
  {
  }

  /** A batch of creates appends to each table exactly its own new records, after the old ones. */
  lemma {:induction false} CreatesAppend(s: Store, ms: seq<Mutation>, t: Table)
    requires AllCreates(ms)
    ensures ApplyAll(s, ms).Some?
    ensures Rows(ApplyAll(s, ms).value, t) == Rows(s, t) + Appended(ms, t, s.nextId)
    decreases ms
  {
    CreatesApply(s, ms);
    if ms != [] {
      CreateStep(s, ms[0], t);
      var s1 := ApplyMutation(s, ms[0]).value;
      ApplyAllStep(s, ms);
      AllCreatesTail(ms);
      CreatesAppend(s1, ms[1..], t);
      var mine := if ms[0].table == t then [Record(s.nextId, ms[0].raw)] else [];
      var rest := Appended(ms[1..], t, s.nextId + 1);
      assert Appended(ms, t, s.nextId) == mine + rest;
      ConcatAssoc(Rows(s, t), mine, rest);
    }
  }

  /** The rows of the appended records are the rows the creates carry. */
  lemma {:induction false} AppendedRows(ms: seq<Mutation>, t: Table, id: nat)
    ensures RowsOf(Appended(ms, t, id)) == CreatedIn(ms, t)
    decreases ms
  {
    if ms != [] {
      AppendedRows(ms[1..], t, id + 1);
      var mine := if ms[0].Create? && ms[0].table == t then [Record(id, ms[0].raw)] else [];
      RowsOfConcat(mine, Appended(ms[1..], t, id + 1));
    }
  }

  lemma RowsOfConcat(a: seq<Record>, b: seq<Record>)
    ensures RowsOf(a + b) == RowsOf(a) + RowsOf(b)
  {
  }

  /**
    A batch of creates is never rejected: every table keeps its records and
    gains, at its end, exactly the raw rows created in it, in batch order.
  */
  lemma CreatesLand(s: Store, ms: seq<Mutation>, t: Table)
    requires AllCreates(ms)
    ensures ApplyAll(s, ms).Some?
    ensures ApplyAll(s, ms).value.nextId == s.nextId + |ms|
    ensures RowsOf(Rows(ApplyAll(s, ms).value, t)) == RowsOf(Rows(s, t)) + CreatedIn(ms, t)
    ensures Rows(s, t) <= Rows(ApplyAll(s, ms).value, t)
  {
    CreatesApply(s, ms);
    CreatesAppend(s, ms, t);
    AppendedRows(ms, t, s.nextId);
    RowsOfConcat(Rows(s, t), Appended(ms, t, s.nextId));
  }

  /** Updating a present record rewrites that record's row and nothing else. */
  lemma UpdateRewritesOnlyTarget(s: Store, t: Table, target: Record, raw: Row, t': Table)
    requires HasId(Rows(s, t), target.id)
    ensures ApplyMutation(s, Update(t, target, raw)).Some?
    ensures t' != t ==> Rows(ApplyMutation(s, Update(t, target, raw)).value, t') == Rows(s, t')
    ensures var rs := Rows(ApplyMutation(s, Update(t, target, raw)).value, t);
      && |rs| == |Rows(s, t)|
      && forall i :: 0 <= i < |rs| ==>
           rs[i] == if Rows(s, t)[i].id == target.id then Record(target.id, raw) else Rows(s, t)[i]
  {
  }

  /** Rewriting a record keeps every identity of the table where it was. */
  lemma ReplaceRowKeepsIds(rs: seq<Record>, id: nat, raw: Row)
    ensures |ReplaceRow(rs, id, raw)| == |rs|
    ensures forall i :: 0 <= i < |rs| ==> ReplaceRow(rs, id, raw)[i].id == rs[i].id
  {
  }

  lemma RemoveIdMembers(rs: seq<Record>, id: nat)
    ensures forall x :: x in RemoveId(rs, id) <==> x in rs && x.id != id
  {
    if rs != [] {
      RemoveIdMembers(rs[1..], id);
    }
  }

  /** A batch is the first part followed by the second, rejected when either part is. */
  lemma {:induction false} ApplyAllAppend(s: Store, a: seq<Mutation>, b: seq<Mutation>)
    ensures ApplyAll(s, a + b) == match ApplyAll(s, a) case None => None case Some(s1) => ApplyAll(s1, b)
    decreases a
  {
    if a != [] {
      assert (a + b)[0] == a[0];
      assert (a + b)[1..] == a[1..] + b;
      match ApplyMutation(s, a[0])
      case None =>
      case Some(s1) =>
        ApplyAllAppend(s1, a[1..], b);
    } else {
      assert a + b == b;
    }
  }

  /** Updates of records present in their table are never rejected. */
  lemma {:induction false} UpdatesApply(s: Store, t: Table, ms: seq<Mutation>)
    requires forall i :: 0 <= i < |ms| ==> ms[i].Update? && ms[i].table == t && HasId(Rows(s, t), ms[i].target.id)
    ensures ApplyAll(s, ms).Some?
    decreases ms
  {
    if ms != [] {
      var s1 := ApplyMutation(s, ms[0]).value;
      assert Rows(s1, t) == ReplaceRow(Rows(s, t), ms[0].target.id, ms[0].raw);
      ReplaceRowKeepsIds(Rows(s, t), ms[0].target.id, ms[0].raw);
      forall i | 0 <= i < |ms[1..]|
        ensures ms[1..][i].Update? && ms[1..][i].table == t && HasId(Rows(s1, t), ms[1..][i].target.id)
      {
        assert ms[1..][i] == ms[i + 1];
        var k :| 0 <= k < |Rows(s, t)| && Rows(s, t)[k].id == ms[i + 1].target.id;
        assert Rows(s1, t)[k].id == ms[i + 1].target.id;
      }
      UpdatesApply(s1, t, ms[1..]);
    }
  }

  /** Creates keep every record of every table in place, so a record present before is present after. */
  lemma CreatesKeep(s: Store, ms: seq<Mutation>, t: Table, x: Record)
    requires AllCreates(ms)
    requires x in Rows(s, t)
    ensures ApplyAll(s, ms).Some?
    ensures x in Rows(ApplyAll(s, ms).value, t)
  {
    CreatesAppend(s, ms, t);
  }

  /** No two records of the sequence share an identity. */
  predicate UniqueIds(rs: seq<Record>)
  {
    forall i, j :: 0 <= i < j < |rs| ==> rs[i].id != rs[j].id
  }

  lemma WhereUnique(rs: seq<Record>, column: string, value: Field)
    requires UniqueIds(rs)
    ensures UniqueIds(Where(rs, column, value))
  {
    if rs != [] {
      WhereUnique(rs[1..], column, value);
      assert forall x :: x in Where(rs[1..], column, value) ==> x in rs[1..];
      assert forall x :: x in rs[1..] ==> x.id != rs[0].id;
    }
  }

  /** A batch without updates whose destroys name distinct records present in their tables. */
  ghost predicate CreatesAndDestroys(s: Store, ms: seq<Mutation>)
  {
    && (forall i :: 0 <= i < |ms| ==> !ms[i].Update?)
    && (forall i :: 0 <= i < |ms| && ms[i].Destroy? ==> ms[i].target in Rows(s, ms[i].table))
    && (forall i, j :: 0 <= i < j < |ms| && ms[i].Destroy? && ms[j].Destroy? ==> ms[i].target.id != ms[j].target.id)
  }

  /** Such a batch is never rejected. */
  lemma {:induction false} CreatesAndDestroysApply(s: Store, ms: seq<Mutation>)
    requires CreatesAndDestroys(s, ms)
    ensures ApplyAll(s, ms).Some?
    decreases ms
  {
    if ms != [] {
      var m := ms[0];
      if m.Destroy? {
        var k :| 0 <= k < |Rows(s, m.table)| && Rows(s, m.table)[k] == m.target;
        assert HasId(Rows(s, m.table), m.target.id);
        RemoveIdMembers(Rows(s, m.table), m.target.id);
      }
      var s1 := ApplyMutation(s, m).value;
      forall i | 0 <= i < |ms[1..]| && ms[1..][i].Destroy?
        ensures ms[1..][i].target in Rows(s1, ms[1..][i].table)
      {
        assert ms[1..][i] == ms[i + 1];
      }
      forall i, j | 0 <= i < j < |ms[1..]| && ms[1..][i].Destroy? && ms[1..][j].Destroy?
        ensures ms[1..][i].target.id != ms[1..][j].target.id
      {
        assert ms[1..][i] == ms[i + 1] && ms[1..][j] == ms[j + 1];
      }
      forall i | 0 <= i < |ms[1..]| ensures !ms[1..][i].Update? {
        assert ms[1..][i] == ms[i + 1];
      }
      CreatesAndDestroysApply(s1, ms[1..]);
    }
  }
}
