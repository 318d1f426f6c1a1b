/**
  The two redux slices that hold file metadata: `files` (file id to file
  info) and `fileIdsByPostId` (post id to the ids of its files), and the
  combined reducer over both. A slice that has never been set is
  `undefined` and starts as the empty object.
*/
module FilesReducer {
  import opened Wrappers
  import opened JsValues

  /** The actions the two reducers tell apart; every other action type is `OtherAction`. */
  datatype FileAction =
    | ReceivedFilesForPost(data: Json)
    | LogoutSuccess
    | OtherAction(kind: string)

  /** The reducer's default parameter: an undefined slice is `{}`. */
  function Initial(state: Option<Fields>): Fields
  {
    match state
    case None => []
    case Some(f) => f
  }

  /**
    The `files` reducer. Received files are spread over the slice, so their
    entries win and every other entry keeps its value; logout empties the
    slice; any other action hands the slice back as it was.
  */
  function Files(state: Option<Fields>, action: FileAction): (r: Fields)
    ensures action.LogoutSuccess? ==> r == []
    ensures action.OtherAction? ==> r == Initial(state)
    ensures action.ReceivedFilesForPost? ==>
      forall k :: HasKey(Initial(state), k) || HasKey(Spread(action.data), k) ==> HasKey(r, k)
    ensures action.ReceivedFilesForPost? && UniqueKeys(Spread(action.data)) ==>
      forall k :: Lookup(r, k) ==
        if HasKey(Spread(action.data), k) then Lookup(Spread(action.data), k) else Lookup(Initial(state), k)
  {
    match action
    case ReceivedFilesForPost(data) =>
      var r := Merge(Initial(state), Spread(data));
      assert UniqueKeys(Spread(data)) ==>
        forall k :: Lookup(r, k) ==
          if HasKey(Spread(data), k) then Lookup(Spread(data), k) else Lookup(Initial(state), k)
      by {
        if UniqueKeys(Spread(data)) {
          forall k
            ensures Lookup(r, k) ==
              if HasKey(Spread(data), k) then Lookup(Spread(data), k) else Lookup(Initial(state), k)
          {
            MergeLookup(Initial(state), Spread(data), k);
          }
        }
      }
      r
    case LogoutSuccess => []
    case OtherAction(_) => Initial(state)
  }

  /**
    The key under which the received files are filed: the `post_id` of the
    first value of `action.data`, as a property key. `Object.keys` throws on
    null and undefined, and reading `post_id` throws when there is no first
    value or it is null or undefined.
  */
  function PostKeyOf(data: Json): (r: Option<string>)
    ensures r.Some? <==>
      data.JObj? && |data.fields| > 0 && !data.fields[0].1.JNull? && !data.fields[0].1.JUndefined?
    ensures r.Some? ==> r.value == Key(Get(data.fields[0].1, "post_id"))
  {
    if !data.JObj? || |data.fields| == 0 then None
    else
      var first := data.fields[0].1;
      if first.JNull? || first.JUndefined? then None
      else Some(Key(Get(first, "post_id")))
  }

  /** `Object.keys(action.data)` as an array of strings. */
  function KeyArray(f: Fields): (r: seq<Json>)
    ensures |r| == |f|
    ensures forall i :: 0 <= i < |f| ==> r[i] == JStr(f[i].0)
  {
    seq(|f|, i requires 0 <= i < |f| => JStr(f[i].0))
  }

  /**
    The `fileIdsByPostId` reducer. Received files set the entry of their
    post to the list of their ids and leave every other post's entry as it
    was; logout empties the slice; any other action hands it back as it was.
    A payload whose first file cannot be read throws.
  */
  function FileIdsByPostId(state: Option<Fields>, action: FileAction): (r: Result<Fields, string>)
    ensures action.LogoutSuccess? ==> r == Success([])
    ensures action.OtherAction? ==> r == Success(Initial(state))
    ensures action.ReceivedFilesForPost? ==> (r.Success? <==> PostKeyOf(action.data).Some?)
    ensures action.ReceivedFilesForPost? && r.Success? ==>
      var postKey := PostKeyOf(action.data).value;
      && Lookup(r.value, postKey) == JArr(KeyArray(action.data.fields))
      && (forall k :: k != postKey ==> Lookup(r.value, k) == Lookup(Initial(state), k))
      && (forall k :: HasKey(Initial(state), k) ==> HasKey(r.value, k))
  {
    match action
    case ReceivedFilesForPost(data) =>
      (match PostKeyOf(data)
       case None => Failure("TypeError")
       case Some(postKey) => Success(Put(Initial(state), postKey, JArr(KeyArray(data.fields)))))
    case LogoutSuccess => Success([])
    case OtherAction(_) => Success(Initial(state))
  }

  /** The combined state of the two slices. */
  datatype FilesState = FilesState(files: Fields, fileIdsByPostId: Fields)

  /**
    `combineReducers({files, fileIdsByPostId})`: each slice goes through its
    own reducer, and the dispatch throws when either reducer throws.
  */
  function Reduce(state: Option<FilesState>, action: FileAction): (r: Result<FilesState, string>)
    ensures r.Success? <==> !action.ReceivedFilesForPost? || PostKeyOf(action.data).Some?
    ensures action.LogoutSuccess? ==> r == Success(FilesState([], []))
    ensures action.OtherAction? ==>
      r == Success(if state.Some? then state.value else FilesState([], []))
  {
    var files := Files(if state.Some? then Some(state.value.files) else None, action);
    match FileIdsByPostId(if state.Some? then Some(state.value.fileIdsByPostId) else None, action)
    case Failure(e) => Failure(e)
    case Success(ids) => Success(FilesState(files, ids))
  }

  /**
    Receiving files twice in a row for a well-formed payload is the same as
    receiving them once: both slices end where the first delivery left them.
  */
  lemma ReceiveTwice(state: Option<FilesState>, data: Json)
    requires data.JObj? && UniqueKeys(data.fields)
    requires Reduce(state, ReceivedFilesForPost(data)).Success?
    ensures var once := Reduce(state, ReceivedFilesForPost(data)).value;
      var twice := Reduce(Some(once), ReceivedFilesForPost(data));
      && twice.Success?
      && (forall k :: Lookup(twice.value.files, k) == Lookup(once.files, k))
      && (forall k :: Lookup(twice.value.fileIdsByPostId, k) == Lookup(once.fileIdsByPostId, k))
  {
  }
}
