/**
  The custom-emoji scanner: which `:name:` references in a message name
  custom emojis the app has neither loaded nor already found missing.

  The scan is the global regular expression `:([A-Za-z0-9_-]+):` run with
  `exec` from the end of the previous match, so a colon that closes one
  match never opens the next.
*/
module EmojiUtils {
  import opened Wrappers
  import opened JsValues

  /** An emoji is a system emoji when it has a `batch` key. */
  predicate IsSystemEmoji(emoji: Fields)
  {
    HasKey(emoji, "batch")
  }

  /** An emoji is a custom emoji when it has an `id` key. */
  predicate IsCustomEmoji(emoji: Fields)
  {
    HasKey(emoji, "id")
  }

  /** The two tests look only at which keys are present, never at their values. */
  lemma EmojiKindsByKey(emoji: Fields)
    ensures IsSystemEmoji(emoji) <==> "batch" in Keys(emoji)
    ensures IsCustomEmoji(emoji) <==> "id" in Keys(emoji)
  {
    if IsSystemEmoji(emoji) {
      var i :| 0 <= i < |emoji| && emoji[i].0 == "batch";
      assert Keys(emoji)[i] == "batch";
    }
    if IsCustomEmoji(emoji) {
      var i :| 0 <= i < |emoji| && emoji[i].0 == "id";
      assert Keys(emoji)[i] == "id";
    }
  }

  /** The character class `[A-Za-z0-9_-]`. */
  predicate NameChar(c: char)
  {
    ('A' <= c <= 'Z') || ('a' <= c <= 'z') || ('0' <= c <= '9') || c == '_' || c == '-'
  }

  /** The first position at or after `k` that does not hold a name character. */
  function RunEnd(text: string, k: nat): (j: nat)
    requires k <= |text|
    ensures k <= j <= |text|
    ensures j < |text| ==> !NameChar(text[j])
    decreases |text| - k
  {
    if k == |text| || !NameChar(text[k]) then k else RunEnd(text, k + 1)
  }

  /** Every character of the run is a name character. */
  lemma {:induction false} RunChars(text: string, k: nat)
    requires k <= |text|
    ensures forall m :: k <= m < RunEnd(text, k) ==> NameChar(text[m])
    decreases |text| - k
  {
    if k < |text| && NameChar(text[k]) {
      RunChars(text, k + 1);
    }
  }

  /**
    The closing colon of a match that starts at `i`, if one does: a colon,
    one or more name characters, a colon. The class holds no colon, so the
    greedy run is the only candidate.
  */
  function MatchAt(text: string, i: nat): (r: Option<nat>)
    requires i < |text|
    ensures r.Some? ==>
      i + 1 < r.value < |text| && text[i] == ':' && text[r.value] == ':'
    ensures r.Some? ==> r.value == RunEnd(text, i + 1)
  {
    if text[i] != ':' then None
    else
      var j := RunEnd(text, i + 1);
      if j > i + 1 && j < |text| && text[j] == ':' then Some(j) else None
  }

  /** `pattern.exec(text)` with `lastIndex` = `from`: the leftmost match at or after `from`. */
  function Exec(text: string, from: nat): (r: Option<(nat, nat)>)
    ensures r.Some? ==> from <= r.value.0 < r.value.1 < |text| && MatchAt(text, r.value.0) == Some(r.value.1)
    decreases |text| - from
  {
    if from >= |text| then None
    else
      match MatchAt(text, from)
      case Some(end) => Some((from, end))
      case None => Exec(text, from + 1)
  }

  /** The captured names of all matches from `from` on, left to right. */
  function Matches(text: string, from: nat): seq<string>
    decreases |text| - from
  {
    match Exec(text, from)
    case None => []
    case Some((start, end)) => [text[start + 1..end]] + Matches(text, end + 1)
  }

  lemma {:induction false} ExecNoColon(text: string, from: nat)
    requires ':' !in text
    ensures Exec(text, from).None?
    decreases |text| - from
  {
    if from < |text| {
      assert text[from] in text;
      ExecNoColon(text, from + 1);
    }
  }

  /** When `exec` finds nothing from `from`, no position at or after `from` starts a match. */
  lemma {:induction false} ExecNone(text: string, from: nat)
    requires Exec(text, from).None?
    ensures forall i :: from <= i < |text| ==> MatchAt(text, i).None?
    decreases |text| - from
  {
    if from < |text| {
      ExecNone(text, from + 1);
    }
  }

  /** Text without a colon has no match, so the early return agrees with the scan. */
  lemma NoColonNoMatches(text: string, from: nat)
    requires ':' !in text
    ensures Matches(text, from) == []
  {
    ExecNoColon(text, from);
  }

  /** What a single match captures: the name characters between its two colons. */
  ghost predicate NameBetweenColons(text: string, n: string)
  {
    |n| >= 1 && (forall m :: 0 <= m < |n| ==> NameChar(n[m]))
    && exists i :: 0 <= i && i + |n| + 1 < |text| && text[i] == ':' && text[i + 1..i + |n| + 1] == n && text[i + |n| + 1] == ':'
  }

  lemma OneMatchIsName(text: string, start: nat, end: nat)
    requires start < end < |text| && MatchAt(text, start) == Some(end)
    ensures NameBetweenColons(text, text[start + 1..end])
  {
    RunChars(text, start + 1);
    var n := text[start + 1..end];
    assert forall m :: 0 <= m < |n| ==> n[m] == text[start + 1 + m];
    assert text[start + 1..start + |n| + 1] == n;
  }

  /**
    Every captured name is a non-empty run of name characters that sits
    between two colons of the text.
  */
  lemma {:induction false} MatchesAreNames(text: string, from: nat)
    ensures forall n :: n in Matches(text, from) ==> NameBetweenColons(text, n)
    decreases |text| - from
  {
    match Exec(text, from)
    case None =>
    case Some((start, end)) =>
      MatchesAreNames(text, end + 1);
      OneMatchIsName(text, start, end);
  }

  /** The matches do not overlap: `:a:b:` names only `a`, since the colon after `a` is consumed. */
  lemma ClosingColonIsConsumed()
    ensures Matches(":a:b:", 0) == ["a"]
  {
    var text := ":a:b:";
    assert text[0] == ':' && text[1] == 'a' && text[2] == ':' && text[3] == 'b' && text[4] == ':';
    assert RunEnd(text, 2) == 2;
    assert RunEnd(text, 1) == 2;
    assert MatchAt(text, 0) == Some(2);
    assert Exec(text, 0) == Some((0, 2));
    assert MatchAt(text, 3).None?;
    assert RunEnd(text, 5) == 5;
    assert MatchAt(text, 4).None?;
    assert Exec(text, 5) == None;
    assert Exec(text, 4) == None;
    assert Exec(text, 3) == None;
    assert Matches(text, 3) == [];
    assert text[1..2] == "a";
  }

  /** What one capture contributes: its name when it is neither known to be missing nor loaded. */
  function Contribution(name: string, customEmojisByName: set<string>, nonExistentEmoji: set<string>): set<string>
  {
    if name in nonExistentEmoji || name in customEmojisByName then {} else {name}
  }

  /** The names kept from a sequence of captures. */
  function Needed(names: seq<string>, customEmojisByName: set<string>, nonExistentEmoji: set<string>): set<string>
  {
    if names == [] then {}
    else Contribution(names[0], customEmojisByName, nonExistentEmoji) + Needed(names[1..], customEmojisByName, nonExistentEmoji)
  }

  /** A name is kept exactly when it was captured and is neither known to be missing nor loaded. */
  lemma {:induction false} NeededMembers(names: seq<string>, customEmojisByName: set<string>, nonExistentEmoji: set<string>)
    ensures forall n :: n in Needed(names, customEmojisByName, nonExistentEmoji) <==>
      n in names && n !in nonExistentEmoji && n !in customEmojisByName
  {
    if names != [] {
      NeededMembers(names[1..], customEmojisByName, nonExistentEmoji);
      assert names == [names[0]] + names[1..];
    }
  }

  /** A match found from `from` is the first capture, and the scan resumes after its closing colon. */
  lemma MatchesStep(text: string, from: nat, start: nat, end: nat)
    requires Exec(text, from) == Some((start, end))
    ensures Matches(text, from) == [text[start + 1..end]] + Matches(text, end + 1)
  {
  }

  /**
    One iteration of the scan: with the names gathered so far and those still
    to come adding up to the whole answer, a capture either adds its name or
    is skipped, and the scan goes on with the captures after it.
  */
  lemma ScanStep(acc: set<string>, name: string, rest: seq<string>, all: set<string>,
                 customEmojisByName: set<string>, nonExistentEmoji: set<string>)
    requires acc + Needed([name] + rest, customEmojisByName, nonExistentEmoji) == all
    ensures name in nonExistentEmoji || name in customEmojisByName ==>
      acc + Needed(rest, customEmojisByName, nonExistentEmoji) == all
    ensures name !in nonExistentEmoji && name !in customEmojisByName ==>
      (acc + {name}) + Needed(rest, customEmojisByName, nonExistentEmoji) == all
  {
    assert ([name] + rest)[1..] == rest;
  }

  /** parseNeededCustomEmojisFromText: the exec loop collecting names into a set. */
  method ParseNeededCustomEmojisFromText(text: string, customEmojisByName: set<string>, nonExistentEmoji: set<string>)
    returns (customEmojis: set<string>)
    ensures customEmojis == Needed(Matches(text, 0), customEmojisByName, nonExistentEmoji)
  {
    if ':' !in text {
      NoColonNoMatches(text, 0);
      return {};
    }
    customEmojis := {};
    var lastIndex: nat := 0;
    while true
      invariant lastIndex <= |text| + 1
      invariant customEmojis + Needed(Matches(text, lastIndex), customEmojisByName, nonExistentEmoji)
        == Needed(Matches(text, 0), customEmojisByName, nonExistentEmoji)
      decreases |text| + 1 - lastIndex
    {
      var found := Exec(text, lastIndex);
      if found.None? {
        break;
      }
      var start := found.value.0;
      var end := found.value.1;
      var name := text[start + 1..end];
      MatchesStep(text, lastIndex, start, end);
      ScanStep(customEmojis, name, Matches(text, end + 1), Needed(Matches(text, 0), customEmojisByName, nonExistentEmoji),
        customEmojisByName, nonExistentEmoji);
      lastIndex := end + 1;
      if name in nonExistentEmoji {
        continue;
      }
      if name in customEmojisByName {
        continue;
      }
      customEmojis := customEmojis + {name};
    }
  }
}
