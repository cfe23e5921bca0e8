/**
 * The logic of the annotation tool in `annotate.py`, without its widgets:
 * parsing a typed response into object ids, validating it against the
 * semantic-map table, storing and highlighting it, saving every response,
 * and the natural sort key of object ids.
 */
module Annotate {
  import opened Wrappers
  import opened Strings

  /** No white space at either end. */
  predicate Trimmed(s: string)
  {
    s == [] || (!IsSpace(s[0]) && !IsSpace(s[|s| - 1]))
  }

  /** An item a parsed response can hold: not empty, trimmed, no comma. */
  predicate Item(s: string)
  {
    s != [] && Trimmed(s) && ',' !in s
  }

  /** `strip()` keeps a contiguous part of its input and leaves it trimmed. */
  lemma StripShape(s: string)
    ensures Trimmed(Strip(s))
    ensures forall c :: c in Strip(s) ==> c in s
    ensures Strip(s) == [] ==> forall k :: 0 <= k < |s| ==> IsSpace(s[k])
  {
    var l := StripLeft(s);
    var r := StripRight(l);
    assert forall c :: c in r ==> c in l;
    assert forall c :: c in l ==> c in s;
    if r == [] {
      assert l == [];
    }
  }

  /** `[item.strip() for item in parts if item.strip()]`. */
  function Pieces(parts: seq<string>): (r: seq<string>)
    requires forall k :: 0 <= k < |parts| ==> ',' !in parts[k]
    ensures forall k :: 0 <= k < |r| ==> Item(r[k])
    ensures |r| <= |parts|
  {
    if parts == [] then []
    else
      var t := Strip(parts[0]);
      StripShape(parts[0]);
      var rest := Pieces(parts[1..]);
      if t != [] then [t] + rest else rest
  }

  /**
   * The response typed in a cell as a list of ids: blank gives `[]`,
   * otherwise the comma-separated pieces, stripped, the empty ones dropped.
   */
  function ParseResponse(s: string): (r: seq<string>)
    ensures forall k :: 0 <= k < |r| ==> Item(r[k])
  {
    if Strip(s) == [] then []
    else
      SplitPiecesLackSeparator(s, ',');
      Pieces(Split(s, ','))
  }

  /** The blank check is only a shortcut: a blank text has no non-empty piece either. */
  lemma {:induction false} BlankPiecesEmpty(parts: seq<string>)
    requires forall k :: 0 <= k < |parts| ==> ',' !in parts[k] && Strip(parts[k]) == []
    ensures Pieces(parts) == []
  {
    if parts != [] {
      BlankPiecesEmpty(parts[1..]);
    }
  }

  /** An item is its own `strip()`, also with the one blank `", "` puts in front of it. */
  lemma StripItem(item: string)
    requires Item(item)
    ensures Strip(item) == item && Strip([' '] + item) == item
  {
    StripUnchanged(item);
    StripLeftBlank(item);
  }

  /** A first piece that is an item is kept as it is. */
  lemma PiecesCons(item: string, rest: seq<string>)
    requires Item(item) && forall k :: 0 <= k < |rest| ==> ',' !in rest[k]
    ensures forall k :: 0 <= k < |[item] + rest| ==> ',' !in ([item] + rest)[k]
    ensures Pieces([item] + rest) == [item] + Pieces(rest)
  {
    StripItem(item);
    assert ([item] + rest)[1..] == rest;
  }

  /** Splitting a `", "`-join on the commas: the first item, then each other item after a blank. */
  lemma {:induction false} SplitJoined(items: seq<string>)
    requires |items| >= 1 && forall k :: 0 <= k < |items| ==> Item(items[k])
    ensures Split(Join(", ", items), ',') == [items[0]] + Prefixed(" ", items[1..])
  {
    var s := Join(", ", items);
    assert forall k :: 0 <= k < |items| ==> ',' !in items[k];
    assert [','] + " " == ", ";
    SplitJoin("", ',', " ", items);
    assert "" + s == s && "" + items[0] == items[0];
  }

  /** Items with the blank `", "` leaves in front of them, stripped, are the items. */
  lemma {:induction false} PiecesOfBlankItems(items: seq<string>)
    requires forall k :: 0 <= k < |items| ==> Item(items[k])
    ensures forall k :: 0 <= k < |items| ==> ',' !in Prefixed(" ", items)[k]
    ensures Pieces(Prefixed(" ", items)) == items
  {
    var parts := Prefixed(" ", items);
    assert forall k :: 0 <= k < |items| ==> parts[k] == [' '] + items[k];
    if items != [] {
      StripItem(items[0]);
      PiecesOfBlankItems(items[1..]);
      PrefixedStep(" ", items);
    }
  }

  /** A list of items, joined with `", "` and parsed again, comes back unchanged. */
  lemma {:induction false} ParseJoined(items: seq<string>)
    requires forall k :: 0 <= k < |items| ==> Item(items[k])
    ensures ParseResponse(Join(", ", items)) == items
  {
    if items == [] {
      assert Strip("") == "";
    } else {
      var s := Join(", ", items);
      var parts := [items[0]] + Prefixed(" ", items[1..]);
      assert Split(s, ',') == parts by {
        SplitJoined(items);
      }
      assert Strip(s) != [] by {
        JoinedNotBlank(items);
      }
      assert forall k :: 0 <= k < |parts| ==> ',' !in parts[k] by {
        PiecesOfBlankItems(items[1..]);
        PiecesCons(items[0], Prefixed(" ", items[1..]));
      }
      assert Pieces(parts) == items by {
        PiecesOfBlankItems(items[1..]);
        PiecesCons(items[0], Prefixed(" ", items[1..]));
        assert [items[0]] + items[1..] == items;
      }
      ParseNonBlank(s, parts);
    }
  }

  /** A text that is not blank parses as the stripped non-empty pieces of its split. */
  lemma ParseNonBlank(s: string, parts: seq<string>)
    requires Strip(s) != [] && Split(s, ',') == parts
    requires forall k :: 0 <= k < |parts| ==> ',' !in parts[k]
    ensures ParseResponse(s) == Pieces(parts)
  {
  }

  /** The join of a non-empty list of items starts with a character that is not white space. */
  lemma {:induction false} JoinedNotBlank(items: seq<string>)
    requires |items| >= 1 && forall k :: 0 <= k < |items| ==> Item(items[k])
    ensures Strip(Join(", ", items)) != []
  {
    var s := Join(", ", items);
    if |items| >= 2 {
      JoinStep(", ", items);
    }
    assert s[0] == items[0][0];
    StripShape(s);
  }

  /** What a cell stores, re-parsed, is the list it was made from (`save_response`, then `highlight` or `auto_save`). */
  lemma ReparseStored(s: string)
    ensures ParseResponse(Join(", ", ParseResponse(s))) == ParseResponse(s)
  {
    ParseJoined(ParseResponse(s));
  }

  /** Why `save_response` rejects a response: the first id that repeats an earlier one or is not in the map. */
  datatype Rejection = Repeated(id: string) | Unknown(id: string)

  /** Ids `0 .. i-1` pass both checks: none repeats an earlier one, all are in the map. */
  predicate PassesBefore(ids: seq<string>, existing: set<string>, i: nat)
    requires i <= |ids|
  {
    forall j :: 0 <= j < i ==> ids[j] !in ids[..j] && ids[j] in existing
  }

  /**
   * The verdict of the validation loop of `save_response` from id `i` on:
   * per id, the duplicate check first, then the existence check; the first
   * id that fails either decides.
   */
  function RejectionFrom(ids: seq<string>, existing: set<string>, i: nat): (r: Option<Rejection>)
    requires i <= |ids|
    decreases |ids| - i
  {
    if i == |ids| then None
    else if ids[i] in ids[..i] then Some(Repeated(ids[i]))
    else if ids[i] !in existing then Some(Unknown(ids[i]))
    else RejectionFrom(ids, existing, i + 1)
  }

  function FirstRejection(ids: seq<string>, existing: set<string>): Option<Rejection>
  {
    RejectionFrom(ids, existing, 0)
  }

  /**
   * No rejection exactly when every id passes; a rejection names an id that
   * fails its check while every id before it passes.
   */
  lemma {:induction false} RejectionFromMeaning(ids: seq<string>, existing: set<string>, i: nat)
    requires i <= |ids| && PassesBefore(ids, existing, i)
    ensures RejectionFrom(ids, existing, i).None? <==> PassesBefore(ids, existing, |ids|)
    ensures RejectionFrom(ids, existing, i).Some? ==>
              exists j :: i <= j < |ids| && ids[j] == RejectionFrom(ids, existing, i).value.id
                          && PassesBefore(ids, existing, j)
                          && (RejectionFrom(ids, existing, i).value.Repeated? <==> ids[j] in ids[..j])
                          && (RejectionFrom(ids, existing, i).value.Unknown? ==> ids[j] !in existing)
    decreases |ids| - i
  {
    if i < |ids| && ids[i] !in ids[..i] && ids[i] in existing {
      assert PassesBefore(ids, existing, i + 1) by {
        assert forall j :: 0 <= j < i + 1 ==> ids[j] !in ids[..j] && ids[j] in existing;
      }
      RejectionFromMeaning(ids, existing, i + 1);
    }
  }

  lemma FirstRejectionMeaning(ids: seq<string>, existing: set<string>)
    ensures FirstRejection(ids, existing).None? <==> PassesBefore(ids, existing, |ids|)
    ensures FirstRejection(ids, existing).Some? ==>
              exists j :: 0 <= j < |ids| && ids[j] == FirstRejection(ids, existing).value.id
                          && PassesBefore(ids, existing, j)
                          && (FirstRejection(ids, existing).value.Repeated? <==> ids[j] in ids[..j])
                          && (FirstRejection(ids, existing).value.Unknown? ==> ids[j] !in existing)
  {
    RejectionFromMeaning(ids, existing, 0);
  }

  /** The validation loop of `save_response`, with the ids seen so far kept in a set. */
  method Validate(ids: seq<string>, existing: set<string>) returns (r: Option<Rejection>)
    ensures r == FirstRejection(ids, existing)
  {
    var seen: set<string> := {};
    for i := 0 to |ids|
      invariant seen == set j | 0 <= j < i :: ids[j]
      invariant RejectionFrom(ids, existing, i) == FirstRejection(ids, existing)
    {
      assert forall x :: x in ids[..i] <==> x in seen;
      if ids[i] in seen {
        return Some(Repeated(ids[i]));
      }
      if ids[i] !in existing {
        return Some(Unknown(ids[i]));
      }
      seen := seen + {ids[i]};
    }
    return None;
  }

  /** The object ids of the semantic map, as a set. */
  function IdSet(objectIds: seq<string>): (r: set<string>)
    ensures forall id :: id in r <==> id in objectIds
  {
    set id | id in objectIds
  }

  /** A row of the human-data table: query id, query text, response text. */
  datatype Row = Row(queryId: string, query: string, response: string)

  /** The outcome of `save_response`. */
  datatype SaveOutcome = Rejected(why: Rejection) | NotSaved | Saved(path: string)

  /** Per query id, the response text of the last row holding it. */
  function LastResponses(rows: seq<Row>): map<string, string>
  {
    if rows == [] then map[]
    else
      var last := rows[|rows| - 1];
      LastResponses(rows[..|rows| - 1])[last.queryId := last.response]
  }

  /**
   * The `"responses"` dict `auto_save_responses` builds: row by row, the
   * query id's entry set to the parsed response, so a later row overrides an
   * earlier one with the same id.
   */
  function ResponsesData(rows: seq<Row>): map<string, seq<string>>
  {
    map q | q in LastResponses(rows) :: ParseResponse(LastResponses(rows)[q])
  }

  /** One more row sets its query id's entry. */
  lemma ResponsesDataStep(rows: seq<Row>, row: Row)
    ensures ResponsesData(rows + [row]) == ResponsesData(rows)[row.queryId := ParseResponse(row.response)]
  {
    assert (rows + [row])[..|rows|] == rows;
  }

  /** The dict has an entry for the query id of every row, and for nothing else. */
  lemma {:induction false} ResponsesDataKeys(rows: seq<Row>, q: string)
    ensures q in ResponsesData(rows) <==> exists i :: 0 <= i < |rows| && rows[i].queryId == q
  {
    LastResponsesKeys(rows, q);
  }

  lemma {:induction false} LastResponsesKeys(rows: seq<Row>, q: string)
    ensures q in LastResponses(rows) <==> exists i :: 0 <= i < |rows| && rows[i].queryId == q
  {
    if rows != [] {
      var init := rows[..|rows| - 1];
      LastResponsesKeys(init, q);
      if exists i :: 0 <= i < |init| && init[i].queryId == q {
        var i :| 0 <= i < |init| && init[i].queryId == q;
        assert rows[i] == init[i];
      }
      if exists i :: 0 <= i < |rows| && rows[i].queryId == q {
        var i :| 0 <= i < |rows| && rows[i].queryId == q;
        if i < |init| {
          assert init[i] == rows[i];
        }
      }
    }
  }

  /** A query id's entry is the parsed response of the last row holding that id. */
  lemma ResponsesDataLast(rows: seq<Row>, i: nat)
    requires i < |rows| && forall j :: i < j < |rows| ==> rows[j].queryId != rows[i].queryId
    ensures rows[i].queryId in ResponsesData(rows)
    ensures ResponsesData(rows)[rows[i].queryId] == ParseResponse(rows[i].response)
  {
    LastResponsesLast(rows, i);
  }

  lemma {:induction false} LastResponsesLast(rows: seq<Row>, i: nat)
    requires i < |rows| && forall j :: i < j < |rows| ==> rows[j].queryId != rows[i].queryId
    ensures rows[i].queryId in LastResponses(rows) && LastResponses(rows)[rows[i].queryId] == rows[i].response
  {
    var init := rows[..|rows| - 1];
    if i < |init| {
      assert init[i] == rows[i];
      LastResponsesLast(init, i);
    }
  }

  /** The tool's state: the two tables, the selected row, the highlights and the files written. */
  class Annotator {
    /** The object ids in the rows of the semantic-map table. */
    var objectIds: seq<string>
    /** The rows of the human-data table. */
    var rows: seq<Row>
    /** The selected row of the human-data table, if any. */
    var focus: Option<nat>
    /** Which rows of the semantic-map table carry the `"highlight"` tag. */
    var highlighted: seq<bool>
    /** Whether the cell editor is open. */
    var editing: bool
    /** `responses_file_path`. */
    var responsesFile: Option<string>
    /** Every responses file written, by path: its `"responses"` dict. */
    var savedFiles: map<string, map<string, seq<string>>>

    ghost predicate Valid()
      reads this
    {
      |highlighted| == |objectIds| && (focus.Some? ==> focus.value < |rows|)
    }

    /** Exactly the objects listed by the selected row's response are highlighted. */
    ghost predicate HighlightsFollowFocus()
      requires Valid()
      reads this
    {
      forall i :: 0 <= i < |objectIds| ==>
        (highlighted[i] <==> focus.Some? && objectIds[i] in ParseResponse(rows[focus.value].response))
    }

    constructor(objectIds: seq<string>, rows: seq<Row>)
      ensures Valid()
      ensures this.objectIds == objectIds && this.rows == rows && focus == None && !editing
      ensures responsesFile == None && savedFiles == map[]
      ensures highlighted == seq(|objectIds|, _ => false)
    {
      this.objectIds := objectIds;
      this.rows := rows;
      focus := None;
      highlighted := seq(|objectIds|, _ => false);
      editing := false;
      responsesFile := None;
      savedFiles := map[];
    }

    /**
     * `highlight_semantic_map_objects`: every highlight is cleared, then with
     * a row selected exactly the objects its response lists are highlighted.
     */
    method Highlight()
      requires Valid()
      modifies this`highlighted
      ensures Valid()
      ensures |highlighted| == |objectIds|
      ensures HighlightsFollowFocus()
    {
      highlighted := seq(|objectIds|, _ => false);
      if focus.None? {
        return;
      }
      var ids := ParseResponse(rows[focus.value].response);
      for i := 0 to |objectIds|
        invariant |highlighted| == |objectIds|
        invariant forall k :: 0 <= k < i ==> (highlighted[k] <==> objectIds[k] in ids)
        invariant forall k :: i <= k < |objectIds| ==> !highlighted[k]
      {
        if objectIds[i] in ids {
          highlighted := highlighted[i := true];
        }
      }
    }

    /** `auto_save_responses`: the parsed response of every row, written to the responses file. */
    method AutoSave()
      requires responsesFile.Some?
      modifies this`savedFiles
      ensures savedFiles.Keys == old(savedFiles).Keys + {responsesFile.value}
      ensures forall p :: p in old(savedFiles) && p != responsesFile.value ==> savedFiles[p] == old(savedFiles)[p]
      ensures savedFiles[responsesFile.value] == ResponsesData(rows)
    {
      var data: map<string, seq<string>> := map[];
      for i := 0 to |rows|
        invariant data == ResponsesData(rows[..i])
        invariant savedFiles == old(savedFiles)
      {
        ResponsesDataStep(rows[..i], rows[i]);
        assert rows[..i + 1] == rows[..i] + [rows[i]];
        data := data[rows[i].queryId := ParseResponse(rows[i].response)];
      }
      assert rows[..|rows|] == rows;
      savedFiles := savedFiles[responsesFile.value := data];
    }

    /**
     * `save_response` for row `item`: the typed text is parsed and validated
     * against the map's object ids; a valid list is stored joined with
     * `", "`, the editor closes, the highlights follow the selection, and
     * all responses are saved, after asking for a file (`dialog`) when none
     * is set yet.
     */
    method SaveResponse(item: nat, newValue: string, dialog: Option<string>) returns (outcome: SaveOutcome)
      requires Valid() && item < |rows|
      modifies this`rows, this`editing, this`highlighted, this`responsesFile, this`savedFiles
      ensures Valid()
      ensures outcome.Rejected? <==> FirstRejection(ParseResponse(newValue), IdSet(objectIds)).Some?
      ensures outcome.Rejected? ==> outcome.why == FirstRejection(ParseResponse(newValue), IdSet(objectIds)).value
      ensures outcome.Rejected? ==> rows == old(rows) && highlighted == old(highlighted) && editing == old(editing)
                                    && responsesFile == old(responsesFile) && savedFiles == old(savedFiles)
      ensures !outcome.Rejected? ==>
                rows == old(rows)[item := old(rows)[item].(response := Join(", ", ParseResponse(newValue)))]
                && !editing
                && ParseResponse(rows[item].response) == ParseResponse(newValue)
                && HighlightsFollowFocus()
      ensures outcome.NotSaved? <==> old(responsesFile).None? && dialog.None? && !outcome.Rejected?
      ensures outcome.NotSaved? ==> savedFiles == old(savedFiles) && responsesFile == None
      ensures outcome.Saved? ==>
                responsesFile == Some(outcome.path)
                && (old(responsesFile).Some? ==> outcome.path == old(responsesFile).value)
                && (old(responsesFile).None? ==> dialog == Some(outcome.path))
                && outcome.path in savedFiles && savedFiles[outcome.path] == ResponsesData(rows)
    {
      var ids := ParseResponse(newValue);
      var existing := IdSet(objectIds);
      var rejection := Validate(ids, existing);
      if rejection.Some? {
        return Rejected(rejection.value);
      }
      StoreResponse(item, newValue, ids);
      outcome := Persist(dialog);
    }

    /** The valid list stored in the cell joined with `", "`; the editor closes and the highlights are redone. */
    method StoreResponse(item: nat, ghost newValue: string, ids: seq<string>)
      requires Valid() && item < |rows| && ids == ParseResponse(newValue)
      modifies this`rows, this`editing, this`highlighted
      ensures Valid()
      ensures rows == old(rows)[item := old(rows)[item].(response := Join(", ", ids))]
      ensures !editing && ParseResponse(rows[item].response) == ids
      ensures HighlightsFollowFocus()
    {
      rows := rows[item := rows[item].(response := Join(", ", ids))];
      ReparseStored(newValue);
      editing := false;
      Highlight();
    }

    /** The saving tail of `save_response`: a file is asked for when none is set, then every response is saved. */
    method Persist(dialog: Option<string>) returns (outcome: SaveOutcome)
      modifies this`responsesFile, this`savedFiles
      ensures !outcome.Rejected?
      ensures outcome.NotSaved? <==> old(responsesFile).None? && dialog.None?
      ensures outcome.NotSaved? ==> savedFiles == old(savedFiles) && responsesFile == None
      ensures outcome.Saved? ==>
                responsesFile == Some(outcome.path)
                && (old(responsesFile).Some? ==> outcome.path == old(responsesFile).value)
                && (old(responsesFile).None? ==> dialog == Some(outcome.path))
                && outcome.path in savedFiles && savedFiles[outcome.path] == ResponsesData(rows)
    {
      if responsesFile.None? {
        if dialog.None? {
          return NotSaved;
        }
        responsesFile := dialog;
      }
      AutoSave();
      return Saved(responsesFile.value);
    }
  }

  /** A saved response of a query id that only one row holds is the validated list typed for it. */
  lemma SavedResponseIsTyped(rows: seq<Row>, item: nat, newValue: string)
    requires item < |rows| && rows[item].response == Join(", ", ParseResponse(newValue))
    requires forall j :: item < j < |rows| ==> rows[j].queryId != rows[item].queryId
    ensures rows[item].queryId in ResponsesData(rows)
    ensures ResponsesData(rows)[rows[item].queryId] == ParseResponse(newValue)
  {
    ResponsesDataLast(rows, item);
    ReparseStored(newValue);
  }

  /** A part of `natural_sort_key`: the lower-cased text of a non-digit run, or the value of a digit run. */
  datatype KeyPart = Text(text: string) | Number(value: nat)

  /** The length of the longest prefix of `s` with no decimal digit. */
  function TextRun(s: string): (n: nat)
    ensures n <= |s| && (forall k :: 0 <= k < n ==> !IsDigit(s[k])) && (n < |s| ==> IsDigit(s[n]))
  {
    if s == [] || IsDigit(s[0]) then 0 else 1 + TextRun(s[1..])
  }

  /** The length of the longest prefix of `s` made of decimal digits. */
  function DigitRun(s: string): (n: nat)
    ensures n <= |s| && AllDigits(s[..n]) && (n < |s| ==> !IsDigit(s[n]))
  {
    if s == [] || !IsDigit(s[0]) then 0
    else
      var n := 1 + DigitRun(s[1..]);
      assert s[..n] == [s[0]] + s[1..][..n - 1];
      n
  }

  /** A non-empty run of decimal digits: what `\d+` matches. */
  predicate DigitPiece(p: string)
  {
    p != [] && AllDigits(p)
  }

  /** Pieces alternating text and digit runs, with a text piece at both ends. */
  predicate Alternates(r: seq<string>)
  {
    |r| % 2 == 1 && forall i :: 0 <= i < |r| ==> (i % 2 == 1 <==> DigitPiece(r[i]))
  }

  lemma AlternatesCons(text: string, digits: string, tail: seq<string>)
    requires !DigitPiece(text) && DigitPiece(digits) && Alternates(tail)
    ensures Alternates([text, digits] + tail)
  {
    var r := [text, digits] + tail;
    forall i | 2 <= i < |r|
      ensures i % 2 == 1 <==> DigitPiece(r[i])
    {
      assert r[i] == tail[i - 2];
      assert (i - 2) % 2 == i % 2;
    }
  }

  /**
   * `re.split(r'(\d+)', s)`: the capturing group keeps the digit runs, so the
   * pieces alternate text, digits, text, ..., starting and ending with a
   * (possibly empty) text piece.
   */
  function SplitDigits(s: string): (r: seq<string>)
    ensures Alternates(r)
    decreases |s|
  {
    var t := TextRun(s);
    if t == |s| then
      assert s == [] || !IsDigit(s[0]);
      [s]
    else
      var d := DigitRun(s[t..]);
      assert s[t..][..d] == s[t..t + d];
      assert t == 0 || s[..t][0] == s[0];
      var tail := SplitDigits(s[t + d..]);
      AlternatesCons(s[..t], s[t..t + d], tail);
      [s[..t], s[t..t + d]] + tail
  }

  /** The pieces of `re.split(r'(\d+)', s)` put back together are `s`. */
  lemma {:induction false} SplitDigitsConcat(s: string)
    ensures Concat(SplitDigits(s)) == s
    decreases |s|
  {
    var t := TextRun(s);
    if t < |s| {
      var d := DigitRun(s[t..]);
      var tail := SplitDigits(s[t + d..]);
      assert SplitDigits(s) == [s[..t], s[t..t + d]] + tail;
      assert Concat(tail) == s[t + d..] by {
        SplitDigitsConcat(s[t + d..]);
      }
      ConcatPair(s[..t], s[t..t + d], tail);
      SliceThree(s, t, t + d);
    } else {
      assert s[..t] == s;
    }
  }

  lemma ConcatPair(a: string, b: string, tail: seq<string>)
    ensures Concat([a, b] + tail) == a + (b + Concat(tail))
  {
    ConcatCons(a, [b] + tail);
    ConcatCons(b, tail);
    assert ([a, b] + tail) == [a] + ([b] + tail);
  }

  lemma SliceThree(s: string, i: nat, j: nat)
    requires i <= j <= |s|
    ensures s[..i] + (s[i..j] + s[j..]) == s
  {
  }

  function Concat(pieces: seq<string>): string
  {
    if pieces == [] then "" else pieces[0] + Concat(pieces[1..])
  }

  lemma ConcatCons(head: string, tail: seq<string>)
    ensures Concat([head] + tail) == head + Concat(tail)
  {
    assert ([head] + tail)[1..] == tail;
  }

  /** `int(text) if text.isdigit() else text.lower()` for one piece. */
  function KeyPartOf(piece: string): KeyPart
  {
    if DigitPiece(piece) then Number(DigitsValue(piece)) else Text(Lower(piece))
  }

  /** `natural_sort_key`. */
  function NaturalSortKey(id: string): (key: seq<KeyPart>)
    ensures |key| == |SplitDigits(id)|
    ensures forall i :: 0 <= i < |key| ==> key[i] == KeyPartOf(SplitDigits(id)[i])
  {
    var pieces := SplitDigits(id);
    seq(|pieces|, i requires 0 <= i < |pieces| => KeyPartOf(pieces[i]))
  }

  /**
   * The key alternates text and numbers, text first and last, so two keys
   * compared position by position never meet a number against a text
   * (which would make `sorted` raise `TypeError`).
   */
  lemma NaturalSortKeyShape(a: string, b: string)
    ensures |NaturalSortKey(a)| % 2 == 1
    ensures forall i :: 0 <= i < |NaturalSortKey(a)| ==> (NaturalSortKey(a)[i].Number? <==> i % 2 == 1)
    ensures forall i :: 0 <= i < |NaturalSortKey(a)| && i < |NaturalSortKey(b)| ==>
              NaturalSortKey(a)[i].Number? == NaturalSortKey(b)[i].Number?
  {
  }

  /** The key's text parts are the lower-cased text runs and its numbers the digit runs' values, in order. */
  lemma NaturalSortKeyOfRuns(id: string, i: nat)
    requires i < |SplitDigits(id)|
    ensures i % 2 == 0 ==> NaturalSortKey(id)[i] == Text(Lower(SplitDigits(id)[i]))
    ensures i % 2 == 1 ==> NaturalSortKey(id)[i] == Number(DigitsValue(SplitDigits(id)[i]))
  {
  }
}
