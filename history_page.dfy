/** The prediction history page: the signed-in user's saved predictions, loaded from the
    hosted database, deleted one at a time or all together, and exported as CSV text. */
module HistoryPage {
  import opened Wrappers
  import opened Text
  import opened JsValues
  import opened JsObjects
  import opened Remote

  const Table: string := "predictions"
  const LoadFallback: string := "Failed to load predictions"
  const DeleteFallback: string := "Failed to delete prediction"
  const ClearFallback: string := "Failed to clear history"

  /** One saved prediction as the page reads it. */
  datatype Entry = Entry(id: string, createdAt: string, inputFeatures: Object<Json>, result: Json)

  /** `predictions.filter(p => p.id !== id)`. */
  function RemoveId(entries: seq<Entry>, id: string): (r: seq<Entry>)
    ensures |r| <= |entries|
  {
    if entries == [] then []
    else if entries[0].id != id then [entries[0]] + RemoveId(entries[1..], id)
    else RemoveId(entries[1..], id)
  }

  /** Filtering distributes over concatenation, so the kept entries stay in their
      original relative order. */
  lemma {:induction false} RemoveIdAppend(a: seq<Entry>, b: seq<Entry>, id: string)
    ensures RemoveId(a + b, id) == RemoveId(a, id) + RemoveId(b, id)
    decreases |a|
  {
    if a == [] {
      assert a + b == b;
    } else {
      assert (a + b)[1..] == a[1..] + b;
      RemoveIdAppend(a[1..], b, id);
    }
  }

  /** After deleting `id`, no entry carries it, and every other entry is still there. */
  lemma {:induction false} RemoveIdMembers(entries: seq<Entry>, id: string)
    ensures forall e :: e in RemoveId(entries, id) <==> e in entries && e.id != id
    decreases |entries|
  {
    if entries != [] {
      RemoveIdMembers(entries[1..], id);
      assert forall e :: e in entries <==> e == entries[0] || e in entries[1..];
    }
  }

  /** Deleting an id no entry carries changes nothing. */
  lemma {:induction false} RemoveAbsentId(entries: seq<Entry>, id: string)
    requires forall i :: 0 <= i < |entries| ==> entries[i].id != id
    ensures RemoveId(entries, id) == entries
    decreases |entries|
  {
    if entries != [] {
      RemoveAbsentId(entries[1..], id);
    }
  }

  /** `Array.prototype.join` turns each value into text; numbers through `numberText`
      (JavaScript's number-to-string conversion), null into the empty string. */
  function CellText(v: Json, numberText: real -> string): string
  {
    match v
    case JNull => ""
    case JBool(b) => if b then "true" else "false"
    case JNumber(n) => numberText(n)
    case JString(s) => s
    case JObject => "[object Object]"
  }

  /** One record of the export: `{date, ...input_features, result}`, the date written by
      `localeDate` (`new Date(created_at).toLocaleString()`). */
  function ExportRecord(e: Entry, localeDate: string -> string): Object<Json>
  {
    Put(Spread([("date", JString(localeDate(e.createdAt)))], e.inputFeatures), "result", e.result)
  }

  /** Whatever the features hold, "date" stays the first column and "result" holds the
      entry's result. */
  lemma ExportRecordEnds(e: Entry, localeDate: string -> string)
    ensures var r := ExportRecord(e, localeDate);
            r != [] && r[0].0 == "date" && Get(r, "result") == Some(e.result)
  {
    var o := Spread([("date", JString(localeDate(e.createdAt)))], e.inputFeatures);
    SpreadKeepsFirstKey([("date", JString(localeDate(e.createdAt)))], e.inputFeatures);
    PutKeys(o, "result", e.result);
    KeysAt(o);
    KeysAt(Put(o, "result", e.result));
    PutGet(o, "result", e.result, "result");
  }

  /** With features that have distinct keys other than "date" and "result", a record's
      columns are date, then the feature keys in order, then result. */
  lemma ExportRecordColumns(e: Entry, localeDate: string -> string)
    requires UniqueKeys(e.inputFeatures)
    requires "date" !in Keys(e.inputFeatures) && "result" !in Keys(e.inputFeatures)
    ensures Keys(ExportRecord(e, localeDate)) == ["date"] + Keys(e.inputFeatures) + ["result"]
    ensures Values(ExportRecord(e, localeDate)) == [JString(localeDate(e.createdAt))] + Values(e.inputFeatures) + [e.result]
  {
    var first: Object<Json> := [("date", JString(localeDate(e.createdAt)))];
    KeysAt(e.inputFeatures);
    assert Keys(first) == ["date"];
    assert Values(first) == [JString(localeDate(e.createdAt))];
    SpreadFresh(first, e.inputFeatures);
    var o := Spread(first, e.inputFeatures);
    PutKeys(o, "result", e.result);
  }

  function CellTexts(values: seq<Json>, numberText: real -> string): (texts: seq<string>)
    ensures |texts| == |values|
  {
    seq(|values|, i requires 0 <= i < |values| => CellText(values[i], numberText))
  }

  /** `Object.values(row).join(',')`, with no quoting or escaping. */
  function ValueLine(row: Object<Json>, numberText: real -> string): string
  {
    Join(CellTexts(Values(row), numberText), ",")
  }

  function ValueLines(rows: seq<Object<Json>>, numberText: real -> string): (lines: seq<string>)
    ensures |lines| == |rows|
  {
    seq(|rows|, i requires 0 <= i < |rows| => ValueLine(rows[i], numberText))
  }

  /** The CSV text: the first row's keys as header, then one value line per row, lines
      joined by "\n". Later rows are not checked against the header. */
  function Csv(rows: seq<Object<Json>>, numberText: real -> string): string
    requires rows != []
  {
    Join([Join(Keys(rows[0]), ",")] + ValueLines(rows, numberText), "\n")
  }

  /** `exportHistory`: reading `data[0]` of an empty list throws (`None`); the button
      that triggers it is disabled then. */
  function Export(entries: seq<Entry>, localeDate: string -> string, numberText: real -> string): (csv: Option<string>)
    ensures csv.None? <==> entries == []
  {
    if entries == [] then None
    else Some(Csv(seq(|entries|, i requires 0 <= i < |entries| => ExportRecord(entries[i], localeDate)), numberText))
  }

  /** No header key and no cell text holds a line break. */
  predicate SingleLineCells(rows: seq<Object<Json>>, numberText: real -> string)
    requires rows != []
  {
    (forall k :: 0 <= k < |Keys(rows[0])| ==> '\n' !in Keys(rows[0])[k]) &&
    (forall i, j :: 0 <= i < |rows| && 0 <= j < |Values(rows[i])| ==> '\n' !in CellText(Values(rows[i])[j], numberText))
  }

  /** With no line break inside a cell, the CSV text has N + 1 lines: the header, then
      the value line of each row in order. */
  lemma CsvLines(rows: seq<Object<Json>>, numberText: real -> string)
    requires rows != [] && SingleLineCells(rows, numberText)
    ensures var lines := Split(Csv(rows, numberText), '\n');
            |lines| == |rows| + 1 && lines[0] == Join(Keys(rows[0]), ",")
            && forall i :: 0 <= i < |rows| ==> lines[i + 1] == ValueLine(rows[i], numberText)
  {
    var parts := [Join(Keys(rows[0]), ",")] + ValueLines(rows, numberText);
    JoinAvoids(Keys(rows[0]), ",", '\n');
    forall i | 0 <= i < |rows| ensures '\n' !in ValueLine(rows[i], numberText) {
      JoinAvoids(CellTexts(Values(rows[i]), numberText), ",", '\n');
    }
    assert forall k :: 0 <= k < |parts| ==> '\n' !in parts[k] by {
      forall k | 0 <= k < |parts| ensures '\n' !in parts[k] {
        if k > 0 { assert parts[k] == ValueLine(rows[k - 1], numberText); }
      }
    }
    SplitJoin(parts, '\n');
  }

  /** The exported text of N entries has N + 1 lines, and its header is date, the first
      entry's feature keys, then result. */
  lemma ExportShape(entries: seq<Entry>, localeDate: string -> string, numberText: real -> string)
    requires entries != []
    requires UniqueKeys(entries[0].inputFeatures)
    requires "date" !in Keys(entries[0].inputFeatures) && "result" !in Keys(entries[0].inputFeatures)
    requires SingleLineCells(seq(|entries|, i requires 0 <= i < |entries| => ExportRecord(entries[i], localeDate)), numberText)
    ensures var lines := Split(Export(entries, localeDate, numberText).value, '\n');
            |lines| == |entries| + 1
            && lines[0] == Join(["date"] + Keys(entries[0].inputFeatures) + ["result"], ",")
  {
    var rows := seq(|entries|, i requires 0 <= i < |entries| => ExportRecord(entries[i], localeDate));
    CsvLines(rows, numberText);
    ExportRecordColumns(entries[0], localeDate);
  }

  /** A cell with a comma in it is not quoted: its line splits into more fields than the
      header has columns. */
  lemma CommaInCellShiftsColumns(numberText: real -> string)
    ensures var row := [("note", JString("a,b"))];
            |Keys(row)| == 1 && Split(ValueLine(row, numberText), ',') == ["a", "b"]
  {
    var row := [("note", JString("a,b"))];
    assert Values(row) == [JString("a,b")];
    assert CellTexts(Values(row), numberText) == ["a,b"];
    assert ValueLine(row, numberText) == "a,b";
    assert "a,b" == Join(["a", "b"], [',']);
    SplitJoin(["a", "b"], ',');
  }

  /** The page's state. */
  class History {
    /** The signed-in user's id, from the auth context. */
    var userId: Option<string>
    var predictions: seq<Entry>
    var isLoading: bool
    var error: string
    var showDeleteConfirm: bool
    /** Requests sent to the database, oldest first. */
    var queries: seq<Query>

    constructor ()
      ensures userId == None && predictions == [] && isLoading && error == ""
      ensures !showDeleteConfirm && queries == []
    {
      userId := None;
      predictions := [];
      isLoading := true;
      error := "";
      showDeleteConfirm := false;
      queries := [];
    }

    /** The effect on `user`: predictions are loaded only when a user is signed in. */
    method OnUserChange(user: Option<string>, outcome: Outcome<Option<seq<Entry>>>)
      modifies this
      ensures userId == user
      ensures user.None? ==>
        predictions == old(predictions) && isLoading == old(isLoading) && error == old(error)
        && queries == old(queries)
      ensures user.Some? ==> queries == old(queries) + [SelectWhere(Table, "user_id", user, "created_at", false)]
      ensures user.Some? && outcome.Success? ==> predictions == outcome.data.GetOr([]) && error == old(error)
      ensures user.Some? && outcome.Failed? ==>
        predictions == old(predictions) && error == MessageOr(outcome.failure, LoadFallback)
      ensures user.Some? ==> !isLoading
      ensures showDeleteConfirm == old(showDeleteConfirm)
    {
      userId := user;
      if user.Some? {
        LoadPredictions(outcome);
      }
    }

    /** `loadPredictions`: the user's rows, newest first; `data || []` on success. */
    method LoadPredictions(outcome: Outcome<Option<seq<Entry>>>)
      modifies this
      ensures queries == old(queries) + [SelectWhere(Table, "user_id", userId, "created_at", false)]
      ensures outcome.Success? ==> predictions == outcome.data.GetOr([]) && error == old(error)
      ensures outcome.Failed? ==> predictions == old(predictions) && error == MessageOr(outcome.failure, LoadFallback)
      ensures !isLoading
      ensures userId == old(userId) && showDeleteConfirm == old(showDeleteConfirm)
    {
      queries := queries + [SelectWhere(Table, "user_id", userId, "created_at", false)];
      match outcome {
        case Success(data) => predictions := data.GetOr([]);
        case Failed(f) => error := MessageOr(f, LoadFallback);
      }
      isLoading := false;
    }

    /** `handleDelete(id)`: the store first; the list is filtered only once the store
        has deleted the row. */
    method HandleDelete(id: string, outcome: Outcome<()>)
      modifies this
      ensures queries == old(queries) + [DeleteWhere(Table, "id", Some(id))]
      ensures outcome.Success? ==> predictions == RemoveId(old(predictions), id) && error == old(error)
      ensures outcome.Failed? ==> predictions == old(predictions) && error == MessageOr(outcome.failure, DeleteFallback)
      ensures userId == old(userId) && isLoading == old(isLoading) && showDeleteConfirm == old(showDeleteConfirm)
    {
      queries := queries + [DeleteWhere(Table, "id", Some(id))];
      match outcome {
        case Success(_) => predictions := RemoveId(predictions, id);
        case Failed(f) => error := MessageOr(f, DeleteFallback);
      }
    }

    /** The "Clear History" button, disabled while the list is empty. */
    method OpenClearConfirm()
      modifies this
      ensures showDeleteConfirm == (old(showDeleteConfirm) || old(predictions) != [])
      ensures userId == old(userId) && predictions == old(predictions) && isLoading == old(isLoading)
      ensures error == old(error) && queries == old(queries)
    {
      if predictions != [] {
        showDeleteConfirm := true;
      }
    }

    /** The dialog's "Cancel" button. */
    method CancelClear()
      modifies this
      ensures !showDeleteConfirm
      ensures userId == old(userId) && predictions == old(predictions) && isLoading == old(isLoading)
      ensures error == old(error) && queries == old(queries)
    {
      showDeleteConfirm := false;
    }

    /** `handleClearHistory`: deletes every row of the user; only success empties the
        list and closes the dialog. */
    method HandleClearHistory(outcome: Outcome<()>)
      modifies this
      ensures queries == old(queries) + [DeleteWhere(Table, "user_id", userId)]
      ensures outcome.Success? ==> predictions == [] && !showDeleteConfirm && error == old(error)
      ensures outcome.Failed? ==>
        predictions == old(predictions) && showDeleteConfirm == old(showDeleteConfirm)
        && error == MessageOr(outcome.failure, ClearFallback)
      ensures userId == old(userId) && isLoading == old(isLoading)
    {
      queries := queries + [DeleteWhere(Table, "user_id", userId)];
      match outcome {
        case Success(_) =>
          predictions := [];
          showDeleteConfirm := false;
        case Failed(f) =>
          error := MessageOr(f, ClearFallback);
      }
    }
  }
}
