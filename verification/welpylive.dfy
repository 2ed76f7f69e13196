/**
 * `LiveWELData` of WELPyLive.py: each poll of the controller yields a list
 * of name/value items, which is folded into one record whose `date` and
 * `time` fields are replaced by a combined `DateTime`, and the record is
 * appended to the table. The HTTP fetch and XML parsing are not modelled:
 * the item list is an input.
 */
module WELPyLive {
  import opened Results
  import opened Clock

  /** One `{name, value}` device entry of the controller's XML. */
  datatype Item = Item(name: string, value: string)

  /** A record field: the text the controller sent, or the combined timestamp. */
  datatype Field = Text(text: string) | Stamp(instant: Instant)

  /** One appended row, by field name. */
  type Record = map<string, Field>

  /** The live table and the timestamp of its first record. */
  datatype LiveWELData = LiveWELData(data: seq<Record>, beginTime: Instant)

  /** The value of the last item named `k` is `v`. */
  predicate LastWrite(items: seq<Item>, k: string, v: string) {
    exists i :: 0 <= i < |items| && items[i].name == k && items[i].value == v && LastNamed(items, k, i)
  }

  /** No item after position `i` is named `k`. */
  predicate LastNamed(items: seq<Item>, k: string, i: nat) {
    forall j :: i < j < |items| ==> items[j].name != k
  }

  /** `for item in items: row[item['name']] = item['value']`. */
  function Fold(items: seq<Item>): map<string, string> {
    if |items| == 0 then map[]
    else
      var n := |items| - 1;
      Fold(items[..n])[items[n].name := items[n].value]
  }

  /** The fold holds exactly the names that occur, each with the value of its last item. */
  lemma {:induction false} FoldIsLastWrite(items: seq<Item>)
    ensures forall k :: k in Fold(items) <==> exists i :: 0 <= i < |items| && items[i].name == k
    ensures forall k :: k in Fold(items) ==> LastWrite(items, k, Fold(items)[k])
  {
    if |items| > 0 {
      var n := |items| - 1;
      var prefix := Fold(items[..n]);
      var row := Fold(items);
      FoldIsLastWrite(items[..n]);
      assert row == prefix[items[n].name := items[n].value];
      assert LastWrite(items, items[n].name, items[n].value) by {
        assert LastNamed(items, items[n].name, n);
      }
      forall k | k in prefix && k != items[n].name
        ensures LastWrite(items, k, row[k])
      {
        var i :| 0 <= i < n && items[..n][i].name == k && items[..n][i].value == prefix[k] && LastNamed(items[..n], k, i);
        assert LastNamed(items, k, i);
      }
      forall k | exists i :: 0 <= i < |items| && items[i].name == k
        ensures k in row
      {
        var i :| 0 <= i < |items| && items[i].name == k;
        if i < n {
          assert items[..n][i].name == k;
        }
      }
      forall k | k in row
        ensures exists i :: 0 <= i < |items| && items[i].name == k
      {
        if k != items[n].name {
          var i :| 0 <= i < n && items[..n][i].name == k;
          assert items[i].name == k;
        }
      }
    }
  }

  /** The last value written for a name is unique. */
  lemma LastWriteUnique(items: seq<Item>, k: string, v: string, w: string)
    requires LastWrite(items, k, v) && LastWrite(items, k, w)
    ensures v == w
  {
    var i :| 0 <= i < |items| && items[i].name == k && items[i].value == v && LastNamed(items, k, i);
    var j :| 0 <= j < |items| && items[j].name == k && items[j].value == w && LastNamed(items, k, j);
    assert !(i < j) && !(j < i);
  }

  /** The fold is last-write-wins: a name maps to the value of its last item. */
  lemma FoldLastWins(items: seq<Item>, k: string, v: string)
    requires LastWrite(items, k, v)
    ensures k in Fold(items) && Fold(items)[k] == v
  {
    var row := Fold(items);
    FoldIsLastWrite(items);
    var i :| 0 <= i < |items| && items[i].name == k && items[i].value == v && LastNamed(items, k, i);
    assert k in row;
    LastWriteUnique(items, k, v, row[k]);
  }

  /** The items name a `date` and a `time` that `strptime` accepts. */
  predicate Complete(items: seq<Item>, cal: Calendar) {
    var row := Fold(items);
    && "date" in row && cal.parseDate(row["date"]).Some?
    && "time" in row && cal.parseTime(row["time"]).Some?
  }

  /**
   * The record `__init__` and `addData` build: fold the items, parse
   * `date` then `time` (KeyError when absent, ValueError when malformed),
   * set `DateTime` to their combination and delete `date` and `time`.
   */
  function Assemble(items: seq<Item>, cal: Calendar): (r: Result<Record>)
    ensures r.Ok? <==> Complete(items, cal)
    ensures "date" !in Fold(items) ==> r == Err(MissingKey("date"))
    ensures "date" in Fold(items) && cal.parseDate(Fold(items)["date"]).Some? && "time" !in Fold(items)
            ==> r == Err(MissingKey("time"))
    ensures r.Ok? ==> var row := Fold(items);
      && "DateTime" in r.value && "date" !in r.value && "time" !in r.value
      && r.value["DateTime"] == Stamp(cal.combine(cal.parseDate(row["date"]).value, cal.parseTime(row["time"]).value))
      && r.value.Keys == row.Keys - {"date", "time"} + {"DateTime"}
      && forall k :: k in row && k !in {"date", "time", "DateTime"} ==> r.value[k] == Text(row[k])
  {
    var row := Fold(items);
    if "date" !in row then Err(MissingKey("date"))
    else
      match cal.parseDate(row["date"])
      case None => Err(BadValue(row["date"]))
      case Some(day) =>
        if "time" !in row then Err(MissingKey("time"))
        else
          match cal.parseTime(row["time"])
          case None => Err(BadValue(row["time"]))
          case Some(tod) =>
            var texts := map k | k in row :: Text(row[k]);
            Ok(texts["DateTime" := Stamp(cal.combine(day, tod))] - {"date", "time"})
  }

  /** Every item's name/value pair other than `date`, `time` and `DateTime` reaches the record, last write winning. */
  lemma AssemblePassesThrough(items: seq<Item>, cal: Calendar, k: string, v: string)
    requires Assemble(items, cal).Ok?
    requires k != "date" && k != "time" && k != "DateTime" && LastWrite(items, k, v)
    ensures k in Assemble(items, cal).value && Assemble(items, cal).value[k] == Text(v)
  {
    FoldLastWins(items, k, v);
  }

  /** An incoming item named `DateTime` never survives: the combined timestamp overrides it. */
  lemma DateTimeOverridden(items: seq<Item>, cal: Calendar, v: string)
    requires Assemble(items, cal).Ok? && Item("DateTime", v) in items
    ensures var row := Fold(items);
      Assemble(items, cal).value["DateTime"]
        == Stamp(cal.combine(cal.parseDate(row["date"]).value, cal.parseTime(row["time"]).value))
  {
  }

  /** The shape every record of the live table has: `DateTime` is a timestamp, `date` and `time` are gone. */
  predicate Tidy(rec: Record) {
    && "DateTime" in rec && rec["DateTime"].Stamp?
    && "date" !in rec && "time" !in rec
  }

  /** What `__init__` and `addData` keep true of the table. */
  predicate Valid(live: LiveWELData) {
    && |live.data| >= 1
    && (forall i :: 0 <= i < |live.data| ==> Tidy(live.data[i]))
    && live.beginTime == live.data[0]["DateTime"].instant
  }

  /** `LiveWELData()` once the first poll's items are in hand: a one-row table starting at that row. */
  function Init(items: seq<Item>, cal: Calendar): (r: Result<LiveWELData>)
    ensures r.Ok? <==> Complete(items, cal)
    ensures r.Err? ==> r.error == Assemble(items, cal).error
    ensures r.Ok? ==> r.value.data == [Assemble(items, cal).value]
    ensures r.Ok? ==> Valid(r.value)
  {
    var rec :- Assemble(items, cal);
    Ok(LiveWELData([rec], rec["DateTime"].instant))
  }

  /**
   * `addData(liveData)`: exactly one record appended at the end; on an
   * exception the table is left as it was.
   */
  function AddData(live: LiveWELData, items: seq<Item>, cal: Calendar): (r: Result<LiveWELData>)
    ensures r.Ok? <==> Complete(items, cal)
    ensures r.Err? ==> r.error == Assemble(items, cal).error
    ensures r.Ok? ==> |r.value.data| == |live.data| + 1
    ensures r.Ok? ==> r.value.data[..|live.data|] == live.data
    ensures r.Ok? ==> r.value.data[|live.data|] == Assemble(items, cal).value
    ensures r.Ok? ==> r.value.beginTime == live.beginTime
  {
    var rec :- Assemble(items, cal);
    Ok(LiveWELData(live.data + [rec], live.beginTime))
  }

  /** Appending keeps the table's invariant. */
  lemma AddDataKeepsValid(live: LiveWELData, items: seq<Item>, cal: Calendar)
    requires Valid(live) && AddData(live, items, cal).Ok?
    ensures Valid(AddData(live, items, cal).value)
  {
    var r := AddData(live, items, cal).value;
    assert forall i :: 0 <= i < |live.data| ==> r.data[i] == live.data[i];
  }
}
