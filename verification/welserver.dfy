/**
 * `WELData` of WELServer.py: loading one WEL export into a frame with a
 * combined timestamp and two derived channels, resolving a requested time
 * range, and selecting the rows of a plot. Reading the spreadsheet and
 * drawing the figure are not modelled: the sheet is an input, the selected
 * series are the output.
 */
module WELServer {
  import opened Results
  import opened Clock
  import opened Frames

  /** A loaded export: the frame and the first and last combined timestamps. */
  datatype WELData = WELData(data: Frame, beginTime: Instant, endTime: Instant)

  /**
   * `eff.rolling('D').mean()` at one row, given the timestamp index and the
   * series; floating-point numerics left to the caller.
   */
  type RollingMean = (seq<Instant>, seq<Num>, nat) -> Num

  /** The columns the constructor adds, in the order it adds them. */
  const Added: seq<string> := ["dateTime", "power_tot", "T_diff", "eff_rolling"]

  /** What the constructor guarantees of every `WELData`. */
  predicate Valid(d: WELData) {
    && Frames.Valid(d.data)
    && d.data.height > 0
    && "dateTime" in d.data.cols
    && d.data.cols["dateTime"].Stamps?
    && d.beginTime == d.data.cols["dateTime"].stamps[0]
    && d.endTime == d.data.cols["dateTime"].stamps[d.data.height - 1]
  }

  /** The timestamp column, the frame's index. */
  function TimeIndex(d: WELData): (ts: seq<Instant>)
    requires Valid(d)
    ensures |ts| == d.data.height
  {
    d.data.cols["dateTime"].stamps
  }

  // ---------------------------------------------------------------- loading

  /** `Date.apply(strptime)` on text cells: parsed in row order, ValueError at the first that fails. */
  function ParseAll(parse: string -> Option<Day>, texts: seq<string>): (r: Result<seq<Day>>)
    ensures r.Ok? <==> forall i :: 0 <= i < |texts| ==> parse(texts[i]).Some?
    ensures r.Ok? ==> |r.value| == |texts|
    ensures r.Ok? ==> forall i :: 0 <= i < |texts| ==> r.value[i] == parse(texts[i]).value
    ensures r.Err? ==> exists j :: FirstBad(parse, texts, j) && r.error == BadValue(texts[j])
  {
    if |texts| == 0 then Ok([])
    else
      match parse(texts[0])
      case None => assert FirstBad(parse, texts, 0); Err(BadValue(texts[0]))
      case Some(day) =>
        var rest := ParseAll(parse, texts[1..]);
        if rest.Err? then
          var j :| FirstBad(parse, texts[1..], j) && rest.error == BadValue(texts[1..][j]);
          assert FirstBad(parse, texts, j + 1);
          Err(rest.error)
        else
          Ok([day] + rest.value)
  }

  /** Row `j` is the first whose text does not parse. */
  predicate FirstBad(parse: string -> Option<Day>, texts: seq<string>, j: int) {
    && 0 <= j < |texts|
    && parse(texts[j]).None?
    && forall i :: 0 <= i < j ==> parse(texts[i]).Some?
  }

  /** The `Date` column parsed; an empty column of any kind is left empty, a non-text one raises TypeError. */
  function ParseDates(cal: Calendar, c: Column): (r: Result<seq<Day>>)
    ensures r.Ok? ==> |r.value| == Len(c)
  {
    if c.Texts? then ParseAll(cal.parseDate, c.texts)
    else if Len(c) == 0 then Ok([])
    else Err(WrongType("Date"))
  }

  /** The `Time` column's times of day; `combine` raises TypeError on any other kind of cell. */
  function TimesOf(c: Column): (r: Result<seq<Tod>>)
    ensures r.Ok? ==> |r.value| == Len(c)
  {
    if c.Clocks? then Ok(c.clocks)
    else if Len(c) == 0 then Ok([])
    else Err(WrongType("Time"))
  }

  /** The `Date` column parses row by row (an empty column of any kind counts). */
  predicate DatesParse(cal: Calendar, c: Column) {
    if c.Texts? then forall i :: 0 <= i < |c.texts| ==> cal.parseDate(c.texts[i]).Some?
    else Len(c) == 0
  }

  /** The `Date` and `Time` columns exist and combine row by row. */
  predicate Stampable(sheet: Frame, cal: Calendar) {
    && "Date" in sheet.cols && DatesParse(cal, sheet.cols["Date"])
    && "Time" in sheet.cols && (sheet.cols["Time"].Clocks? || Len(sheet.cols["Time"]) == 0)
  }

  /** The date of row `i`, as `strptime` parsed it. */
  function RowDay(sheet: Frame, cal: Calendar, i: nat): Day
    requires Frames.Valid(sheet) && Stampable(sheet, cal) && i < sheet.height
  {
    assert Len(sheet.cols["Date"]) == sheet.height;
    cal.parseDate(sheet.cols["Date"].texts[i]).value
  }

  /** The combined timestamp of row `i`: `combine(Date[i], Time[i])`. */
  function RowTime(sheet: Frame, cal: Calendar, i: nat): Instant
    requires Frames.Valid(sheet) && Stampable(sheet, cal) && i < sheet.height
  {
    assert Len(sheet.cols["Time"]) == sheet.height;
    cal.combine(RowDay(sheet, cal, i), sheet.cols["Time"].clocks[i])
  }

  /** Every row's parsed date. */
  function DayColumn(sheet: Frame, cal: Calendar): (s: seq<Day>)
    requires Frames.Valid(sheet) && Stampable(sheet, cal)
    ensures |s| == sheet.height
  {
    seq(sheet.height, i requires 0 <= i < sheet.height => RowDay(sheet, cal, i))
  }

  /** Every row's combined timestamp. */
  function TimeColumn(sheet: Frame, cal: Calendar): (s: seq<Instant>)
    requires Frames.Valid(sheet) && Stampable(sheet, cal)
    ensures |s| == sheet.height
  {
    seq(sheet.height, i requires 0 <= i < sheet.height => RowTime(sheet, cal, i))
  }

  /**
   * The constructor's first two statements: `Date` is parsed in place and
   * `dateTime` is added; every other column stays as it was.
   */
  function StampRows(sheet: Frame, cal: Calendar): (r: Result<Frame>)
    requires Frames.Valid(sheet)
    ensures r.Ok? <==> Stampable(sheet, cal)
    ensures "Date" !in sheet.cols ==> r == Err(MissingColumn("Date"))
    ensures r.Ok? ==> Frames.Valid(r.value) && r.value.height == sheet.height
    ensures r.Ok? ==> r.value.names == AppendName(sheet.names, "dateTime")
    ensures r.Ok? ==> r.value.cols == sheet.cols["Date" := Days(DayColumn(sheet, cal))]["dateTime" := Stamps(TimeColumn(sheet, cal))]
  {
    if "Date" !in sheet.cols then Err(MissingColumn("Date"))
    else
      var days := ParseDates(cal, sheet.cols["Date"]);
      if days.Err? then Err(days.error)
      else if "Time" !in sheet.cols then Err(MissingColumn("Time"))
      else
        var tods := TimesOf(sheet.cols["Time"]);
        if tods.Err? then Err(tods.error)
        else
          assert days.value == DayColumn(sheet, cal);
          var f1 := Assign(sheet, "Date", Days(days.value));
          var stamps := seq(sheet.height, i requires 0 <= i < sheet.height => cal.combine(days.value[i], tods.value[i]));
          assert stamps == TimeColumn(sheet, cal);
          Ok(Assign(f1, "dateTime", Stamps(stamps)))
  }

  /** Row-wise `op` of two float columns of one height, as pandas applies `+` and `-` to Series. */
  function RowWise(xs: seq<Num>, ys: seq<Num>, op: (Num, Num) -> Num): (zs: seq<Num>)
    requires |xs| == |ys|
    ensures |zs| == |xs|
  {
    seq(|xs|, i requires 0 <= i < |xs| => op(xs[i], ys[i]))
  }

  /** The daily rolling mean of a float column, row by row. */
  function Rolled(rolling: RollingMean, stamps: seq<Instant>, xs: seq<Num>): (zs: seq<Num>)
    ensures |zs| == |xs|
  {
    seq(|xs|, i requires 0 <= i < |xs| => rolling(stamps, xs, i))
  }

  /**
   * The exception the derivations raise first, if any: each statement reads
   * its two columns (AttributeError) and then applies the operator
   * (TypeError unless both are float columns).
   */
  function DeriveError(f: Frame): (e: Option<Error>)
    ensures e.None? <==> Derivable(f)
    ensures "HP_W" !in f.cols ==> e == Some(MissingColumn("HP_W"))
  {
    if "HP_W" !in f.cols then Some(MissingColumn("HP_W"))
    else if "TAH_W" !in f.cols then Some(MissingColumn("TAH_W"))
    else if !f.cols["HP_W"].Nums? then Some(WrongType("HP_W"))
    else if !f.cols["TAH_W"].Nums? then Some(WrongType("TAH_W"))
    else if "inside_T" !in f.cols then Some(MissingColumn("inside_T"))
    else if "outside_T" !in f.cols then Some(MissingColumn("outside_T"))
    else if !f.cols["inside_T"].Nums? then Some(WrongType("inside_T"))
    else if !f.cols["outside_T"].Nums? then Some(WrongType("outside_T"))
    else if "eff" !in f.cols then Some(MissingColumn("eff"))
    else if !f.cols["eff"].Nums? then Some(WrongType("eff"))
    else None
  }

  /** The five float channels the derivations read are present. */
  predicate Derivable(f: Frame) {
    && "HP_W" in f.cols && f.cols["HP_W"].Nums?
    && "TAH_W" in f.cols && f.cols["TAH_W"].Nums?
    && "inside_T" in f.cols && f.cols["inside_T"].Nums?
    && "outside_T" in f.cols && f.cols["outside_T"].Nums?
    && "eff" in f.cols && f.cols["eff"].Nums?
  }

  /** The sheet has what the constructor needs, so it returns without raising. */
  predicate Loadable(sheet: Frame, cal: Calendar) {
    && sheet.height > 0
    && Stampable(sheet, cal)
    && Derivable(sheet)
  }

  /** The float cells of a column the derivations read. */
  function NumsAt(f: Frame, name: string): (xs: seq<Num>)
    requires Frames.Valid(f) && name in f.cols && f.cols[name].Nums?
    ensures |xs| == f.height
  {
    assert Len(f.cols[name]) == f.height;
    f.cols[name].nums
  }

  /** The columns the constructor builds from a loadable sheet, by name. */
  function LoadedColumns(sheet: Frame, cal: Calendar, rolling: RollingMean): map<string, Column>
    requires Frames.Valid(sheet) && Loadable(sheet, cal)
  {
    sheet.cols
      ["Date" := Days(DayColumn(sheet, cal))]
      ["dateTime" := Stamps(TimeColumn(sheet, cal))]
      ["power_tot" := Nums(RowWise(NumsAt(sheet, "HP_W"), NumsAt(sheet, "TAH_W"), Plus))]
      ["T_diff" := Nums(RowWise(NumsAt(sheet, "inside_T"), NumsAt(sheet, "outside_T"), Minus))]
      ["eff_rolling" := Nums(Rolled(rolling, TimeColumn(sheet, cal), NumsAt(sheet, "eff")))]
  }

  /**
   * The constructor's derived channels, in its order: `power_tot = HP_W +
   * TAH_W`, `T_diff = inside_T - outside_T`, then the daily rolling mean of
   * `eff` over the timestamp index. No statement writes a column a later one
   * reads, so every channel is read from `f`.
   */
  function Derive(f: Frame, stamps: seq<Instant>, rolling: RollingMean): (r: Result<Frame>)
    requires Frames.Valid(f)
    ensures r.Ok? <==> Derivable(f)
    ensures r.Err? ==> Some(r.error) == DeriveError(f)
    ensures r.Ok? ==> Frames.Valid(r.value) && r.value.height == f.height
    ensures r.Ok? ==> r.value.names == AppendName(AppendName(AppendName(f.names, "power_tot"), "T_diff"), "eff_rolling")
    ensures r.Ok? ==> r.value.cols == f.cols
      ["power_tot" := Nums(RowWise(NumsAt(f, "HP_W"), NumsAt(f, "TAH_W"), Plus))]
      ["T_diff" := Nums(RowWise(NumsAt(f, "inside_T"), NumsAt(f, "outside_T"), Minus))]
      ["eff_rolling" := Nums(Rolled(rolling, stamps, NumsAt(f, "eff")))]
  {
    match DeriveError(f)
    case Some(e) => Err(e)
    case None =>
      var f1 := Assign(f, "power_tot", Nums(RowWise(NumsAt(f, "HP_W"), NumsAt(f, "TAH_W"), Plus)));
      var f2 := Assign(f1, "T_diff", Nums(RowWise(NumsAt(f, "inside_T"), NumsAt(f, "outside_T"), Minus)));
      Ok(Assign(f2, "eff_rolling", Nums(Rolled(rolling, stamps, NumsAt(f, "eff")))))
  }

  /**
   * `WELData(dataPath)` once the spreadsheet is read: parse `Date`, add the
   * combined `dateTime`, take its first and last value as the extent, then
   * add `power_tot`, `T_diff` and `eff_rolling`.
   */
  function Load(sheet: Frame, cal: Calendar, rolling: RollingMean): (r: Result<WELData>)
    requires Frames.Valid(sheet)
    ensures r.Ok? <==> Loadable(sheet, cal)
    ensures "Date" !in sheet.cols ==> r == Err(MissingColumn("Date"))
    ensures Stampable(sheet, cal) && sheet.height == 0 ==> r == Err(EmptyTable)
    ensures r.Ok? ==> Valid(r.value) && r.value.data.height == sheet.height
    ensures r.Ok? ==> r.value.data.cols == LoadedColumns(sheet, cal, rolling)
    ensures r.Ok? ==> r.value.data.names == AppendAll(sheet.names, Added)
    ensures r.Ok? ==> r.value.beginTime == TimeColumn(sheet, cal)[0]
    ensures r.Ok? ==> r.value.endTime == TimeColumn(sheet, cal)[sheet.height - 1]
  {
    var f := StampRows(sheet, cal);
    if f.Err? then Err(f.error)
    else if sheet.height == 0 then Err(EmptyTable)
    else
      var stamps := f.value.cols["dateTime"].stamps;
      StampKeepsChannels(sheet, cal, f.value);
      var g := Derive(f.value, stamps, rolling);
      if g.Err? then Err(g.error)
      else
        LoadedFrame(sheet, cal, rolling, f.value, g.value);
        AppendAdded(sheet.names);
        Ok(WELData(g.value, stamps[0], stamps[sheet.height - 1]))
  }

  /** Parsing `Date` and adding `dateTime` leaves the channels the derivations read as they were. */
  lemma StampKeepsChannels(sheet: Frame, cal: Calendar, f: Frame)
    requires Frames.Valid(sheet) && Stampable(sheet, cal) && StampRows(sheet, cal) == Ok(f)
    ensures Frames.Valid(f) && f.height == sheet.height
    ensures Derivable(f) <==> Derivable(sheet)
    ensures Derivable(sheet) ==>
      && NumsAt(f, "HP_W") == NumsAt(sheet, "HP_W") && NumsAt(f, "TAH_W") == NumsAt(sheet, "TAH_W")
      && NumsAt(f, "inside_T") == NumsAt(sheet, "inside_T") && NumsAt(f, "outside_T") == NumsAt(sheet, "outside_T")
      && NumsAt(f, "eff") == NumsAt(sheet, "eff")
    ensures f.cols["dateTime"] == Stamps(TimeColumn(sheet, cal))
  {
  }

  /** The frame the two stages build holds the constructor's columns and is a valid `WELData` frame. */
  lemma LoadedFrame(sheet: Frame, cal: Calendar, rolling: RollingMean, f: Frame, g: Frame)
    requires Frames.Valid(sheet) && Loadable(sheet, cal) && StampRows(sheet, cal) == Ok(f)
    requires Frames.Valid(f) && "dateTime" in f.cols && f.cols["dateTime"].Stamps?
    requires Derive(f, f.cols["dateTime"].stamps, rolling) == Ok(g)
    ensures g.cols == LoadedColumns(sheet, cal, rolling)
    ensures Valid(WELData(g, TimeColumn(sheet, cal)[0], TimeColumn(sheet, cal)[sheet.height - 1]))
  {
    StampKeepsChannels(sheet, cal, f);
  }

  /** The column order after assigning each of `added` in turn. */
  function AppendAll(names: seq<string>, added: seq<string>): seq<string>
    decreases |added|
  {
    if |added| == 0 then names else AppendAll(AppendName(names, added[0]), added[1..])
  }

  /** The constructor's four assignments, one at a time. */
  lemma AppendAdded(names: seq<string>)
    ensures AppendAll(names, Added)
      == AppendName(AppendName(AppendName(AppendName(names, "dateTime"), "power_tot"), "T_diff"), "eff_rolling")
  {
    var n1 := AppendName(names, "dateTime");
    var n2 := AppendName(n1, "power_tot");
    var n3 := AppendName(n2, "T_diff");
    assert Added[1..] == ["power_tot", "T_diff", "eff_rolling"];
    assert AppendAll(names, Added) == AppendAll(n1, ["power_tot", "T_diff", "eff_rolling"]);
    assert ["power_tot", "T_diff", "eff_rolling"][1..] == ["T_diff", "eff_rolling"];
    assert AppendAll(n1, ["power_tot", "T_diff", "eff_rolling"]) == AppendAll(n2, ["T_diff", "eff_rolling"]);
    assert ["T_diff", "eff_rolling"][1..] == ["eff_rolling"];
    assert AppendAll(n2, ["T_diff", "eff_rolling"]) == AppendAll(n3, ["eff_rolling"]);
  }

  // ------------------------------------------------------ loading, properties

  /** `power_tot` is `HP_W + TAH_W` row by row, and both channels keep their values. */
  lemma PowerTotal(sheet: Frame, cal: Calendar, rolling: RollingMean)
    requires Frames.Valid(sheet) && Loadable(sheet, cal)
    ensures var cols := LoadedColumns(sheet, cal, rolling);
      var hp, tah := NumsAt(sheet, "HP_W"), NumsAt(sheet, "TAH_W");
      && cols["power_tot"].Nums? && |cols["power_tot"].nums| == sheet.height
      && (forall i :: 0 <= i < sheet.height ==> cols["power_tot"].nums[i] == Plus(hp[i], tah[i]))
      && cols["HP_W"] == sheet.cols["HP_W"] && cols["TAH_W"] == sheet.cols["TAH_W"]
  {
  }

  /** `T_diff` is `inside_T - outside_T` row by row, and both channels keep their values. */
  lemma TemperatureDifference(sheet: Frame, cal: Calendar, rolling: RollingMean)
    requires Frames.Valid(sheet) && Loadable(sheet, cal)
    ensures var cols := LoadedColumns(sheet, cal, rolling);
      var inside, outside := NumsAt(sheet, "inside_T"), NumsAt(sheet, "outside_T");
      && cols["T_diff"].Nums? && |cols["T_diff"].nums| == sheet.height
      && (forall i :: 0 <= i < sheet.height ==> cols["T_diff"].nums[i] == Minus(inside[i], outside[i]))
      && cols["inside_T"] == sheet.cols["inside_T"] && cols["outside_T"] == sheet.cols["outside_T"]
  {
  }

  /** The constructor writes only `Date` and the four columns it adds; every other sheet column is kept as read. */
  lemma SourceColumnsKept(sheet: Frame, cal: Calendar, rolling: RollingMean)
    requires Frames.Valid(sheet) && Loadable(sheet, cal)
    ensures var cols := LoadedColumns(sheet, cal, rolling);
      && cols.Keys == sheet.cols.Keys + {"dateTime", "power_tot", "T_diff", "eff_rolling"}
      && forall c :: c in sheet.cols && c !in Rewritten ==> cols[c] == sheet.cols[c]
  {
  }

  /** The columns the constructor writes. */
  const Rewritten: set<string> := {"Date", "dateTime", "power_tot", "T_diff", "eff_rolling"}

  /** `vars()`: the column names in column order. */
  function Vars(d: WELData): (r: seq<string>)
    requires Valid(d)
    ensures Distinct(r)
    ensures forall n :: n in r ==> n in d.data.cols
    ensures forall n :: n in d.data.cols ==> n in r
  {
    d.data.names
  }

  /** `vars()` of a loaded export: the sheet's columns, then those the constructor assigned, in column order. */
  lemma VarsAfterLoad(sheet: Frame, cal: Calendar, rolling: RollingMean)
    requires Frames.Valid(sheet) && Loadable(sheet, cal)
    ensures Vars(Load(sheet, cal, rolling).value) == AppendAll(sheet.names, Added)
  {
  }

  /** When the sheet has none of the added columns, `vars()` lists the sheet's columns and then the four added ones. */
  lemma VarsAfterLoadFresh(sheet: Frame, cal: Calendar, rolling: RollingMean)
    requires Frames.Valid(sheet) && Loadable(sheet, cal)
    requires forall k :: 0 <= k < |Added| ==> Added[k] !in sheet.cols
    ensures Vars(Load(sheet, cal, rolling).value) == sheet.names + Added
  {
    VarsAfterLoad(sheet, cal, rolling);
    AddedFresh(sheet.names);
  }

  /** The constructor's four names, none already a column, are appended in order. */
  lemma AddedFresh(names: seq<string>)
    requires forall k :: 0 <= k < |Added| ==> Added[k] !in names
    ensures AppendAll(names, Added) == names + Added
  {
    assert Distinct(Added);
    AppendAllFresh(names, Added);
  }

  /**
   * The column order after the constructor's assignments keeps the sheet's
   * columns first, in their order, and holds exactly those and the assigned ones.
   */
  lemma {:induction false} AppendAllOrder(names: seq<string>, added: seq<string>)
    decreases |added|
    ensures var r := AppendAll(names, added);
      && |r| >= |names| && r[..|names|] == names
      && (forall n :: n in r <==> n in names || n in added)
  {
    if |added| > 0 {
      var next := AppendName(names, added[0]);
      AppendAllOrder(next, added[1..]);
      var r := AppendAll(next, added[1..]);
      assert r[..|names|] == r[..|next|][..|names|];
      assert forall n :: n in added <==> n == added[0] || n in added[1..];
    }
  }

  /** When the sheet has none of the assigned names, they are appended in the order assigned. */
  lemma {:induction false} AppendAllFresh(names: seq<string>, added: seq<string>)
    requires Distinct(added)
    requires forall k :: 0 <= k < |added| ==> added[k] !in names
    decreases |added|
    ensures AppendAll(names, added) == names + added
  {
    if |added| > 0 {
      var next := AppendName(names, added[0]);
      assert next == names + [added[0]];
      assert Distinct(added[1..]);
      assert forall k :: 0 <= k < |added[1..]| ==> added[1..][k] !in next;
      AppendAllFresh(next, added[1..]);
      assert names + added == next + added[1..];
    }
  }

  // ---------------------------------------------------------------- time range

  /** One element of a requested range: text from the caller, or a datetime object. */
  datatype Bound = Text(text: string) | At(instant: Instant)

  /** A resolved range: the two bounds and the list's untouched elements after them. */
  datatype Window = Window(start: Moment, end: Moment, rest: seq<Bound>)

  /** The element resolves: the sentinel, or text `fromisoformat` accepts. */
  predicate Accepted(b: Bound, cal: Calendar) {
    b.Text? && (b.text == "none" || cal.parseIso(b.text).Some?)
  }

  /** The datetime an accepted element stands for; the dataset's own timestamps carry no offset. */
  function Meaning(b: Bound, fallback: Instant, cal: Calendar): Moment
    requires Accepted(b, cal)
  {
    if b.text == "none" then Moment(fallback, false) else cal.parseIso(b.text).value
  }

  /** The exception an element that is not accepted raises: TypeError for a datetime object, ValueError for text. */
  function Rejection(b: Bound): Error {
    if b.At? then WrongType("timeRange") else BadValue(b.text)
  }

  /** One list element as `timeCondition` resolves it: `'none'` is the fallback, any other text is parsed. */
  function ResolveBound(b: Bound, fallback: Instant, cal: Calendar): (r: Result<Moment>)
    ensures r.Ok? <==> Accepted(b, cal)
    ensures r.Ok? ==> r.value == Meaning(b, fallback, cal)
    ensures r.Err? ==> r.error == Rejection(b)
    ensures b == Text("none") ==> r == Ok(Moment(fallback, false))
  {
    match b
    case Text(s) =>
      if s == "none" then Ok(Moment(fallback, false))
      else (match cal.parseIso(s)
        case Some(t) => Ok(t)
        case None => Err(BadValue(s)))
    case At(_) => Err(WrongType("timeRange"))  // fromisoformat of a datetime object
  }

  /**
   * `timeCondition(timeRange)`: no request is the whole extent; otherwise
   * elements 0 and 1 are resolved in that order and written back, the rest
   * of the list is left alone.
   */
  function TimeCondition(d: WELData, range: Option<seq<Bound>>, cal: Calendar): (r: Result<Window>)
    ensures range.None? ==> r == Ok(Window(Moment(d.beginTime, false), Moment(d.endTime, false), []))
    ensures range.Some? ==>
      (r.Ok? <==> |range.value| >= 2 && Accepted(range.value[0], cal) && Accepted(range.value[1], cal))
    ensures range.Some? && r.Ok? ==>
      && r.value.start == Meaning(range.value[0], d.beginTime, cal)
      && r.value.end == Meaning(range.value[1], d.endTime, cal)
      && r.value.rest == range.value[2..]
    ensures range == Some([]) ==> r == Err(ShortRange(0))
    ensures range.Some? && |range.value| > 0 && !Accepted(range.value[0], cal) ==> r == Err(Rejection(range.value[0]))
    ensures range.Some? && |range.value| == 1 && Accepted(range.value[0], cal) ==> r == Err(ShortRange(1))
    ensures range.Some? && |range.value| >= 2 && Accepted(range.value[0], cal) && !Accepted(range.value[1], cal)
            ==> r == Err(Rejection(range.value[1]))
  {
    match range
    case None => Ok(Window(Moment(d.beginTime, false), Moment(d.endTime, false), []))
    case Some(items) =>
      if |items| == 0 then Err(ShortRange(0))
      else
        var start :- ResolveBound(items[0], d.beginTime, cal);
        if |items| == 1 then Err(ShortRange(1))
        else
          var end :- ResolveBound(items[1], d.endTime, cal);
          Ok(Window(start, end, items[2..]))
  }

  /** No request and `['none', 'none']` resolve to the same window. */
  lemma WholeRangeEitherWay(d: WELData, cal: Calendar)
    ensures TimeCondition(d, None, cal) == TimeCondition(d, Some([Text("none"), Text("none")]), cal)
    ensures TimeCondition(d, None, cal) == Ok(Window(Moment(d.beginTime, false), Moment(d.endTime, false), []))
  {
  }

  /** Each resolved bound depends on its own element only. */
  lemma BoundsIndependent(d: WELData, cal: Calendar, xs: seq<Bound>, ys: seq<Bound>)
    requires TimeCondition(d, Some(xs), cal).Ok? && TimeCondition(d, Some(ys), cal).Ok?
    ensures xs[0] == ys[0] ==> TimeCondition(d, Some(xs), cal).value.start == TimeCondition(d, Some(ys), cal).value.start
    ensures xs[1] == ys[1] ==> TimeCondition(d, Some(xs), cal).value.end == TimeCondition(d, Some(ys), cal).value.end
  {
  }

  /** An inverted request is neither rejected nor reordered. */
  lemma InvertedRangeKept(d: WELData, cal: Calendar, a: string, b: string)
    requires cal.parseIso(a).Some? && cal.parseIso(b).Some? && a != "none" && b != "none"
    requires cal.parseIso(b).value.instant < cal.parseIso(a).value.instant
    ensures var r := TimeCondition(d, Some([Text(a), Text(b)]), cal);
            r.Ok? && r.value.end.instant < r.value.start.instant
  {
  }

  // ---------------------------------------------------------------- plot rows

  /** The series `plot` hands to matplotlib: the x column and each y column, masked. */
  datatype Series = Series(x: Column, ys: seq<Column>)

  /** `ys[k]` is the first name that is not a column. */
  predicate FirstMissing(f: Frame, ys: seq<string>, k: int) {
    && 0 <= k < |ys|
    && ys[k] !in f.cols
    && forall j :: 0 <= j < k ==> ys[j] in f.cols
  }

  /** `[self.data[var][mask] for var in y]`, raising KeyError at the first unknown name. */
  function SelectAll(f: Frame, ys: seq<string>, ts: seq<Instant>, lo: Instant, hi: Instant): (r: Result<seq<Column>>)
    requires Frames.Valid(f) && |ts| == f.height
    ensures r.Ok? <==> forall k :: 0 <= k < |ys| ==> ys[k] in f.cols
    ensures r.Ok? ==> |r.value| == |ys|
    ensures r.Ok? ==> forall k :: 0 <= k < |ys| ==> r.value[k] == KeepColumn(f.cols[ys[k]], ts, lo, hi)
    ensures r.Err? ==> exists k :: FirstMissing(f, ys, k) && r.error == MissingKey(ys[k])
  {
    if |ys| == 0 then Ok([])
    else if ys[0] !in f.cols then
      assert FirstMissing(f, ys, 0);
      Err(MissingKey(ys[0]))
    else
      var rest := SelectAll(f, ys[1..], ts, lo, hi);
      if rest.Err? then
        var k :| FirstMissing(f, ys[1..], k) && rest.error == MissingKey(ys[1..][k]);
        assert FirstMissing(f, ys, k + 1);
        Err(rest.error)
      else
        Ok([KeepColumn(f.cols[ys[0]], ts, lo, hi)] + rest.value)
  }

  /**
   * Neither bound carries a UTC offset. pandas refuses to compare the
   * offset-free `dateTime` column with a timezone-aware datetime.
   */
  predicate Naive(w: Window) {
    !w.start.aware && !w.end.aware
  }

  /**
   * The data `plot(x, y, timeRange=...)` draws: the range is resolved, then
   * the x column and every y column are masked by
   * `(dateTime > start) & (dateTime < end)`.
   */
  function Plot(d: WELData, x: string, ys: seq<string>, range: Option<seq<Bound>>, cal: Calendar): (r: Result<Series>)
    requires Valid(d)
    ensures r.Ok? <==>
      && TimeCondition(d, range, cal).Ok?
      && Naive(TimeCondition(d, range, cal).value)
      && x in d.data.cols
      && forall k :: 0 <= k < |ys| ==> ys[k] in d.data.cols
    ensures TimeCondition(d, range, cal).Err? ==> r == Err(TimeCondition(d, range, cal).error)
    ensures TimeCondition(d, range, cal).Ok? && !Naive(TimeCondition(d, range, cal).value)
            ==> r == Err(WrongType("dateTime"))
    ensures TimeCondition(d, range, cal).Ok? && Naive(TimeCondition(d, range, cal).value) && x !in d.data.cols
            ==> r == Err(MissingKey(x))
    ensures r.Err? && TimeCondition(d, range, cal).Ok? && Naive(TimeCondition(d, range, cal).value) && x in d.data.cols
            ==> exists k :: FirstMissing(d.data, ys, k) && r.error == MissingKey(ys[k])
    ensures r.Ok? ==>
      var w := TimeCondition(d, range, cal).value;
      var p := Picked(TimeIndex(d), w.start.instant, w.end.instant);
      && r.value.x == GatherColumn(d.data.cols[x], p)
      && |r.value.ys| == |ys|
      && forall k :: 0 <= k < |ys| ==> r.value.ys[k] == GatherColumn(d.data.cols[ys[k]], p)
  {
    var w :- TimeCondition(d, range, cal);
    if !Naive(w) then Err(WrongType("dateTime"))  // the comparisons of lines 62-63
    else
      var ts := TimeIndex(d);
      var xc :- Index(d.data, x);
      var ycs :- SelectAll(d.data, ys, ts, w.start.instant, w.end.instant);
      Ok(Series(KeepColumn(xc, ts, w.start.instant, w.end.instant), ycs))
  }

  /**
   * Every plotted series has one cell per row whose timestamp lies strictly
   * between the bounds, taken in row order from the same rows.
   */
  lemma PlotRowsStrictlyInside(d: WELData, x: string, ys: seq<string>, range: Option<seq<Bound>>, cal: Calendar)
    requires Valid(d) && Plot(d, x, ys, range, cal).Ok?
    ensures var s := Plot(d, x, ys, range, cal).value;
      var w := TimeCondition(d, range, cal).value;
      var p := Picked(TimeIndex(d), w.start.instant, w.end.instant);
      && Len(s.x) == |p|
      && (forall k :: 0 <= k < |s.ys| ==> Len(s.ys[k]) == |p|)
      && (forall i :: 0 <= i < d.data.height ==> (i in p <==> w.start.instant < TimeIndex(d)[i] < w.end.instant))
      && (forall k, l :: 0 <= k < l < |p| ==> p[k] < p[l])
  {
  }

  /** With no range requested, the first and the last sample are never plotted. */
  lemma WholeRangeDropsEnds(d: WELData)
    requires Valid(d)
    ensures var p := Picked(TimeIndex(d), d.beginTime, d.endTime);
      0 !in p && d.data.height - 1 !in p
  {
  }
}
