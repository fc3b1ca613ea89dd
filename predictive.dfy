/**
 The predictive chart (load_predicted_accident_counts_by_months): a single
 object that keeps the loaded records, the x domain it shows, the remarks
 it has drawn and the records its two lines (actual and predicted counts)
 are bound to. Periods are instants in milliseconds since 1970-01-01 UTC,
 the value a JavaScript Date compares by. Fetching a CSV file is a
 parameter: None stands for a failed fetch or parse, which the chart only
 logs.
 */
module PredictiveChart {
  import opened Wrappers
  import opened Seqs
  import opened Layout

  /** One parsed row: the month, the actual count and the model's prediction. */
  datatype PredictionRecord = PredictionRecord(period: int, count: int, predictedCount: int)

  function PeriodOf(r: PredictionRecord): int { r.period }

  function Periods(rs: seq<PredictionRecord>): seq<int>
  {
    Project(rs, PeriodOf)
  }

  /** 2021-06-01T00:00Z, the date of the fixed remark. */
  const RuleChangeDate: int := 1622505600000

  /** 2022-12-01T00:00Z: a domain ending here shows the fixed remark. */
  const FixedRemarkDomainEnd: int := 1669852800000

  /** The y domain is set from the data's maximum and then overridden with [0, 1350]. */
  const YMax: int := 1350

  /** d3.extent: the least and the greatest value, or None for no values. */
  function Extent(ps: seq<int>): (r: Option<(int, int)>)
    ensures r.Some? <==> ps != []
    ensures r.Some? ==> r.value.0 <= r.value.1
    ensures r.Some? ==> r.value.0 in ps && r.value.1 in ps
    ensures r.Some? ==> forall p :: p in ps ==> r.value.0 <= p <= r.value.1
  {
    if ps == [] then None
    else
      var init, last := ps[..|ps| - 1], ps[|ps| - 1];
      assert ps == init + [last];
      match Extent(init)
      case None => Some((last, last))
      case Some((lo, hi)) => Some((if last < lo then last else lo, if last > hi then last else hi))
  }

  /** The predicate `domain[0] <= d.period && d.period <= domain[1]`. */
  function InDomain(lo: int, hi: int): PredictionRecord -> bool
  {
    (r: PredictionRecord) => lo <= r.period <= hi
  }

  /** dataForDomain: the records whose period lies in the domain, in order. */
  function DomainRecords(data: seq<PredictionRecord>, lo: int, hi: int): (kept: seq<PredictionRecord>)
    ensures |kept| <= |data|
    ensures forall r :: r in kept <==> r in data && lo <= r.period <= hi
  {
    Filter(data, InDomain(lo, hi))
  }

  /** The x domain shown for a requested domain: the extent of the periods inside it. */
  function DomainExtent(data: seq<PredictionRecord>, lo: int, hi: int): Option<(int, int)>
  {
    Extent(Periods(DomainRecords(data, lo, hi)))
  }

  /**
   The records kept for a domain are exactly those whose period lies in it,
   each as often as in the data, and the kept records keep their order.
   */
  lemma DomainRecordsSpec(data: seq<PredictionRecord>, lo: int, hi: int)
    ensures forall r :: r in DomainRecords(data, lo, hi) <==> r in data && lo <= r.period <= hi
    ensures forall r ::
      multiset(DomainRecords(data, lo, hi))[r] == (if lo <= r.period <= hi then multiset(data)[r] else 0)
    ensures forall a, b :: DomainRecords(a + b, lo, hi) == DomainRecords(a, lo, hi) + DomainRecords(b, lo, hi)
  {
    FilterCounts(data, InDomain(lo, hi));
    forall a, b {
      FilterConcat(a, b, InDomain(lo, hi));
    }
  }

  /**
   The x domain lies inside the requested domain, and it is missing exactly
   when no record falls inside.
   */
  lemma DomainExtentWithin(data: seq<PredictionRecord>, lo: int, hi: int)
    ensures var e := DomainExtent(data, lo, hi);
      && (e.None? <==> forall i :: 0 <= i < |data| ==> !(lo <= data[i].period <= hi))
      && (e.Some? ==> lo <= e.value.0 <= e.value.1 <= hi)
  {
    var kept := DomainRecords(data, lo, hi);
    var e := DomainExtent(data, lo, hi);
    if e.Some? {
      var p := e.value.0;
      assert p in Periods(kept);
      var k :| 0 <= k < |kept| && Periods(kept)[k] == p;
      assert kept[k] in kept;
      var q := e.value.1;
      assert q in Periods(kept);
      var m :| 0 <= m < |kept| && Periods(kept)[m] == q;
      assert kept[m] in kept;
    }
    forall i | 0 <= i < |data| && lo <= data[i].period <= hi
      ensures e.Some?
    {
      assert data[i] in kept;
    }
  }

  /** When the data holds a record at each end of the domain, the x domain is the requested one. */
  lemma DomainExtentExact(data: seq<PredictionRecord>, lo: int, hi: int, i: nat, j: nat)
    requires i < |data| && j < |data| && lo <= hi
    requires data[i].period == lo && data[j].period == hi
    ensures DomainExtent(data, lo, hi) == Some((lo, hi))
  {
    var kept := DomainRecords(data, lo, hi);
    assert data[i] in kept && data[j] in kept;
    ProjectMember(kept, PeriodOf, data[i]);
    ProjectMember(kept, PeriodOf, data[j]);
    DomainExtentWithin(data, lo, hi);
  }

  /** A record with both counts set to zero and its period kept ({...d, count: 0, predicted_count: 0}). */
  function Zeroed(r: PredictionRecord): PredictionRecord
  {
    r.(count := 0, predictedCount := 0)
  }

  /** The flattened copy the lines are bound to while a new dataset loads. */
  function Flatten(data: seq<PredictionRecord>): (flat: seq<PredictionRecord>)
    ensures |flat| == |data|
    ensures forall i :: 0 <= i < |data| ==>
      flat[i].period == data[i].period && flat[i].count == 0 && flat[i].predictedCount == 0
  {
    Project(data, Zeroed)
  }

  /**
   Flattening keeps the number of records and every period, sets every
   count and predicted count to zero, changes nothing when applied twice,
   and leaves the data as it is exactly when all its counts are already zero.
   */
  lemma FlattenSpec(data: seq<PredictionRecord>)
    ensures |Flatten(data)| == |data|
    ensures Periods(Flatten(data)) == Periods(data)
    ensures forall i :: 0 <= i < |data| ==> Flatten(data)[i].count == 0 && Flatten(data)[i].predictedCount == 0
    ensures Flatten(Flatten(data)) == Flatten(data)
    ensures Flatten(data) == data <==> forall i :: 0 <= i < |data| ==> data[i].count == 0 && data[i].predictedCount == 0
  {
    if Flatten(data) == data {
      forall i | 0 <= i < |data|
        ensures data[i].count == 0 && data[i].predictedCount == 0
      {
        assert Flatten(data)[i] == data[i];
      }
    }
  }

  const FixedUpperText: string := "Data wejścia w życie"
  const FixedLowerText: string := "01/06/2021"

  /**
   The remark change_chart_domain draws by hand, written as a settings
   remark: a line at 2021-06-01 with its two captions at the start of the
   top row.
   */
  const FixedRemark: Remark :=
    Remark("line", RuleChangeDate, 0, 0, "start-top", FixedUpperText, FixedLowerText, [])

  /** The remarks present after a domain change: all are removed, then the fixed one is added if the domain ends at 2022-12-01. */
  function DomainRemarks(hi: int): (remarks: seq<Remark>)
    ensures |remarks| <= 1
    ensures remarks != [] <==> hi == FixedRemarkDomainEnd
    ensures forall r :: r in remarks ==> r == FixedRemark
  {
    if hi == FixedRemarkDomainEnd then [FixedRemark] else []
  }

  /**
   The marks change_chart_domain draws by hand: a full-height rule at
   2021-06-01, the upper caption on row 10 and the lower one on row 25, both
   anchored at the start and 5 px right of the rule. They sit in a frame
   50 px right of the svg's origin, while the remarks from the settings sit
   in one 40 px right of it; the marks here are given in the latter frame,
   so everything the hand-drawn remark adds lies 10 px further right.
   */
  function FixedRemarkMarks(x: int -> real, height: real): seq<Mark>
  {
    [Rule(x(RuleChangeDate) + 10.0, 0.0, height),
     Caption(x(RuleChangeDate) + 15.0, 10.0, 12, "start", FixedUpperText),
     Caption(x(RuleChangeDate) + 15.0, 25.0, 10, "start", FixedLowerText)]
  }

  /**
   The hand-drawn marks are what the generic remark drawing gives for a
   "line" remark at 2021-06-01 with the same captions, whose text-position
   reads "start" and then anything but "bottom", each moved 10 px right.
   */
  lemma FixedRemarkIsLineRemark(textPosition: string, x: int -> real, height: real)
    requires Split(textPosition, '-')[0] == "start" && Field(textPosition, 1) != Some("bottom")
    ensures var generic :=
      RemarkMarks(ChartGroup, Remark("line", RuleChangeDate, 0, 0, textPosition, FixedUpperText, FixedLowerText, []), x, height);
      && |generic| == 3
      && forall i :: 0 <= i < 3 ==> FixedRemarkMarks(x, height)[i] == Shift(generic[i], 10.0, 0.0)
  {
    var r := Remark("line", RuleChangeDate, 0, 0, textPosition, FixedUpperText, FixedLowerText, []);
    assert r.kind != "area" by { assert r.kind[0] == 'l'; }
  }

  /** "start-top" reads as the keywords "start" and "top", so FixedRemark is such a remark. */
  lemma StartTopKeywords()
    ensures Split("start-top", '-') == ["start", "top"]
    ensures Field("start-top", 1) == Some("top")
  {
    JoinThenSplit(["start", "top"], '-');
    assert Join(["start", "top"], '-') == "start-top";
  }

  /**
   After a domain change the remark marks, each moved 10 px right, are the
   hand-drawn ones exactly when the domain ends at 2022-12-01, and there are
   none otherwise.
   */
  lemma DomainRemarksDrawing(hi: int, x: int -> real, height: real)
    ensures var marks := AllRemarkMarks(ChartGroup, DomainRemarks(hi), x, height);
      && (hi == FixedRemarkDomainEnd ==>
            |marks| == 3 && forall i :: 0 <= i < 3 ==> FixedRemarkMarks(x, height)[i] == Shift(marks[i], 10.0, 0.0))
      && (hi != FixedRemarkDomainEnd ==> marks == [])
  {
    var rs := DomainRemarks(hi);
    if hi == FixedRemarkDomainEnd {
      assert rs[..0] == [];
      StartTopKeywords();
      FixedRemarkIsLineRemark("start-top", x, height);
    }
  }

  /** The remarks load draws: with settings, those of a known kind; without, none. */
  function LoadedRemarks(settings: Option<Settings>): seq<Remark>
  {
    if settings.Some? then Filter(settings.value.remarks, Drawable) else []
  }

  /** The legend corner load draws: with settings, the one its legend-position picks; without, none. */
  function LoadedLegend(settings: Option<Settings>, width: int): Option<(real, real)>
  {
    if settings.Some?
    then Some((LegendX(Predicted, settings.value.legendPosition, width), LegendY(Predicted, settings.value.legendPosition)))
    else None
  }

  /**
   The chart object. Its fields start out null; `loaded` records that the
   first fetch succeeded and the svg, scales and lines exist. `Valid` is the
   invariant the object keeps: the constructor establishes it and every
   method preserves it. Once loaded, the lines are bound to the data or to
   its flat copy and the y domain is [0, 1350]; an x domain is ordered.
   */
  class Chart {
    var loaded: bool
    var data: seq<PredictionRecord>
    var lineData: seq<PredictionRecord>
    var settings: Option<Settings>
    var containerId: Option<string>
    var width: int
    var xDomain: Option<(int, int)>
    var yDomain: (int, int)
    var remarks: seq<Remark>
    var legend: Option<(real, real)>

    /**
     Once loaded, both lines are bound either to the data or to its
     flattened copy (so they cover the same periods), and the y domain is
     [0, 1350]; an x domain, when there is one, is a proper interval.
     */
    ghost predicate Valid()
      reads this
    {
      && (loaded ==> (lineData == data || lineData == Flatten(data)) && yDomain == (0, YMax))
      && (xDomain.Some? ==> xDomain.value.0 <= xDomain.value.1)
    }

    /** The object literal: nothing loaded, no settings, no container. */
    constructor()
      ensures Valid()
      ensures !loaded && data == [] && lineData == [] && settings == None && containerId == None
      ensures xDomain == None && remarks == [] && legend == None
    {
      loaded := false;
      data := [];
      lineData := [];
      settings := None;
      containerId := None;
      width := 0;
      xDomain := None;
      yDomain := (0, 0);
      remarks := [];
      legend := None;
    }

    /**
     load(data_url, div_id, domain, settings): the settings and the
     container are stored at once, and the chart is drawn from the fetched
     records when the fetch succeeds; a failed fetch changes nothing else.
     */
    method Load(fetched: Option<seq<PredictionRecord>>, divId: string, domain: (int, int),
                settings: Option<Settings>, clientWidth: int)
      requires Valid()
      modifies this
      ensures Valid()
      ensures this.settings == settings && containerId == Some(divId)
      ensures fetched.None? ==>
        && loaded == old(loaded) && data == old(data) && lineData == old(lineData)
        && width == old(width) && xDomain == old(xDomain) && yDomain == old(yDomain)
        && remarks == old(remarks) && legend == old(legend)
      ensures fetched.Some? ==> Drawn(fetched.value, domain, clientWidth)
    {
      this.settings := settings;
      containerId := Some(divId);
      if fetched.Some? {
        Draw(fetched.value, domain, clientWidth);
      }
    }

    /**
     The state load's callback leaves: the records are stored and both
     lines bound to them, the plot is the container width less the margins
     (90 px), the x domain is the extent of the records inside `domain`, the
     y domain is [0, 1350], and with settings the remarks of a known kind
     and the legend are drawn.
     */
    ghost predicate Drawn(rows: seq<PredictionRecord>, domain: (int, int), clientWidth: int)
      reads this
    {
      && loaded
      && data == rows && lineData == rows
      && width == clientWidth - 90
      && xDomain == DomainExtent(rows, domain.0, domain.1)
      && yDomain == (0, YMax)
      && remarks == LoadedRemarks(settings)
      && legend == LoadedLegend(settings, clientWidth - 90)
    }

    /** The callback of load once the records are parsed. */
    method Draw(rows: seq<PredictionRecord>, domain: (int, int), clientWidth: int)
      requires Valid()
      modifies this
      ensures Valid()
      ensures settings == old(settings) && containerId == old(containerId)
      ensures Drawn(rows, domain, clientWidth)
    {
      data := rows;
      width := clientWidth - 90;
      xDomain := DomainExtent(rows, domain.0, domain.1);
      yDomain := (0, YMax);
      remarks := LoadedRemarks(settings);
      legend := LoadedLegend(settings, width);
      lineData := rows;
      loaded := true;
    }

    /**
     change_chart_domain(domain): the x domain becomes the extent of the
     records inside the new domain, every remark is removed and the fixed
     one is added when the domain ends at 2022-12-01, and both lines are
     bound to the current records again. It needs a loaded chart.
     */
    method ChangeDomain(domain: (int, int))
      requires loaded && Valid()
      modifies this
      ensures Valid()
      ensures xDomain == DomainExtent(data, domain.0, domain.1)
      ensures remarks == DomainRemarks(domain.1)
      ensures lineData == data
      ensures loaded && data == old(data) && settings == old(settings) && containerId == old(containerId)
      ensures width == old(width) && yDomain == old(yDomain) && legend == old(legend)
    {
      DomainExtentWithin(data, domain.0, domain.1);
      xDomain := DomainExtent(data, domain.0, domain.1);
      remarks := DomainRemarks(domain.1);
      lineData := data;
    }

    /**
     chage_chart_dataset(data_url): both lines are first bound to a
     flattened copy of the current records (returned here); when the fetch
     succeeds the new records replace the data and the lines are bound to
     them, and when it fails the data stays and the lines stay flat. The
     x domain, the remarks and the legend are not touched.
     */
    method ChangeDataset(fetched: Option<seq<PredictionRecord>>) returns (flattened: seq<PredictionRecord>)
      requires loaded && Valid()
      modifies this
      ensures Valid()
      ensures flattened == Flatten(old(data))
      ensures fetched.Some? ==> data == fetched.value && lineData == fetched.value
      ensures fetched.None? ==> data == old(data) && lineData == flattened
      ensures loaded && settings == old(settings) && containerId == old(containerId) && width == old(width)
      ensures xDomain == old(xDomain) && yDomain == old(yDomain)
      ensures remarks == old(remarks) && legend == old(legend)
    {
      flattened := Flatten(data);
      lineData := flattened;
      if fetched.Some? {
        data := fetched.value;
        lineData := data;
      }
    }
  }
}
