/**
 * The logger component: the ledger and the session tracker behind the click,
 * reset, stop-all and export handlers, the live queries, and the export's
 * reading of the logs (src/App.js:21-193).
 */
module RideLogger {
  import opened Wrappers
  import opened Config
  import opened Text
  import opened TimerLedger
  import opened Session
  import opened Report

  /** `categories[category]` is undefined: the source throws a TypeError, the model refuses the call. */
  datatype ClickError = UnknownCategory

  datatype ExportError = NoActiveSession

  /** What the export hands to the download: the file name and the report text. */
  datatype Download = Download(fileName: string, csv: string)

  /** The rows the export is meant to write: one per key, showing the live total just before export. */
  function TotalRows(order: seq<string>, s: Snapshot, now: nat): string
    requires StartedBy(s.timers, now)
  {
    if order == [] then ""
    else TotalRows(order[..|order| - 1], s, now) + Row(order[|order| - 1], TotalMs(s, order[|order| - 1], now))
  }

  /**
   * The report text `exportCSV` writes, as written: `stopAll()` only schedules
   * its update, so the rows are taken from `logs` as it was before the stop.
   */
  function ReportAsWritten(s: Snapshot, start: nat, now: nat, form: seq<(string, string)>,
                           startText: string, endText: string, staleOrder: seq<string>, comment: string): string
    requires start <= now
  {
    Csv(form, startText, endText, now - start, staleOrder, s.logs, comment)
  }

  /** The report text the export is meant to write: the rows are read after stop-all. */
  function ReportText(s: Snapshot, start: nat, now: nat, form: seq<(string, string)>,
                      startText: string, endText: string, order: seq<string>, comment: string): string
    requires start <= now && StartedBy(s.timers, now)
  {
    Csv(form, startText, endText, now - start, order, AfterStopAll(s, now).logs, comment)
  }

  lemma ReportTextOf(s: Snapshot, start: nat, now: nat, form: seq<(string, string)>, startText: string,
                     endText: string, order: seq<string>, comment: string, finished: map<string, nat>)
    requires start <= now && StartedBy(s.timers, now) && finished == AfterStopAll(s, now).logs
    ensures ReportText(s, start, now, form, startText, endText, order, comment)
         == Csv(form, startText, endText, now - start, order, finished, comment)
  {
  }

  /** Read after stop-all, every row shows exactly the live total of its key just before the export. */
  lemma {:induction false} ReportRowsAreTotals(s: Snapshot, now: nat, order: seq<string>)
    requires StartedBy(s.timers, now)
    ensures Rows(order, AfterStopAll(s, now).logs) == TotalRows(order, s, now)
    decreases |order|
  {
    if order != [] {
      var last := order[|order| - 1];
      ReportRowsAreTotals(s, now, order[..|order| - 1]);
      AfterStopAllTotals(s, now, last);
    }
  }

  lemma FormatOneMinute()
    ensures FormatTime(60000) == "1:00"
  {
    assert DigitChar(1) == '1' && DigitChar(0) == '0';
    var m := NatToString(1);
    assert m == ['1'];
    var p := Pad2(0);
    assert NatToString(0) == ['0'];
    assert p == ['0', '0'];
    assert 60000 / 1000 / 60 == 1 && 60000 / 1000 % 60 == 0;
    assert FormatTime(60000) == m + ":" + p;
  }

  /**
   * The stale read loses open intervals: with "Weather-Sunny" running since
   * 1 s and no earlier stop, an export at 61 s writes no row for it, while its
   * live total is one minute and the intended report shows `Weather,Sunny,1:00`.
   */
  lemma StaleExportDropsRunningKey()
    ensures var s := Snapshot(map["Weather-Sunny" := 1000], map[]);
      && TotalMs(s, "Weather-Sunny", 61000) == 60000
      && Rows([], s.logs) == ""
      && Rows(["Weather-Sunny"], AfterStopAll(s, 61000).logs) == Row("Weather-Sunny", 60000)
      && Row("Weather-Sunny", 60000) == "Weather" + "," + "Sunny" + "," + FormatTime(60000) + "\n"
      && FormatTime(60000) == "1:00"
      && ReportAsWritten(s, 1000, 61000, [], "", "", [], "")
         != ReportText(s, 1000, 61000, [], "", "", ["Weather-Sunny"], "")
  {
    var s := Snapshot(map["Weather-Sunny" := 1000], map[]);
    var logs := AfterStopAll(s, 61000).logs;
    AfterStopAllTotals(s, 61000, "Weather-Sunny");
    assert logs["Weather-Sunny"] == 60000;
    assert "Weather-Sunny" == Key("Weather", "Sunny");
    LookupAt(0);
    RowOfKey("Weather", "Sunny", 60000);
    FormatOneMinute();
    var row := Row("Weather-Sunny", 60000);
    assert Rows(["Weather-Sunny"], logs) == Rows([], logs) + row by {
      assert ["Weather-Sunny"][..0] == [];
    }
    var head := TITLE + FormLines([]) + SessionLines("", "", 60000) + TABLE_HEADER;
    var asWritten := ReportAsWritten(s, 1000, 61000, [], "", "", [], "");
    var intended := ReportText(s, 1000, 61000, [], "", "", ["Weather-Sunny"], "");
    assert asWritten == head + "" + CommentBlock("");
    assert Rows(["Weather-Sunny"], logs) == row;
    assert intended == Csv([], "", "", 60000, ["Weather-Sunny"], logs, "");
    assert Csv([], "", "", 60000, ["Weather-Sunny"], logs, "") == head + Rows(["Weather-Sunny"], logs) + CommentBlock("");
    assert intended == head + row + CommentBlock("");
    assert |asWritten| < |intended|;
  }

  class App {
    const ledger: Ledger
    const session: SessionTracker
    /** The key highlighted as just stopped (its timed clearing is not modelled). */
    var recentStopped: string
    /** The latest clock reading any handler has seen. */
    ghost var clock: nat

    ghost predicate Valid()
      reads this, ledger, session
    {
      && ledger.Valid()
      && StartedBy(ledger.timers, clock)
      && (session.start.Some? ==> session.start.value <= clock)
      && (session.start.None? ==> ledger.timers == map[] && ledger.logs == map[])
    }

    constructor ()
      ensures Valid() && fresh(ledger) && fresh(session)
      ensures ledger.Snap() == Snapshot(map[], map[]) && session.start == None && clock == 0
      ensures session.State() == NO_ALERTS && recentStopped == ""
    {
      ledger := new Ledger();
      session := new SessionTracker();
      recentStopped := "";
      clock := 0;
    }

    /** `getTotalMs(key)` at `now`. */
    function Total(key: string, now: nat): nat
      reads this, ledger, session
      requires Valid() && clock <= now
    {
      TotalMs(ledger.Snap(), key, now)
    }

    /** `sessionMinutes` at `now`. */
    function SessionMinutes(now: nat): int
      reads session
    {
      Minutes(session.start, now)
    }

    /** `handleConditionClick(category, condition)` at `now`; returns the key reported as just stopped. */
    method HandleConditionClick(category: string, condition: string, now: nat) returns (r: Result<string, ClickError>)
      requires Valid() && clock <= now && now > 0
      modifies this, ledger, session
      ensures Valid() && clock == now
      ensures session.State() == old(session.State())
      ensures !IsCategory(category) ==>
        && r == Failure(UnknownCategory)
        && ledger.Snap() == old(ledger.Snap()) && session.start == old(session.start)
        && recentStopped == old(recentStopped)
      ensures IsCategory(category) ==>
        && r == Success(StoppedKey(old(ledger.timers), category, condition))
        && ledger.Snap() == AfterClick(old(ledger.Snap()), category, condition, now)
        && session.start == (if old(session.start).None? then Some(now) else old(session.start))
        && recentStopped == (if r.value == "" then old(recentStopped) else r.value)
    {
      clock := now;
      if !IsCategory(category) {
        return Failure(UnknownCategory);
      }
      session.EnsureStarted(now);
      var stoppedKey := ledger.Click(category, condition, now);
      if stoppedKey != "" {
        recentStopped := stoppedKey;
      }
      r := Success(stoppedKey);
    }

    /** `resetCategory(category)`; returns false, changing nothing, for an unknown category. */
    method ResetCategory(category: string) returns (known: bool)
      requires Valid()
      modifies ledger
      ensures Valid()
      ensures known == IsCategory(category)
      ensures known ==> ledger.Snap() == AfterReset(old(ledger.Snap()), category)
      ensures !known ==> ledger.Snap() == old(ledger.Snap())
    {
      known := IsCategory(category);
      if known {
        ledger.ResetCategory(category);
      }
    }

    /** `stopAll()` at `now`. */
    method StopAll(now: nat)
      requires Valid() && clock <= now
      modifies this, ledger
      ensures Valid() && clock == now
      ensures ledger.Snap() == AfterStopAll(old(ledger.Snap()), now)
      ensures recentStopped == old(recentStopped)
    {
      clock := now;
      ledger.StopAll(now);
    }

    /** The threshold effect, run whenever the view re-renders at `now`. */
    method Tick(now: nat) returns (clearAfter: Option<nat>)
      requires Valid()
      modifies session
      ensures Valid()
      ensures session.start == old(session.start)
      ensures session.State() == Step(old(session.State()), session.start, now)
      ensures clearAfter == if !old(session.notified40) && session.notified40 then Some(RED_BANNER_MS) else None
    {
      clearAfter := session.Tick(now);
    }

    /**
     * `exportCSV()` at `now`, read sequentially: stop-all, then the report from
     * the finished logs. `order` is the enumeration order of the keys of the
     * logs after the stop; `startText` and `endText` are the locale renderings
     * of the session start and of `now`.
     */
    method ExportCsv(now: nat, date: DateParts, form: seq<(string, string)>, comment: string,
                     order: seq<string>, startText: string, endText: string)
      returns (r: Result<Download, ExportError>)
      requires Valid() && clock <= now
      requires |form| == |FORM_FIELDS| && forall i :: 0 <= i < |form| ==> form[i].0 == FORM_FIELDS[i]
      requires Distinct(order)
      requires forall k :: k in order <==> k in ledger.logs || k in ledger.timers
      modifies this, ledger
      ensures Valid()
      ensures recentStopped == old(recentStopped)
      ensures old(session.start).None? ==>
        r == Failure(NoActiveSession) && ledger.Snap() == old(ledger.Snap()) && clock == old(clock)
      ensures old(session.start).Some? ==>
        && clock == now
        && old(session.start).value <= now
        && ledger.Snap() == AfterStopAll(old(ledger.Snap()), now)
        && r == Success(Download(FileName(date),
             ReportText(old(ledger.Snap()), old(session.start).value, now, form, startText, endText, order, comment)))
    {
      if session.start.None? {
        return Failure(NoActiveSession);
      }
      var start := session.start.value;
      ghost var before := ledger.Snap();
      StopAll(now);
      var csv := BuildCsv(form, startText, endText, now - start, order, ledger.logs, comment);
      ReportTextOf(before, start, now, form, startText, endText, order, comment, ledger.logs);
      r := Success(Download(FileName(date), csv));
    }
  }
}
