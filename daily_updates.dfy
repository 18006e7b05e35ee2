/** The shared daily snapshot: `get_daily_updates` and
    `load_daily_updates` over the `daily_updates` table. */
module DailyUpdates {
  import opened Common
  import opened Advice

  /** A `daily_updates` row, or a dict handed to the pages. */
  type Dict = map<string, Value>

  /** The text a page shows when the snapshot lacks a column. */
  const Placeholder: string := "暂无更新"

  predicate IsFor(row: Dict, date: string) {
    "date" in row && row["date"] == Text(date)
  }

  /** Index of the first snapshot row of `date`, or -1. */
  function FirstIndexFor(rows: seq<Dict>, date: string): (k: int)
    ensures -1 <= k < |rows|
    ensures k == -1 ==> forall j :: 0 <= j < |rows| ==> !IsFor(rows[j], date)
    ensures k >= 0 ==> IsFor(rows[k], date) && forall j :: 0 <= j < k ==> !IsFor(rows[j], date)
  {
    FirstIndexWhere(rows, row => IsFor(row, date))
  }

  /** `result.data[0]` of a select by date, if there is one. */
  function FirstSnapshot(rows: seq<Dict>, date: string): Option<Dict> {
    var k := FirstIndexFor(rows, date);
    if k == -1 then None else Some(rows[k])
  }

  /** The row `get_daily_updates` inserts. */
  function SnapshotRow(date: string, finance: string, health: string, education: string, now: string): Dict {
    map["date" := Text(date), "finance_news" := Text(finance), "health_tips" := Text(health),
        "education_info" := Text(education), "created_at" := Text(now)]
  }

  /** What `get_daily_updates` returns after generating: short keys. */
  function Generated(finance: string, health: string, education: string): Dict {
    map["finance" := Text(finance), "health" := Text(health), "education" := Text(education)]
  }

  /** What `get_daily_updates` returns on a hit: the row's columns renamed
      to the short keys, each defaulting to the empty text. */
  function Remapped(row: Dict): (d: Dict)
    ensures d.Keys == {"finance", "health", "education"}
    ensures d["finance"] == Get(row, "finance_news", Text(""))
    ensures d["health"] == Get(row, "health_tips", Text(""))
    ensures d["education"] == Get(row, "education_info", Text(""))
  {
    map["finance" := Get(row, "finance_news", Text("")), "health" := Get(row, "health_tips", Text("")),
        "education" := Get(row, "education_info", Text(""))]
  }

  /** What a page shows for a snapshot column: nothing for an empty dict
      (`if daily_updates:`), else the column or the placeholder. */
  function NewsShown(d: Dict, column: string): (shown: Option<Value>)
    ensures shown.None? <==> |d| == 0
    ensures shown.Some? && column in d ==> shown.value == d[column]
    ensures shown.Some? && column !in d ==> shown.value == Text(Placeholder)
  {
    if |d| == 0 then None else Some(Get(d, column, Text(Placeholder)))
  }

  /** Which call of one `get_daily_updates` raises, if any: the lookup, the
      completion for one topic, or the insert. */
  datatype DailyFault = AllSucceed | LookupRaises | CompletionRaises(topic: Topic) | InsertRaises

  /** The `daily_updates` table of the storage service. */
  class DailyTable {
    var rows: seq<Dict>

    constructor (rows: seq<Dict>)
      ensures this.rows == rows
    {
      this.rows := rows;
    }

    /** `select('*').eq('date', date)`, keeping the first result. */
    method SelectFirst(date: string) returns (row: Option<Dict>)
      ensures row == FirstSnapshot(rows, date)
    {
      var i := 0;
      while i < |rows|
        invariant 0 <= i <= |rows|
        invariant forall j :: 0 <= j < i ==> !IsFor(rows[j], date)
      {
        if IsFor(rows[i], date) {
          return Some(rows[i]);
        }
        i := i + 1;
      }
      return None;
    }

    method Insert(row: Dict)
      modifies this
      ensures rows == old(rows) + [row]
    {
      rows := rows + [row];
    }
  }

  /** The three snapshot prompts, in the order they are sent. */
  const Prompts: seq<Request> := [Request.Ask(FinanceNews), Request.Ask(HealthTip), Request.Ask(EducationNews)]

  /** Position of a topic's prompt in `Prompts`. */
  function TopicOrder(t: Topic): (n: nat)
    ensures n < |Prompts| && Prompts[n] == Request.Ask(t)
  {
    match t
    case FinanceNews => 0
    case HealthTip => 1
    case EducationNews => 2
  }

  /** `get_daily_updates`: today's snapshot renamed to short keys when it
      exists; otherwise three completions, one insert, and the generated
      texts under short keys.  Any exception gives `None`: a completion
      that raises stops the prompts after it, and nothing is stored. */
  method GetDailyUpdates(table: DailyTable, model: LanguageModel, today: string, now: string, fault: DailyFault)
    returns (r: Option<Dict>)
    modifies table, model
    ensures fault == LookupRaises ==>
              && r == None && table.rows == old(table.rows)
              && model.requests == old(model.requests) && model.replies == old(model.replies)
    ensures fault != LookupRaises && FirstSnapshot(old(table.rows), today).Some? ==>
              && r == Some(Remapped(FirstSnapshot(old(table.rows), today).value))
              && table.rows == old(table.rows)
              && model.requests == old(model.requests) && model.replies == old(model.replies)
    ensures fault != LookupRaises && FirstSnapshot(old(table.rows), today).None? ==>
              && old(model.replies) <= model.replies
              && (fault.CompletionRaises? ==>
                    && r == None && table.rows == old(table.rows)
                    && model.requests == old(model.requests) + Prompts[..TopicOrder(fault.topic) + 1]
                    && |model.replies| == |old(model.replies)| + TopicOrder(fault.topic))
              && (fault == InsertRaises ==>
                    && r == None && table.rows == old(table.rows)
                    && model.requests == old(model.requests) + Prompts
                    && |model.replies| == |old(model.replies)| + 3)
              && (fault == AllSucceed ==>
                    && model.requests == old(model.requests) + Prompts
                    && |model.replies| == |old(model.replies)| + 3
                    && var n := |old(model.replies)|;
                       && r == Some(Generated(model.replies[n], model.replies[n + 1], model.replies[n + 2]))
                       && table.rows == old(table.rows)
                            + [SnapshotRow(today, model.replies[n], model.replies[n + 1], model.replies[n + 2], now)])
  {
    if fault == LookupRaises {
      return None;
    }
    var existing := table.SelectFirst(today);
    if existing.Some? {
      return Some(Remapped(existing.value));
    }
    var finance := model.AskFor(FinanceNews, fault.CompletionRaises? && fault.topic == FinanceNews);
    if fault.CompletionRaises? && fault.topic == FinanceNews {
      return None;
    }
    var health := model.AskFor(HealthTip, fault.CompletionRaises? && fault.topic == HealthTip);
    if fault.CompletionRaises? && fault.topic == HealthTip {
      return None;
    }
    var education := model.AskFor(EducationNews, fault.CompletionRaises? && fault.topic == EducationNews);
    if fault.CompletionRaises? && fault.topic == EducationNews {
      return None;
    }
    if fault == InsertRaises {
      return None;
    }
    table.Insert(SnapshotRow(today, finance, health, education, now));
    r := Some(Generated(finance, health, education));
  }

  /** `load_daily_updates` as written: today's raw row (long column names)
      when it exists, else whatever `get_daily_updates` returns (short
      keys), or the empty dict on any failure. */
  method LoadDailyUpdates(
    table: DailyTable, model: LanguageModel, today: string, now: string,
    lookupRaises: bool, fault: DailyFault)
    returns (d: Dict)
    modifies table, model
    ensures lookupRaises ==>
              && d == map[] && table.rows == old(table.rows)
              && model.requests == old(model.requests) && model.replies == old(model.replies)
    ensures !lookupRaises && FirstSnapshot(old(table.rows), today).Some? ==>
              && d == FirstSnapshot(old(table.rows), today).value
              && table.rows == old(table.rows)
              && model.requests == old(model.requests) && model.replies == old(model.replies)
    ensures !lookupRaises && FirstSnapshot(old(table.rows), today).None? && fault == AllSucceed ==>
              && model.requests == old(model.requests) + Prompts
              && |model.replies| == |old(model.replies)| + 3 && old(model.replies) <= model.replies
              && var n := |old(model.replies)|;
                 && d == Generated(model.replies[n], model.replies[n + 1], model.replies[n + 2])
                 && table.rows == old(table.rows)
                      + [SnapshotRow(today, model.replies[n], model.replies[n + 1], model.replies[n + 2], now)]
    ensures !lookupRaises && FirstSnapshot(old(table.rows), today).None? && fault != AllSucceed ==>
              && d == map[] && table.rows == old(table.rows) && old(model.replies) <= model.replies
              && (fault == LookupRaises ==> model.requests == old(model.requests) && model.replies == old(model.replies))
              && (fault.CompletionRaises? ==>
                    && model.requests == old(model.requests) + Prompts[..TopicOrder(fault.topic) + 1]
                    && |model.replies| == |old(model.replies)| + TopicOrder(fault.topic))
              && (fault == InsertRaises ==>
                    model.requests == old(model.requests) + Prompts && |model.replies| == |old(model.replies)| + 3)
  {
    if lookupRaises {
      return map[];
    }
    var result := table.SelectFirst(today);
    if result.Some? {
      return result.value;
    }
    var updates := GetDailyUpdates(table, model, today, now, fault);
    d := updates.GetOr(map[]);
  }

  /** A snapshot row written by this code shows its news on a page that
      reads it from the table. */
  lemma StoredSnapshotShowsNews(date: string, f: string, h: string, e: string, now: string)
    ensures NewsShown(SnapshotRow(date, f, h, e, now), "finance_news") == Some(Text(f))
    ensures NewsShown(SnapshotRow(date, f, h, e, now), "health_tips") == Some(Text(h))
    ensures NewsShown(SnapshotRow(date, f, h, e, now), "education_info") == Some(Text(e))
  {
  }

  /** As written, the dict returned by the load that generates the day's
      snapshot has only the short keys, so the page making that load shows
      the placeholder instead of the news it has just generated and stored. */
  lemma FirstLoadShowsPlaceholder(f: string, h: string, e: string)
    ensures NewsShown(Generated(f, h, e), "finance_news") == Some(Text(Placeholder))
    ensures NewsShown(Generated(f, h, e), "health_tips") == Some(Text(Placeholder))
    ensures NewsShown(Generated(f, h, e), "education_info") == Some(Text(Placeholder))
  {
  }

  /** The concrete case: the generated finance news "A股收涨" is stored,
      yet the first page load shows "暂无更新". */
  lemma FirstLoadCounterexample(date: string, now: string)
    ensures NewsShown(SnapshotRow(date, "A股收涨", "", "", now), "finance_news") == Some(Text("A股收涨"))
    ensures NewsShown(Generated("A股收涨", "", ""), "finance_news") == Some(Text("暂无更新"))
    ensures Text("A股收涨") != Text("暂无更新")
  {
  }

  /** Once the first load of the day has stored the snapshot, every later
      load that day finds that row (and so shows its news). */
  lemma LaterLoadFindsSnapshot(rows: seq<Dict>, today: string, f: string, h: string, e: string, now: string)
    requires FirstSnapshot(rows, today).None?
    ensures FirstSnapshot(rows + [SnapshotRow(today, f, h, e, now)], today) == Some(SnapshotRow(today, f, h, e, now))
  {
    var after := rows + [SnapshotRow(today, f, h, e, now)];
    assert forall j :: 0 <= j < |rows| ==> after[j] == rows[j];
    assert IsFor(after[|rows|], today);
    assert FirstIndexFor(after, today) == |rows|;
  }

  /** The short-keyed dict of `get_daily_updates` under the column names
      the pages read. */
  function AsColumns(updates: Dict): (d: Dict)
    ensures d.Keys == {"finance_news", "health_tips", "education_info"}
  {
    map["finance_news" := Get(updates, "finance", Text("")), "health_tips" := Get(updates, "health", Text("")),
        "education_info" := Get(updates, "education", Text(""))]
  }

  /** `load_daily_updates` as evidently intended: both paths hand the pages
      the long column names, so a page shows today's stored news whether
      the snapshot already existed or was just generated. */
  method LoadDailyUpdatesCorrected(
    table: DailyTable, model: LanguageModel, today: string, now: string,
    lookupRaises: bool, fault: DailyFault)
    returns (d: Dict)
    modifies table, model
    ensures lookupRaises ==>
              && d == map[] && table.rows == old(table.rows)
              && model.requests == old(model.requests) && model.replies == old(model.replies)
    ensures !lookupRaises && FirstSnapshot(old(table.rows), today).Some? ==>
              && d == FirstSnapshot(old(table.rows), today).value
              && table.rows == old(table.rows)
              && model.requests == old(model.requests) && model.replies == old(model.replies)
    ensures !lookupRaises && FirstSnapshot(old(table.rows), today).None? && fault == AllSucceed ==>
              && model.requests == old(model.requests) + Prompts
              && FirstSnapshot(table.rows, today).Some?
              && table.rows == old(table.rows) + [FirstSnapshot(table.rows, today).value]
    ensures !lookupRaises && fault == AllSucceed ==>
              && FirstSnapshot(table.rows, today).Some?
              && NewsShown(d, "finance_news") == Some(Get(FirstSnapshot(table.rows, today).value, "finance_news", Text(Placeholder)))
              && NewsShown(d, "health_tips") == Some(Get(FirstSnapshot(table.rows, today).value, "health_tips", Text(Placeholder)))
              && NewsShown(d, "education_info") == Some(Get(FirstSnapshot(table.rows, today).value, "education_info", Text(Placeholder)))
  {
    if lookupRaises {
      return map[];
    }
    var result := table.SelectFirst(today);
    if result.Some? {
      assert "date" in result.value;
      return result.value;
    }
    var updates := GetDailyUpdates(table, model, today, now, fault);
    if updates.Some? {
      d := AsColumns(updates.value);
    } else {
      d := map[];
    }
    if fault == AllSucceed {
      ghost var n := |old(model.replies)|;
      ghost var row := SnapshotRow(today, model.replies[n], model.replies[n + 1], model.replies[n + 2], now);
      assert table.rows[|old(table.rows)|] == row;
      assert IsFor(row, today);
      assert FirstIndexFor(table.rows, today) == |old(table.rows)|;
      assert "finance_news" in d;
    }
  }
}
