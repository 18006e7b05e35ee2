/** `get_cached_ai_suggestion`: at most one generated suggestion per user,
    per category and per calendar day, kept in the user's `user_data` row. */
module SuggestionCache {
  import opened Common
  import opened UserStore
  import opened Advice

  /** The update written on a miss: the suggestion, today's date and the
      update time. */
  function CachePatch(cat: Category, suggestion: string, today: string, now: string): Row {
    map[SuggestionText(cat) := Text(suggestion), SuggestionDate(cat) := Text(today), UpdatedAtKey := Text(now)]
  }

  /** The row holds a non-empty suggestion for `cat` dated `today`. */
  predicate IsFresh(row: Row, cat: Category, today: string) {
    && SuggestionText(cat) in row && Truthy(row[SuggestionText(cat)])
    && SuggestionDate(cat) in row && row[SuggestionDate(cat)] == Text(today)
  }

  /** The lookup of `uid`'s first row finds a fresh suggestion for `cat`. */
  predicate CacheHit(rows: seq<Row>, uid: string, cat: Category, today: string) {
    FirstRow(rows, uid).Some? && IsFresh(FirstRow(rows, uid).value, cat, today)
  }

  /** `str(value)` of a cached suggestion; suggestion columns only ever
      receive text. */
  function TextOf(v: Value): string {
    if v.Text? then v.s else ""
  }

  /** `get_cached_ai_suggestion`.  An empty user id bypasses the cache.
      A hit returns the stored text without calling the model.  A miss
      calls the model once and writes the result back (update or insert).
      Any storage exception falls back to one more direct call, so a failed
      write costs two calls and stores nothing. */
  method GetCachedSuggestion(
    table: UserDataTable, model: LanguageModel, uid: string, context: string, cat: Category,
    today: string, now: string, fault: StorageFault)
    returns (r: string)
    modifies table, model
    ensures uid == "" || fault == SelectRaises ==>
              && table.rows == old(table.rows)
              && model.requests == old(model.requests) + [Request.Suggest(context, cat)]
              && model.replies == old(model.replies) + [r]
    ensures uid != "" && fault != SelectRaises && CacheHit(old(table.rows), uid, cat, today) ==>
              && r == TextOf(FirstRow(old(table.rows), uid).value[SuggestionText(cat)])
              && table.rows == old(table.rows)
              && model.requests == old(model.requests) && model.replies == old(model.replies)
    ensures uid != "" && fault == Healthy && !CacheHit(old(table.rows), uid, cat, today) ==>
              && model.requests == old(model.requests) + [Request.Suggest(context, cat)]
              && model.replies == old(model.replies) + [r]
              && table.rows == Upsert(old(table.rows), uid, CachePatch(cat, r, today, now), now)
    ensures uid != "" && fault == WriteRaises && !CacheHit(old(table.rows), uid, cat, today) ==>
              && model.requests == old(model.requests) + [Request.Suggest(context, cat), Request.Suggest(context, cat)]
              && |model.replies| == |old(model.replies)| + 2 && old(model.replies) <= model.replies
              && model.replies[|model.replies| - 1] == r
              && table.rows == old(table.rows)
  {
    if uid == "" {
      r := model.Suggest(context, cat);
      return;
    }
    if fault == SelectRaises {
      r := model.Suggest(context, cat);
      return;
    }
    var existing := table.SelectFirst(uid);
    if existing.Some? && IsFresh(existing.value, cat, today) {
      return TextOf(existing.value[SuggestionText(cat)]);
    }
    var suggestion := model.Suggest(context, cat);
    var update := CachePatch(cat, suggestion, today, now);
    if fault == WriteRaises {
      r := model.Suggest(context, cat);
      return;
    }
    if existing.Some? {
      table.UpdateWhere(uid, update);
    } else {
      table.Insert(InsertedRow(update, uid, now));
    }
    r := suggestion;
  }

  /** After a miss is written back, the next lookup the same day is a hit,
      unless the model returned the empty text. */
  lemma MissThenHit(rows: seq<Row>, uid: string, cat: Category, s: string, today: string, now: string)
    ensures CacheHit(Upsert(rows, uid, CachePatch(cat, s, today, now), now), uid, cat, today) <==> s != ""
  {
    UpsertFirstRow(rows, uid, CachePatch(cat, s, today, now), now);
  }

  /** A miss leaves the other categories' suggestion and date columns of
      the user's row as they were. */
  lemma MissKeepsOtherCategories(rows: seq<Row>, uid: string, cat: Category, other: Category, s: string, today: string, now: string)
    requires other != cat
    requires FirstRow(rows, uid).Some?
    ensures FirstRow(Upsert(rows, uid, CachePatch(cat, s, today, now), now), uid).Some?
    ensures Get(FirstRow(Upsert(rows, uid, CachePatch(cat, s, today, now), now), uid).value, SuggestionText(other), Null)
            == Get(FirstRow(rows, uid).value, SuggestionText(other), Null)
    ensures Get(FirstRow(Upsert(rows, uid, CachePatch(cat, s, today, now), now), uid).value, SuggestionDate(other), Null)
            == Get(FirstRow(rows, uid).value, SuggestionDate(other), Null)
    ensures CacheHit(Upsert(rows, uid, CachePatch(cat, s, today, now), now), uid, other, today)
            <==> CacheHit(rows, uid, other, today)
  {
    UpsertFirstRow(rows, uid, CachePatch(cat, s, today, now), now);
  }

  /** A miss touches no other user's rows and keeps one row per user. */
  lemma MissKeepsOtherUsers(rows: seq<Row>, uid: string, cat: Category, s: string, today: string, now: string, other: string)
    requires other != uid
    ensures FirstRow(Upsert(rows, uid, CachePatch(cat, s, today, now), now), other) == FirstRow(rows, other)
    ensures |Upsert(rows, uid, CachePatch(cat, s, today, now), now)| >= |rows|
    ensures forall j :: 0 <= j < |rows| && !Owns(rows[j], uid) ==> Upsert(rows, uid, CachePatch(cat, s, today, now), now)[j] == rows[j]
    ensures UniqueOwners(rows) ==> UniqueOwners(Upsert(rows, uid, CachePatch(cat, s, today, now), now))
  {
    UpsertLeavesOthers(rows, uid, CachePatch(cat, s, today, now), now);
    if UniqueOwners(rows) {
      UpsertKeepsUniqueOwners(rows, uid, CachePatch(cat, s, today, now), now);
    }
  }

  /** Two requests for the same user and category on the same day, with
      working storage, call the model at most once and agree, unless the
      first answer was empty. */
  method SameDayTwice(
    table: UserDataTable, model: LanguageModel, uid: string, context: string, cat: Category,
    today: string, now: string, later: string)
    returns (first: string, second: string)
    requires uid != ""
    modifies table, model
    ensures first != "" ==> |model.requests| <= |old(model.requests)| + 1 && second == first
  {
    first := GetCachedSuggestion(table, model, uid, context, cat, today, now, Healthy);
    if first != "" {
      if !CacheHit(old(table.rows), uid, cat, today) {
        MissThenHit(old(table.rows), uid, cat, first, today, now);
        UpsertFirstRow(old(table.rows), uid, CachePatch(cat, first, today, now), now);
      }
      assert CacheHit(table.rows, uid, cat, today);
    }
    second := GetCachedSuggestion(table, model, uid, context, cat, today, later, Healthy);
  }
}
