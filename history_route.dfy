/** The reading-history endpoint (src/app/api/reading-history/route.ts): GET
    lists the caller's last 100 sessions, POST records a finished session. */
module HistoryRoute {
  import opened Js
  import opened ReadingHistory
  import UsageRoute

  /** How many entries GET asks for. */
  const HISTORY_LIMIT: nat := 100

  /** `!title || typeof title !== 'string'` fails: a non-empty string. */
  predicate TitleAccepted(body: Json) {
    Field(body, "title").Str? && Field(body, "title").s != ""
  }

  /** `!words_read || typeof words_read !== 'number'` fails: a number other than 0. */
  predicate WordsReadAccepted(body: Json) {
    Field(body, "words_read").Num? && Field(body, "words_read").n != 0
  }

  /** The 400 message for a rejected body, or `None` when both checks pass. */
  function Rejection(body: Json): (r: Option<string>)
    ensures r.None? <==> TitleAccepted(body) && WordsReadAccepted(body)
    ensures r == Some("Title is required") <==> !TitleAccepted(body)
    ensures r == Some("Valid words_read is required") <==> TitleAccepted(body) && !WordsReadAccepted(body)
  {
    var title := Field(body, "title");
    var wordsRead := Field(body, "words_read");
    if Falsy(title) || !title.Str? then Some("Title is required")
    else if Falsy(wordsRead) || !wordsRead.Num? then Some("Valid words_read is required")
    else None
  }

  /** A value of the declared type `string | null` once `|| null` has been applied. */
  predicate TextOrNull(v: Json) {
    OrNull(v).Null? || OrNull(v).Str?
  }

  /** A value of the declared type `number | null` once `|| null` has been applied. */
  predicate NumberOrNullJson(v: Json) {
    OrNull(v).Null? || OrNull(v).Num?
  }

  /** The optional fields hold values of their declared types, so the store can take the row. */
  predicate OptionalFieldsTyped(body: Json) {
    TextOrNull(Field(body, "saved_text_id"))
    && NumberOrNullJson(Field(body, "wpm")) && NumberOrNullJson(Field(body, "duration_seconds"))
  }

  function AsText(v: Json): (r: Option<string>)
    requires TextOrNull(v)
    ensures r.None? <==> Falsy(v)
    ensures r.Some? ==> v == Str(r.value) && r.value != ""
  {
    var w := OrNull(v);
    if w.Str? then Some(w.s) else None
  }

  function AsNumber(v: Json): (r: Option<int>)
    requires NumberOrNullJson(v)
    ensures r.None? <==> Falsy(v)
    ensures r.Some? ==> v == Num(r.value) && r.value != 0
  {
    var w := OrNull(v);
    if w.Num? then Some(w.n) else None
  }

  /** The argument POST hands to `addHistoryEntry`. */
  function EntryOf(body: Json): (input: AddHistoryInput)
    requires Rejection(body).None? && OptionalFieldsTyped(body)
    ensures input.title == Field(body, "title").s && input.title != ""
    ensures input.wordsRead == Field(body, "words_read").n && input.wordsRead != 0
  {
    AddHistoryInput(
      AsText(Field(body, "saved_text_id")),
      Field(body, "title").s,
      Field(body, "words_read").n,
      AsNumber(Field(body, "wpm")),
      AsNumber(Field(body, "duration_seconds")))
  }

  /** The row stored for an accepted body: a falsy `saved_text_id`, `wpm` or
      `duration_seconds` is stored as null, any other value as sent. */
  lemma StoredRowOfBody(user: string, body: Json)
    requires Rejection(body).None? && OptionalFieldsTyped(body)
    ensures var row := NormalizedRow(user, EntryOf(body));
            (row.wpm.None? <==> Falsy(Field(body, "wpm")))
            && (row.wpm.Some? ==> Field(body, "wpm") == Num(row.wpm.value))
            && (row.durationSeconds.None? <==> Falsy(Field(body, "duration_seconds")))
            && (row.durationSeconds.Some? ==> Field(body, "duration_seconds") == Num(row.durationSeconds.value))
            && (row.savedTextId.None? <==> Falsy(Field(body, "saved_text_id")))
            && (row.savedTextId.Some? ==> Field(body, "saved_text_id") == Str(row.savedTextId.value))
            && row.userId == user && row.title == Field(body, "title").s
            && row.wordsRead == Field(body, "words_read").n
  {
  }

  /** A negative `words_read` passes the checks; only 0 and non-numbers are refused. */
  lemma NegativeWordsReadAccepted(body: Json, n: int)
    requires body.Object? && "words_read" in body.fields && TitleAccepted(body)
    ensures body.fields["words_read"] == Num(n) && n != 0 ==> Rejection(body).None?
    ensures body.fields["words_read"] == Num(0) ==> Rejection(body) == Some("Valid words_read is required")
  {
  }

  /** `GET /api/reading-history`: the caller's last 100 entries, or 500 with the error. */
  method GetHistory(table: HistoryTable, session: Option<string>, fetchError: Option<string>)
    returns (r: Response<seq<HistoryRow>>)
    ensures !Truthy(session) ==> r == Unauthorized()
    ensures Truthy(session) && !table.configured ==> r == Response(500, Failed(NULL_CLIENT_MESSAGE))
    ensures Truthy(session) && table.configured && fetchError.Some? ==>
              r == Response(500, Failed("Failed to fetch reading history: " + fetchError.value))
    ensures Truthy(session) && table.configured && fetchError.None? ==>
              r == Response(200, Succeeded(Some(Recent(table.rows, session.value, HISTORY_LIMIT))))
              && |r.body.data.value| <= HISTORY_LIMIT
  {
    if !Truthy(session) {
      return Unauthorized();
    }
    var history := table.GetReadingHistory(session.value, HISTORY_LIMIT, fetchError);
    if history.Err? {
      return Response(500, Failed(history.message));
    }
    r := Response(200, Succeeded(Some(history.value)));
  }

  /** `POST /api/reading-history` with the parsed body (`Err` when it is not JSON).
      `insertError` is the store's answer to the insert; the store refuses a row
      whose optional fields are not of their declared types. Without a
      database the insert throws the null client's TypeError. */
  method PostHistory(table: HistoryTable, session: Option<string>, body: Result<Json>, insertError: Option<string>)
    returns (r: Response<()>)
    requires table.configured && body.Ok? && !OptionalFieldsTyped(body.value) ==> insertError.Some?
    modifies table
    ensures !Truthy(session) ==> r == Unauthorized() && table.rows == old(table.rows)
    ensures Truthy(session) && body.Err? ==> r == Response(500, Failed(body.message)) && table.rows == old(table.rows)
    ensures Truthy(session) && body == Ok(Null) ==>
              r == Response(500, Failed(UsageRoute.NullBodyMessage("saved_text_id"))) && table.rows == old(table.rows)
    ensures Truthy(session) && body.Ok? && Destructurable(body.value) && Rejection(body.value).Some? ==>
              r == Response(400, ErrorOnly(Rejection(body.value).value)) && table.rows == old(table.rows)
    ensures Truthy(session) && body.Ok? && Destructurable(body.value) && Rejection(body.value).None?
            && !table.configured ==>
              r == Response(500, Failed(NULL_CLIENT_MESSAGE)) && table.rows == old(table.rows)
    ensures Truthy(session) && body.Ok? && Destructurable(body.value) && Rejection(body.value).None?
            && table.configured && insertError.Some? ==>
              r == Response(500, Failed("Failed to add history entry: " + insertError.value))
              && table.rows == old(table.rows)
    ensures Truthy(session) && body.Ok? && Rejection(body.value).None? && table.configured && insertError.None? ==>
              r == Response(200, Succeeded(None))
              && table.rows == old(table.rows) + [NormalizedRow(session.value, EntryOf(body.value))]
  {
    if !Truthy(session) {
      return Unauthorized();
    }
    if body.Err? {
      return Response(500, Failed(body.message));
    }
    if !Destructurable(body.value) {
      return Response(500, Failed(UsageRoute.NullBodyMessage("saved_text_id")));
    }
    var rejection := Rejection(body.value);
    if rejection.Some? {
      return Response(400, ErrorOnly(rejection.value));
    }
    if !table.configured {
      return Response(500, Failed(NULL_CLIENT_MESSAGE));
    }
    if !OptionalFieldsTyped(body.value) {
      return Response(500, Failed("Failed to add history entry: " + insertError.value));
    }
    var added := table.AddHistoryEntry(session.value, EntryOf(body.value), insertError);
    if added.Err? {
      return Response(500, Failed(added.message));
    }
    r := Response(200, Succeeded(None));
  }
}
