/** The saved-texts endpoint (src/app/api/saved-texts/route.ts): POST adds a
    text to the caller's library. */
module SavedTextsRoute {
  import opened Js
  import opened SavedTexts
  import UsageRoute

  /** The argument POST hands to `saveText`. `sourceUrl` is `source_url || null`. */
  datatype SaveTextInput = SaveTextInput(title: string, content: string, sourceUrl: Json, wordCount: int)

  /** `!x || typeof x !== "string"` fails: a non-empty string. */
  predicate NonEmptyText(v: Json) {
    v.Str? && v.s != ""
  }

  /** `!word_count || typeof word_count !== "number" || word_count < 0` fails:
      since 0 is falsy, a positive number. */
  predicate PositiveCount(v: Json) {
    v.Num? && v.n > 0
  }

  /** The checks of POST in their order, giving the 400 message or the input to save. */
  function Validated(body: Json): (r: Result<SaveTextInput>)
    ensures r.Ok? <==> NonEmptyText(Field(body, "title")) && NonEmptyText(Field(body, "content"))
                       && PositiveCount(Field(body, "word_count"))
    ensures r.Err? && r.message == "Title is required" <==> !NonEmptyText(Field(body, "title"))
    ensures r.Err? && r.message == "Content is required" <==>
              NonEmptyText(Field(body, "title")) && !NonEmptyText(Field(body, "content"))
    ensures r.Err? && r.message == "Valid word_count is required" <==>
              NonEmptyText(Field(body, "title")) && NonEmptyText(Field(body, "content"))
              && !PositiveCount(Field(body, "word_count"))
    ensures r.Ok? ==> r.value.title == Field(body, "title").s && r.value.content == Field(body, "content").s
                      && r.value.wordCount == Field(body, "word_count").n
                      && r.value.sourceUrl == OrNull(Field(body, "source_url"))
  {
    var title := Field(body, "title");
    var content := Field(body, "content");
    var wordCount := Field(body, "word_count");
    if Falsy(title) || !title.Str? then Err("Title is required")
    else if Falsy(content) || !content.Str? then Err("Content is required")
    else if Falsy(wordCount) || !wordCount.Num? || wordCount.n < 0 then Err("Valid word_count is required")
    else Ok(SaveTextInput(title.s, content.s, OrNull(Field(body, "source_url")), wordCount.n))
  }

  /** The call POST makes to `saveText`: the session's user and the validated input. */
  datatype SaveCall = SaveCall(user: string, input: SaveTextInput)

  /** What one POST does: the `saveText` call it makes, if it gets that far, and its response. */
  datatype SaveOutcome = SaveOutcome(call: Option<SaveCall>, response: Response<SavedText>)

  /** `POST /api/saved-texts` with the parsed body (`Err` when it is not JSON).
      `stored` is the store's answer to the `saveText` call: the created record,
      or the error it threw. */
  function PostSavedText(session: Option<string>, body: Result<Json>, stored: Result<SavedText>)
    : (o: SaveOutcome)
    ensures o.call.Some? <==> Truthy(session) && body.Ok? && Validated(body.value).Ok?
    ensures o.call.Some? ==> o.call.value == SaveCall(session.value, Validated(body.value).value)
    ensures !Truthy(session) ==> o.response == Unauthorized()
    ensures Truthy(session) && body.Err? ==> o.response == Response(500, Failed(body.message))
    ensures Truthy(session) && body.Ok? && !Destructurable(body.value) ==>
              o.response == Response(500, Failed(UsageRoute.NullBodyMessage("title")))
    ensures o.response.status == 201 <==> o.call.Some? && stored.Ok?
    ensures o.response.status == 201 ==> o.response.body == Succeeded(Some(stored.value))
    ensures o.response.status == 400 <==>
              Truthy(session) && body.Ok? && Destructurable(body.value) && Validated(body.value).Err?
    ensures o.response.status == 400 ==> o.response.body == Failed(Validated(body.value).message)
    ensures o.call.Some? && stored.Err? ==> o.response == Response(500, Failed(stored.message))
  {
    if !Truthy(session) then SaveOutcome(None, Unauthorized())
    else if body.Err? then SaveOutcome(None, Response(500, Failed(body.message)))
    else if !Destructurable(body.value) then
      SaveOutcome(None, Response(500, Failed(UsageRoute.NullBodyMessage("title"))))
    else
      var input := Validated(body.value);
      if input.Err? then SaveOutcome(None, Response(400, Failed(input.message)))
      else
        var call := Some(SaveCall(session.value, input.value));
        if stored.Err? then SaveOutcome(call, Response(500, Failed(stored.message)))
        else SaveOutcome(call, Response(201, Succeeded(Some(stored.value))))
  }

  /** What reaches the store: the title and content sent, `source_url` with a
      falsy value as null, and the positive word count. */
  lemma SavedInputOfBody(session: Option<string>, body: Result<Json>, stored: Result<SavedText>)
    requires PostSavedText(session, body, stored).call.Some?
    ensures var c := PostSavedText(session, body, stored).call.value;
            c.user == session.value
            && Field(body.value, "title") == Str(c.input.title) && c.input.title != ""
            && Field(body.value, "content") == Str(c.input.content) && c.input.content != ""
            && Field(body.value, "word_count") == Num(c.input.wordCount) && c.input.wordCount > 0
            && (c.input.sourceUrl == Null <==> Falsy(Field(body.value, "source_url")))
            && (!Falsy(Field(body.value, "source_url")) ==> c.input.sourceUrl == Field(body.value, "source_url"))
  {
  }

  /** A word count of 0 is refused although it is a number and not negative. */
  lemma ZeroWordCountRefused(title: string, content: string)
    requires title != "" && content != ""
    ensures var body := Object(map["title" := Str(title), "content" := Str(content), "word_count" := Num(0)]);
            Validated(body) == Err("Valid word_count is required")
  {
    var body := Object(map["title" := Str(title), "content" := Str(content), "word_count" := Num(0)]);
    assert Field(body, "title") == Str(title);
    assert Field(body, "content") == Str(content);
    assert Field(body, "word_count") == Num(0);
  }
}
