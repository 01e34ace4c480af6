/** The reader page (src/app/reader/page.tsx): one text shown word by word,
    stepped by hand, with a clock that derives the reading speed, batched
    usage reporting behind the paywall, and the reading position kept in
    local storage and, for a bookmarked text, on the server. */
module Reader {
  import opened Js
  import opened Numerals
  import opened Tokenizer
  import opened Usage
  import opened ReadingHistory
  import SavedTexts
  import SavedTextsRoute
  import HistoryRoute

  /** Words stepped over before the page reports usage. */
  const TRACK_BATCH: int := 10

  /** Most words a history title takes from the text. */
  const TITLE_WORDS: int := 20

  /** `words.slice(0, end)`: a negative end counts from the back. */
  function SlicePrefix(words: seq<string>, end: int): (r: seq<string>)
    ensures |r| <= |words| && r == words[..|r|]
    ensures 0 <= end <= |words| ==> |r| == end
    ensures end > |words| ==> r == words
    ensures end < 0 ==> |r| == if |words| + end > 0 then |words| + end else 0
  {
    if end > |words| then words
    else if end >= 0 then words[..end]
    else if |words| + end > 0 then words[..|words| + end]
    else []
  }

  /** What the clock shows after `elapsed` whole seconds at word `index`:
      `Math.round(index * 60 / elapsed)`, or 0 when that is not positive. */
  function WpmFor(index: int, elapsed: int): (w: int)
    requires elapsed >= 1
    ensures w >= 0
    ensures w > 0 ==> 2 * (60 * index) - elapsed < 2 * elapsed * w <= 2 * (60 * index) + elapsed
    ensures index <= 0 ==> w == 0
    ensures w == 0 <==> 120 * index < elapsed
  {
    RoundedMeanPositive(60 * index, elapsed);
    var rounded := RoundedMean(60 * index, elapsed);
    if rounded > 0 then rounded else 0
  }

  /** Reading a steady `k` words a second shows `60 * k` words per minute. */
  lemma WpmOfSteadyPace(k: nat, elapsed: int)
    requires elapsed >= 1
    ensures WpmFor(k * elapsed, elapsed) == 60 * k
  {
    var d := 2 * elapsed;
    assert 2 * (60 * (k * elapsed)) + elapsed == (60 * k) * d + elapsed;
    DivModUnique(60 * k, elapsed, RoundedMean(60 * (k * elapsed), elapsed),
                 (2 * (60 * (k * elapsed)) + elapsed) % d, d);
  }

  /** The title `handleFinish` gives a session: the first words read, up to 20,
      for a saved text, and "Untitled" otherwise. Split again, the title gives
      back exactly those words, so a saved text read past its first word gets a
      non-empty title. */
  function FinishTitle(words: seq<string>, index: int, savedTextId: Option<string>): (title: string)
    ensures !Truthy(savedTextId) ==> title == "Untitled"
    ensures Truthy(savedTextId) && (forall i :: 0 <= i < |words| ==> IsWord(words[i])) ==>
              Words(title) == SlicePrefix(words, if index < TITLE_WORDS then index else TITLE_WORDS)
    ensures Truthy(savedTextId) && index > 0 && |words| > 0
            && (forall i :: 0 <= i < |words| ==> IsWord(words[i])) ==>
              title != ""
  {
    if Truthy(savedTextId) then
      var prefix := SlicePrefix(words, if index < TITLE_WORDS then index else TITLE_WORDS);
      JoinedPrefixWords(words, prefix);
      Join(prefix)
    else "Untitled"
  }

  /** A prefix of a sequence of words, joined and split again, gives itself back. */
  lemma JoinedPrefixWords(words: seq<string>, prefix: seq<string>)
    requires |prefix| <= |words| && prefix == words[..|prefix|]
    ensures (forall i :: 0 <= i < |words| ==> IsWord(words[i])) ==> Words(Join(prefix)) == prefix
  {
    if forall i :: 0 <= i < |words| ==> IsWord(words[i]) {
      assert forall i :: 0 <= i < |prefix| ==> prefix[i] == words[i];
      WordsOfJoin(prefix);
    }
  }

  /** The body `handleFinish` posts to the reading-history endpoint. */
  function FinishEntry(words: seq<string>, index: int, wpm: int, elapsed: int, savedTextId: Option<string>)
    : (entry: Json)
    ensures entry.Object? && entry.fields.Keys == {"title", "words_read", "wpm", "duration_seconds"}
    ensures Field(entry, "words_read") == Num(index)
    ensures Field(entry, "title") == Str(FinishTitle(words, index, savedTextId))
    ensures Falsy(Field(entry, "wpm")) <==> wpm <= 0
    ensures Falsy(Field(entry, "duration_seconds")) <==> elapsed <= 0
  {
    Object(map[
      "title" := Str(FinishTitle(words, index, savedTextId)),
      "words_read" := Num(index),
      "wpm" := if wpm > 0 then Num(wpm) else Null,
      "duration_seconds" := if elapsed > 0 then Num(elapsed) else Null])
  }

  /** The endpoint takes a finished session exactly when its title is not empty
      and it read past the first word; the row it stores has no saved text, and
      null for a speed or duration of 0. */
  lemma FinishEntryAcceptance(user: string, words: seq<string>, index: int, wpm: int, elapsed: int,
                              savedTextId: Option<string>)
    ensures var entry := FinishEntry(words, index, wpm, elapsed, savedTextId);
            HistoryRoute.OptionalFieldsTyped(entry)
            && (HistoryRoute.Rejection(entry).None? <==> FinishTitle(words, index, savedTextId) != "" && index != 0)
            && (FinishTitle(words, index, savedTextId) != "" && index == 0 ==>
                  HistoryRoute.Rejection(entry) == Some("Valid words_read is required"))
    ensures var entry := FinishEntry(words, index, wpm, elapsed, savedTextId);
            HistoryRoute.Rejection(entry).None? ==>
              var row := NormalizedRow(user, HistoryRoute.EntryOf(entry));
              row.savedTextId == None && row.wordsRead == index
              && row.wpm == (if wpm > 0 then Some(wpm) else None)
              && row.durationSeconds == (if elapsed > 0 then Some(elapsed) else None)
  {
    var entry := FinishEntry(words, index, wpm, elapsed, savedTextId);
    assert Field(entry, "saved_text_id") == Undefined;
    if HistoryRoute.Rejection(entry).None? {
      HistoryRoute.StoredRowOfBody(user, entry);
    }
  }

  /** A bookmark request: the title typed in the dialog (`None`: left empty, so
      the page sends "Text" and the date), the text and its word count. */
  datatype BookmarkRequest = BookmarkRequest(title: Option<string>, content: string, wordCount: int)

  /** The body `saveText` posts for a request; `date` is the locale date string. */
  function BookmarkBody(request: BookmarkRequest, date: string): (body: Json)
    ensures body.Object? && body.fields.Keys == {"title", "content", "word_count"}
    ensures Field(body, "title") == Str(if request.title.Some? then request.title.value else "Text " + date)
    ensures Field(body, "content") == Str(request.content) && Field(body, "word_count") == Num(request.wordCount)
    ensures Field(body, "source_url") == Undefined
  {
    Object(map[
      "title" := Str(if request.title.Some? then request.title.value else "Text " + date),
      "content" := Str(request.content),
      "word_count" := Num(request.wordCount)])
  }

  /** A text that is not blank is taken by the saved-texts endpoint exactly when
      words were loaded from it: a pasted text that was never loaded has word
      count 0 and is refused. */
  lemma BookmarkAcceptance(request: BookmarkRequest, date: string)
    requires !Blank(request.content)
    requires request.title.Some? ==> request.title.value != ""
    ensures SavedTextsRoute.Validated(BookmarkBody(request, date)).Ok? <==> request.wordCount > 0
  {
    var body := BookmarkBody(request, date);
    assert Field(body, "content") == Str(request.content);
    var i :| 0 <= i < |request.content| && !IsSpace(request.content[i]);
    assert request.content != "";
  }

  /** The paywall gate of a forward step: a free account with nothing left that
      has already reported words on this page. */
  predicate Gated(usage: Option<UsageStats>, trackedWords: int) {
    usage.Some? && usage.value.tier == Free && usage.value.remaining <= 0 && trackedWords > 0
  }

  /** One reader page. `signedIn` is whether `useSession` has a user and
      `savedTextId` the `id` search parameter. Local storage is the two cells
      `storedText` and `storedPosition`; `remotePositions` holds the positions
      written to the server per saved text; `reported` the counts posted to the
      usage endpoint; `bookmarkRequests` and `historyEntries` what was posted to
      the saved-texts and reading-history endpoints. Times are milliseconds. */
  class ReaderSession {
    const signedIn: bool
    const savedTextId: Option<string>
    var text: string
    var words: seq<string>
    var currentWordIndex: int
    var wpm: int
    var startTime: Option<int>
    var isPaused: bool
    var elapsedTime: int
    var isBookmarked: bool
    var savedTextPosition: int
    var usage: Option<UsageStats>
    var showUpgradePrompt: bool
    var trackedWords: int
    var lastTrackedIndex: int
    var storedText: Option<string>
    var storedPosition: Option<string>
    var remotePositions: map<string, int>
    var reported: seq<int>
    var bookmarkRequests: seq<BookmarkRequest>
    var historyEntries: seq<Json>

    /** The two tracking refs move together; every report is a batch of at least
        10 words and, with a user, the reports add up to the words tracked; the
        words are whitespace-free and non-empty. */
    ghost predicate Valid()
      reads this
    {
      trackedWords == lastTrackedIndex && lastTrackedIndex >= 0
      && (forall i :: 0 <= i < |reported| ==> reported[i] >= TRACK_BATCH)
      && (signedIn ==> Sum(reported) == trackedWords)
      && (!signedIn ==> reported == [])
      && (forall i :: 0 <= i < |words| ==> IsWord(words[i]))
    }

    /** Mounting the page: the stored text, if any, is split into words, and
        the stored position, if any, is read back with `parseInt`. The page only
        ever stores positions it wrote with `String(n)`, so they parse. */
    constructor (signedIn: bool, savedTextId: Option<string>, storedText: Option<string>,
                 storedPosition: Option<string>)
      requires Truthy(storedText) && Truthy(storedPosition) ==> ParseInt(storedPosition.value).Some?
      ensures Valid()
      ensures this.signedIn == signedIn && this.savedTextId == savedTextId
      ensures this.storedText == storedText && this.storedPosition == storedPosition
      ensures text == (if Truthy(storedText) then storedText.value else "")
      ensures words == (if Truthy(storedText) then Tokenize(storedText.value) else [])
      ensures currentWordIndex == (if Truthy(storedText) && Truthy(storedPosition)
                                   then ParseInt(storedPosition.value).value else 0)
      ensures wpm == 0 && startTime == None && !isPaused && elapsedTime == 0 && !isBookmarked
      ensures savedTextPosition == 0 && usage == None && !showUpgradePrompt
      ensures trackedWords == 0 && lastTrackedIndex == 0
      ensures remotePositions == map[] && reported == [] && bookmarkRequests == [] && historyEntries == []
    {
      var t, ws, index := "", [], 0;
      if Truthy(storedText) {
        t := storedText.value;
        ws := Tokenize(t);
        if Truthy(storedPosition) {
          index := ParseInt(storedPosition.value).value;
        }
      }
      this.signedIn := signedIn;
      this.savedTextId := savedTextId;
      this.storedText := storedText;
      this.storedPosition := storedPosition;
      text := t;
      words := ws;
      currentWordIndex := index;
      wpm := 0;
      startTime := None;
      isPaused := false;
      elapsedTime := 0;
      isBookmarked := false;
      savedTextPosition := 0;
      usage := None;
      showUpgradePrompt := false;
      trackedWords := 0;
      lastTrackedIndex := 0;
      remotePositions := map[];
      reported := [];
      bookmarkRequests := [];
      historyEntries := [];
    }

    /** `trackWords(count)`: posts the count to the usage endpoint, unless there
        is no user or the count is not positive. */
    method TrackWords(count: int)
      modifies this`reported
      ensures reported == if signedIn && count > 0 then old(reported) + [count] else old(reported)
    {
      if !signedIn || count <= 0 {
        return;
      }
      reported := reported + [count];
    }

    /** `updateSavedTextPosition(position)`: writes the position of the saved
        text to the server, unless there is no saved text or no user. */
    method UpdateSavedTextPosition(position: int)
      modifies this`remotePositions
      ensures remotePositions == if Truthy(savedTextId) && signedIn
                                 then old(remotePositions)[savedTextId.value := position]
                                 else old(remotePositions)
    {
      if !Truthy(savedTextId) || !signedIn {
        return;
      }
      remotePositions := remotePositions[savedTextId.value := position];
    }

    /** `localStorage.setItem("speedreader_position", String(position))`; by
        `ParseIntOfIntToString` it reads back as the same position. */
    method StorePosition(position: int)
      modifies this`storedPosition
      ensures storedPosition == Some(IntToString(position))
    {
      storedPosition := Some(IntToString(position));
    }

    /** The batching step of `handleNextWord`: once the index is 10 or more
        words past the last tracked index, both refs move to it and the
        difference is reported. */
    method ReportProgress(newIndex: int)
      requires Valid()
      modifies this`trackedWords, this`lastTrackedIndex, this`reported
      ensures Valid()
      ensures lastTrackedIndex >= old(lastTrackedIndex)
      ensures newIndex - old(lastTrackedIndex) >= TRACK_BATCH ==>
                lastTrackedIndex == newIndex
                && trackedWords == old(trackedWords) + (newIndex - old(lastTrackedIndex))
                && reported == old(reported) + (if signedIn then [newIndex - old(lastTrackedIndex)] else [])
      ensures newIndex - old(lastTrackedIndex) < TRACK_BATCH ==>
                lastTrackedIndex == old(lastTrackedIndex) && trackedWords == old(trackedWords)
                && reported == old(reported)
    {
      var wordsSinceLastTrack := newIndex - lastTrackedIndex;
      if wordsSinceLastTrack >= TRACK_BATCH {
        trackedWords := trackedWords + wordsSinceLastTrack;
        lastTrackedIndex := newIndex;
        if signedIn {
          SumAppend(reported, wordsSinceLastTrack);
        }
        TrackWords(wordsSinceLastTrack);
      }
    }

    /** The step of `handleNextWord` past its paywall gate: one word forward
        unless at the last word, storing the position, reporting a batch once 10
        or more words were stepped since the last report, and writing the
        position to the server for a bookmarked saved text. */
    method Advance()
      requires Valid()
      modifies this`currentWordIndex, this`storedPosition, this`trackedWords,
               this`lastTrackedIndex, this`reported, this`remotePositions
      ensures Valid()
      ensures lastTrackedIndex >= old(lastTrackedIndex)
      ensures old(currentWordIndex) >= |words| - 1 ==>
                currentWordIndex == old(currentWordIndex)
                && storedPosition == old(storedPosition) && trackedWords == old(trackedWords)
                && lastTrackedIndex == old(lastTrackedIndex) && reported == old(reported)
                && remotePositions == old(remotePositions)
      ensures old(currentWordIndex) < |words| - 1 ==>
                currentWordIndex == old(currentWordIndex) + 1
                && storedPosition == Some(IntToString(currentWordIndex))
                && remotePositions == (if Truthy(savedTextId) && isBookmarked && signedIn
                                       then old(remotePositions)[savedTextId.value := currentWordIndex]
                                       else old(remotePositions))
      ensures old(currentWordIndex) < |words| - 1 && currentWordIndex - old(lastTrackedIndex) >= TRACK_BATCH ==>
                lastTrackedIndex == currentWordIndex
                && trackedWords == old(trackedWords) + (currentWordIndex - old(lastTrackedIndex))
                && reported == old(reported) + (if signedIn then [currentWordIndex - old(lastTrackedIndex)] else [])
      ensures old(currentWordIndex) < |words| - 1 && currentWordIndex - old(lastTrackedIndex) < TRACK_BATCH ==>
                lastTrackedIndex == old(lastTrackedIndex) && trackedWords == old(trackedWords)
                && reported == old(reported)
    {
      if currentWordIndex < |words| - 1 {
        var newIndex := currentWordIndex + 1;
        currentWordIndex := newIndex;
        StorePosition(newIndex);
        ReportProgress(newIndex);
        if Truthy(savedTextId) && isBookmarked {
          UpdateSavedTextPosition(newIndex);
        }
      }
    }

    /** What `handleNextWord` does, relating the state before to the state
        after. The paywall gate (a free account with nothing left that has
        already reported words) only raises the upgrade prompt. Otherwise the
        page moves one word forward unless at the last word, storing the
        position; once 10 or more words were stepped since the last report both
        refs move to the new index and the difference is reported; a bookmarked
        saved text gets its position written to the server. */
    twostate predicate SteppedForward()
      reads this
    {
      var gated := Gated(old(usage), old(trackedWords));
      var moved := !gated && old(currentWordIndex) < |words| - 1;
      var batch := currentWordIndex - old(lastTrackedIndex);
      (gated ==> showUpgradePrompt) && (!gated ==> showUpgradePrompt == old(showUpgradePrompt))
      && (!moved ==>
            currentWordIndex == old(currentWordIndex)
            && storedPosition == old(storedPosition) && trackedWords == old(trackedWords)
            && lastTrackedIndex == old(lastTrackedIndex) && reported == old(reported)
            && remotePositions == old(remotePositions))
      && (moved ==>
            currentWordIndex == old(currentWordIndex) + 1
            && storedPosition == Some(IntToString(currentWordIndex))
            && remotePositions == (if Truthy(savedTextId) && isBookmarked && signedIn
                                   then old(remotePositions)[savedTextId.value := currentWordIndex]
                                   else old(remotePositions)))
      && (moved && batch >= TRACK_BATCH ==>
            lastTrackedIndex == currentWordIndex
            && trackedWords == old(trackedWords) + batch
            && reported == old(reported) + (if signedIn then [batch] else []))
      && (moved && batch < TRACK_BATCH ==>
            lastTrackedIndex == old(lastTrackedIndex) && trackedWords == old(trackedWords)
            && reported == old(reported))
    }

    /** What `handlePreviousWord` does: one word back unless at the first word,
        storing the position and writing it to the server for a bookmarked saved
        text; nothing is reported and the prompt is untouched. */
    twostate predicate SteppedBack()
      reads this
    {
      var moved := old(currentWordIndex) > 0;
      showUpgradePrompt == old(showUpgradePrompt) && reported == old(reported)
      && trackedWords == old(trackedWords) && lastTrackedIndex == old(lastTrackedIndex)
      && (!moved ==>
            currentWordIndex == old(currentWordIndex) && storedPosition == old(storedPosition)
            && remotePositions == old(remotePositions))
      && (moved ==>
            currentWordIndex == old(currentWordIndex) - 1
            && storedPosition == Some(IntToString(currentWordIndex))
            && remotePositions == (if Truthy(savedTextId) && isBookmarked && signedIn
                                   then old(remotePositions)[savedTextId.value := currentWordIndex]
                                   else old(remotePositions)))
    }

    /** `handleNextWord`: a free account with nothing left that has already
        reported words only raises the upgrade prompt; otherwise `Advance`. */
    method NextWord()
      requires Valid()
      modifies this`showUpgradePrompt, this`currentWordIndex, this`storedPosition, this`trackedWords,
               this`lastTrackedIndex, this`reported, this`remotePositions
      ensures Valid()
      ensures lastTrackedIndex >= old(lastTrackedIndex)
      ensures SteppedForward()
    {
      if Gated(usage, trackedWords) {
        showUpgradePrompt := true;
        return;
      }
      Advance();
    }

    /** `handlePreviousWord`: one step back unless at the first word, storing
        the position and writing it to the server for a bookmarked saved text.
        The tracking refs are not in its frame, so nothing is reported. */
    method PreviousWord()
      requires Valid()
      modifies this`currentWordIndex, this`storedPosition, this`remotePositions
      ensures Valid()
      ensures SteppedBack()
    {
      if currentWordIndex > 0 {
        var newIndex := currentWordIndex - 1;
        currentWordIndex := newIndex;
        StorePosition(newIndex);
        if Truthy(savedTextId) && isBookmarked {
          UpdateSavedTextPosition(newIndex);
        }
      }
    }

    /** `togglePause`: flips `isPaused`; the clock starts, at `now`, when the
        page was not paused and had no start time. */
    method TogglePause(now: int)
      requires Valid()
      modifies this`isPaused, this`startTime
      ensures Valid()
      ensures isPaused == !old(isPaused)
      ensures startTime == if !old(isPaused) && old(startTime).None? then Some(now) else old(startTime)
    {
      var wasPaused := isPaused;
      isPaused := !wasPaused;
      if !wasPaused && startTime.None? {
        startTime := Some(now);
      }
    }

    /** `handleReset`: back to the first word with the clock cleared; the
        tracking refs are not in its frame. */
    method Reset()
      requires Valid()
      modifies this`currentWordIndex, this`wpm, this`startTime, this`elapsedTime, this`isPaused,
               this`storedPosition
      ensures Valid()
      ensures currentWordIndex == 0 && wpm == 0 && startTime == None && elapsedTime == 0 && !isPaused
      ensures storedPosition == Some("0")
    {
      currentWordIndex := 0;
      wpm := 0;
      startTime := None;
      elapsedTime := 0;
      isPaused := false;
      storedPosition := Some("0");
    }

    /** Typing in the text area. */
    method EditText(t: string)
      requires Valid()
      modifies this`text
      ensures Valid() && text == t
    {
      text := t;
    }

    /** The "Load Text" button: the typed text becomes the words read, from the
        first word, and is stored; the clock is cleared. */
    method LoadText()
      requires Valid()
      modifies this`words, this`currentWordIndex, this`storedText, this`storedPosition, this`startTime,
               this`elapsedTime, this`wpm
      ensures Valid()
      ensures words == Tokenize(text) && currentWordIndex == 0
      ensures storedText == Some(text) && storedPosition == Some("0")
      ensures startTime == None && elapsedTime == 0 && wpm == 0
    {
      var loaded := TokenizeOnLoad(text);
      assert forall i :: 0 <= i < |loaded| ==> IsWord(loaded[i]);
      words := loaded;
      currentWordIndex := 0;
      storedText := Some(text);
      storedPosition := Some("0");
      startTime := None;
      elapsedTime := 0;
      wpm := 0;
    }

    /** `loadSavedText`, run when there is a saved-text id and a user: a fetched
        text replaces the text and words and is read from its stored position. */
    method LoadSavedText(reply: Option<SavedTexts.SavedText>)
      requires Valid()
      modifies this`text, this`words, this`currentWordIndex, this`savedTextPosition, this`isBookmarked
      ensures Valid()
      ensures !(Truthy(savedTextId) && signedIn && reply.Some?) ==>
                text == old(text) && words == old(words) && currentWordIndex == old(currentWordIndex)
                && savedTextPosition == old(savedTextPosition) && isBookmarked == old(isBookmarked)
      ensures Truthy(savedTextId) && signedIn && reply.Some? ==>
                text == reply.value.content && words == Tokenize(reply.value.content)
                && currentWordIndex == reply.value.currentPosition
                && savedTextPosition == reply.value.currentPosition && isBookmarked
    {
      if !Truthy(savedTextId) || !signedIn || reply.None? {
        return;
      }
      var content := reply.value.content;
      text := content;
      words := Tokenize(content);
      currentWordIndex := reply.value.currentPosition;
      savedTextPosition := reply.value.currentPosition;
      isBookmarked := true;
    }

    /** `fetchUsageStats` answered: successful statistics replace the shown usage. */
    method ReceiveUsage(reply: Option<UsageStats>)
      requires Valid()
      modifies this`usage
      ensures Valid()
      ensures usage == if reply.Some? then reply else old(usage)
    {
      if reply.Some? {
        usage := reply;
      }
    }

    /** Dismissing the upgrade prompt. */
    method DismissUpgradePrompt()
      requires Valid()
      modifies this`showUpgradePrompt
      ensures Valid() && !showUpgradePrompt
    {
      showUpgradePrompt := false;
    }

    /** The once-a-second clock, at time `now`: while running and started, it
        shows the whole seconds elapsed and the speed so far. It first fires a
        second after it is set up, so at least a second has passed. */
    method SampleClock(now: int)
      requires Valid()
      requires !isPaused && startTime.Some? ==> now - startTime.value >= 1000
      modifies this`elapsedTime, this`wpm
      ensures Valid()
      ensures isPaused || startTime.None? ==> elapsedTime == old(elapsedTime) && wpm == old(wpm)
      ensures !isPaused && startTime.Some? ==>
                elapsedTime == (now - startTime.value) / 1000 && elapsedTime >= 1
                && wpm == WpmFor(currentWordIndex, elapsedTime)
    {
      if !isPaused && startTime.Some? {
        var elapsed := (now - startTime.value) / 1000;
        elapsedTime := elapsed;
        wpm := WpmFor(currentWordIndex, elapsed);
      }
    }

    /** `handleSaveBookmark` with the title typed in the dialog: with a user and
        a text that is not blank, asks to save the text and marks the page
        bookmarked, whatever the save's outcome. */
    method SaveBookmark(title: string)
      requires Valid()
      modifies this`bookmarkRequests, this`isBookmarked
      ensures Valid()
      ensures !signedIn || Blank(text) ==>
                bookmarkRequests == old(bookmarkRequests) && isBookmarked == old(isBookmarked)
      ensures signedIn && !Blank(text) ==>
                isBookmarked
                && bookmarkRequests == old(bookmarkRequests)
                     + [BookmarkRequest(if title != "" then Some(title) else None, text, |words|)]
    {
      if !signedIn || Blank(text) {
        return;
      }
      var request := BookmarkRequest(if title != "" then Some(title) else None, text, |words|);
      bookmarkRequests := bookmarkRequests + [request];
      isBookmarked := true;
    }

    /** `handleFinish`: with a user and a bookmark, posts the session to the
        reading-history endpoint. */
    method Finish()
      requires Valid()
      modifies this`historyEntries
      ensures Valid()
      ensures !signedIn || !isBookmarked ==> historyEntries == old(historyEntries)
      ensures signedIn && isBookmarked ==>
                historyEntries == old(historyEntries)
                  + [FinishEntry(words, currentWordIndex, wpm, elapsedTime, savedTextId)]
    {
      if !signedIn || !isBookmarked {
        return;
      }
      historyEntries := historyEntries + [FinishEntry(words, currentWordIndex, wpm, elapsedTime, savedTextId)];
    }

    /** `handleKeyDown`: Space and ArrowRight step forward, ArrowLeft steps
        back, Escape toggles the pause (its Space case is never reached). */
    method HandleKeyDown(key: string, now: int)
      requires Valid()
      modifies this`showUpgradePrompt, this`currentWordIndex, this`storedPosition, this`trackedWords,
               this`lastTrackedIndex, this`reported, this`remotePositions, this`isPaused, this`startTime
      ensures Valid()
      ensures key == " " || key == "ArrowRight" ==>
                SteppedForward() && isPaused == old(isPaused) && startTime == old(startTime)
      ensures key == "ArrowLeft" ==> SteppedBack() && isPaused == old(isPaused) && startTime == old(startTime)
      ensures key == "Escape" ==>
                isPaused == !old(isPaused)
                && startTime == (if !old(isPaused) && old(startTime).None? then Some(now) else old(startTime))
                && currentWordIndex == old(currentWordIndex) && reported == old(reported)
                && showUpgradePrompt == old(showUpgradePrompt) && storedPosition == old(storedPosition)
                && remotePositions == old(remotePositions) && trackedWords == old(trackedWords)
                && lastTrackedIndex == old(lastTrackedIndex)
      ensures key != " " && key != "ArrowRight" && key != "ArrowLeft" && key != "Escape" ==>
                isPaused == old(isPaused) && startTime == old(startTime)
                && currentWordIndex == old(currentWordIndex) && reported == old(reported)
                && showUpgradePrompt == old(showUpgradePrompt) && storedPosition == old(storedPosition)
                && remotePositions == old(remotePositions) && trackedWords == old(trackedWords)
                && lastTrackedIndex == old(lastTrackedIndex)
    {
      if key == " " || key == "ArrowRight" {
        NextWord();
      } else if key == "ArrowLeft" {
        PreviousWord();
      } else if key == " " || key == "Escape" {
        TogglePause(now);
      }
    }
  }

  /** With a user, every report is a batch of at least 10 words and the reports
      add up to the words tracked, so there are at most a tenth as many reports
      as words tracked. */
  lemma FewReports(reported: seq<int>, trackedWords: int)
    requires forall i :: 0 <= i < |reported| ==> reported[i] >= TRACK_BATCH
    requires Sum(reported) == trackedWords
    ensures TRACK_BATCH * |reported| <= trackedWords
  {
    SumBounds(reported, TRACK_BATCH, if |reported| > 0 then MaxOf(reported) else TRACK_BATCH);
  }
}
