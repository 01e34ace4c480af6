/** The reading-history table and its aggregate statistics
    (src/lib/reading-history.ts). */
module ReadingHistory {
  import opened Js
  import opened Numerals

  /** A row of `reading_history`, in insertion order. */
  datatype HistoryRow = HistoryRow(
    userId: string,
    savedTextId: Option<string>,
    title: string,
    wordsRead: int,
    wpm: Option<int>,
    durationSeconds: Option<int>)

  /** The argument of `addHistoryEntry`. */
  datatype AddHistoryInput = AddHistoryInput(
    savedTextId: Option<string>,
    title: string,
    wordsRead: int,
    wpm: Option<int>,
    durationSeconds: Option<int>)

  datatype ReadingStats = ReadingStats(
    totalSessions: int,
    totalWordsRead: int,
    avgWpm: int,
    totalDurationSeconds: int)

  /** The row `addHistoryEntry` inserts: falsy `saved_text_id`, `wpm` and
      `duration_seconds` are stored as null. */
  function NormalizedRow(user: string, input: AddHistoryInput): (row: HistoryRow)
    ensures row.wpm != Some(0) && row.durationSeconds != Some(0) && row.savedTextId != Some("")
    ensures row.userId == user && row.title == input.title && row.wordsRead == input.wordsRead
    ensures row.wpm.None? <==> input.wpm.None? || input.wpm == Some(0)
    ensures row.durationSeconds.None? <==> input.durationSeconds.None? || input.durationSeconds == Some(0)
    ensures row.savedTextId.None? <==> !Truthy(input.savedTextId)
    ensures input.wpm != Some(0) ==> row.wpm == input.wpm
    ensures input.durationSeconds != Some(0) ==> row.durationSeconds == input.durationSeconds
    ensures Truthy(input.savedTextId) ==> row.savedTextId == input.savedTextId
  {
    HistoryRow(user, StringOrNull(input.savedTextId), input.title, input.wordsRead,
               NumberOrNull(input.wpm), NumberOrNull(input.durationSeconds))
  }

  /** The rows of one user, in table order. */
  function RowsOf(rows: seq<HistoryRow>, user: string): (r: seq<HistoryRow>)
    ensures |r| <= |rows|
    ensures forall i :: 0 <= i < |r| ==> r[i].userId == user && r[i] in rows
  {
    if rows == [] then []
    else if rows[0].userId == user then [rows[0]] + RowsOf(rows[1..], user)
    else RowsOf(rows[1..], user)
  }

  function Reverse<T>(s: seq<T>): (r: seq<T>)
    ensures |r| == |s|
    ensures forall i :: 0 <= i < |s| ==> r[i] == s[|s| - 1 - i]
  {
    if s == [] then [] else Reverse(s[1..]) + [s[0]]
  }

  /** `getReadingHistory(user, limit)`: the user's rows, newest first, at most `limit` of them.
      The table only grows by appending, so ordering by `created_at` descending
      is the reverse of insertion order: the listing is the user's last `limit`
      rows, latest first. */
  function Recent(rows: seq<HistoryRow>, user: string, limit: nat): (r: seq<HistoryRow>)
    ensures |r| == if |RowsOf(rows, user)| <= limit then |RowsOf(rows, user)| else limit
    ensures forall i :: 0 <= i < |r| ==> r[i].userId == user && r[i] in rows
    ensures forall i :: 0 <= i < |r| ==> r[i] == RowsOf(rows, user)[|RowsOf(rows, user)| - 1 - i]
  {
    var mine := Reverse(RowsOf(rows, user));
    if |mine| <= limit then mine else mine[..limit]
  }

  /** `sum + r.words_read` over the records. */
  function TotalWords(records: seq<HistoryRow>): (t: int)
    ensures (forall i :: 0 <= i < |records| ==> records[i].wordsRead >= 0) ==> t >= 0
  {
    if records == [] then 0 else records[0].wordsRead + TotalWords(records[1..])
  }

  /** `sum + (r.duration_seconds || 0)` over the records. */
  function TotalDuration(records: seq<HistoryRow>): (t: int)
    ensures (forall i :: 0 <= i < |records| && records[i].durationSeconds.Some? ==>
               records[i].durationSeconds.value >= 0) ==> t >= 0
  {
    if records == [] then 0
    else (if records[0].durationSeconds.Some? then records[0].durationSeconds.value else 0)
         + TotalDuration(records[1..])
  }

  /** A record whose speed enters the average: wpm not null and above 0. */
  predicate Counted(r: HistoryRow) {
    r.wpm.Some? && r.wpm.value > 0
  }

  /** The wpm values of the counted records, in order. */
  function CountedWpms(records: seq<HistoryRow>): (ws: seq<int>)
    ensures |ws| <= |records|
    ensures forall i :: 0 <= i < |ws| ==> ws[i] > 0
    ensures |ws| == 0 <==> forall i :: 0 <= i < |records| ==> !Counted(records[i])
  {
    if records == [] then []
    else if Counted(records[0]) then [records[0].wpm.value] + CountedWpms(records[1..])
    else CountedWpms(records[1..])
  }

  /** The values averaged over two batches of records are those of the first
      batch followed by those of the second. */
  lemma {:induction false} CountedWpmsAppend(a: seq<HistoryRow>, b: seq<HistoryRow>)
    ensures CountedWpms(a + b) == CountedWpms(a) + CountedWpms(b)
  {
    if a == [] {
      assert a + b == b;
    } else {
      assert (a + b)[1..] == a[1..] + b;
      CountedWpmsAppend(a[1..], b);
    }
  }

  /** One record contributes its wpm exactly when it is counted. */
  lemma CountedWpmsOfOne(r: HistoryRow)
    ensures CountedWpms([r]) == if Counted(r) then [r.wpm.value] else []
  {
    assert [r][1..] == [];
  }

  function Sum(xs: seq<int>): int {
    if xs == [] then 0 else xs[0] + Sum(xs[1..])
  }

  /** `Math.round(total / count)`: the quotient rounded half up. It is a
      nearest integer to the quotient: off by at most one half, and a tie
      rounds up. */
  function RoundedMean(total: int, count: int): (q: int)
    requires count > 0
    ensures 2 * total - count < 2 * count * q <= 2 * total + count
  {
    var d, x := 2 * count, 2 * total + count;
    assert x == (x / d) * d + x % d && 0 <= x % d < d;
    assert 2 * count * (x / d) == (x / d) * d;
    x / d
  }

  /** `getUserStats` over the records it fetched. The average speed is 0
      exactly when no record has a positive wpm, and otherwise lies between 1
      and the largest counted wpm. */
  function UserStats(records: seq<HistoryRow>): (s: ReadingStats)
    ensures s.totalSessions == |records|
    ensures s.totalWordsRead == TotalWords(records) && s.totalDurationSeconds == TotalDuration(records)
    ensures s.avgWpm == 0 <==> forall i :: 0 <= i < |records| ==> !Counted(records[i])
    ensures |CountedWpms(records)| > 0 ==> 1 <= s.avgWpm <= MaxOf(CountedWpms(records))
    ensures var ws := CountedWpms(records);
            |ws| > 0 ==> 2 * Sum(ws) - |ws| < 2 * |ws| * s.avgWpm <= 2 * Sum(ws) + |ws|
  {
    var ws := CountedWpms(records);
    var avg :=
      if |ws| > 0 then
        (SumBounds(ws, 1, MaxOf(ws));
         RoundedMeanBounds(Sum(ws), |ws|, 1, MaxOf(ws));
         RoundedMean(Sum(ws), |ws|))
      else 0;
    ReadingStats(|records|, TotalWords(records), avg, TotalDuration(records))
  }

  lemma {:induction false} SumBounds(xs: seq<int>, lo: int, hi: int)
    requires forall i :: 0 <= i < |xs| ==> lo <= xs[i] <= hi
    ensures lo * |xs| <= Sum(xs) <= hi * |xs|
  {
    if xs != [] {
      SumBounds(xs[1..], lo, hi);
      assert lo * |xs| == lo + lo * |xs[1..]|;
      assert hi * |xs| == hi + hi * |xs[1..]|;
    }
  }

  /** `Math.round(total / count)` is positive exactly when the quotient is at least one half. */
  lemma RoundedMeanPositive(total: int, count: int)
    requires count > 0
    ensures RoundedMean(total, count) > 0 <==> 2 * total >= count
  {
    var q := RoundedMean(total, count);
    if 2 * total < count {
      MulCancelLess(q, 1, 2 * count);
    } else {
      MulCancelLess(0, q, 2 * count);
    }
  }

  lemma {:induction false} SumAppend(xs: seq<int>, x: int)
    ensures Sum(xs + [x]) == Sum(xs) + x
  {
    if xs == [] {
      assert [] + [x] == [x];
    } else {
      assert (xs + [x])[1..] == xs[1..] + [x];
      SumAppend(xs[1..], x);
    }
  }

  /** A quotient by a positive divisor is bounded by the bounds of the dividend. */
  lemma DivBetween(x: int, d: int, lo: int, hi: int)
    requires d > 0 && lo * d <= x < (hi + 1) * d
    ensures lo <= x / d <= hi
  {
    var q, m := x / d, x % d;
    assert x == q * d + m && 0 <= m < d;
    assert (q + 1) * d == q * d + d;
    MulCancelLess(lo, q + 1, d);
    MulCancelLess(q, hi + 1, d);
  }

  lemma RoundedMeanBounds(total: int, count: int, lo: int, hi: int)
    requires count > 0
    requires lo * count <= total <= hi * count
    ensures lo <= RoundedMean(total, count) <= hi
  {
    var d := 2 * count;
    var x := 2 * total + count;
    assert lo * d == 2 * (lo * count);
    assert (hi + 1) * d == 2 * (hi * count) + d;
    DivBetween(x, d, lo, hi);
  }

  /** The average wpm lies between the smallest and the largest counted wpm. */
  lemma AvgWpmWithinCounted(records: seq<HistoryRow>, lo: int, hi: int)
    requires var ws := CountedWpms(records); |ws| > 0 && forall i :: 0 <= i < |ws| ==> lo <= ws[i] <= hi
    ensures lo <= UserStats(records).avgWpm <= hi
  {
    var ws := CountedWpms(records);
    SumBounds(ws, lo, hi);
    RoundedMeanBounds(Sum(ws), |ws|, lo, hi);
  }

  function MaxOf(xs: seq<int>): (m: int)
    requires |xs| > 0
    ensures forall i :: 0 <= i < |xs| ==> xs[i] <= m
    ensures m in xs
  {
    if |xs| == 1 then xs[0] else var t := MaxOf(xs[1..]); if xs[0] >= t then xs[0] else t
  }

  lemma {:induction false} TotalWordsAppend(records: seq<HistoryRow>, r: HistoryRow)
    ensures TotalWords(records + [r]) == TotalWords(records) + r.wordsRead
    ensures TotalDuration(records + [r])
              == TotalDuration(records) + (if r.durationSeconds.Some? then r.durationSeconds.value else 0)
  {
    if records != [] {
      assert (records + [r])[1..] == records[1..] + [r];
      TotalWordsAppend(records[1..], r);
    } else {
      assert [] + [r] == [r];
    }
  }

  lemma {:induction false} RowsOfAppend(rows: seq<HistoryRow>, r: HistoryRow, user: string)
    ensures RowsOf(rows + [r], user) == RowsOf(rows, user) + (if r.userId == user then [r] else [])
  {
    if rows == [] {
      assert [] + [r] == [r];
      assert [r][1..] == [];
    } else {
      assert (rows + [r])[1..] == rows[1..] + [r];
      RowsOfAppend(rows[1..], r, user);
    }
  }

  /** Appending one of the user's rows adds one session, its words and its
      duration to the user's statistics. */
  lemma StatsAfterAppend(rows: seq<HistoryRow>, r: HistoryRow)
    ensures var before := UserStats(RowsOf(rows, r.userId));
            var after := UserStats(RowsOf(rows + [r], r.userId));
            after.totalSessions == before.totalSessions + 1
            && after.totalWordsRead == before.totalWordsRead + r.wordsRead
            && after.totalDurationSeconds == before.totalDurationSeconds
                 + (if r.durationSeconds.Some? then r.durationSeconds.value else 0)
  {
    RowsOfAppend(rows, r, r.userId);
    TotalWordsAppend(RowsOf(rows, r.userId), r);
  }

  /** After the user adds a row, the history listing shows it first. */
  lemma RecentIsNewestFirst(rows: seq<HistoryRow>, r: HistoryRow, limit: nat)
    requires limit > 0
    ensures |Recent(rows + [r], r.userId, limit)| > 0 && Recent(rows + [r], r.userId, limit)[0] == r
  {
    RowsOfAppend(rows, r, r.userId);
    assert |RowsOf(rows + [r], r.userId)| > 0;
  }

  /** The TypeError thrown by `supabase.from(...)` when no database is
      configured and the client is `null` (V8's wording). */
  const NULL_CLIENT_MESSAGE: string := "Cannot read properties of null (reading 'from')"

  /** The `reading_history` table. `configured` is false when the database
      client could not be created; the functions of reading-history.ts do not
      check it, so every call then throws a TypeError. */
  class HistoryTable {
    const configured: bool
    var rows: seq<HistoryRow>

    constructor (configured: bool, rows: seq<HistoryRow>)
      ensures this.configured == configured && this.rows == rows
    {
      this.configured := configured;
      this.rows := rows;
    }

    /** `addHistoryEntry`: inserts the normalised row, or throws the store's error. */
    method AddHistoryEntry(user: string, input: AddHistoryInput, insertError: Option<string>)
      returns (r: Result<HistoryRow>)
      modifies this
      ensures !configured ==> r == Err(NULL_CLIENT_MESSAGE) && rows == old(rows)
      ensures configured && insertError.Some? ==>
                r == Err("Failed to add history entry: " + insertError.value) && rows == old(rows)
      ensures configured && insertError.None? ==>
                r == Ok(NormalizedRow(user, input)) && rows == old(rows) + [NormalizedRow(user, input)]
    {
      if !configured {
        return Err(NULL_CLIENT_MESSAGE);
      }
      if insertError.Some? {
        return Err("Failed to add history entry: " + insertError.value);
      }
      var row := NormalizedRow(user, input);
      rows := rows + [row];
      r := Ok(row);
    }

    /** `getReadingHistory`: the user's newest rows, at most `limit`. */
    method GetReadingHistory(user: string, limit: nat, fetchError: Option<string>)
      returns (r: Result<seq<HistoryRow>>)
      ensures !configured ==> r == Err(NULL_CLIENT_MESSAGE)
      ensures configured && fetchError.Some? ==> r == Err("Failed to fetch reading history: " + fetchError.value)
      ensures configured && fetchError.None? ==> r.Ok? && |r.value| <= limit
      ensures configured && fetchError.None? ==> r.value == Recent(rows, user, limit)
    {
      if !configured {
        return Err(NULL_CLIENT_MESSAGE);
      }
      if fetchError.Some? {
        return Err("Failed to fetch reading history: " + fetchError.value);
      }
      r := Ok(Recent(rows, user, limit));
    }

    /** `getUserStats`: the aggregate statistics of the user's rows. */
    method GetUserStats(user: string, fetchError: Option<string>) returns (r: Result<ReadingStats>)
      ensures !configured ==> r == Err(NULL_CLIENT_MESSAGE)
      ensures configured && fetchError.Some? ==> r == Err("Failed to fetch user stats: " + fetchError.value)
      ensures configured && fetchError.None? ==> r.Ok? && r.value.totalSessions == |RowsOf(rows, user)|
      ensures configured && fetchError.None? ==> r.value == UserStats(RowsOf(rows, user))
    {
      if !configured {
        return Err(NULL_CLIENT_MESSAGE);
      }
      if fetchError.Some? {
        return Err("Failed to fetch user stats: " + fetchError.value);
      }
      r := Ok(UserStats(RowsOf(rows, user)));
    }
  }
}
