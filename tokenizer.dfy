/** The reader's word splitting: `text.split(/\s+/)` followed by a filter that
    drops empty pieces (src/app/reader/page.tsx, on restore, on loading a
    saved text, and on "Load Text"). */
module Tokenizer {
  import opened Js
  import opened Numerals

  predicate NoSpace(w: string) {
    forall i :: 0 <= i < |w| ==> !IsSpace(w[i])
  }

  /** A word as the reader displays it: not empty and free of whitespace. */
  predicate IsWord(w: string) {
    w != [] && NoSpace(w)
  }

  /** `text.split(/\s+/)`: the pieces between maximal runs of whitespace, the
      empty piece before leading and after trailing whitespace included. */
  function Split(text: string): (pieces: seq<string>)
    ensures |pieces| >= 1
    ensures forall i :: 0 <= i < |pieces| ==> NoSpace(pieces[i])
  {
    SplitFrom(text, "")
  }

  /** Splitting the rest of the text when the piece being built so far is `current`. */
  function SplitFrom(rest: string, current: string): (pieces: seq<string>)
    requires NoSpace(current)
    ensures |pieces| >= 1
    ensures forall i :: 0 <= i < |pieces| ==> NoSpace(pieces[i])
    decreases |rest|
  {
    if rest == [] then [current]
    else if IsSpace(rest[0]) then [current] + SplitFrom(TrimStart(rest), "")
    else SplitFrom(rest[1..], current + [rest[0]])
  }

  /** `.filter(w => w.length > 0)` */
  function NonEmpty(pieces: seq<string>): (words: seq<string>)
    ensures |words| <= |pieces|
    ensures forall i :: 0 <= i < |words| ==> words[i] != [] && words[i] in pieces
    ensures forall i :: 0 <= i < |pieces| && pieces[i] != [] ==> pieces[i] in words
  {
    if pieces == [] then []
    else if pieces[0] == [] then NonEmpty(pieces[1..])
    else [pieces[0]] + NonEmpty(pieces[1..])
  }

  /** `.filter(w => w.trim().length > 0)`: keeps the pieces with a non-whitespace character. */
  function Visible(pieces: seq<string>): seq<string> {
    if pieces == [] then []
    else if Blank(pieces[0]) then Visible(pieces[1..])
    else [pieces[0]] + Visible(pieces[1..])
  }

  /** The piece is whitespace only, so that `trim()` empties it. */
  predicate Blank(w: string) {
    forall i :: 0 <= i < |w| ==> IsSpace(w[i])
  }

  /** The words of a text, as the reader restores and loads them: exactly the
      maximal runs of non-whitespace characters, in the order of the text. */
  function Tokenize(text: string): (words: seq<string>)
    ensures words == Words(text)
    ensures forall i :: 0 <= i < |words| ==> IsWord(words[i])
  {
    SplitFromMatchesWords(text);
    NonEmpty(Split(text))
  }

  /** The words of a text, as the "Load Text" button computes them. Filtering
      on `trim()` keeps the same words as filtering on length, because no piece
      of the split contains whitespace. */
  function TokenizeOnLoad(text: string): (words: seq<string>)
    ensures words == Tokenize(text)
  {
    VisibleIsNonEmpty(Split(text));
    Visible(Split(text))
  }

  /** The longest prefix of `s` without whitespace. */
  function LeadingWord(s: string): (w: string)
    ensures |w| <= |s| && w == s[..|w|] && NoSpace(w)
    ensures |w| < |s| ==> IsSpace(s[|w|])
  {
    if s == [] || IsSpace(s[0]) then [] else [s[0]] + LeadingWord(s[1..])
  }

  /** Reference definition: scan the text, skip whitespace, take each maximal
      run of non-whitespace characters as a word. */
  function Words(text: string): (words: seq<string>)
    ensures forall i :: 0 <= i < |words| ==> IsWord(words[i])
    decreases |text|
  {
    if text == [] then []
    else if IsSpace(text[0]) then Words(text[1..])
    else
      var w := LeadingWord(text);
      [w] + Words(text[|w|..])
  }

  /** `words.join(" ")` */
  function Join(words: seq<string>): string {
    if words == [] then ""
    else if |words| == 1 then words[0]
    else words[0] + " " + Join(words[1..])
  }

  lemma {:induction false} NonEmptyAppend(a: seq<string>, b: seq<string>)
    ensures NonEmpty(a + b) == NonEmpty(a) + NonEmpty(b)
  {
    if a == [] {
      assert a + b == b;
    } else {
      assert (a + b)[1..] == a[1..] + b;
      NonEmptyAppend(a[1..], b);
    }
  }

  lemma {:induction false} WordsSkipsSpace(s: string)
    ensures Words(TrimStart(s)) == Words(s)
    decreases |s|
  {
    if s != [] && IsSpace(s[0]) {
      WordsSkipsSpace(s[1..]);
    }
  }

  /** Splitting from inside a word finishes that word with the leading word of
      the rest, then splits what follows the next whitespace. */
  lemma {:induction false} SplitFromWord(rest: string, current: string)
    requires NoSpace(current)
    ensures var w := LeadingWord(rest);
            var after := rest[|w|..];
            SplitFrom(rest, current)
              == if after == [] then [current + w]
                 else [current + w] + SplitFrom(TrimStart(after), "")
    decreases |rest|
  {
    var w := LeadingWord(rest);
    if rest == [] {
      assert current + w == current;
    } else if IsSpace(rest[0]) {
      assert w == [];
      assert current + w == current;
    } else {
      var c := current + [rest[0]];
      assert NoSpace(c) by {
        forall i | 0 <= i < |c| ensures !IsSpace(c[i]) {
          if i < |current| { assert c[i] == current[i]; }
        }
      }
      assert SplitFrom(rest, current) == SplitFrom(rest[1..], c);
      SplitFromWord(rest[1..], c);
      var w' := LeadingWord(rest[1..]);
      assert w == [rest[0]] + w';
      assert c + w' == current + w;
      assert rest[|w|..] == rest[1..][|w'|..];
    }
  }

  lemma {:induction false} SplitFromMatchesWords(rest: string)
    ensures NonEmpty(SplitFrom(rest, "")) == Words(rest)
    decreases |rest|
  {
    if rest == [] {
    } else if IsSpace(rest[0]) {
      var t := TrimStart(rest);
      NonEmptyAppend([""], SplitFrom(t, ""));
      SplitFromMatchesWords(t);
      WordsSkipsSpace(rest);
      WordsSkipsSpace(rest[1..]);
      assert TrimStart(rest) == TrimStart(rest[1..]);
    } else {
      SplitFromWord(rest, "");
      var w := LeadingWord(rest);
      var after := rest[|w|..];
      assert "" + w == w;
      if after == [] {
        assert Words(after) == [];
      } else {
        var t := TrimStart(after);
        NonEmptyAppend([w], SplitFrom(t, ""));
        SplitFromMatchesWords(t);
        WordsSkipsSpace(after);
      }
    }
  }

  lemma {:induction false} VisibleIsNonEmpty(pieces: seq<string>)
    requires forall i :: 0 <= i < |pieces| ==> NoSpace(pieces[i])
    ensures Visible(pieces) == NonEmpty(pieces)
  {
    if pieces != [] {
      assert NoSpace(pieces[0]);
      assert Blank(pieces[0]) <==> pieces[0] == [] by {
        if pieces[0] != [] {
          assert !IsSpace(pieces[0][0]);
        }
      }
      VisibleIsNonEmpty(pieces[1..]);
    }
  }

  lemma {:induction false} LeadingWordOfJoin(w: string, rest: string)
    requires IsWord(w)
    ensures LeadingWord(w + " " + rest) == w
    decreases |w|
  {
    if |w| > 1 {
      assert (w + " " + rest)[1..] == w[1..] + " " + rest;
      LeadingWordOfJoin(w[1..], rest);
    } else {
      assert (w + " " + rest)[1..] == " " + rest;
    }
  }

  lemma {:induction false} LeadingWordOfWord(w: string)
    requires NoSpace(w)
    ensures LeadingWord(w) == w
    decreases |w|
  {
    if w != [] {
      LeadingWordOfWord(w[1..]);
    }
  }

  /** A word followed by a space and more text scans as that word, then the words of the rest. */
  lemma WordsOfJoinStep(w: string, rest: string)
    requires IsWord(w)
    ensures Words(w + " " + rest) == [w] + Words(rest)
  {
    var s := w + " " + rest;
    LeadingWordOfJoin(w, rest);
    assert s[0] == w[0] && !IsSpace(s[0]);
    assert Words(s) == [w] + Words(s[|w|..]);
    assert s[|w|..] == " " + rest;
    assert (" " + rest)[1..] == rest;
  }

  /** Joining words with single spaces and splitting again gives the same words. */
  lemma {:induction false} WordsOfJoin(words: seq<string>)
    requires forall i :: 0 <= i < |words| ==> IsWord(words[i])
    ensures Words(Join(words)) == words
  {
    if |words| == 1 {
      var w := words[0];
      LeadingWordOfWord(w);
      assert w[|w|..] == [];
    } else if |words| > 1 {
      assert Join(words) == words[0] + " " + Join(words[1..]);
      WordsOfJoinStep(words[0], Join(words[1..]));
      WordsOfJoin(words[1..]);
      assert words == [words[0]] + words[1..];
    }
  }

  /** Re-tokenizing the text rebuilt from its tokens yields the same tokens. */
  lemma TokenizeIdempotent(text: string)
    ensures Tokenize(Join(Tokenize(text))) == Tokenize(text)
  {
    WordsOfJoin(Words(text));
  }
}
