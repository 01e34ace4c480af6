/** The landing page (src/app/page.tsx): the RSVP demo player, driven by an
    interval timer and three buttons, and the FAQ accordion. */
module Landing {
  import opened Js

  /** How far the skip buttons move. */
  const SKIP: int := 10

  /** The index after a timer tick while playing: the next word, or back to the
      first word after the last one. */
  function TickedIndex(prev: int, count: int): (r: int)
    requires 0 <= prev < count
    ensures 0 <= r < count
    ensures r == 0 <==> prev == count - 1
    ensures prev < count - 1 ==> r == prev + 1
  {
    if prev >= count - 1 then 0 else prev + 1
  }

  /** `Math.min(prev + 10, words.length - 1)` */
  function SkippedForward(prev: int, count: int): (r: int)
    requires 0 <= prev < count
    ensures prev <= r < count
    ensures r - prev <= SKIP
    ensures r == prev + SKIP || r == count - 1
  {
    if prev + SKIP <= count - 1 then prev + SKIP else count - 1
  }

  /** `Math.max(prev - 10, 0)` */
  function SkippedBack(prev: int): (r: int)
    requires 0 <= prev
    ensures 0 <= r <= prev
    ensures prev - r <= SKIP
    ensures r == prev - SKIP || r == 0
  {
    if prev - SKIP >= 0 then prev - SKIP else 0
  }

  /** Skipping back undoes skipping forward when the forward skip was not cut at the last word. */
  lemma SkipBackUndoesSkipForward(prev: int, count: int)
    requires 0 <= prev && prev + SKIP < count
    ensures SkippedBack(SkippedForward(prev, count)) == prev
  {
  }

  /** The demo player. `words` is the sample text split on single spaces, so it
      has at least one element. */
  class DemoPlayer {
    const words: seq<string>
    var isPlaying: bool
    var speed: int
    var currentWordIndex: int

    /** The shown word is always a word of the sample. */
    ghost predicate Valid()
      reads this
    {
      |words| >= 1 && 0 <= currentWordIndex <= |words| - 1
    }

    constructor (words: seq<string>)
      requires |words| >= 1
      ensures Valid() && this.words == words
      ensures !isPlaying && speed == 300 && currentWordIndex == 0
    {
      this.words := words;
      isPlaying := false;
      speed := 300;
      currentWordIndex := 0;
    }

    /** The interval callback. It runs only while playing; after the last word
        it stops playing and goes back to the first. */
    method Tick()
      requires Valid()
      modifies this
      ensures Valid() && speed == old(speed)
      ensures !old(isPlaying) ==> isPlaying == old(isPlaying) && currentWordIndex == old(currentWordIndex)
      ensures old(isPlaying) && old(currentWordIndex) < |words| - 1 ==>
                isPlaying && currentWordIndex == old(currentWordIndex) + 1
      ensures old(isPlaying) && old(currentWordIndex) == |words| - 1 ==>
                !isPlaying && currentWordIndex == 0
      ensures currentWordIndex == if old(isPlaying) then TickedIndex(old(currentWordIndex), |words|)
                                  else old(currentWordIndex)
    {
      if !isPlaying {
        return;
      }
      if currentWordIndex >= |words| - 1 {
        isPlaying := false;
        currentWordIndex := 0;
      } else {
        currentWordIndex := currentWordIndex + 1;
      }
    }

    /** The play/pause button: flips `isPlaying`, and starting at the last word restarts from the first. */
    method TogglePlay()
      requires Valid()
      modifies this
      ensures Valid() && speed == old(speed)
      ensures isPlaying == !old(isPlaying)
      ensures !old(isPlaying) && old(currentWordIndex) >= |words| - 1 ==> currentWordIndex == 0
      ensures old(isPlaying) || old(currentWordIndex) < |words| - 1 ==>
                currentWordIndex == old(currentWordIndex)
    {
      var wasPlaying := isPlaying;
      isPlaying := !isPlaying;
      if !wasPlaying && currentWordIndex >= |words| - 1 {
        currentWordIndex := 0;
      }
    }

    method SkipForward()
      requires Valid()
      modifies this`currentWordIndex
      ensures Valid()
      ensures currentWordIndex == SkippedForward(old(currentWordIndex), |words|)
    {
      currentWordIndex := if currentWordIndex + SKIP < |words| - 1 then currentWordIndex + SKIP
                          else |words| - 1;
    }

    method SkipBack()
      requires Valid()
      modifies this`currentWordIndex
      ensures Valid()
      ensures currentWordIndex == SkippedBack(old(currentWordIndex))
    {
      currentWordIndex := if currentWordIndex - SKIP > 0 then currentWordIndex - SKIP else 0;
    }

    /** The speed slider: 100 to 600 words per minute in steps of 50. */
    method SetSpeed(wpm: int)
      requires Valid()
      requires 100 <= wpm <= 600 && wpm % 50 == 0
      modifies this`speed
      ensures Valid() && speed == wpm
    {
      speed := wpm;
    }
  }

  /** One FAQ list: at most one answer is open. */
  class FaqSection {
    const questionCount: nat
    var openIndex: Option<nat>

    ghost predicate Valid()
      reads this
    {
      openIndex.Some? ==> openIndex.value < questionCount
    }

    predicate IsOpen(idx: nat)
      reads this
    {
      openIndex == Some(idx)
    }

    constructor (questionCount: nat)
      ensures Valid() && this.questionCount == questionCount
      ensures forall i: nat :: !IsOpen(i)
    {
      this.questionCount := questionCount;
      openIndex := None;
    }

    /** Clicking a question closes it when it is open and otherwise opens it
        and closes every other one. */
    method Toggle(idx: nat)
      requires Valid() && idx < questionCount
      modifies this
      ensures Valid()
      ensures IsOpen(idx) <==> !old(IsOpen(idx))
      ensures forall j: nat :: j != idx ==> !IsOpen(j)
    {
      openIndex := if openIndex == Some(idx) then None else Some(idx);
    }
  }
}
