/** The saved-texts hook (src/hooks/useSavedTexts.ts): the library list kept
    on the client, updated after each request to the saved-texts routes. */
module SavedTexts {
  import opened Js

  datatype SavedText = SavedText(
    id: string,
    userId: string,
    title: string,
    content: string,
    sourceUrl: Option<string>,
    wordCount: int,
    currentPosition: int,
    createdAt: string,
    updatedAt: string)

  /** The parsed JSON answer of a request, or what the request threw:
      `Threw(Some(m))` is an `Error` with message `m`, `Threw(None)` anything else. */
  datatype Reply<T> = Answered(success: bool, data: Option<T>, error: Option<string>) | Threw(message: Option<string>)

  /** The message the hook stores for a failed request: the server's error
      when it sent a non-empty one, else the fallback; for a throw the error's
      message. It is empty only for an empty fallback or an empty thrown message. */
  function FailureMessage<T>(reply: Reply<T>, fallback: string): (m: string)
    ensures reply.Answered? ==> m == if Truthy(reply.error) then reply.error.value else fallback
    ensures reply == Threw(None) ==> m == "An error occurred"
    ensures m == "" <==> if reply.Answered? then !Truthy(reply.error) && fallback == ""
                         else reply.message == Some("")
  {
    match reply
    case Answered(_, _, error) => if Truthy(error) then error.value else fallback
    case Threw(message) => if message.Some? then message.value else "An error occurred"
  }

  /** `prev.filter(t => t.id !== id)` */
  function WithoutId(texts: seq<SavedText>, id: string): (r: seq<SavedText>)
    ensures |r| <= |texts|
    ensures forall t :: t in r ==> t in texts && t.id != id
    ensures forall t :: t in texts && t.id != id ==> t in r
  {
    if texts == [] then []
    else if texts[0].id == id then WithoutId(texts[1..], id)
    else [texts[0]] + WithoutId(texts[1..], id)
  }

  /** `prev.map(t => t.id === id ? { ...t, current_position: position } : t)` */
  function WithPosition(texts: seq<SavedText>, id: string, position: int): (r: seq<SavedText>)
    ensures |r| == |texts|
  {
    if texts == [] then []
    else [if texts[0].id == id then texts[0].(currentPosition := position) else texts[0]]
         + WithPosition(texts[1..], id, position)
  }

  /** Filtering distributes over concatenation, so the kept entries stay in their order. */
  lemma {:induction false} WithoutIdAppend(a: seq<SavedText>, b: seq<SavedText>, id: string)
    ensures WithoutId(a + b, id) == WithoutId(a, id) + WithoutId(b, id)
  {
    if a == [] {
      assert a + b == b;
    } else {
      assert (a + b)[1..] == a[1..] + b;
      WithoutIdAppend(a[1..], b, id);
    }
  }

  /** Every entry with another id is kept as many times as it occurs; none with the id is kept. */
  lemma {:induction false} WithoutIdKeepsOthers(texts: seq<SavedText>, id: string, t: SavedText)
    ensures t.id != id ==> multiset(WithoutId(texts, id))[t] == multiset(texts)[t]
    ensures t.id == id ==> multiset(WithoutId(texts, id))[t] == 0
  {
    if texts != [] {
      WithoutIdStep(texts, id);
      WithoutIdKeepsOthers(texts[1..], id, t);
    }
  }

  /** One step of the filter, counted as multisets. */
  lemma WithoutIdStep(texts: seq<SavedText>, id: string)
    requires texts != []
    ensures multiset(texts) == multiset{texts[0]} + multiset(texts[1..])
    ensures multiset(WithoutId(texts, id))
            == (if texts[0].id == id then multiset{} else multiset{texts[0]}) + multiset(WithoutId(texts[1..], id))
  {
    var r := WithoutId(texts[1..], id);
    assert texts == [texts[0]] + texts[1..];
    if texts[0].id != id {
      assert WithoutId(texts, id) == [texts[0]] + r;
    }
  }

  /** Deleting an id that no entry has leaves the list as it was. */
  lemma {:induction false} WithoutAbsentId(texts: seq<SavedText>, id: string)
    requires forall i :: 0 <= i < |texts| ==> texts[i].id != id
    ensures WithoutId(texts, id) == texts
  {
    if texts != [] {
      WithoutAbsentId(texts[1..], id);
    }
  }

  /** A position update changes only `current_position`, and only of the entries with the id. */
  lemma {:induction false} WithPositionOnlyMoves(texts: seq<SavedText>, id: string, position: int, i: int)
    requires 0 <= i < |texts|
    ensures var r := WithPosition(texts, id, position);
            r[i].(currentPosition := texts[i].currentPosition) == texts[i]
            && (texts[i].id == id ==> r[i].currentPosition == position)
            && (texts[i].id != id ==> r[i] == texts[i])
  {
    if i > 0 {
      WithPositionOnlyMoves(texts[1..], id, position, i - 1);
    }
  }

  /** The state of `useSavedTexts` for the signed-in user `userId` (`user?.id`). */
  class SavedTextsHook {
    const userId: Option<string>
    var savedTexts: seq<SavedText>
    var loading: bool
    var error: Option<string>

    constructor (userId: Option<string>)
      ensures this.userId == userId && savedTexts == [] && !loading && error == None
    {
      this.userId := userId;
      savedTexts := [];
      loading := false;
      error := None;
    }

    /** `fetchSavedTexts`: replaces the list with the server's, or records the error;
        `loading` is set for the request and always cleared after it. */
    method FetchSavedTexts(reply: Reply<seq<SavedText>>)
      modifies this
      ensures !Truthy(userId) ==>
                savedTexts == old(savedTexts) && loading == old(loading) && error == old(error)
      ensures Truthy(userId) ==> !loading
      ensures Truthy(userId) && reply.Answered? && reply.success && reply.data.Some? ==>
                savedTexts == reply.data.value && error == None
      ensures Truthy(userId) && !(reply.Answered? && reply.success && reply.data.Some?) ==>
                savedTexts == old(savedTexts)
                && error == Some(FailureMessage(reply, "Failed to fetch saved texts"))
    {
      if !Truthy(userId) {
        return;
      }
      loading := true;
      error := None;
      if reply.Answered? && reply.success && reply.data.Some? {
        savedTexts := reply.data.value;
      } else {
        error := Some(FailureMessage(reply, "Failed to fetch saved texts"));
      }
      loading := false;
    }

    /** `saveText`: the created text goes in front of the list. */
    method SaveText(reply: Reply<SavedText>)
      modifies this`savedTexts, this`error
      ensures !Truthy(userId) ==> savedTexts == old(savedTexts) && error == old(error)
      ensures Truthy(userId) && reply.Answered? && reply.success && reply.data.Some? ==>
                savedTexts == [reply.data.value] + old(savedTexts) && error == None
      ensures Truthy(userId) && !(reply.Answered? && reply.success && reply.data.Some?) ==>
                savedTexts == old(savedTexts) && error == Some(FailureMessage(reply, "Failed to save text"))
    {
      if !Truthy(userId) {
        return;
      }
      error := None;
      if reply.Answered? && reply.success && reply.data.Some? {
        savedTexts := [reply.data.value] + savedTexts;
      } else {
        error := Some(FailureMessage(reply, "Failed to save text"));
      }
    }

    /** `deleteText`: drops the entries with the id. */
    method DeleteText(id: string, reply: Reply<()>)
      modifies this`savedTexts, this`error
      ensures !Truthy(userId) ==> savedTexts == old(savedTexts) && error == old(error)
      ensures Truthy(userId) && reply.Answered? && reply.success ==>
                savedTexts == WithoutId(old(savedTexts), id) && error == None
      ensures Truthy(userId) && !(reply.Answered? && reply.success) ==>
                savedTexts == old(savedTexts) && error == Some(FailureMessage(reply, "Failed to delete text"))
    {
      if !Truthy(userId) {
        return;
      }
      error := None;
      if reply.Answered? && reply.success {
        savedTexts := WithoutId(savedTexts, id);
      } else {
        error := Some(FailureMessage(reply, "Failed to delete text"));
      }
    }

    /** `updatePosition`: moves the entries with the id to the new position. */
    method UpdatePosition(id: string, position: int, reply: Reply<()>)
      modifies this`savedTexts, this`error
      ensures !Truthy(userId) ==> savedTexts == old(savedTexts) && error == old(error)
      ensures Truthy(userId) && reply.Answered? && reply.success ==>
                savedTexts == WithPosition(old(savedTexts), id, position) && error == None
      ensures Truthy(userId) && !(reply.Answered? && reply.success) ==>
                savedTexts == old(savedTexts)
                && error == Some(FailureMessage(reply, "Failed to update position"))
    {
      if !Truthy(userId) {
        return;
      }
      error := None;
      if reply.Answered? && reply.success {
        savedTexts := WithPosition(savedTexts, id, position);
      } else {
        error := Some(FailureMessage(reply, "Failed to update position"));
      }
    }
  }
}
