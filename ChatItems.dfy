/**
 * The message list of a conversation and the pure rewrites the chat view
 * applies to it: the `prev.map(item => item._id === id ? ... : item)` updates
 * (renaming a temporary id, writing an answer, attaching feedback) and the
 * merge of a history page.
 */
module ChatItems {
  import opened Wrappers

  /** A rating left on an answer. */
  datatype FeedbackData = FeedbackData(
    id: string,
    rating: int,
    comment: string,
    createdAt: string,
    updatedAt: string)

  /** One question/answer exchange. A missing `isFeedback` reads as false. */
  datatype ChatItem = ChatItem(
    id: string,
    question: string,
    answer: string,
    createdAt: string,
    feedback: Option<FeedbackData>,
    isFeedback: bool)

  /** The item an optimistic send or a pushed question appends: no answer yet. */
  function NewItem(id: string, question: string, createdAt: string): (item: ChatItem)
    ensures item.id == id && item.question == question && item.answer == ""
    ensures item.createdAt == createdAt && item.feedback.None? && !item.isFeedback
  {
    ChatItem(id, question, "", createdAt, None, false)
  }

  /** The ids of the items, in list order. */
  function Ids(items: seq<ChatItem>): (ids: seq<string>)
    ensures |ids| == |items|
    ensures forall i :: 0 <= i < |items| ==> ids[i] == items[i].id
  {
    seq(|items|, i requires 0 <= i < |items| => items[i].id)
  }

  /** No id occurs twice in the list. */
  predicate DistinctIds(items: seq<ChatItem>)
  {
    forall i, j :: 0 <= i < j < |items| ==> items[i].id != items[j].id
  }

  /**
   * `prev.map(item => item._id === id ? f(item) : item)`: the items whose id is
   * `id` are rewritten by `f`, every other item is kept, in the same order
   * (see UpdateWhereAt).
   */
  function UpdateWhere(items: seq<ChatItem>, id: string, f: ChatItem -> ChatItem): (r: seq<ChatItem>)
    ensures |r| == |items|
  {
    if items == [] then []
    else [if items[0].id == id then f(items[0]) else items[0]] + UpdateWhere(items[1..], id, f)
  }

  /** Position by position: a matching item is rewritten, any other is kept as it was. */
  lemma {:induction false} UpdateWhereAt(items: seq<ChatItem>, id: string, f: ChatItem -> ChatItem)
    ensures forall i :: 0 <= i < |items| && items[i].id != id ==> UpdateWhere(items, id, f)[i] == items[i]
    ensures forall i :: 0 <= i < |items| && items[i].id == id ==> UpdateWhere(items, id, f)[i] == f(items[i])
  {
    if items != [] {
      UpdateWhereAt(items[1..], id, f);
      var r := UpdateWhere(items, id, f);
      forall i | 1 <= i < |items| ensures r[i] == UpdateWhere(items[1..], id, f)[i - 1] {
      }
    }
  }

  /** Reconciliation: the items carrying the temporary id `from` get the server id `to`. */
  function RenameId(items: seq<ChatItem>, from: string, to: string): (r: seq<ChatItem>)
    ensures |r| == |items|
  {
    UpdateWhere(items, from, (c: ChatItem) => c.(id := to))
  }

  /**
   * Every item carrying the temporary id `from` now carries `to`; nothing else
   * about any item, and neither the length nor the order of the list, changes.
   */
  lemma RenameIdAt(items: seq<ChatItem>, from: string, to: string)
    ensures |RenameId(items, from, to)| == |items|
    ensures forall i :: 0 <= i < |items| ==>
      RenameId(items, from, to)[i].id == (if items[i].id == from then to else items[i].id)
    ensures forall i :: 0 <= i < |items| ==>
      RenameId(items, from, to)[i] == items[i].(id := RenameId(items, from, to)[i].id)
  {
    UpdateWhereAt(items, from, (c: ChatItem) => c.(id := to));
  }

  /** The items whose id is `id` get `answer` as their answer. */
  function SetAnswer(items: seq<ChatItem>, id: string, answer: string): (r: seq<ChatItem>)
    ensures |r| == |items|
  {
    UpdateWhere(items, id, (c: ChatItem) => c.(answer := answer))
  }

  /**
   * Only answers change, and only those of the items whose id is `id`: the
   * ids (so the length and the order), questions, timestamps and feedback of
   * all items stay.
   */
  lemma SetAnswerAt(items: seq<ChatItem>, id: string, answer: string)
    ensures Ids(SetAnswer(items, id, answer)) == Ids(items)
    ensures forall i :: 0 <= i < |items| ==>
      SetAnswer(items, id, answer)[i].answer == (if items[i].id == id then answer else items[i].answer)
    ensures forall i :: 0 <= i < |items| ==>
      SetAnswer(items, id, answer)[i] == items[i].(answer := SetAnswer(items, id, answer)[i].answer)
  {
    UpdateWhereAt(items, id, (c: ChatItem) => c.(answer := answer));
  }

  /**
   * The feedback record a successful create or update leaves on `ci`: an
   * update keeps the existing creation time (or uses `now` when there is
   * none); a new record is created and updated at `now`.
   */
  function FeedbackFor(ci: ChatItem, recordId: string, rating: int, comment: string,
                       isUpdate: bool, now: string): (fb: FeedbackData)
    ensures fb.id == recordId && fb.rating == rating && fb.comment == comment
    ensures fb.updatedAt == now
    ensures fb.createdAt == if isUpdate && ci.feedback.Some? then ci.feedback.value.createdAt else now
  {
    FeedbackData(recordId, rating, comment,
                 if isUpdate then OrElse(if ci.feedback.Some? then Some(ci.feedback.value.createdAt) else None, now)
                 else now,
                 now)
  }

  /** Attaches the feedback record to the items whose id is `historyId`. */
  function AttachFeedback(items: seq<ChatItem>, historyId: string, recordId: string,
                          rating: int, comment: string, isUpdate: bool, now: string): (r: seq<ChatItem>)
    ensures |r| == |items|
  {
    UpdateWhere(items, historyId,
      (ci: ChatItem) => ci.(isFeedback := true,
                            feedback := Some(FeedbackFor(ci, recordId, rating, comment, isUpdate, now))))
  }

  /**
   * The items whose id is `historyId` are marked as having feedback and carry
   * the new record; their ids, questions, answers and timestamps stay, and
   * every other item is kept.
   */
  lemma AttachFeedbackAt(items: seq<ChatItem>, historyId: string, recordId: string,
                         rating: int, comment: string, isUpdate: bool, now: string)
    ensures Ids(AttachFeedback(items, historyId, recordId, rating, comment, isUpdate, now)) == Ids(items)
    ensures forall i :: 0 <= i < |items| && items[i].id != historyId ==>
      AttachFeedback(items, historyId, recordId, rating, comment, isUpdate, now)[i] == items[i]
    ensures forall i :: 0 <= i < |items| && items[i].id == historyId ==>
      var r := AttachFeedback(items, historyId, recordId, rating, comment, isUpdate, now);
      r[i].isFeedback && r[i].feedback == Some(FeedbackFor(items[i], recordId, rating, comment, isUpdate, now)) &&
      r[i].question == items[i].question && r[i].answer == items[i].answer && r[i].createdAt == items[i].createdAt
  {
    UpdateWhereAt(items, historyId,
      (ci: ChatItem) => ci.(isFeedback := true,
                            feedback := Some(FeedbackFor(ci, recordId, rating, comment, isUpdate, now))));
  }

  /** `items.reverse()`. */
  function Reverse(items: seq<ChatItem>): (r: seq<ChatItem>)
  {
    if items == [] then [] else Reverse(items[1..]) + [items[0]]
  }

  /** The item at position `k` of the reversed list is the `k`-th from the end. */
  lemma {:induction false} ReverseAt(items: seq<ChatItem>)
    ensures |Reverse(items)| == |items|
    ensures forall k :: 0 <= k < |items| ==> Reverse(items)[k] == items[|items| - 1 - k]
  {
    if items != [] {
      ReverseAt(items[1..]);
    }
  }

  /** Reversing twice gives the list back. */
  lemma ReverseInvolution(items: seq<ChatItem>)
    ensures Reverse(Reverse(items)) == items
  {
    ReverseAt(items);
    ReverseAt(Reverse(items));
  }

  /**
   * The list after a history page arrives: the server sends a page newest
   * first; it is reversed to oldest first and replaces the list for page 1, or
   * is put in front of the current list for a later page.
   */
  function MergePage(pageNumber: int, current: seq<ChatItem>, page: seq<ChatItem>): (r: seq<ChatItem>)
    ensures |r| == |page| + (if pageNumber == 1 then 0 else |current|)
    ensures forall k :: 0 <= k < |page| ==> r[k] == page[|page| - 1 - k]
    ensures pageNumber != 1 ==> r[|page|..] == current
  {
    ReverseAt(page);
    if pageNumber == 1 then Reverse(page) else Reverse(page) + current
  }

  /**
   * Reconciliation converges: when the server id differs from the temporary
   * one, no item keeps the temporary id, and if some item had it, the server
   * id is now in the list.
   */
  lemma RenameConverges(items: seq<ChatItem>, from: string, to: string)
    requires from != to
    ensures from !in Ids(RenameId(items, from, to))
    ensures from in Ids(items) ==> to in Ids(RenameId(items, from, to))
  {
    var r := RenameId(items, from, to);
    RenameIdAt(items, from, to);
    if from in Ids(items) {
      var i :| 0 <= i < |items| && Ids(items)[i] == from;
      assert Ids(r)[i] == to;
    }
  }

  /** Renaming to an id the list does not use can be undone by renaming back. */
  lemma RenameRoundTrip(items: seq<ChatItem>, from: string, to: string)
    requires to !in Ids(items)
    ensures RenameId(RenameId(items, from, to), to, from) == items
  {
    var r := RenameId(items, from, to);
    var back := RenameId(r, to, from);
    RenameIdAt(items, from, to);
    RenameIdAt(r, to, from);
    forall i | 0 <= i < |items| ensures back[i] == items[i] {
      assert Ids(items)[i] == items[i].id;
    }
  }

  /** Renaming to an id the list does not use keeps the ids distinct. */
  lemma RenameKeepsDistinct(items: seq<ChatItem>, from: string, to: string)
    requires DistinctIds(items)
    requires to !in Ids(items)
    ensures DistinctIds(RenameId(items, from, to))
  {
    var r := RenameId(items, from, to);
    RenameIdAt(items, from, to);
    forall i, j | 0 <= i < j < |r| ensures r[i].id != r[j].id {
      assert Ids(items)[i] == items[i].id && Ids(items)[j] == items[j].id;
    }
  }

  /** Writing an answer twice to the same id leaves only the second. */
  lemma SetAnswerOverwrite(items: seq<ChatItem>, id: string, a: string, b: string)
    ensures SetAnswer(SetAnswer(items, id, a), id, b) == SetAnswer(items, id, b)
  {
    var once := SetAnswer(items, id, a);
    SetAnswerAt(items, id, a);
    SetAnswerAt(once, id, b);
    SetAnswerAt(items, id, b);
    assert Ids(once) == Ids(items);
    forall i | 0 <= i < |items|
      ensures SetAnswer(once, id, b)[i] == SetAnswer(items, id, b)[i]
    {
      assert Ids(once)[i] == Ids(items)[i];
    }
  }

  /** An update aimed at an id no item has leaves the list as it is. */
  lemma SetAnswerAbsent(items: seq<ChatItem>, id: string, answer: string)
    requires id !in Ids(items)
    ensures SetAnswer(items, id, answer) == items
  {
    var r := SetAnswer(items, id, answer);
    SetAnswerAt(items, id, answer);
    forall i | 0 <= i < |items| ensures r[i] == items[i] {
      assert Ids(items)[i] == items[i].id;
    }
  }
}
