/**
 * The typewriter of the chat view: an interval that, on every tick, advances
 * an index by one, takes that many characters of the full answer and writes
 * them into the list item whose id is the target.
 */
module Typewriter {
  import opened Text
  import opened ChatItems

  /** One running interval: the item it writes to, the answer, the ticks done so far. */
  datatype Playback = Playback(target: string, fullText: string, index: nat)

  /** A playback has written the whole answer once its index reaches the answer's length. */
  predicate Finished(p: Playback)
  {
    p.index >= |p.fullText|
  }

  /** The text one tick of `p` reveals: one character more than the ticks before it. */
  function Partial(p: Playback): (partial: string)
    ensures partial <= p.fullText
    ensures p.index < |p.fullText| ==> |partial| == p.index + 1
    ensures p.index >= |p.fullText| ==> partial == p.fullText
  {
    Prefix(p.fullText, p.index + 1)
  }

  /** The list after one tick of `p`: the target items show the revealed text. */
  function TickItems(items: seq<ChatItem>, p: Playback): seq<ChatItem>
  {
    SetAnswer(items, p.target, Partial(p))
  }

  /**
   * A tick never shortens the answer of an item that shows what the earlier
   * ticks revealed: the old answer is a prefix of the new one, which has one
   * more character until the whole answer is shown.
   */
  lemma TickGrows(items: seq<ChatItem>, p: Playback, i: nat)
    requires i < |items| && items[i].id == p.target
    requires items[i].answer == Prefix(p.fullText, p.index)
    ensures items[i].answer <= TickItems(items, p)[i].answer
    ensures |TickItems(items, p)[i].answer| == if p.index < |p.fullText| then p.index + 1 else |p.fullText|
  {
    SetAnswerAt(items, p.target, Partial(p));
  }

  /**
   * The interval run without interruption from its first tick to its last, as
   * `typeWriteAnswer` does when no other event interleaves: `answers` is the
   * sequence of texts the ticks write, each extending the one before; the last
   * is the full answer, and the final list has the full answer in the target
   * items and nothing else changed.
   */
  method PlayAnswer(items: seq<ChatItem>, target: string, fullText: string)
    returns (final: seq<ChatItem>, answers: seq<string>)
    ensures final == SetAnswer(items, target, fullText)
    ensures |answers| == if fullText == [] then 1 else |fullText|
    ensures forall k :: 0 <= k < |answers| ==> answers[k] == Prefix(fullText, k + 1)
    ensures forall k, m :: 0 <= k <= m < |answers| ==> answers[k] <= answers[m]
    ensures answers[|answers| - 1] == fullText
  {
    var index := 0;
    final, answers := items, [];
    while true
      invariant index == 0 || index < |fullText|
      invariant |answers| == index
      invariant forall k :: 0 <= k < index ==> answers[k] == Prefix(fullText, k + 1)
      invariant final == if index == 0 then items else SetAnswer(items, target, Prefix(fullText, index))
      decreases |fullText| - index
    {
      index := index + 1;
      var partial := Prefix(fullText, index);
      if index > 1 {
        SetAnswerOverwrite(items, target, Prefix(fullText, index - 1), partial);
      }
      final := SetAnswer(final, target, partial);
      answers := answers + [partial];
      if index >= |fullText| {
        assert partial == fullText;
        break;
      }
    }
    forall k, m | 0 <= k <= m < |answers| ensures answers[k] <= answers[m] {
      PrefixGrows(fullText, k + 1, m + 1);
    }
  }

  /** A longer slice of the same text extends a shorter one. */
  lemma PrefixGrows(s: string, m: nat, n: nat)
    requires m <= n
    ensures Prefix(s, m) <= Prefix(s, n)
  {
  }
}
