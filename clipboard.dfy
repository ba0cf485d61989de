/**
 * The clipboard history kept by the main process: most recent first, at most
 * 20 entries, no text twice. Once a second the monitor reads the system
 * clipboard; a new, non-empty text is put at the head and, when that makes 21
 * entries, the oldest is dropped. A text already in the history is left where
 * it is.
 */
module Clipboard {

  const Capacity: nat := 20

  /** One captured clipboard text and its ISO timestamp. */
  datatype Entry = Entry(text: string, time: string)

  /** Some entry of the history holds exactly `text`. */
  predicate HasText(history: seq<Entry>, text: string) {
    exists i :: 0 <= i < |history| && history[i].text == text
  }

  /** No text occurs twice. */
  ghost predicate Distinct(history: seq<Entry>) {
    forall i, j :: 0 <= i < j < |history| ==> history[i].text != history[j].text
  }

  /** The invariant the monitor keeps: bounded, distinct, no empty text. */
  ghost predicate WellFormed(history: seq<Entry>) {
    && |history| <= Capacity
    && Distinct(history)
    && forall i :: 0 <= i < |history| ==> history[i].text != ""
  }

  /** The history after one poll that read `text` at `time`. */
  function Captured(history: seq<Entry>, text: string, time: string): (r: seq<Entry>)
    ensures text == "" || HasText(history, text) ==> r == history
    ensures text != "" && !HasText(history, text) ==>
      && |r| == (if |history| >= Capacity then |history| else |history| + 1)
      && r[0] == Entry(text, time)
      && r[1..] == history[..|r| - 1]
  {
    if text == "" || HasText(history, text) then history
    else
      var pushed := [Entry(text, time)] + history;
      if |pushed| > Capacity then pushed[..|pushed| - 1] else pushed
  }

  /** A poll keeps the history well formed: at most 20 entries, pairwise distinct, none empty. */
  lemma CapturedWellFormed(history: seq<Entry>, text: string, time: string)
    requires WellFormed(history)
    ensures WellFormed(Captured(history, text, time))
  {
    var r := Captured(history, text, time);
    if text != "" && !HasText(history, text) {
      forall i, j | 0 <= i < j < |r| ensures r[i].text != r[j].text {
        if i == 0 {
          assert r[j] == history[j - 1];
        } else {
          assert r[i] == history[i - 1] && r[j] == history[j - 1];
        }
      }
      forall i | 0 <= i < |r| ensures r[i].text != "" {
        if i > 0 { assert r[i] == history[i - 1]; }
      }
    }
  }

  /** After a poll that read a non-empty text, that text is in the history, and at the head iff it was new. */
  lemma CapturedContainsText(history: seq<Entry>, text: string, time: string)
    requires text != ""
    ensures HasText(Captured(history, text, time), text)
    ensures Captured(history, text, time)[0].text == text <==> !HasText(history, text) || history[0].text == text
  {
    var r := Captured(history, text, time);
    if !HasText(history, text) {
      assert r[0].text == text;
    } else {
      var i :| 0 <= i < |history| && history[i].text == text;
      assert r[i].text == text;
    }
  }

  /** Polls that read the same text twice in a row change the history at most once. */
  lemma CapturedIdempotent(history: seq<Entry>, text: string, t1: string, t2: string)
    ensures Captured(Captured(history, text, t1), text, t2) == Captured(history, text, t1)
  {
    if text != "" {
      CapturedContainsText(history, text, t1);
    }
  }

  /** The history as a mutable object of the main process (the source's module variable `clipboardHistory`). */
  class ClipboardHistory {
    var entries: seq<Entry>

    ghost predicate Valid()
      reads this
    {
      WellFormed(entries)
    }

    constructor ()
      ensures Valid() && entries == []
    {
      entries := [];
    }

    /** `clipboardHistory.some(item => item.text === text)`. */
    method Includes(text: string) returns (found: bool)
      ensures found <==> HasText(entries, text)
    {
      found := false;
      var i := 0;
      while i < |entries|
        invariant 0 <= i <= |entries|
        invariant found <==> exists k :: 0 <= k < i && entries[k].text == text
      {
        if entries[i].text == text {
          found := true;
        }
        i := i + 1;
      }
    }

    /** One tick of the clipboard monitor: the system clipboard held `text` at `time`. */
    method Poll(text: string, time: string)
      requires Valid()
      modifies this
      ensures Valid()
      ensures entries == Captured(old(entries), text, time)
    {
      CapturedWellFormed(entries, text, time);
      if text != "" {
        var present := Includes(text);
        if !present {
          entries := [Entry(text, time)] + entries;
          if |entries| > Capacity {
            entries := entries[..|entries| - 1];
          }
        }
      }
    }
  }
}
