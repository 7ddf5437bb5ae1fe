/** The typewriter hooks (src/hooks/useTypewriter.ts): a text revealed one character per timer
    tick, and a queue of texts typed one after another.

    Timers are explicit events: the start delay firing is `StartFires`, the per-character
    timeout firing (followed by the effects it triggers) is `Tick`. The `speed` and `delay`
    durations only decide when those events happen and are not modelled. */
module TypewriterHook {
  import opened Types
  import opened Seqs

  /** The hook's state slots: `displayedText`, `currentIndex`, `isTyping`, `isComplete`, and
      whether the start-delay timeout is pending. */
  datatype Writer = Writer(text: string, displayed: string, index: nat, typing: bool,
                           complete: bool, startPending: bool)

  /** The shown text is always the first `index` characters; completion means everything is
      shown and typing has stopped; typing and a pending start exclude each other. */
  predicate WriterValid(w: Writer)
  {
    && w.index <= |w.text| && w.displayed == w.text[..w.index]
    && (w.complete ==> w.index == |w.text| && !w.typing)
    && (w.typing ==> w.index < |w.text| && !w.startPending)
    && (w.startPending ==> !w.typing && !w.complete && w.index == 0 && |w.text| > 0)
  }

  /** The reset for a new text (src/hooks/useTypewriter.ts:37-47), also what `reset()`
      (src/hooks/useTypewriter.ts:78-92) is meant to do: nothing shown, not typing, not
      complete, and the start scheduled only for a non-empty text. */
  function Loaded(t: string): (r: Writer)
    ensures WriterValid(r)
    ensures r.text == t && r.displayed == "" && r.index == 0 && !r.typing && !r.complete
    ensures r.startPending <==> t != ""
  {
    Writer(t, "", 0, false, false, t != "")
  }

  /** The start delay elapses (src/hooks/useTypewriter.ts:44-46). */
  function Started(w: Writer): (r: Writer)
    requires WriterValid(w)
    ensures WriterValid(r) && r.text == w.text && r.displayed == w.displayed && r.index == w.index
    ensures w.startPending ==> r.typing && !r.startPending
    ensures !w.startPending ==> r == w
  {
    if w.startPending then w.(typing := true, startPending := false) else w
  }

  /** A typing timeout fires and the typing effect re-runs (src/hooks/useTypewriter.ts:57-76):
      one more character is shown, and reaching the end stops typing and completes. Without
      typing in progress nothing happens. */
  function Ticked(w: Writer): (r: Writer)
    requires WriterValid(w)
    ensures WriterValid(r) && r.text == w.text
    ensures w.typing && !w.complete ==>
      && r.index == w.index + 1 && r.displayed == w.displayed + [w.text[w.index]]
      && (r.complete <==> r.index == |w.text|) && (r.typing <==> !r.complete)
    ensures !(w.typing && !w.complete) ==> r == w
  {
    if !w.typing || w.complete then w
    else
      var next := w.(displayed := w.displayed + [w.text[w.index]], index := w.index + 1);
      assert next.displayed == w.text[..next.index];
      if next.index == |w.text| then next.(typing := false, complete := true) else next
  }

  /** `skip()` (src/hooks/useTypewriter.ts:94-103): everything shown at once. */
  function Skipped(w: Writer): (r: Writer)
    ensures WriterValid(r)
    ensures r.text == w.text && r.displayed == w.text && r.index == |w.text|
    ensures r.complete && !r.typing && !r.startPending
  {
    Writer(w.text, w.text, |w.text|, false, true, false)
  }

  /** The writer after `n` ticks. */
  function TickN(w: Writer, n: nat): (r: Writer)
    requires WriterValid(w)
    ensures WriterValid(r) && r.text == w.text
  {
    if n == 0 then w else Ticked(TickN(w, n - 1))
  }

  /** Once the start delay has elapsed, `n` ticks show the first `n` characters, and typing
      completes exactly at the tick that shows the last one. */
  lemma {:induction false} TypingRun(t: string, n: nat)
    requires t != ""
    ensures var r := TickN(Started(Loaded(t)), n);
      && r.index == Min(n, |t|) && r.displayed == t[..Min(n, |t|)]
      && (r.complete <==> n >= |t|) && (r.typing <==> n < |t|)
  {
    if n > 0 {
      TypingRun(t, n - 1);
      var prev := TickN(Started(Loaded(t)), n - 1);
      assert TickN(Started(Loaded(t)), n) == Ticked(prev);
      if n - 1 < |t| {
        assert prev.typing && !prev.complete;
        assert t[..n - 1] + [t[n - 1]] == t[..n];
      } else {
        assert prev.complete;
      }
    }
  }

  /** A completed writer stays as it is under ticks and start timeouts. */
  lemma CompleteIsFinal(w: Writer, n: nat)
    requires WriterValid(w) && w.complete
    ensures TickN(w, n) == w && Started(w) == w
  {
    if n > 0 {
      CompleteIsFinal(w, n - 1);
    }
  }

  /** A writer that is neither typing nor waiting for its start timeout never moves again under
      ticks and start timeouts, complete or not. */
  lemma {:induction false} StalledIsFinal(w: Writer, n: nat)
    requires WriterValid(w) && !w.typing && !w.startPending
    ensures TickN(w, n) == w && Started(w) == w
  {
    if n > 0 {
      StalledIsFinal(w, n - 1);
    }
  }

  /** `reset()` as written (src/hooks/useTypewriter.ts:78-92, with the typing effect's cleanup
      at lines 60-70). The new start timeout is stored in `timeoutRef`, but when the call
      interrupts typing, the state change re-runs the typing effect, whose previous run left a
      cleanup that clears whatever `timeoutRef` holds: the start timeout just scheduled. */
  function ResetAsWritten(w: Writer): (r: Writer)
    requires WriterValid(w)
    ensures WriterValid(r)
    ensures r.text == w.text && r.displayed == "" && r.index == 0 && !r.typing && !r.complete
    ensures r.startPending <==> !w.typing && w.text != ""
  {
    if w.typing then Writer(w.text, "", 0, false, false, false) else Loaded(w.text)
  }

  /** Resetting a writer in the middle of typing, as written, leaves it blank and stalled: no
      start timeout and no tick ever moves it again, however many fire. The corrected reset,
      `Loaded`, types the whole text again (`TypingRun`). */
  lemma AsWrittenResetWhileTypingStalls(w: Writer, n: nat)
    requires WriterValid(w) && w.typing
    ensures var r := ResetAsWritten(w);
      && r.displayed == "" && !r.complete && w.text != ""
      && TickN(Started(r), n) == r
  {
    StalledIsFinal(ResetAsWritten(w), n);
  }

  /** A writer typing "abc" after one tick: such interrupted states exist. */
  lemma TypingStateExists()
    ensures var w := Ticked(Started(Loaded("abc")));
      WriterValid(w) && w.typing && w.displayed == "a"
  {
    TypingRun("abc", 1);
    assert TickN(Started(Loaded("abc")), 1) == Ticked(Started(Loaded("abc")));
  }

  /** A change of the `text` prop as written (src/hooks/useTypewriter.ts:37-76), with whether
      `onComplete` fires. In the commit of the new text, the reset effect schedules the blank
      state, but the typing effect still reads that render's `isTyping` and `currentIndex`
      against the NEW text. When typing was under way and the old index is already past the new
      text's end, it takes the completion branch (lines 71-75): the writer ends complete with
      nothing shown, `onComplete` fires, and the start timeout stays scheduled. Otherwise the
      stale tick it schedules is cleared on the next render and the writer is reset. */
  function TextChangedAsWritten(w: Writer, t: string): (r: (Writer, bool))
    requires WriterValid(w)
    ensures t == w.text ==> r == (w, false)
    ensures t != w.text ==>
      && r.0.text == t && r.0.displayed == "" && r.0.index == 0 && !r.0.typing
      && (r.0.startPending <==> t != "")
      && (r.0.complete <==> w.typing && |t| <= w.index)
      && (r.1 <==> r.0.complete)
  {
    if t == w.text then (w, false)
    else if w.typing && |t| <= w.index then (Writer(t, "", 0, false, true, t != ""), true)
    else (Loaded(t), false)
  }

  /** "hello" typed up to "hel", then the text becomes "hi": as written, the writer reports
      completion and fires `onComplete` while showing nothing, with "hi" never typed. The
      corrected text change, `Loaded("hi")`, types "hi" (`TypingRun`). */
  lemma AsWrittenShorterTextCompletesEmpty()
    ensures var w := TickN(Started(Loaded("hello")), 3);
      var r := TextChangedAsWritten(w, "hi");
      && w.typing && w.displayed == "hel"
      && r.1 && r.0.complete && r.0.displayed == "" && !WriterValid(r.0)
  {
    TypingRun("hello", 3);
  }

  /** Clearing the text while typing, as written, completes the writer and fires `onComplete`. */
  lemma AsWrittenClearWhileTypingCompletes(w: Writer)
    requires WriterValid(w) && w.typing
    ensures TextChangedAsWritten(w, "") == (Writer("", "", 0, false, true, false), true)
  {
  }

  /** `useTypewriter` (src/hooks/useTypewriter.ts:17-112); `completions` counts the calls of
      `onComplete`. */
  class Typewriter {
    var text: string
    var displayedText: string
    var currentIndex: nat
    var isTyping: bool
    var isComplete: bool
    var startPending: bool
    var completions: nat

    function State(): Writer
      reads this
    {
      Writer(text, displayedText, currentIndex, isTyping, isComplete, startPending)
    }

    ghost predicate Valid()
      reads this
    {
      WriterValid(State())
    }

    /** Mounting with `text` runs the text-change effect once. */
    constructor (text: string)
      ensures Valid() && State() == Loaded(text) && completions == 0
    {
      this.text := text;
      displayedText := "";
      currentIndex := 0;
      isTyping := false;
      isComplete := false;
      startPending := text != "";
      completions := 0;
    }

    /** A new `text` argument (src/hooks/useTypewriter.ts:37-54), corrected: the same text
        changes nothing, a different one starts over even in the middle of typing
        (`TextChangedAsWritten` is the code as written). */
    method SetText(t: string)
      requires Valid()
      modifies this
      ensures Valid() && completions == old(completions)
      ensures State() == if t == old(text) then old(State()) else Loaded(t)
    {
      if t != text {
        text := t;
        displayedText := "";
        currentIndex := 0;
        isTyping := false;
        isComplete := false;
        startPending := t != "";
      }
    }

    method StartFires()
      requires Valid()
      modifies this
      ensures Valid() && completions == old(completions)
      ensures State() == Started(old(State()))
    {
      if startPending {
        isTyping := true;
        startPending := false;
      }
    }

    /** A typing tick; `onComplete` fires when it completes the text. */
    method Tick()
      requires Valid()
      modifies this
      ensures Valid() && State() == Ticked(old(State()))
      ensures completions == old(completions) + (if isComplete && !old(isComplete) then 1 else 0)
    {
      if !isTyping || isComplete {
        return;
      }
      displayedText := displayedText + [text[currentIndex]];
      currentIndex := currentIndex + 1;
      if currentIndex == |text| {
        isTyping := false;
        isComplete := true;
        completions := completions + 1;
      }
    }

    /** `reset()` (src/hooks/useTypewriter.ts:78-92), corrected: the text starts over even when
        typing was under way (`ResetAsWritten` is the code as written). */
    method Reset()
      requires Valid()
      modifies this
      ensures Valid() && completions == old(completions)
      ensures State() == Loaded(old(text))
    {
      displayedText := "";
      currentIndex := 0;
      isComplete := false;
      isTyping := false;
      startPending := text != "";
    }

    /** `skip()`; `onComplete` fires every time. */
    method Skip()
      requires Valid()
      modifies this
      ensures Valid() && completions == old(completions) + 1
      ensures State() == Skipped(old(State()))
    {
      displayedText := text;
      currentIndex := |text|;
      isTyping := false;
      isComplete := true;
      startPending := false;
      completions := completions + 1;
    }
  }

  // ---------------------------------------------------------------- the queue

  /** `TypewriterQueueItem` (src/hooks/useTypewriter.ts:115-118). */
  datatype Item = Item(id: string, text: string)

  /** The text handed to the typewriter: `currentItem?.text || ""`. */
  function ItemText(current: Option<Item>): string
  {
    if current.Some? then current.value.text else ""
  }

  function Ids(items: seq<Item>): (r: seq<string>)
    ensures |r| == |items| && forall i :: 0 <= i < |items| ==> r[i] == items[i].id
  {
    seq(|items|, i requires 0 <= i < |items| => items[i].id)
  }

  /** What one commit of `useTypewriterQueue` sees: the queue, the current item, the text the
      typewriter was last reset for, and the `isComplete` value of this render. */
  datatype Render = Render(queue: seq<Item>, current: Option<Item>, typedText: string, complete: bool)

  /** The effects of one commit as written (src/hooks/useTypewriter.ts:37-47, 148-157): the
      text-change reset clears `isComplete` for the next render, but the queue effect of the
      same commit still reads this render's `isComplete` and may take the next item. */
  function CommitAsWritten(r: Render): (n: Render)
    ensures n.typedText == ItemText(r.current)
    ensures n.complete ==> r.complete && n.typedText == r.typedText
    ensures || (n.current == r.current && n.queue == r.queue)
            || (r.queue != [] && n.current == Some(r.queue[0]) && n.queue == r.queue[1..])
  {
    var text := ItemText(r.current);
    var complete := r.complete && text == r.typedText;
    if (r.complete || r.current.None?) && r.queue != [] then
      Render(r.queue[1..], Some(r.queue[0]), text, complete)
    else
      Render(r.queue, r.current, text, complete)
  }

  const First: Item := Item("a", "first")
  const Second: Item := Item("b", "second")
  const Third: Item := Item("c", "third")

  /** As written, when the current item completes with two items queued, the second commit
      still sees the old `isComplete` and takes the third item: the second item is never
      typed, and the state then stays put with the third item loading. */
  lemma AsWrittenSkipsQueuedItem()
    ensures var r0 := Render([Second, Third], Some(First), First.text, true);
      var r1 := CommitAsWritten(r0);
      var r2 := CommitAsWritten(r1);
      var r3 := CommitAsWritten(r2);
      && r1.current == Some(Second)
      && r2.current == Some(Third) && r2.queue == []
      && r3 == Render([], Some(Third), Third.text, false)
      && CommitAsWritten(r3) == r3
  {
  }

  /** As written, an item whose text equals the completed one never resets the typewriter: it
      is shown as complete without being typed, so `onComplete` never records its id. */
  lemma AsWrittenSameTextStaysComplete()
    ensures var next := Item("b", First.text);
      var r1 := CommitAsWritten(Render([next], Some(First), First.text, true));
      && r1 == Render([], Some(next), First.text, true)
      && CommitAsWritten(r1) == r1
  {
  }

  /** The corrected commit: taking the next item resets the typewriter for it in the same
      update (as `reset()` does), whatever its text. */
  function CommitCorrected(r: Render): (n: Render)
    ensures || n == r
            || (r.queue != [] && n == Render(r.queue[1..], Some(r.queue[0]), r.queue[0].text, false))
  {
    if (r.complete || r.current.None?) && r.queue != [] then
      Render(r.queue[1..], Some(r.queue[0]), r.queue[0].text, false)
    else r
  }

  /** Corrected, a completion takes exactly one item: the commit after an advance leaves the
      new item in place until the typewriter completes it. */
  lemma CorrectedTakesOneItem(r: Render)
    requires r.complete && r.queue != []
    ensures var r1 := CommitCorrected(r);
      && r1.current == Some(r.queue[0]) && r1.queue == r.queue[1..] && !r1.complete
      && CommitCorrected(r1) == r1
  {
  }

  /** Every item but the last. */
  function Front(s: seq<Item>): (r: seq<Item>)
    ensures |s| >= 1 ==> r == s[..|s| - 1]
    ensures |s| == 0 ==> r == []
  {
    if s == [] then [] else s[..|s| - 1]
  }

  /** `useTypewriterQueue` (src/hooks/useTypewriter.ts:129-178) with the corrected advance. */
  class TypewriterQueue {
    var queue: seq<Item>
    var currentItem: Option<Item>
    var completedIds: seq<string>
    const writer: Typewriter
    /** The items taken from the queue since the last clear, in order. */
    ghost var taken: seq<Item>

    /** Items leave the queue in order; each but the current one has completed, and the
        current one's id is recorded once it completes. */
    ghost predicate Valid()
      reads this, writer
    {
      && writer.Valid()
      && (currentItem.None? ==> taken == [] && queue == [] && writer.State() == Loaded(""))
      && (currentItem.Some? ==>
            |taken| >= 1 && currentItem.value == taken[|taken| - 1] && writer.text == currentItem.value.text)
      && (writer.isComplete ==> queue == [])
      && completedIds == Ids(if writer.isComplete then taken else Front(taken))
    }

    constructor ()
      ensures Valid() && fresh(writer)
      ensures queue == [] && currentItem == None && completedIds == [] && taken == []
    {
      queue := [];
      currentItem := None;
      completedIds := [];
      taken := [];
      writer := new Typewriter("");
    }

    /** `currentId` (src/hooks/useTypewriter.ts:172): an empty id reads as `null`. */
    function CurrentId(): (r: Option<string>)
      reads this
      ensures r.Some? <==> currentItem.Some? && currentItem.value.id != ""
      ensures r.Some? ==> r.value == currentItem.value.id
    {
      if currentItem.Some? && currentItem.value.id != "" then Some(currentItem.value.id) else None
    }

    /** `isTyping` as the queue reports it (src/hooks/useTypewriter.ts:173): an item is current
        and the typewriter has not completed it. */
    function IsTyping(): bool
      reads this, writer
    {
      !writer.isComplete && currentItem.Some?
    }

    /** Takes the front item and restarts the typewriter on it. */
    method Advance()
      requires writer.Valid() && queue != []
      modifies this, writer
      ensures writer.Valid() && writer.completions == old(writer.completions)
      ensures currentItem == Some(old(queue[0])) && queue == old(queue[1..])
      ensures taken == old(taken) + [old(queue[0])] && completedIds == old(completedIds)
      ensures writer.State() == Loaded(old(queue[0]).text)
    {
      var next := queue[0];
      currentItem := Some(next);
      queue := queue[1..];
      taken := taken + [next];
      writer.SetText(next.text);
      writer.Reset();
    }

    /** `addToQueue` (src/hooks/useTypewriter.ts:160-162) and the queue effect it triggers: an
        idle queue starts typing the item at once, a busy one keeps it at the back. */
    method AddToQueue(item: Item)
      requires Valid()
      modifies this, writer
      ensures Valid() && completedIds == old(completedIds)
      ensures writer.completions == old(writer.completions)
      ensures taken + queue == old(taken + queue) + [item]
      ensures old(currentItem.None? || writer.isComplete) ==>
        currentItem == Some(item) && queue == [] && writer.State() == Loaded(item.text)
      ensures !old(currentItem.None? || writer.isComplete) ==>
        currentItem == old(currentItem) && queue == old(queue) + [item] &&
        writer.State() == old(writer.State())
    {
      queue := queue + [item];
      if currentItem.None? || writer.isComplete {
        Advance();
      }
    }

    method StartFires()
      requires Valid()
      modifies writer
      ensures Valid() && writer.State() == Started(old(writer.State()))
      ensures writer.completions == old(writer.completions)
    {
      writer.StartFires();
    }

    /** Whether the next typing tick completes the current text. */
    function Completing(): bool
      reads this, writer
    {
      writer.isTyping && !writer.isComplete && writer.currentIndex + 1 == |writer.text|
    }

    /** A typing tick. Completing the current item records its id (`onComplete`) and moves
        on to the next queued item, if any, restarting the typewriter on it. */
    method Tick()
      requires Valid()
      modifies this, writer
      ensures Valid() && taken + queue == old(taken + queue)
      ensures writer.completions == old(writer.completions) + (if old(Completing()) then 1 else 0)
      ensures !old(Completing()) ==>
        && completedIds == old(completedIds) && queue == old(queue) && currentItem == old(currentItem)
        && writer.State() == Ticked(old(writer.State()))
      ensures old(Completing()) ==>
        && old(currentItem).Some? && completedIds == old(completedIds) + [old(currentItem).value.id]
        && (old(queue) != [] ==>
              currentItem == Some(old(queue)[0]) && queue == old(queue)[1..]
              && writer.State() == Loaded(old(queue)[0].text))
        && (old(queue) == [] ==>
              currentItem == old(currentItem) && queue == [] && writer.isComplete
              && writer.State() == Ticked(old(writer.State())))
    {
      var before := writer.completions;
      writer.Tick();
      if writer.completions > before {
        assert taken == Front(taken) + [currentItem.value];
        assert Ids(taken) == Ids(Front(taken)) + [currentItem.value.id];
        completedIds := completedIds + [currentItem.value.id];
        if queue != [] {
          Advance();
        }
      }
    }

    /** `clearQueue` (src/hooks/useTypewriter.ts:164-168): no queue, no current item, no
        completed ids, and the typewriter reset for the empty text. */
    method ClearQueue()
      requires Valid()
      modifies this, writer
      ensures Valid() && writer.completions == old(writer.completions)
      ensures queue == [] && currentItem == None && completedIds == [] && taken == []
    {
      queue := [];
      currentItem := None;
      completedIds := [];
      taken := [];
      writer.SetText("");
      writer.Reset();
    }
  }

  /** The completed ids are the ids of the first items added, in the order they were added:
      every item that has left the queue, except the one being typed, has completed. */
  lemma CompletedInOrder(q: TypewriterQueue)
    requires q.Valid()
    ensures |q.completedIds| <= |q.taken + q.queue|
    ensures q.completedIds == Ids(q.taken + q.queue)[..|q.completedIds|]
    ensures |q.completedIds| >= |q.taken| - 1
  {
    var all := q.taken + q.queue;
    var done := if q.writer.isComplete then q.taken else Front(q.taken);
    assert done == all[..|done|];
  }

  /** The queue reports typing exactly while some taken item has not had its id recorded; that
      item is then the current one. */
  lemma IsTypingIffUnrecorded(q: TypewriterQueue)
    requires q.Valid()
    ensures q.IsTyping() <==> |q.completedIds| < |q.taken|
    ensures q.IsTyping() ==> q.currentItem == Some(q.taken[|q.completedIds|])
  {
  }
}
