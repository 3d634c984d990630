/**
 * The marquee label of Views/RotatingLabel.swift: when its text is too wide
 * it scrolls by showing the text rotated one more character on each step.
 * Whether the text is too wide is measured with font metrics; here it is
 * the input `shouldScroll`. The repeating timer is the pair of flags
 * `isRunning` and `timerScheduled`, and each of its firings calls `Tick`.
 */
module RotatingText {
  import opened Wrappers
  import opened Arithmetic

  /** `rotate(_:by:)`: the text from position `n` on, a space, then the first `n` characters. */
  function Rotate(s: string, n: int): (r: string)
    ensures n <= 0 || n >= |s| ==> r == s
    ensures 0 < n < |s| ==> |r| == |s| + 1 && r[|s| - n] == ' '
  {
    if n <= 0 || n >= |s| then s else s[n..] + " " + s[..n]
  }

  /** A rotation keeps every character and adds one space. */
  lemma RotateKeepsCharacters(s: string, n: int)
    requires 0 < n < |s|
    ensures multiset(Rotate(s, n)) == multiset(s) + multiset{' '}
  {
    assert s == s[..n] + s[n..];
    calc {
      multiset(Rotate(s, n));
      multiset(s[n..] + " " + s[..n]);
      multiset(s[n..]) + multiset(" ") + multiset(s[..n]);
      { assert multiset(s) == multiset(s[..n]) + multiset(s[n..]); }
      multiset(s) + multiset{' '};
    }
  }

  /** Undoing a rotation: the part after the space followed by the part before it is the text again. */
  lemma RotateUndone(s: string, n: int)
    requires 0 < n < |s|
    ensures var r := Rotate(s, n); r[|s| - n + 1..] + r[..|s| - n] == s
  {
    var r := Rotate(s, n);
    assert r[|s| - n + 1..] == s[..n];
    assert r[..|s| - n] == s[n..];
    assert s == s[..n] + s[n..];
  }

  /** The index update of `tick()`: one step on, back to 0 after the last character. */
  function NextIndex(index: int, count: int): (r: int)
    requires count > 0 && index >= 0
    ensures 0 <= r < count
    ensures index + 1 < count ==> r == index + 1
    ensures index + 1 == count ==> r == 0
  {
    // Swift's remainder; both operands are non-negative, where it agrees with Dafny's.
    (index + 1) % count
  }

  /** The index after `k` steps from `index`. */
  function Steps(index: int, count: int, k: nat): (r: int)
    requires count > 0 && 0 <= index < count
    ensures 0 <= r < count
  {
    if k == 0 then index else NextIndex(Steps(index, count, k - 1), count)
  }

  /** From 0, `k` steps reach `k mod count`: the scroll visits every position and comes back. */
  lemma {:induction false} StepsFromStart(count: int, k: nat)
    requires count > 0
    ensures Steps(0, count, k) == k % count
  {
    if k == 0 {
      ModUnique(0, count, 0);
    } else {
      StepsFromStart(count, k - 1);
      ModSucc(k - 1, count);
    }
  }

  /** After one step per character the label shows the text as it was, and not before. */
  lemma FullCycleShowsOriginal(s: string, k: nat)
    requires |s| > 0 && k <= |s|
    ensures Steps(0, |s|, k) == 0 <==> k == 0 || k == |s|
    ensures Rotate(s, Steps(0, |s|, |s|)) == s
  {
    StepsFromStart(|s|, k);
    StepsFromStart(|s|, |s|);
    ModUnique(|s|, |s|, 1);
    if 0 < k < |s| {
      ModUnique(k, |s|, 0);
    } else if k == 0 {
      ModUnique(0, |s|, 0);
    }
  }

  class RotatingLabel {
    /** The label's `text` as shown. */
    var text: Option<string>
    /** The text as last set, which the rotations are taken of. */
    var original: string
    var index: int
    var isRunning: bool
    /** `timer != nil` */
    var timerScheduled: bool

    ghost predicate Valid()
      reads this
    {
      && 0 <= index
      && (index == 0 || index < |original|)
      && timerScheduled == isRunning
    }

    constructor ()
      ensures Valid() && text == None && original == "" && index == 0
      ensures !isRunning && !timerScheduled
    {
      text := None;
      original := "";
      index := 0;
      isRunning := false;
      timerScheduled := false;
    }

    /**
     * Assigning `text` (the `didSet` observer). Assigning the value already
     * shown does nothing more; a new value is stored in `original` (`nil` as
     * ""), the scroll is reset to position 0 and the overflow is evaluated
     * with `force` set.
     */
    method SetText(newValue: Option<string>, shouldScroll: bool)
      requires Valid()
      modifies this
      ensures Valid()
      ensures text == newValue
      ensures old(text) == newValue ==>
        original == old(original) && index == old(index)
        && isRunning == old(isRunning) && timerScheduled == old(timerScheduled)
      ensures old(text) != newValue ==>
        original == newValue.GetOr("") && index == 0
        && isRunning == (original != "" && shouldScroll)
    {
      var oldValue := text;
      text := newValue;
      if text == oldValue {
        return;
      }
      original := text.GetOr("");
      index := 0;
      EvaluateOverflowAndStartIfNeeded(true, shouldScroll);
    }

    /**
     * `evaluateOverflowAndStartIfNeeded(force:)`: an empty text stops the
     * scroll; a text that does not fit (re)starts it, unless it is already
     * running and `force` is off; a text that fits stops it and is shown whole.
     */
    method EvaluateOverflowAndStartIfNeeded(force: bool, shouldScroll: bool)
      requires Valid()
      modifies this
      ensures Valid()
      ensures original == old(original) && index == old(index)
      ensures original == "" ==> !isRunning && text == old(text)
      ensures original != "" && shouldScroll ==> isRunning && text == old(text)
      ensures original != "" && !shouldScroll ==> !isRunning && text == Some(original)
    {
      if original == "" {
        Stop();
        return;
      }
      if shouldScroll {
        if force || !isRunning {
          Start();
        }
      } else {
        Stop();
        text := Some(original);
      }
    }

    /** `start(after:)`: replaces any scheduled timer by a new one. */
    method Start()
      modifies this`isRunning, this`timerScheduled
      ensures isRunning && timerScheduled
    {
      Stop();
      isRunning := true;
      timerScheduled := true;
    }

    /** `stop()` */
    method Stop()
      modifies this`isRunning, this`timerScheduled
      ensures !isRunning && !timerScheduled
    {
      timerScheduled := false;
      isRunning := false;
    }

    /**
     * `tick()`: with an empty text nothing happens; otherwise the index moves
     * one step and the label shows the text rotated by it, which is the text
     * itself when the index comes back to 0.
     */
    method Tick()
      requires Valid()
      modifies this`text, this`index
      ensures Valid()
      ensures |original| == 0 ==> text == old(text) && index == old(index)
      ensures |original| > 0 ==>
        index == NextIndex(old(index), |original|) && text == Some(Rotate(original, index))
      ensures |original| > 0 && index == 0 ==> text == Some(original)
    {
      if |original| == 0 {
        return;
      }
      if index == 0 {
        text := Some(original);
      }
      index := (index + 1) % |original|;
      text := Some(Rotate(original, index));
    }
  }
}
