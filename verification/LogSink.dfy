/** The bounded log text of log_sink.rs. Texts are UTF-8 (section 3 of RFC 3629), kept as bytes. */
module LogSink {
  import opened Bytes

  const MAX_LOG_BYTES: nat := 100_000

  // ---- UTF-8 -------------------------------------------------------------------------------

  predicate Tail(b: byte) {
    0x80 <= b <= 0xBF
  }

  /** Length of the well-formed character at the head of `s`, or 0 if there is none
      (the UTF8-1 to UTF8-4 productions of section 4 of RFC 3629). */
  function CharLength(s: seq<byte>): (n: nat)
    ensures n <= 4 && n <= |s|
    ensures n > 0 ==> !Tail(s[0]) && forall i | 1 <= i < n :: Tail(s[i])
  {
    if s == [] then 0
    else if s[0] <= 0x7F then 1
    else if |s| < 2 || !Tail(s[1]) then 0
    else if 0xC2 <= s[0] <= 0xDF then 2
    else if |s| < 3 || !Tail(s[2]) then 0
    else if s[0] == 0xE0 && s[1] >= 0xA0 then 3
    else if 0xE1 <= s[0] <= 0xEC || 0xEE <= s[0] <= 0xEF then 3
    else if s[0] == 0xED && s[1] <= 0x9F then 3
    else if |s| < 4 || !Tail(s[3]) then 0
    else if s[0] == 0xF0 && s[1] >= 0x90 then 4
    else if 0xF1 <= s[0] <= 0xF3 then 4
    else if s[0] == 0xF4 && s[1] <= 0x8F then 4
    else 0
  }

  predicate Utf8(s: seq<byte>)
    decreases |s|
  {
    s == [] || (CharLength(s) > 0 && Utf8(s[CharLength(s)..]))
  }

  /** The test the standard library applies to a byte index: only the byte there is looked at. */
  predicate IsCharBoundary(s: seq<byte>, i: nat) {
    i == 0 || i == |s| || (i < |s| && !Tail(s[i]))
  }

  /** `i` is reached by stepping over whole characters. */
  predicate BetweenCharacters(s: seq<byte>, i: nat)
    decreases |s|
  {
    i == 0
    || (CharLength(s) > 0 && CharLength(s) <= i && BetweenCharacters(s[CharLength(s)..], i - CharLength(s)))
  }

  /** In a valid text the one-byte test finds exactly the positions between characters, and cutting
      at one leaves two valid texts. */
  lemma {:induction false} BoundaryTestIsExact(s: seq<byte>, i: nat)
    requires Utf8(s)
    ensures IsCharBoundary(s, i) <==> BetweenCharacters(s, i)
    ensures IsCharBoundary(s, i) ==> Utf8(s[i..])
    decreases |s|
  {
    if s == [] || i == 0 {
      assert i == 0 ==> s[i..] == s;
    } else {
      var n := CharLength(s);
      if n <= i {
        BoundaryTestIsExact(s[n..], i - n);
        if i <= |s| {
          DropDrop(s, n, i);
        }
        assert IsCharBoundary(s, i) <==> IsCharBoundary(s[n..], i - n);
      }
    }
  }

  lemma CharLengthIgnoresRest(s: seq<byte>, t: seq<byte>)
    requires CharLength(s) > 0
    ensures CharLength(s + t) == CharLength(s)
  {
    assert forall i | 0 <= i < |s| :: (s + t)[i] == s[i];
  }

  lemma {:induction false} Utf8Concatenates(s: seq<byte>, t: seq<byte>)
    requires Utf8(s) && Utf8(t)
    ensures Utf8(s + t)
    decreases |s|
  {
    if s == [] {
      assert s + t == t;
    } else {
      CharLengthIgnoresRest(s, t);
      var n := CharLength(s);
      assert (s + t)[n..] == s[n..] + t;
      Utf8Concatenates(s[n..], t);
    }
  }

  /** From any index of a valid text a boundary is at most three steps away. */
  lemma {:induction false} BoundaryWithinThree(s: seq<byte>, i: nat)
    requires Utf8(s) && i <= |s|
    ensures exists k :: i <= k <= i + 3 && k <= |s| && IsCharBoundary(s, k)
    decreases |s|
  {
    if i == 0 || i == |s| {
      assert IsCharBoundary(s, i);
    } else {
      var n := CharLength(s);
      if i <= n {
        BoundaryTestIsExact(s, n);
        assert BetweenCharacters(s[n..], 0);
        assert IsCharBoundary(s, n);
      } else {
        BoundaryWithinThree(s[n..], i - n);
        var k :| i - n <= k <= i - n + 3 && k <= |s[n..]| && IsCharBoundary(s[n..], k);
        BoundaryTestIsExact(s[n..], k);
        BoundaryTestIsExact(s, k + n);
        assert BetweenCharacters(s, k + n);
      }
    }
  }

  // ---- The specification: the longest suffix that fits -------------------------------------

  /** `text` is the longest suffix of `history` that starts between characters and fits the bound. */
  ghost predicate LongestSuffix(history: seq<byte>, text: seq<byte>) {
    exists start :: StartsAt(history, text, start)
  }

  ghost predicate StartsAt(history: seq<byte>, text: seq<byte>, start: nat) {
    && start <= |history| && text == history[start..]
    && |text| <= 100_000
    && BetweenCharacters(history, start)
    && forall k | 0 <= k < start && BetweenCharacters(history, k) :: |history| - k > 100_000
  }

  lemma LongestSuffixIsUnique(history: seq<byte>, a: seq<byte>, b: seq<byte>)
    requires LongestSuffix(history, a) && LongestSuffix(history, b)
    ensures a == b
  {
    var i :| StartsAt(history, a, i);
    var j :| StartsAt(history, b, j);
    assert |history| - i <= MAX_LOG_BYTES && |history| - j <= MAX_LOG_BYTES;
  }

  lemma FirstBoundaryIsLongest(log: seq<byte>, start: nat)
    requires Utf8(log) && start <= |log| <= start + MAX_LOG_BYTES && IsCharBoundary(log, start)
    requires forall k | 0 <= k < start :: IsCharBoundary(log, k) ==> |log| - k > MAX_LOG_BYTES
    ensures Utf8(log[start..]) && LongestSuffix(log, log[start..])
  {
    BoundaryTestIsExact(log, start);
    forall k | 0 <= k < start && BetweenCharacters(log, k)
      ensures |log| - k > MAX_LOG_BYTES
    {
      BoundaryTestIsExact(log, k);
    }
    assert StartsAt(log, log[start..], start);
  }

  // ---- The sink ----------------------------------------------------------------------------

  /** The search loop of `append`; it ends within three steps. */
  method NextBoundary(log: seq<byte>, from: nat) returns (start: nat)
    requires Utf8(log) && from <= |log|
    ensures from <= start <= from + 3 && start <= |log| && IsCharBoundary(log, start)
    ensures forall k | from <= k < start :: !IsCharBoundary(log, k)
  {
    BoundaryWithinThree(log, from);
    ghost var end :| from <= end <= from + 3 && end <= |log| && IsCharBoundary(log, end);
    start := from;
    while !IsCharBoundary(log, start)
      invariant from <= start <= end
      invariant forall k | from <= k < start :: !IsCharBoundary(log, k)
      decreases end - start
    {
      start := start + 1;
    }
  }

  class LogView {
    var text: seq<byte>

    constructor ()
      ensures text == []
    {
      text := [];
    }

    /** Appends a message and drops the shortest possible head. At most three bytes beyond the bound
        are given up to reach a character boundary. */
    method Append(message: seq<byte>)
      requires Utf8(text) && Utf8(message)
      modifies this
      ensures Utf8(text)
      ensures LongestSuffix(old(text) + message, text)
      ensures |old(text) + message| > 100_000 ==> |text| >= 99_997
    {
      var log := text + message;
      Utf8Concatenates(text, message);
      var start := 0;
      if |log| > MAX_LOG_BYTES {
        start := NextBoundary(log, |log| - MAX_LOG_BYTES);
      }
      text := log[start..];
      FirstBoundaryIsLongest(log, start);
    }
  }

  lemma {:induction false} StepsWithinHistory(history: seq<byte>, message: seq<byte>, k: nat)
    requires Utf8(history) && k <= |history|
    ensures BetweenCharacters(history + message, k) <==> BetweenCharacters(history, k)
    decreases |history|
  {
    if history == [] || k == 0 {
    } else {
      var n := CharLength(history);
      CharLengthIgnoresRest(history, message);
      DropAppend(history, message, n);
      if n <= k {
        StepsWithinHistory(history[n..], message, k - n);
      }
    }
  }

  /** From a boundary on, the boundaries are those of the rest. */
  lemma {:induction false} StepsFromBoundary(s: seq<byte>, rest: seq<byte>, i: nat, k: nat)
    requires i <= |s| && BetweenCharacters(s, i) && i <= k && rest == s[i..]
    ensures BetweenCharacters(s, k) <==> BetweenCharacters(rest, k - i)
    decreases |s|
  {
    if i > 0 {
      var n := CharLength(s);
      DropDrop(s, n, i);
      StepsFromBoundary(s[n..], rest, i - n, k - n);
    } else {
      assert rest == s;
    }
  }

  lemma StepsBeyondBoundary(history: seq<byte>, message: seq<byte>, i: nat, k: nat)
    requires Utf8(history) && i <= |history| && BetweenCharacters(history, i) && i <= k
    ensures BetweenCharacters(history + message, k) <==> BetweenCharacters(history[i..] + message, k - i)
  {
    hide BetweenCharacters, Utf8;
    StepsWithinHistory(history, message, i);
    DropAppend(history, message, i);
    StepsFromBoundary(history + message, history[i..] + message, i, k);
  }

  /** Before the cut and beyond it, the boundaries of the whole are those of its two parts. */
  lemma EarlierStartsAreTooLong(history: seq<byte>, text: seq<byte>, message: seq<byte>, next: seq<byte>,
                                i: nat, j: nat, k: nat)
    requires Utf8(history) && StartsAt(history, text, i) && StartsAt(text + message, next, j)
    requires k < i + j && BetweenCharacters(history + message, k)
    ensures |history + message| - k > 100_000
  {
    if k < i {
      StepsWithinHistory(history, message, k);
    } else {
      StepsBeyondBoundary(history, message, i, k);
    }
  }

  lemma SuffixOfSuffix(history: seq<byte>, message: seq<byte>, i: nat, j: nat)
    requires i <= |history| && j <= |history[i..] + message|
    ensures i + j <= |history + message| && (history[i..] + message)[j..] == (history + message)[i + j..]
  {
    DropAppend(history, message, i);
    DropDrop(history + message, i, i + j);
  }

  lemma StartsAdd(history: seq<byte>, text: seq<byte>, message: seq<byte>, next: seq<byte>, i: nat, j: nat)
    requires Utf8(history) && StartsAt(history, text, i) && StartsAt(text + message, next, j)
    ensures StartsAt(history + message, next, i + j)
  {
    var all := history + message;
    SuffixOfSuffix(history, message, i, j);
    StepsBeyondBoundary(history, message, i, i + j);
    hide BetweenCharacters, Utf8;
    forall k | 0 <= k < i + j && BetweenCharacters(all, k)
      ensures |all| - k > 100_000
    {
      EarlierStartsAreTooLong(history, text, message, next, i, j, k);
    }
  }

  /** Truncating the truncated text and truncating everything agree: bytes already given up could
      not have been part of any later text. */
  lemma TruncationForgetsNothing(history: seq<byte>, text: seq<byte>, message: seq<byte>, next: seq<byte>)
    requires Utf8(history)
    requires LongestSuffix(history, text) && LongestSuffix(text + message, next)
    ensures LongestSuffix(history + message, next)
  {
    hide StartsAt;
    var i: nat :| StartsAt(history, text, i);
    var j: nat :| StartsAt(text + message, next, j);
    StartsAdd(history, text, message, next, i, j);
  }

  /** The relay loop over the messages of a whole session: the log is a function of its history, the
      longest suffix of everything ever appended. */
  method Relay(messages: seq<seq<byte>>) returns (view: LogView)
    requires forall i | 0 <= i < |messages| :: Utf8(messages[i])
    ensures fresh(view) && Utf8(Flatten(messages)) && LongestSuffix(Flatten(messages), view.text)
  {
    view := new LogView();
    assert StartsAt([], view.text, 0);
    var i := 0;
    while i < |messages|
      invariant 0 <= i <= |messages|
      invariant fresh(view) && Utf8(view.text)
      invariant Utf8(Flatten(messages[..i])) && LongestSuffix(Flatten(messages[..i]), view.text)
    {
      ghost var before, history := view.text, Flatten(messages[..i]);
      view.Append(messages[i]);
      TruncationForgetsNothing(history, before, messages[i], view.text);
      Utf8Concatenates(history, messages[i]);
      FlattenSnoc(messages, i);
      i := i + 1;
    }
    assert messages[..i] == messages;
  }
}
