/** The overlapping-window text splitter of ingestion. */
module Splitter {
  import opened Text

  /** An overlap as large as the window is ignored. */
  function EffectiveOverlap(chunkSize: int, overlap: int): int {
    if overlap >= chunkSize then 0 else overlap
  }

  function WindowEnd(runes: string, size: nat, start: nat): nat {
    if start + size > |runes| then |runes| else start + size
  }

  /** The windows of `size` runes taken every `step` runes from `start`, up to the first that reaches the end. */
  function Windows(runes: string, size: nat, step: nat, start: nat): seq<string>
    requires step > 0
    decreases |runes| - start
  {
    if start >= |runes| then []
    else
      var end := WindowEnd(runes, size, start);
      [runes[start..end]] + if end == |runes| then [] else Windows(runes, size, step, start + step)
  }

  lemma WindowsUnfold(runes: string, size: nat, step: nat, start: nat)
    requires step > 0 && start < |runes|
    ensures var end := WindowEnd(runes, size, start);
            Windows(runes, size, step, start) ==
            [runes[start..end]] + if end == |runes| then [] else Windows(runes, size, step, start + step)
  {
  }

  lemma WindowsPastEnd(runes: string, size: nat, step: nat, start: nat)
    requires step > 0
    ensures start >= |runes| ==> Windows(runes, size, step, start) == []
  {
  }

  function RawWindows(runes: string, chunkSize: int, overlap: int): seq<string> {
    if runes == [] || chunkSize <= 0 then []
    else Windows(runes, chunkSize, chunkSize - EffectiveOverlap(chunkSize, overlap), 0)
  }

  /** Windows are emitted trimmed, and dropped when blank. */
  function Emitted(windows: seq<string>): seq<string> {
    if windows == [] then [] else Emission(windows[0]) + Emitted(windows[1..])
  }

  function Emission(w: string): seq<string> {
    if Blank(w) then [] else [TrimSpace(w)]
  }

  lemma {:induction false} EmittedHolds(windows: seq<string>, w: string)
    requires w in windows && !Blank(w)
    ensures TrimSpace(w) in Emitted(windows)
  {
    hide Blank, TrimSpace;
    if w != windows[0] { EmittedHolds(windows[1..], w); }
  }

  lemma {:induction false} EmittedSnoc(windows: seq<string>, w: string)
    ensures Emitted(windows + [w]) == Emitted(windows) + Emission(w)
  {
    hide Emission;
    if windows == [] {
      assert windows + [w] == [w];
      assert Emitted([w]) == Emission(w) + Emitted([]);
    } else {
      assert (windows + [w])[1..] == windows[1..] + [w];
      EmittedSnoc(windows[1..], w);
    }
  }

  /** Splitting the text is emitting its raw windows. */
  function Chunks(text: string, chunkSize: int, overlap: int): seq<string> {
    Emitted(RawWindows(TrimSpace(text), chunkSize, overlap))
  }

  lemma NothingEmitted()
    ensures Emitted([]) == []
  {
  }

  method EmitWindow(ghost seen: seq<string>, chunks: seq<string>, w: string) returns (more: seq<string>)
    requires chunks == Emitted(seen)
    ensures more == Emitted(seen + [w])
  {
    EmittedSnoc(seen, w);
    var chunk := TrimSpace(w);
    more := if chunk != "" then chunks + [chunk] else chunks;
  }

  method SplitByRunes(text: string, chunkSize: int, overlap: int) returns (chunks: seq<string>)
    ensures chunks == Chunks(text, chunkSize, overlap)
  {
    hide Emitted, Blank, Windows;
    var runes := TrimSpace(text);
    chunks := [];
    NothingEmitted();
    if |runes| == 0 || chunkSize <= 0 { return; }
    var kept := overlap;
    if kept >= chunkSize { kept := 0; }
    var step := chunkSize - kept;
    var start := 0;
    ghost var seen: seq<string> := [];
    ghost var all := Windows(runes, chunkSize, step, 0);
    while start < |runes|
      invariant 0 <= start
      invariant seen + Windows(runes, chunkSize, step, start) == all
      invariant chunks == Emitted(seen)
      decreases |runes| - start
    {
      var end := start + chunkSize;
      if end > |runes| { end := |runes|; }
      chunks := EmitWindow(seen, chunks, runes[start..end]);
      WindowsUnfold(runes, chunkSize, step, start);
      assert seen + ([runes[start..end]] + Windows(runes, chunkSize, step, start + step))
          == seen + [runes[start..end]] + Windows(runes, chunkSize, step, start + step);
      seen := seen + [runes[start..end]];
      if end == |runes| {
        assert seen == all;
        break;
      }
      start := start + step;
    }
    WindowsPastEnd(runes, chunkSize, step, start);
    assert seen + [] == seen;
  }

  // ---------------------------------------------------------------- laws, for a validated overlap

  /** Drop the first `overlap` runes of every window and concatenate. */
  function DropAndGlue(windows: seq<string>, overlap: nat): string
    requires forall w :: w in windows ==> |w| >= overlap
  {
    if windows == [] then [] else windows[0][overlap..] + DropAndGlue(windows[1..], overlap)
  }

  /** When the loop goes on, the next window starts inside the text: the loop always leaves by its break. */
  lemma NextWindowStarts(runes: string, size: nat, step: nat, start: nat)
    requires 0 < step <= size && start < |runes| && WindowEnd(runes, size, start) != |runes|
    ensures start + step < |runes| && |runes| - (start + step) > size - step
  {
  }

  lemma {:induction false} TailRoundTrip(runes: string, size: nat, step: nat, start: nat)
    requires 0 < step <= size && start < |runes| && |runes| - start > size - step
    ensures forall w :: w in Windows(runes, size, step, start) ==> |w| >= size - step
    ensures DropAndGlue(Windows(runes, size, step, start), size - step) == runes[start + size - step..]
    decreases |runes| - start
  {
    hide DropAndGlue, Windows;
    WindowsUnfold(runes, size, step, start);
    var end, lap := WindowEnd(runes, size, start), size - step;
    var w := runes[start..end];
    WithoutLap(runes, start, end, lap);
    if end == |runes| {
      GlueStep(w, [], lap);
      NothingToGlue(lap);
    } else {
      NextWindowStarts(runes, size, step, start);
      TailRoundTrip(runes, size, step, start + step);
      GlueStep(w, Windows(runes, size, step, start + step), lap);
      assert runes[start + lap..end] + runes[end..] == runes[start + lap..];
    }
  }

  lemma WithoutLap(runes: string, start: nat, end: nat, lap: nat)
    requires start + lap <= end <= |runes|
    ensures runes[start..end][lap..] == runes[start + lap..end]
  {
    var w := runes[start..end];
    SliceOfSlice(runes, start, end, lap, end - start);
    assert w[lap..] == w[lap..end - start];
  }

  lemma GlueStep(w: string, rest: seq<string>, lap: nat)
    requires |w| >= lap && forall v :: v in rest ==> |v| >= lap
    ensures DropAndGlue([w] + rest, lap) == w[lap..] + DropAndGlue(rest, lap)
  {
    assert ([w] + rest)[1..] == rest;
  }

  lemma NothingToGlue(lap: nat)
    ensures DropAndGlue([], lap) == []
  {
  }

  /** Round trip: the first window, followed by the others without their overlap, is the trimmed text again. */
  lemma WindowsRoundTrip(text: string, chunkSize: int, overlap: int)
    requires 0 <= overlap < chunkSize && TrimSpace(text) != []
    ensures var windows := RawWindows(TrimSpace(text), chunkSize, overlap);
            && windows != []
            && (forall w :: w in windows[1..] ==> |w| >= overlap)
            && windows[0] + DropAndGlue(windows[1..], overlap) == TrimSpace(text)
  {
    hide DropAndGlue, Windows, TrimSpace;
    GlueAll(TrimSpace(text), chunkSize, chunkSize - overlap);
  }

  lemma GlueAll(runes: string, size: nat, step: nat)
    requires 0 < step <= size && runes != []
    ensures var windows := Windows(runes, size, step, 0);
            && windows != []
            && (forall w :: w in windows[1..] ==> |w| >= size - step)
            && windows[0] + DropAndGlue(windows[1..], size - step) == runes
  {
    hide DropAndGlue, Windows;
    WindowsUnfold(runes, size, step, 0);
    var end := WindowEnd(runes, size, 0);
    if end == |runes| {
      NothingToGlue(size - step);
    } else {
      NextWindowStarts(runes, size, step, 0);
      TailRoundTrip(runes, size, step, step);
      assert runes[..end] + runes[end..] == runes;
    }
  }

  function CeilDiv(a: nat, b: nat): nat
    requires b > 0
  {
    (a + b - 1) / b
  }

  lemma DivideOneMore(a: nat, b: nat)
    requires b > 0
    ensures (a + b) / b == a / b + 1
  {
    var q, r := a / b, a % b;
    var q', r' := (a + b) / b, (a + b) % b;
    assert b * (q' - (q + 1)) == r - r';
    BoundedMultiple(b, q' - (q + 1));
  }

  lemma BoundedMultiple(b: nat, x: int)
    requires -(b as int) < b * x < b
    ensures x == 0
  {
  }

  lemma CeilDivStep(a: nat, b: nat)
    requires b > 0 && a > 0
    ensures CeilDiv(a, b) == 1 + CeilDiv(if a > b then a - b else 0, b)
  {
    if a > b {
      DivideOneMore(a - 1, b);
    } else {
      DivideOneMore(a - 1, b);
      assert (a - 1) / b == 0;
      assert (b - 1) / b == 0;
    }
  }

  lemma {:induction false} WindowCount(runes: string, size: nat, step: nat, start: nat)
    requires 0 < step <= size && start < |runes|
    ensures var left := |runes| - start;
            |Windows(runes, size, step, start)| == 1 + CeilDiv(if left > size then left - size else 0, step)
    decreases |runes| - start
  {
    var left := |runes| - start;
    if left <= size {
      assert WindowEnd(runes, size, start) == |runes|;
      assert (step - 1) / step == 0;
    } else {
      NextWindowStarts(runes, size, step, start);
      WindowCount(runes, size, step, start + step);
      CeilDivStep(left - size, step);
    }
  }

  /** The number of windows is 1 + ⌈max(0, n − chunkSize) / (chunkSize − overlap)⌉. */
  lemma RawWindowCount(text: string, chunkSize: int, overlap: int)
    requires 0 <= overlap < chunkSize && TrimSpace(text) != []
    ensures var n := |TrimSpace(text)|;
            |RawWindows(TrimSpace(text), chunkSize, overlap)|
            == 1 + CeilDiv(if n > chunkSize then n - chunkSize else 0, chunkSize - overlap)
  {
    WindowCount(TrimSpace(text), chunkSize, chunkSize - overlap, 0);
  }

  /** chunk is the stretch of runes from `at`, and it includes position p. */
  ghost predicate Shows(chunk: string, runes: string, at: nat, p: nat) {
    at <= p < at + |chunk| <= |runes| && runes[at..at + |chunk|] == chunk
  }

  lemma {:induction false} WindowShows(runes: string, size: nat, step: nat, start: nat, p: nat) returns (w: string, at: nat)
    requires 0 < step <= size && start <= p < |runes|
    ensures w in Windows(runes, size, step, start) && Shows(w, runes, at, p)
    decreases |runes| - start
  {
    var end := WindowEnd(runes, size, start);
    if p < end {
      w, at := runes[start..end], start;
      assert Windows(runes, size, step, start)[0] == w;
    } else {
      w, at := WindowShows(runes, size, step, start + step, p);
      assert w in Windows(runes, size, step, start)[1..];
    }
  }

  /** Trimming a stretch keeps every position that is not white space. */
  lemma TrimStillShows(w: string, runes: string, at: nat, p: nat)
    requires Shows(w, runes, at, p) && !IsSpace(runes[p])
    ensures !Blank(w) && Shows(TrimSpace(w), runes, at + Lead(w), p)
  {
    hide IsSpace, Lead, Trail, TrimSpace;
    assert w[p - at] == runes[at..at + |w|][p - at] == runes[p];
    var t := TrimSpace(w);
    assert Lead(w) <= p - at < Trail(w);
    SliceOfSlice(runes, at, at + |w|, Lead(w), Trail(w));
  }

  lemma SliceOfSlice(s: string, a: nat, b: nat, c: nat, d: nat)
    requires a <= b <= |s| && c <= d <= b - a
    ensures s[a..b][c..d] == s[a + c..a + d]
  {
    forall i | 0 <= i < d - c
      ensures s[a..b][c..d][i] == s[a + c..a + d][i]
    {
      assert s[a..b][c..d][i] == s[a..b][c + i];
    }
  }

  lemma {:induction false} WindowsBounded(runes: string, size: nat, step: nat, start: nat, w: string)
    requires step > 0 && w in Windows(runes, size, step, start)
    ensures |w| <= size
    decreases |runes| - start
  {
    if w != Windows(runes, size, step, start)[0] {
      WindowsBounded(runes, size, step, start + step, w);
    }
  }

  /** Coverage: every rune of the text that is not white space is shown by an emitted chunk of bounded size. */
  lemma EveryRuneCovered(text: string, chunkSize: int, overlap: int, p: nat) returns (chunk: string, at: nat)
    requires 0 <= overlap < chunkSize
    requires p < |TrimSpace(text)| && !IsSpace(TrimSpace(text)[p])
    ensures chunk in Chunks(text, chunkSize, overlap) && |chunk| <= chunkSize
    ensures Shows(chunk, TrimSpace(text), at, p)
  {
    hide TrimSpace, Windows, Emitted, Blank, IsSpace, Lead, Shows;
    var runes := TrimSpace(text);
    var w, start := WindowShows(runes, chunkSize, chunkSize - overlap, 0, p);
    TrimStillShows(w, runes, start, p);
    EmittedHolds(RawWindows(runes, chunkSize, overlap), w);
    WindowsBounded(runes, chunkSize, chunkSize - overlap, 0, w);
    chunk, at := TrimSpace(w), start + Lead(w);
  }

  lemma {:induction false} EmittedOrigin(windows: seq<string>, c: string)
    requires c in Emitted(windows)
    ensures exists w :: w in windows && !Blank(w) && c == TrimSpace(w)
  {
    hide TrimSpace, Blank;
    if c in Emission(windows[0]) {
      assert windows[0] in windows;
    } else {
      EmittedOrigin(windows[1..], c);
      var w :| w in windows[1..] && !Blank(w) && c == TrimSpace(w);
      assert w in windows;
    }
  }

  /** Every chunk is a trimmed, non-blank stretch of at most chunkSize runes. */
  lemma EveryChunkBounded(text: string, chunkSize: int, overlap: int, chunk: string)
    requires chunk in Chunks(text, chunkSize, overlap)
    ensures chunk != [] && |chunk| <= chunkSize && TrimSpace(chunk) == chunk
  {
    hide TrimSpace, Emitted, Windows;
    var runes := TrimSpace(text);
    EmittedOrigin(RawWindows(runes, chunkSize, overlap), chunk);
    var w :| w in RawWindows(runes, chunkSize, overlap) && !Blank(w) && chunk == TrimSpace(w);
    WindowsBounded(runes, chunkSize, chunkSize - EffectiveOverlap(chunkSize, overlap), 0, w);
    TrimTwice(w);
  }

  /** A text that is not blank always yields a chunk, so ingestion never fails with "no chunks produced". */
  lemma SomeChunkProduced(text: string, chunkSize: int, overlap: int)
    requires 0 <= overlap < chunkSize && !Blank(text)
    ensures Chunks(text, chunkSize, overlap) != []
  {
    var chunk, at := EveryRuneCovered(text, chunkSize, overlap, 0);
  }

  /** An overlap as large as the window counts as none. */
  lemma OversizedOverlapIgnored(text: string, chunkSize: int, overlap: int)
    requires overlap >= chunkSize > 0
    ensures Chunks(text, chunkSize, overlap) == Chunks(text, chunkSize, 0)
  {
  }

  /** With a negative overlap the windows leave gaps: only validation of the configuration rules that out. */
  lemma NegativeOverlapLosesText()
    ensures Chunks("abc", 1, -1) == ["a", "c"]
  {
    var runes := "abc";
    TrimOfTrimmed(runes);
    assert runes[2..3] == "c" && runes[0..1] == "a";
    assert Windows(runes, 1, 2, 2) == ["c"];
    assert Windows(runes, 1, 2, 0) == ["a", "c"];
    TrimOfTrimmed("a");
    TrimOfTrimmed("c");
    assert ["a", "c"][1..] == ["c"];
    assert Emitted(["c"]) == ["c"];
  }
}
