/** internal/enrichment/chunker.go: an overlapping window slides over the trimmed text and
    looks back for the end of a sentence. */
module Chunker {
  import opened Text

  const CHUNK_RUNES := 1200
  const OVERLAP_RUNES := 180

  predicate IsBreak(c: char) { c == '\n' || c == '.' || c == '\U{3002}' }

  lemma SentenceEnds(c: char)
    ensures IsBreak(c) <==> c in {'\n', '.', '\U{3002}'}
  {
  }

  /** The greatest position in (low, candidate] that follows a sentence break, else `fallback`. */
  function LastBreak(runes: string, low: nat, candidate: nat, fallback: nat): (end: nat)
    requires low <= candidate <= |runes|
    ensures end == fallback || low < end <= candidate
  {
    if candidate == low then fallback
    else if IsBreak(runes[candidate - 1]) then candidate
    else LastBreak(runes, low, candidate - 1, fallback)
  }

  /** What the search returns, without saying how it searches. */
  lemma {:induction false} LastBreakIsGreatest(runes: string, low: nat, candidate: nat, fallback: nat)
    requires low <= candidate <= |runes|
    ensures var end := LastBreak(runes, low, candidate, fallback);
            if exists q :: low <= q < candidate && IsBreak(runes[q]) then
              low < end <= candidate && IsBreak(runes[end - 1]) &&
              forall q :: end <= q < candidate ==> !IsBreak(runes[q])
            else end == fallback
  {
    if candidate > low && !IsBreak(runes[candidate - 1]) {
      LastBreakIsGreatest(runes, low, candidate - 1, fallback);
    }
  }

  function WindowEnd(runes: string, start: nat): (end: nat)
    requires start < |runes|
    ensures start < end <= |runes| && end <= start + CHUNK_RUNES
    ensures end == |runes| || start + CHUNK_RUNES / 2 < end
  {
    var limit := start + CHUNK_RUNES;
    if limit >= |runes| then |runes| else LastBreak(runes, start + CHUNK_RUNES / 2, limit, limit)
  }

  /** A window of 1200 runes is cut after the last line feed or full stop of its second half, if there is one. */
  lemma WindowIsCut(runes: string, start: nat)
    requires start < |runes|
    ensures var end, stops := WindowEnd(runes, start), {'\n', '.', '\U{3002}'};
            if |runes| <= start + 1200 then end == |runes|
            else if exists q :: start + 600 <= q < start + 1200 && runes[q] in stops then
              && start + 600 < end <= start + 1200 && runes[end - 1] in stops
              && forall q :: end <= q < start + 1200 ==> runes[q] !in stops
            else end == start + 1200
  {
    forall c ensures IsBreak(c) <==> c in {'\n', '.', '\U{3002}'} {
      SentenceEnds(c);
    }
    if |runes| > start + 1200 {
      LastBreakIsGreatest(runes, start + 600, start + 1200, start + 1200);
    }
  }

  datatype Window = Window(start: nat, end: nat) {
    function Of(runes: string): string {
      if start <= end <= |runes| then runes[start..end] else ""
    }
  }

  /** The windows from position `start` of the trimmed runes on. */
  function Windows(runes: string, start: nat): seq<Window>
    requires start <= |runes|
    decreases |runes| - start
  {
    if start == |runes| then []
    else
      var end := WindowEnd(runes, start);
      [Window(start, end)] + if end == |runes| then [] else Windows(runes, end - OVERLAP_RUNES)
  }

  function Append(done: seq<string>, chunk: string): seq<string> {
    if chunk != "" then done + [chunk] else done
  }

  /** The trimmed text of each window that is not blank. */
  function Kept(runes: string, ws: seq<Window>): seq<string> {
    if ws == [] then []
    else
      var n := |ws| - 1;
      Append(Kept(runes, ws[..n]), Trim(ws[n].Of(runes)))
  }

  function Chunks(content: string): seq<string> {
    Kept(Trim(content), Windows(Trim(content), 0))
  }

  method ChunkText(content: string) returns (result: seq<string>)
    ensures result == Chunks(content)
  {
    var runes := Trim(content);
    if |runes| == 0 {
      return [];
    }
    ghost var ws := Windows(runes, 0);
    WindowsAreCut(runes, 0);
    ghost var k := 0;
    result := [];
    var start := 0;
    while true
      invariant k < |ws| && start == ws[k].start
      invariant result == Kept(runes, ws[..k])
      decreases |runes| - start
    {
      assert CutAt(runes, ws, k);
      OneMoreKept(runes, ws, k);
      var end := FindEnd(runes, start);
      var chunk := Trim(Window(start, end).Of(runes));
      if chunk != "" {
        result := result + [chunk];
      }
      k := k + 1;
      if end == |runes| {
        assert ws[..k] == ws;
        break;
      }
      start := end - OVERLAP_RUNES;
      assert start >= 0;  // the clamp to zero in the source is dead code
    }
  }

  lemma OneMoreKept(runes: string, ws: seq<Window>, k: nat)
    requires k < |ws|
    ensures Kept(runes, ws[..k + 1]) == Append(Kept(runes, ws[..k]), Trim(ws[k].Of(runes)))
  {
    assert ws[..k + 1][..k] == ws[..k];
  }

  /** The first half of the loop body: where the window that starts here ends. */
  method FindEnd(runes: string, start: nat) returns (end: nat)
    requires start < |runes|
    ensures end == WindowEnd(runes, start)
  {
    end := start + CHUNK_RUNES;
    if end >= |runes| {
      end := |runes|;
    } else {
      var minimumBreak := start + CHUNK_RUNES / 2;
      var candidate := end;
      while candidate > minimumBreak
        invariant minimumBreak <= candidate <= end == start + CHUNK_RUNES < |runes|
        invariant LastBreak(runes, minimumBreak, candidate, end) == WindowEnd(runes, start)
      {
        if IsBreak(runes[candidate - 1]) {
          end := candidate;
          break;
        }
        candidate := candidate - 1;
      }
    }
  }

  // ----- what the windows cover -----

  /** Window k is not empty, not too long and ends where the search says. If it stops before the text
      does, the next one starts 180 runes before that stop, at least 421 runes further on. */
  ghost predicate CutAt(runes: string, ws: seq<Window>, k: nat)
    requires k < |ws|
  {
    var w := ws[k];
    && w.start < w.end <= |runes| && w.end <= w.start + CHUNK_RUNES
    && w.end == WindowEnd(runes, w.start)
    && (w.end == |runes| <==> k == |ws| - 1)
    && (k + 1 < |ws| ==> ws[k + 1].start == w.end - OVERLAP_RUNES && ws[k + 1].start >= w.start + 421)
  }

  ghost predicate Cut(runes: string, start: nat, ws: seq<Window>) {
    && ws != [] && ws[0].start == start
    && forall k :: 0 <= k < |ws| ==> CutAt(runes, ws, k)
  }

  lemma {:induction false} WindowsAreCut(runes: string, start: nat)
    requires start < |runes|
    ensures Cut(runes, start, Windows(runes, start))
    decreases |runes| - start
  {
    var end := WindowEnd(runes, start);
    var w := Window(start, end);
    if end == |runes| {
      assert CutAt(runes, [w], 0);
    } else {
      WindowsAreCut(runes, end - OVERLAP_RUNES);
      CutCons(runes, w, Windows(runes, end - OVERLAP_RUNES));
    }
  }

  lemma CutCons(runes: string, w: Window, rest: seq<Window>)
    requires w.start < |runes| && w.end == WindowEnd(runes, w.start) < |runes|
    requires Cut(runes, w.end - OVERLAP_RUNES, rest)
    ensures Cut(runes, w.start, [w] + rest)
  {
    var ws := [w] + rest;
    forall k | 0 <= k < |ws| ensures CutAt(runes, ws, k) {
      if k > 0 {
        assert CutAt(runes, rest, k - 1);
      }
    }
  }

  // ----- how many, how long -----

  lemma {:induction false} StartsGrow(runes: string, ws: seq<Window>, k: nat)
    requires Cut(runes, 0, ws) && k < |ws|
    ensures ws[k].start >= 421 * k
  {
    if k > 0 {
      StartsGrow(runes, ws, k - 1);
      assert CutAt(runes, ws, k - 1);
    }
  }

  /** The last window starts 181 runes or more before the end of the text, once there are two. */
  lemma WindowCount(runes: string, ws: seq<Window>)
    requires Cut(runes, 0, ws)
    ensures |ws| > 1 ==> 421 * (|ws| - 1) <= |runes| - 181
  {
    if |ws| > 1 {
      StartsGrow(runes, ws, |ws| - 1);
      assert CutAt(runes, ws, |ws| - 2);
    }
  }

  lemma {:induction false} KeptBounds(runes: string, ws: seq<Window>)
    ensures |Kept(runes, ws)| <= |ws|
    ensures forall c :: c in Kept(runes, ws) ==> c != "" && Trim(c) == c
  {
    if ws != [] {
      var n := |ws| - 1;
      KeptBounds(runes, ws[..n]);
      TrimIdempotent(ws[n].Of(runes));
    }
  }

  lemma {:induction false} KeptShort(runes: string, ws: seq<Window>)
    requires forall k :: 0 <= k < |ws| ==> ws[k].end <= ws[k].start + CHUNK_RUNES
    ensures forall c :: c in Kept(runes, ws) ==> |c| <= CHUNK_RUNES
  {
    if ws != [] {
      var n := |ws| - 1;
      KeptShort(runes, ws[..n]);
      assert |ws[n].Of(runes)| <= CHUNK_RUNES;
    }
  }

  /** A text of n > 1200 runes yields at most 1 + (n - 181) / 421 chunks. */
  lemma ChunkCount(content: string)
    requires |Trim(content)| > 1200
    ensures |Chunks(content)| <= 1 + (|Trim(content)| - 181) / 421
  {
    var runes := Trim(content);
    WindowsAreCut(runes, 0);
    WindowCount(runes, Windows(runes, 0));
    KeptBounds(runes, Windows(runes, 0));
  }

  /** Every chunk has between 1 and 1200 runes and no space at either end; there is a chunk
      exactly when the text is not blank. */
  lemma ChunkBounds(content: string)
    ensures forall c :: c in Chunks(content) ==> 1 <= |c| <= 1200 && Trim(c) == c
    ensures Chunks(content) != [] <==> Trim(content) != ""
  {
    var runes := Trim(content);
    var ws := Windows(runes, 0);
    KeptBounds(runes, ws);
    if runes != "" {
      WindowsAreCut(runes, 0);
      forall k | 0 <= k < |ws| ensures ws[k].end <= ws[k].start + CHUNK_RUNES {
        assert CutAt(runes, ws, k);
      }
      KeptShort(runes, ws);
      FirstIsKept(runes, ws);
    }
  }

  /** The text is trimmed, so its first window is not blank. */
  lemma FirstIsKept(runes: string, ws: seq<Window>)
    requires Cut(runes, 0, ws) && runes != "" && !IsSpace(runes[0])
    ensures Kept(runes, ws) != []
  {
    assert CutAt(runes, ws, 0);
    var text := ws[0].Of(runes);
    assert text[0] == runes[0];
    NotBlank(text, 0);
    var j := KeptHasWindow(runes, ws, 0, Trim(text));
  }

  lemma NotBlank(s: string, i: nat)
    requires i < |s| && !IsSpace(s[i])
    ensures Trim(s) != ""
  {
    var lo, hi := TrimIsSlice(s);
  }

  lemma KeptGrows(runes: string, ws: seq<Window>, chunk: string)
    requires ws != [] && chunk == Trim(ws[|ws| - 1].Of(runes))
    ensures Kept(runes, ws) == Append(Kept(runes, ws[..|ws| - 1]), chunk)
  {
  }

  lemma {:induction false} KeptHasWindow(runes: string, ws: seq<Window>, k: nat, chunk: string) returns (at: nat)
    requires k < |ws| && chunk == Trim(ws[k].Of(runes)) && chunk != ""
    ensures at < |Kept(runes, ws)| && Kept(runes, ws)[at] == chunk
  {
    var n := |ws| - 1;
    KeptGrows(runes, ws, Trim(ws[n].Of(runes)));
    if k == n {
      at := |Kept(runes, ws[..n])|;
    } else {
      assert ws[..n][k] == ws[k];
      at := KeptHasWindow(runes, ws[..n], k, chunk);
    }
  }

  function Trimmed(runes: string, ws: seq<Window>): (r: seq<string>)
    ensures |r| == |ws| && forall k :: 0 <= k < |ws| ==> r[k] == Trim(ws[k].Of(runes))
  {
    seq(|ws|, k requires 0 <= k < |ws| => Trim(ws[k].Of(runes)))
  }

  /** The chunks are the texts that are not empty, all of them and in order. */
  ghost predicate ArePicked(texts: seq<string>, chunks: seq<string>, at: seq<nat>) {
    && |at| == |chunks|
    && (forall i :: 0 <= i < |at| ==> at[i] < |texts| && chunks[i] == texts[at[i]])
    && (forall i, j :: 0 <= i < j < |at| ==> at[i] < at[j])
    && (forall k :: 0 <= k < |texts| ==> (k in at <==> texts[k] != ""))
  }

  lemma {:induction false} KeptArePicked(runes: string, ws: seq<Window>) returns (at: seq<nat>)
    ensures ArePicked(Trimmed(runes, ws), Kept(runes, ws), at)
  {
    at := [];
    if ws != [] {
      var n := |ws| - 1;
      var before := KeptArePicked(runes, ws[..n]);
      at := OneMorePicked(Trimmed(runes, ws[..n]), Trim(ws[n].Of(runes)), Kept(runes, ws[..n]), before);
      assert Trimmed(runes, ws) == Trimmed(runes, ws[..n]) + [Trim(ws[n].Of(runes))];
    }
  }

  lemma OneMorePicked(texts: seq<string>, text: string, chunks: seq<string>, before: seq<nat>) returns (at: seq<nat>)
    requires ArePicked(texts, chunks, before)
    ensures ArePicked(texts + [text], Append(chunks, text), at)
  {
    at := before;
    if text != "" {
      at := before + [|texts|];
      PlacesGrow(before, |texts|);
    }
    forall k | 0 <= k < |texts + [text]| ensures k in at <==> (texts + [text])[k] != "" {
      assert k in at <==> k in before || (text != "" && k == |texts|);
    }
  }

  lemma PlacesGrow(before: seq<nat>, n: nat)
    requires forall i :: 0 <= i < |before| ==> before[i] < n
    requires forall i, j :: 0 <= i < j < |before| ==> before[i] < before[j]
    ensures var at := before + [n]; forall i, j :: 0 <= i < j < |at| ==> at[i] < at[j]
  {
  }

  /** The windows of a text, by their bounds alone: each is cut as it should be, starts 180 runes before the end of
      the one before, and the last one ends the text. */
  ghost predicate AreBounds(runes: string, ws: seq<Window>) {
    && (runes == "" <==> ws == [])
    && (ws != [] ==> ws[0].start == 0 && ws[|ws| - 1].end == |runes|)
    && (forall k :: 0 <= k < |ws| ==> BoundAt(runes, ws, k))
  }

  ghost predicate BoundAt(runes: string, ws: seq<Window>, k: nat)
    requires k < |ws|
  {
    && ws[k].start < |runes| && ws[k].end == WindowEnd(runes, ws[k].start)
    && (k + 1 < |ws| ==> ws[k].end < |runes| && ws[k + 1].start == ws[k].end - 180)
  }

  /** The chunks of a text are its trimmed windows that are not blank, in order. */
  lemma ChunksAreWindows(content: string) returns (ws: seq<Window>, at: seq<nat>)
    ensures AreBounds(Trim(content), ws) && ArePicked(Trimmed(Trim(content), ws), Chunks(content), at)
  {
    ws := Windows(Trim(content), 0);
    if Trim(content) != "" {
      WindowsAreCut(Trim(content), 0);
      CutIsBounds(Trim(content), ws);
    }
    at := KeptArePicked(Trim(content), ws);
  }

  lemma CutIsBounds(runes: string, ws: seq<Window>)
    requires runes != "" && Cut(runes, 0, ws)
    ensures AreBounds(runes, ws)
  {
    forall k | 0 <= k < |ws| ensures BoundAt(runes, ws, k) {
      assert CutAt(runes, ws, k);
    }
    assert CutAt(runes, ws, |ws| - 1);
  }

  // ----- nothing is lost -----

  /** The windows, each after the first without its first 180 runes, end to end. */
  function Joined(runes: string, ws: seq<Window>): string {
    if ws == [] then ""
    else if |ws| == 1 then ws[0].Of(runes)
    else
      var n := |ws| - 1;
      Joined(runes, ws[..n]) + Window(ws[n].start + OVERLAP_RUNES, ws[n].end).Of(runes)
  }

  lemma {:induction false} JoinedIsPrefix(runes: string, ws: seq<Window>, k: nat)
    requires Cut(runes, 0, ws) && k < |ws|
    ensures ws[k].end <= |runes| && Joined(runes, ws[..k + 1]) == runes[..ws[k].end]
  {
    assert CutAt(runes, ws, k);
    if k > 0 {
      JoinedIsPrefix(runes, ws, k - 1);
      assert CutAt(runes, ws, k - 1);
      assert ws[..k + 1][..k] == ws[..k];
      PrefixGrows(runes, ws[k - 1].end, ws[k].end);
    }
  }

  lemma PrefixGrows(runes: string, a: nat, b: nat)
    requires a <= b <= |runes|
    ensures runes[..a] + runes[a..b] == runes[..b]
  {
  }

  /** No rune is lost and none is repeated beyond the overlap. */
  lemma WindowsReassemble(content: string)
    ensures Joined(Trim(content), Windows(Trim(content), 0)) == Trim(content)
  {
    var runes := Trim(content);
    if runes != "" {
      var ws := Windows(runes, 0);
      WindowsAreCut(runes, 0);
      JoinedIsPrefix(runes, ws, |ws| - 1);
      assert CutAt(runes, ws, |ws| - 1);
      assert ws[..|ws|] == ws && runes[..|runes|] == runes;
    }
  }

  /** The window that holds [a, b): the first that reaches b. */
  lemma {:induction false} HoldingWindow(runes: string, ws: seq<Window>, k: nat, a: nat, b: nat) returns (i: nat)
    requires Cut(runes, 0, ws) && k < |ws| && b <= ws[k].end
    requires a < b && b - a <= OVERLAP_RUNES + 1
    ensures i < |ws| && ws[i].start <= a && b <= ws[i].end
    decreases k
  {
    i := k;
    if k > 0 {
      assert CutAt(runes, ws, k - 1);
      if b <= ws[k - 1].end {
        i := HoldingWindow(runes, ws, k - 1, a, b);
      }
    }
  }

  /** A phrase that starts and ends with a rune that is not space survives the trim. */
  lemma PhraseSurvivesTrim(s: string, a: nat, b: nat) returns (at: nat)
    requires a < b <= |s| && !IsSpace(s[a]) && !IsSpace(s[b - 1])
    ensures at + (b - a) <= |Trim(s)| && Trim(s)[at..at + (b - a)] == s[a..b]
  {
    var lo, hi := TrimIsSlice(s);
    at := a - lo;
    SliceOfSlice(s, lo, hi, a, b);
  }

  lemma PhraseInWindow(runes: string, text: string, lo: nat, hi: nat, a: nat, b: nat) returns (at: nat)
    requires lo <= a < b <= hi <= |runes| && text == runes[lo..hi]
    requires !IsSpace(runes[a]) && !IsSpace(runes[b - 1])
    ensures at + (b - a) <= |Trim(text)| && Trim(text)[at..at + (b - a)] == runes[a..b]
  {
    at := PhraseSurvivesTrim(text, a - lo, b - lo);
    SliceOfSlice(runes, lo, hi, a, b);
  }

  /** Any phrase of the trimmed text of at most 181 runes that starts and ends with a rune that
      is not space lies whole inside one chunk. */
  lemma PhraseInOneChunk(content: string, runes: string, a: nat, b: nat) returns (chunk: string, at: nat)
    requires runes == Trim(content)
    requires a < b <= |runes| && b - a <= 181
    requires !IsSpace(runes[a]) && !IsSpace(runes[b - 1])
    ensures chunk in Chunks(content)
    ensures at + (b - a) <= |chunk| && chunk[at..at + (b - a)] == runes[a..b]
  {
    WindowsAreCut(runes, 0);
    var ws := Windows(runes, 0);
    assert CutAt(runes, ws, |ws| - 1);
    var i := HoldingWindow(runes, ws, |ws| - 1, a, b);
    assert CutAt(runes, ws, i);
    at := PhraseInWindow(runes, ws[i].Of(runes), ws[i].start, ws[i].end, a, b);
    chunk := Trim(ws[i].Of(runes));
    var j := KeptHasWindow(runes, ws, i, chunk);
  }
}
