/** The loop of `/importsound` that collects sound links from the search page:
    starting at 0, it finds the next occurrence of the CDN prefix, takes the
    text from there up to and including the first ".mp3" at or after it, and
    continues the search where that link ends.

    As written, the end of a link is `text.find(".mp3", start) + 4`. When no
    ".mp3" follows the occurrence found, find returns -1: the loop appends
    `text[found:3]` and continues from position 3. If the prefix does not occur
    from 3 on, the loop then ends, and its last entry is not a link but the
    first one to three characters of the prefix (`AsWrittenFragment`).
    Otherwise the scan from 3 reaches an occurrence without ".mp3" again and
    returns to 3, so the loop runs forever, appending "" each round after
    collecting again any links from 3 on (`AsWrittenStalls`).
    `ScanMp3Links` models the loop as written on the pages where it ends
    (`EndsAsWritten`); `SpansOf` is the total definition that stops at an
    unterminated occurrence, and `ScanMp3LinksChecked` is the loop that
    computes it on every page.

    The scan is defined for any start pattern `pre` and non-empty end pattern
    `ext`; `Links` fixes them to the CDN prefix and ".mp3". */
module LinkScanner {
  import opened Gateway

  const Prefix: string := "https://cdn.tuna.voicemod.net/sounds/"
  const Ext: string := ".mp3"

  /** `pat` occurs in `text` at position `i` (`IsAtChars` states it character by character). */
  predicate IsAt(text: string, pat: string, i: nat)
  {
    i + |pat| <= |text| && MatchFrom(text, pat, i, 0)
  }

  /** The characters of `text` from `i + k` on agree with those of `pat` from `k` on. */
  predicate MatchFrom(text: string, pat: string, i: nat, k: nat)
    requires i + |pat| <= |text| && k <= |pat|
    decreases |pat| - k
  {
    k == |pat| || (text[i + k] == pat[k] && MatchFrom(text, pat, i, k + 1))
  }

  lemma {:induction false} MatchFromChars(text: string, pat: string, i: nat, k: nat)
    requires i + |pat| <= |text| && k <= |pat|
    ensures MatchFrom(text, pat, i, k) <==> forall d :: k <= d < |pat| ==> text[i + d] == pat[d]
    decreases |pat| - k
  {
    if k < |pat| {
      MatchFromChars(text, pat, i, k + 1);
    }
  }

  lemma IsAtChars(text: string, pat: string, i: nat)
    ensures IsAt(text, pat, i) <==> i + |pat| <= |text| && forall d :: 0 <= d < |pat| ==> text[i + d] == pat[d]
  {
    if i + |pat| <= |text| {
      MatchFromChars(text, pat, i, 0);
    }
  }

  /** str.find(pat, from): the first position at or after `from` where `pat` occurs, or -1
      (`FindFirst` states that it is the first occurrence). */
  function Find(text: string, pat: string, from: nat): (r: int)
    ensures r == -1 || (from <= r && r + |pat| <= |text|)
    decreases |text| - from
  {
    if from + |pat| > |text| then -1
    else if IsAt(text, pat, from) then from
    else Find(text, pat, from + 1)
  }

  /** `Find` returns an occurrence with none before it, and -1 exactly when there is none at
      or after `from`. */
  lemma {:induction false} FindFirst(text: string, pat: string, from: nat)
    ensures var r := Find(text, pat, from);
      (r != -1 ==> IsAt(text, pat, r) && forall i :: from <= i < r ==> !IsAt(text, pat, i)) &&
      (r == -1 ==> forall i :: from <= i ==> !IsAt(text, pat, i))
    decreases |text| - from
  {
    if from + |pat| <= |text| && !IsAt(text, pat, from) {
      FindFirst(text, pat, from + 1);
    }
  }

  /** The prefix has no '.' followed by 'm', so ".mp3" cannot start inside it. */
  lemma PrefixHasNoDotM()
    ensures forall d :: 0 <= d < |Prefix| && Prefix[d] == '.' ==> d + 1 < |Prefix| && Prefix[d + 1] != 'm'
  {
  }

  /** No '.' followed by 'm' starts inside an occurrence of the prefix. */
  lemma NoDotMInPrefix(text: string, s: nat)
    requires IsAt(text, Prefix, s)
    ensures forall m :: s <= m < s + |Prefix| && m + 1 < |text| ==> !(text[m] == '.' && text[m + 1] == 'm')
  {
    PrefixHasNoDotM();
    IsAtChars(text, Prefix, s);
    forall m | s <= m < s + |Prefix| && m + 1 < |text|
      ensures !(text[m] == '.' && text[m + 1] == 'm')
    {
      var d := m - s;
      assert text[s + d] == Prefix[d];
      if d + 1 < |Prefix| {
        assert text[s + (d + 1)] == Prefix[d + 1];
      }
    }
  }

  /** ".mp3" never overlaps an occurrence of the prefix. */
  lemma ExtAfterPrefix(text: string, s: nat, m: nat)
    requires IsAt(text, Prefix, s) && IsAt(text, Ext, m) && s <= m
    ensures s + |Prefix| <= m
  {
    NoDotMInPrefix(text, s);
    IsAtChars(text, Ext, m);
    assert text[m] == '.' && text[m + 1] == 'm';
  }

  /** One collected link: the text in [start, end). */
  datatype Span = Span(start: nat, end: nat)

  /** `sp` is a link found at or after `from`: it starts at an occurrence of `pre` and ends
      just after the first occurrence of `ext` at or after that position. */
  predicate Collected(text: string, pre: string, ext: string, from: nat, sp: Span)
  {
    from <= sp.start && IsAt(text, pre, sp.start) &&
    Find(text, ext, sp.start) != -1 && sp.end == Find(text, ext, sp.start) + |ext|
  }

  /** The links found from position `from` on, stopping at an occurrence of `pre` that no
      `ext` follows. */
  function SpansOf(text: string, pre: string, ext: string, from: nat): seq<Span>
    requires from <= |text| && ext != []
    decreases |text| - from
  {
    var s := Find(text, pre, from);
    if s < 0 then []
    else
      var m := Find(text, ext, s);
      if m < 0 then [] else [Span(s, m + |ext|)] + SpansOf(text, pre, ext, m + |ext|)
  }

  /** The scan from `from` finds nothing exactly when `pre` does not occur there or no `ext`
      follows it. */
  lemma SpansEmpty(text: string, pre: string, ext: string, from: nat)
    requires from <= |text| && ext != []
    ensures var s := Find(text, pre, from);
      SpansOf(text, pre, ext, from) == [] <==> s == -1 || Find(text, ext, s) == -1
  {
  }

  /** A non-empty scan starts with the span at the next `pre` and the first `ext` after it. */
  lemma SpansHead(text: string, pre: string, ext: string, from: nat)
    requires from <= |text| && ext != [] && SpansOf(text, pre, ext, from) != []
    ensures var s := Find(text, pre, from);
      s != -1 && Find(text, ext, s) != -1 &&
      var e := Find(text, ext, s) + |ext|;
      from <= s < e <= |text| && SpansOf(text, pre, ext, from) == [Span(s, e)] + SpansOf(text, pre, ext, e)
  {
  }

  /** `SpansOf` unfolded where `pre` and an `ext` after it are found. */
  lemma SpansCons(text: string, pre: string, ext: string, from: nat, found: nat, end: nat)
    requires ext != [] && from <= |text|
    requires found == Find(text, pre, from) && Find(text, ext, found) != -1
    requires end == Find(text, ext, found) + |ext|
    ensures from <= found < end <= |text|
    ensures SpansOf(text, pre, ext, from) == [Span(found, end)] + SpansOf(text, pre, ext, end)
  {
  }

  /** Every span found is a link as described by `Collected`. */
  lemma SpansCollected(text: string, pre: string, ext: string, from: nat)
    requires from <= |text| && ext != []
    ensures forall i :: 0 <= i < |SpansOf(text, pre, ext, from)| ==>
      Collected(text, pre, ext, from, SpansOf(text, pre, ext, from)[i])
  {
    forall i | 0 <= i < |SpansOf(text, pre, ext, from)|
      ensures Collected(text, pre, ext, from, SpansOf(text, pre, ext, from)[i])
    {
      SpansCollectedAt(text, pre, ext, from, i);
    }
  }

  lemma {:induction false} SpansCollectedAt(text: string, pre: string, ext: string, from: nat, i: nat)
    requires from <= |text| && ext != [] && i < |SpansOf(text, pre, ext, from)|
    ensures Collected(text, pre, ext, from, SpansOf(text, pre, ext, from)[i])
    decreases |text| - from
  {
    SpansHead(text, pre, ext, from);
    var r := SpansOf(text, pre, ext, from);
    var s := Find(text, pre, from);
    var e := Find(text, ext, s) + |ext|;
    var rest := SpansOf(text, pre, ext, e);
    if i == 0 {
      FindFirst(text, pre, from);
      assert r[0] == Span(s, e);
    } else {
      assert r[i] == rest[i - 1];
      SpansCollectedAt(text, pre, ext, e, i - 1);
    }
  }

  lemma SpanStartsAfter(text: string, pre: string, ext: string, from: nat, i: nat)
    requires from <= |text| && ext != [] && i < |SpansOf(text, pre, ext, from)|
    ensures from <= SpansOf(text, pre, ext, from)[i].start
  {
    SpansCollectedAt(text, pre, ext, from, i);
  }

  /** The links found are in increasing position and do not overlap. */
  lemma SpansOrdered(text: string, pre: string, ext: string, from: nat)
    requires from <= |text| && ext != []
    ensures var r := SpansOf(text, pre, ext, from);
      forall i, j :: 0 <= i < j < |r| ==> r[i].end <= r[j].start
  {
    var r := SpansOf(text, pre, ext, from);
    forall i, j | 0 <= i < j < |r|
      ensures r[i].end <= r[j].start
    {
      SpansOrderedAt(text, pre, ext, from, i, j);
    }
  }

  lemma {:induction false} SpansOrderedAt(text: string, pre: string, ext: string, from: nat, i: nat, j: nat)
    requires from <= |text| && ext != [] && i < j < |SpansOf(text, pre, ext, from)|
    ensures SpansOf(text, pre, ext, from)[i].end <= SpansOf(text, pre, ext, from)[j].start
    decreases |text| - from
  {
    SpansHead(text, pre, ext, from);
    var r := SpansOf(text, pre, ext, from);
    var s := Find(text, pre, from);
    var e := Find(text, ext, s) + |ext|;
    var rest := SpansOf(text, pre, ext, e);
    assert r[j] == rest[j - 1];
    if i > 0 {
      assert r[i] == rest[i - 1];
      SpansOrderedAt(text, pre, ext, e, i - 1, j - 1);
    } else {
      assert r[0] == Span(s, e);
      SpanStartsAfter(text, pre, ext, e, j - 1);
    }
  }

  /** Every occurrence of `pre` at or after `from` that some `ext` follows lies within a
      collected link: either it starts one or it is inside an earlier one. */
  lemma {:induction false} SpansComplete(text: string, pre: string, ext: string, from: nat, q: nat)
    requires from <= |text| && ext != []
    requires from <= q && IsAt(text, pre, q) && Find(text, ext, q) != -1
    ensures var r := SpansOf(text, pre, ext, from);
      exists i :: 0 <= i < |r| && r[i].start <= q < r[i].end
    decreases |text| - from
  {
    NextSpanReaches(text, pre, ext, from, q);
    var s := Find(text, pre, from);
    var e := Find(text, ext, s) + |ext|;
    SpansCons(text, pre, ext, from, s, e);
    var r := SpansOf(text, pre, ext, from);
    if q < e {
      assert r[0].start <= q < r[0].end;
    } else {
      SpansComplete(text, pre, ext, e, q);
      var rest := SpansOf(text, pre, ext, e);
      var i :| 0 <= i < |rest| && rest[i].start <= q < rest[i].end;
      assert r[i + 1] == rest[i];
    }
  }

  /** When `pre` occurs at `q` with an `ext` after it, the scan from `from <= q` finds `pre`
      at or before `q`, and an `ext` no later than the first one after `q`. */
  lemma NextSpanReaches(text: string, pre: string, ext: string, from: nat, q: nat)
    requires from <= q && IsAt(text, pre, q) && Find(text, ext, q) != -1
    ensures var s := Find(text, pre, from);
      s != -1 && s <= q && Find(text, ext, s) != -1 && Find(text, ext, s) <= Find(text, ext, q)
  {
    FindFirst(text, pre, from);
    var s := Find(text, pre, from);
    FindFirst(text, ext, s);
    FindFirst(text, ext, q);
  }

  /** Every span lies within the text. */
  predicate SpansFit(text: string, spans: seq<Span>)
  {
    forall i :: 0 <= i < |spans| ==> spans[i].start <= spans[i].end <= |text|
  }

  /** The strings text[start:end] of the given spans. */
  function Slices(text: string, spans: seq<Span>): (r: seq<string>)
    requires SpansFit(text, spans)
    ensures |r| == |spans|
  {
    seq(|spans|, i requires 0 <= i < |spans| => text[spans[i].start..spans[i].end])
  }

  lemma SlicesAppend(text: string, spans: seq<Span>, sp: Span)
    requires SpansFit(text, spans) && sp.start <= sp.end <= |text|
    ensures SpansFit(text, spans + [sp])
    ensures Slices(text, spans + [sp]) == Slices(text, spans) + [text[sp.start..sp.end]]
  {
    var all := spans + [sp];
    assert forall i :: 0 <= i < |spans| ==> all[i] == spans[i];
  }

  /** Every span found lies within the text, and is non-empty. */
  lemma SpansInText(text: string, pre: string, ext: string, from: nat)
    requires from <= |text| && ext != []
    ensures var r := SpansOf(text, pre, ext, from);
      SpansFit(text, r) && forall i :: 0 <= i < |r| ==> from <= r[i].start < r[i].end
  {
    var r := SpansOf(text, pre, ext, from);
    forall i | 0 <= i < |r|
      ensures from <= r[i].start < r[i].end <= |text|
    {
      SpansCollectedAt(text, pre, ext, from, i);
    }
  }

  /** The links the scan of a page collects. */
  function Links(text: string): seq<string>
  {
    SpansInText(text, Prefix, Ext, 0);
    Slices(text, SpansOf(text, Prefix, Ext, 0))
  }

  /** The slice of `text` in [a, b) starts with `pre` when `pre` occurs at `a`. */
  lemma SliceStartsWith(text: string, pre: string, a: nat, b: nat)
    requires a <= b <= |text| && IsAt(text, pre, a) && a + |pre| <= b
    ensures text[a..b][..|pre|] == pre
  {
    IsAtChars(text, pre, a);
    assert text[a..b][..|pre|] == pre;
  }

  /** The slice of `text` in [a, b) ends with `ext` when `ext` occurs at b - |ext|, and holds no
      earlier occurrence of it when `text` has none in [a, b - |ext|). */
  lemma SliceEndsWith(text: string, ext: string, a: nat, b: nat)
    requires a + |ext| <= b <= |text| && IsAt(text, ext, b - |ext|)
    requires forall j :: a <= j < b - |ext| ==> !IsAt(text, ext, j)
    ensures var l := text[a..b];
      l[|l| - |ext|..] == ext && forall j :: 0 <= j < |l| - |ext| ==> !IsAt(l, ext, j)
  {
    var l := text[a..b];
    IsAtChars(text, ext, b - |ext|);
    assert l[|l| - |ext|..] == ext;
    forall j | 0 <= j < |l| - |ext|
      ensures !IsAt(l, ext, j)
    {
      assert !IsAt(text, ext, a + j);
      IsAtChars(text, ext, a + j);
      IsAtChars(l, ext, j);
    }
  }

  /** Each collected link starts with the CDN prefix, ends with ".mp3" and contains no
      earlier ".mp3". */
  lemma LinkShape(text: string, i: nat)
    requires i < |Links(text)|
    ensures var l := Links(text)[i];
      |Prefix| + |Ext| <= |l| && l[..|Prefix|] == Prefix && l[|l| - |Ext|..] == Ext &&
      forall j :: 0 <= j < |l| - |Ext| ==> !IsAt(l, Ext, j)
  {
    var sp := SpansOf(text, Prefix, Ext, 0)[i];
    SpansCollectedAt(text, Prefix, Ext, 0, i);
    var m := Find(text, Ext, sp.start);
    FindFirst(text, Ext, sp.start);
    ExtAfterPrefix(text, sp.start, m);
    assert Links(text)[i] == text[sp.start..sp.end];
    SliceStartsWith(text, Prefix, sp.start, sp.end);
    SliceEndsWith(text, Ext, sp.start, sp.end);
  }

  /** Every occurrence of `pre` is followed, at or after it, by `ext`: the pages on which the
      loop as written collects only links. */
  predicate EveryPrefixTerminated(text: string, pre: string, ext: string)
  {
    forall q :: 0 <= q < |text| && IsAt(text, pre, q) ==> Find(text, ext, q) != -1
  }

  /** The loop state after some iterations: `done` are the spans collected so far, the rest
      of the scan continues from `start`, and `links` holds the strings of `done`. */
  predicate ScanState(text: string, pre: string, ext: string, done: seq<Span>, start: nat, links: seq<string>)
    requires ext != []
  {
    start <= |text| && SpansFit(text, done) && SpansOf(text, pre, ext, 0) == done + SpansOf(text, pre, ext, start) &&
    links == Slices(text, done)
  }

  /** An iteration that finds `pre` and an `ext` after it collects the next span and keeps
      `ScanState`. */
  lemma ScanAdvance(text: string, pre: string, ext: string, done: seq<Span>, start: nat, links: seq<string>,
                    found: nat, end: nat)
    requires ext != [] && ScanState(text, pre, ext, done, start, links)
    requires found == Find(text, pre, start) && Find(text, ext, found) != -1
    requires end == Find(text, ext, found) + |ext|
    ensures found <= end <= |text| && start < end
    ensures ScanState(text, pre, ext, done + [Span(found, end)], end, links + [text[found..end]])
  {
    SpansAdvance(text, pre, ext, done, start, found, end);
    SlicesAppend(text, done, Span(found, end));
  }

  lemma SpansAdvance(text: string, pre: string, ext: string, done: seq<Span>, start: nat, found: nat, end: nat)
    requires ext != [] && start <= |text| && SpansOf(text, pre, ext, 0) == done + SpansOf(text, pre, ext, start)
    requires found == Find(text, pre, start) && Find(text, ext, found) != -1
    requires end == Find(text, ext, found) + |ext|
    ensures found <= end <= |text| && start < end
    ensures SpansOf(text, pre, ext, 0) == (done + [Span(found, end)]) + SpansOf(text, pre, ext, end)
  {
    SpansCons(text, pre, ext, start, found, end);
    ConcatAssoc(done, [Span(found, end)], SpansOf(text, pre, ext, end));
  }

  /** Associativity of concatenation, kept out of `SpansAdvance`, where the solver would look
      for it among the facts about `SpansOf`. */
  lemma ConcatAssoc(a: seq<Span>, b: seq<Span>, c: seq<Span>)
    ensures a + (b + c) == (a + b) + c
  {
  }

  /** An iteration that finds no `pre`, or no `ext` after it, ends the scan with all the links. */
  lemma ScanFinish(text: string, pre: string, ext: string, done: seq<Span>, start: nat, links: seq<string>)
    requires ext != [] && ScanState(text, pre, ext, done, start, links)
    requires Find(text, pre, start) == -1 || Find(text, ext, Find(text, pre, start)) == -1
    ensures links == Slices(text, SpansOf(text, pre, ext, 0))
  {
    SpansEmpty(text, pre, ext, start);
    assert SpansOf(text, pre, ext, 0) == done;
  }

  /** The loop as written ends on `text`: every prefix occurrence at position 3 or later is
      followed by ".mp3". */
  predicate EndsAsWritten(text: string)
  {
    forall q :: 3 <= q < |text| && IsAt(text, Prefix, q) ==> Find(text, Ext, q) != -1
  }

  /** Where the scan from `from` stops: the first occurrence of `pre` it reaches that no `ext`
      follows, or -1 when it runs out of `pre`. */
  function StopOf(text: string, pre: string, ext: string, from: nat): (r: int)
    requires from <= |text| && ext != []
    ensures r == -1 || from <= r
    decreases |text| - from
  {
    var s := Find(text, pre, from);
    if s < 0 then -1
    else
      var m := Find(text, ext, s);
      if m < 0 then s else StopOf(text, pre, ext, m + |ext|)
  }

  /** The scan stops either for want of `pre` or at an occurrence of `pre` without `ext`. */
  lemma {:induction false} StopOfUnterminated(text: string, pre: string, ext: string, from: nat)
    requires from <= |text| && ext != []
    ensures var r := StopOf(text, pre, ext, from);
      r == -1 || (IsAt(text, pre, r) && Find(text, ext, r) == -1)
    decreases |text| - from
  {
    var s := Find(text, pre, from);
    FindFirst(text, pre, from);
    if s >= 0 && Find(text, ext, s) >= 0 {
      StopOfUnterminated(text, pre, ext, Find(text, ext, s) + |ext|);
    }
  }

  /** What the loop as written collects on a page where it ends: the links, then, when the
      scan stopped at a prefix occurrence without ".mp3", the slice `text[stop:3]` that the
      failed search (-1 + 4) leaves. */
  function LinksAsWritten(text: string): seq<string>
  {
    var stop := StopOf(text, Prefix, Ext, 0);
    Links(text) + (if stop == -1 then [] else [PySlice(text, stop, 3)])
  }

  /** An `ext` at or after `b` is also one at or after any `a <= b`. */
  lemma TerminatedFrom(text: string, ext: string, a: nat, b: nat)
    requires a <= b && Find(text, ext, b) != -1
    ensures Find(text, ext, a) != -1
  {
    FindFirst(text, ext, b);
    FindFirst(text, ext, a);
  }

  /** On a page where the loop as written ends, a prefix occurrence without ".mp3" lies before
      position 3, and the prefix does not occur from 3 on. */
  lemma NothingAfterCut(text: string, found: nat)
    requires EndsAsWritten(text) && IsAt(text, Prefix, found) && Find(text, Ext, found) == -1
    ensures found < 3 && Find(text, Prefix, 3) == -1
  {
    FindFirst(text, Prefix, 3);
    var r := Find(text, Prefix, 3);
    if r != -1 {
      TerminatedFrom(text, Ext, found, r);
    }
  }

  /** The state of the loop as written: either it is still collecting links, with the scan
      from `start` stopping where the scan from 0 does, or it has appended the fragment, returned
      to 3 and will find no prefix there. */
  predicate AsWrittenState(text: string, done: seq<Span>, start: nat, links: seq<string>)
  {
    (ScanState(text, Prefix, Ext, done, start, links) &&
     StopOf(text, Prefix, Ext, 0) == StopOf(text, Prefix, Ext, start)) ||
    (start == 3 <= |text| && Find(text, Prefix, 3) == -1 && links == LinksAsWritten(text))
  }

  /** One iteration of the loop as written that finds the prefix keeps `AsWrittenState`. */
  lemma AsWrittenStep(text: string, done: seq<Span>, start: nat, links: seq<string>, found: nat, end: int)
    requires EndsAsWritten(text) && AsWrittenState(text, done, start, links)
    requires found == Find(text, Prefix, start) && end == Find(text, Ext, found) + 4
    ensures start < end <= |text|
    ensures AsWrittenState(text, if end == 3 then done else done + [Span(found, end)], end,
                           links + [PySlice(text, found, end)])
  {
    assert ScanState(text, Prefix, Ext, done, start, links) &&
           StopOf(text, Prefix, Ext, 0) == StopOf(text, Prefix, Ext, start);
    if Find(text, Ext, found) == -1 {
      AsWrittenCut(text, done, start, links, found);
    } else {
      AsWrittenAdvance(text, done, start, links, found, end);
    }
  }

  /** The iteration that finds a prefix without ".mp3" appends the fragment and returns to 3. */
  lemma AsWrittenCut(text: string, done: seq<Span>, start: nat, links: seq<string>, found: nat)
    requires EndsAsWritten(text) && ScanState(text, Prefix, Ext, done, start, links)
    requires StopOf(text, Prefix, Ext, 0) == StopOf(text, Prefix, Ext, start)
    requires found == Find(text, Prefix, start) && Find(text, Ext, found) == -1
    ensures start < 3 <= |text|
    ensures AsWrittenState(text, done, 3, links + [PySlice(text, found, 3)])
  {
    FindFirst(text, Prefix, start);
    NothingAfterCut(text, found);
    SpansEmpty(text, Prefix, Ext, start);
    assert SpansOf(text, Prefix, Ext, 0) == done;
    assert links + [PySlice(text, found, 3)] == LinksAsWritten(text);
  }

  /** The iteration that finds a prefix and a ".mp3" after it collects the next link. */
  lemma AsWrittenAdvance(text: string, done: seq<Span>, start: nat, links: seq<string>, found: nat, end: int)
    requires ScanState(text, Prefix, Ext, done, start, links)
    requires found == Find(text, Prefix, start) && Find(text, Ext, found) != -1
    requires end == Find(text, Ext, found) + 4
    ensures 3 < end && start < end <= |text|
    ensures ScanState(text, Prefix, Ext, done + [Span(found, end)], end, links + [PySlice(text, found, end)])
    ensures StopOf(text, Prefix, Ext, start) == StopOf(text, Prefix, Ext, end)
  {
    ScanAdvance(text, Prefix, Ext, done, start, links, found, end);
    PySliceWithin(text, found, end);
    StopAdvance(text, Prefix, Ext, start, end);
  }

  /** A scan step past a complete link does not move the place where the scan stops. */
  lemma StopAdvance(text: string, pre: string, ext: string, start: nat, end: nat)
    requires ext != [] && start <= |text| && Find(text, pre, start) != -1
    requires Find(text, ext, Find(text, pre, start)) != -1
    requires end == Find(text, ext, Find(text, pre, start)) + |ext|
    ensures end <= |text| && StopOf(text, pre, ext, start) == StopOf(text, pre, ext, end)
  {
  }

  /** Python's slice with bounds inside the text is Dafny's. */
  lemma PySliceWithin(text: string, a: nat, b: int)
    requires a <= b <= |text|
    ensures PySlice(text, a, b) == text[a..b]
  {
  }

  /** An iteration that finds no prefix ends the loop as written with `LinksAsWritten`. */
  lemma AsWrittenFinish(text: string, done: seq<Span>, start: nat, links: seq<string>)
    requires AsWrittenState(text, done, start, links) && Find(text, Prefix, start) == -1
    ensures links == LinksAsWritten(text)
  {
    if ScanState(text, Prefix, Ext, done, start, links) &&
       StopOf(text, Prefix, Ext, 0) == StopOf(text, Prefix, Ext, start) {
      ScanFinish(text, Prefix, Ext, done, start, links);
    }
  }

  /** The scanning loop of import_sound, as written, on a page where it ends. */
  method ScanMp3Links(text: string) returns (mp3Links: seq<string>)
    requires EndsAsWritten(text)
    ensures mp3Links == LinksAsWritten(text)
  {
    mp3Links := [];
    ghost var done: seq<Span> := [];
    var start := 0;
    while true
      invariant AsWrittenState(text, done, start, mp3Links)
      decreases |text| - start
    {
      var found := Find(text, Prefix, start);
      if found == -1 {
        AsWrittenFinish(text, done, start, mp3Links);
        break;
      }
      var end := Find(text, Ext, found) + 4;
      AsWrittenStep(text, done, start, mp3Links, found, end);
      mp3Links := mp3Links + [PySlice(text, found, end)];
      done := if end == 3 then done else done + [Span(found, end)];
      start := end;
    }
  }

  /** On a page where every prefix occurrence is followed by ".mp3", the loop as written
      ends and collects exactly the links. */
  lemma AsWrittenAgreesWhenTerminated(text: string)
    requires EveryPrefixTerminated(text, Prefix, Ext)
    ensures EndsAsWritten(text) && LinksAsWritten(text) == Links(text)
  {
    StopOfUnterminated(text, Prefix, Ext, 0);
  }

  /** When the loop as written ends after a prefix occurrence without ".mp3", its last entry is
      not a link but the first one to three characters of the prefix. */
  lemma AsWrittenFragment(text: string)
    requires EndsAsWritten(text) && StopOf(text, Prefix, Ext, 0) != -1
    ensures var stop := StopOf(text, Prefix, Ext, 0);
      stop < 3 && LinksAsWritten(text) == Links(text) + [Prefix[..3 - stop]]
  {
    var stop := StopOf(text, Prefix, Ext, 0);
    StopOfUnterminated(text, Prefix, Ext, 0);
    NothingAfterCut(text, stop);
    IsAtChars(text, Prefix, stop);
    var cut, head := text[stop..3], Prefix[..3 - stop];
    assert PySlice(text, stop, 3) == cut;
    assert forall d :: 0 <= d < 3 - stop ==> cut[d] == text[stop + d] == head[d];
    assert cut == head;
  }

  /** The scanning loop with the result of the ".mp3" search checked: it stops at the first
      prefix occurrence that no ".mp3" follows, and so ends on every page. */
  method ScanMp3LinksChecked(text: string) returns (mp3Links: seq<string>)
    ensures mp3Links == Links(text)
  {
    mp3Links := [];
    ghost var done: seq<Span> := [];
    var start := 0;
    while true
      invariant ScanState(text, Prefix, Ext, done, start, mp3Links)
      decreases |text| - start
    {
      var found := Find(text, Prefix, start);
      if found == -1 {
        ScanFinish(text, Prefix, Ext, done, start, mp3Links);
        break;
      }
      var ext := Find(text, Ext, found);
      if ext == -1 {
        ScanFinish(text, Prefix, Ext, done, start, mp3Links);
        break;
      }
      var end := ext + 4;
      ScanAdvance(text, Prefix, Ext, done, start, mp3Links, found, end);
      mp3Links := mp3Links + [text[found..end]];
      done := done + [Span(found, end)];
      start := end;
    }
  }

  /** Python's text[a:b] for non-negative bounds. */
  function PySlice(text: string, a: nat, b: int): (r: string)
    ensures |r| <= |text|
  {
    var hi := if b < |text| then b else |text|;
    if hi <= a then [] else text[a..hi]
  }

  /** One iteration of the loop as written, from `start`: None when it breaks, otherwise the
      string it appends and the next value of `start`. */
  function StepAsWritten(text: string, start: nat): Option<(string, int)>
  {
    var s := Find(text, Prefix, start);
    if s == -1 then None
    else
      var end := Find(text, Ext, s) + 4;
      Some((PySlice(text, s, end), end))
  }

  /** When the first prefix occurrence at or after position 3 has no ".mp3" after it, the loop
      as written returns to start = 3 with an empty link: it appends "" forever. */
  lemma AsWrittenStallsAt3(text: string, q: nat)
    requires q >= 3 && Find(text, Prefix, 3) == q && Find(text, Ext, q) == -1
    ensures StepAsWritten(text, 3) == Some(([], 3))
  {
  }

  /** A concrete page that makes the loop as written run forever: "abc" followed by a bare
      prefix. The first iteration moves start from 0 to 3, and start stays 3 from then on. */
  lemma AsWrittenStalls()
    ensures StepAsWritten("abc" + Prefix, 0) == Some(([], 3))
    ensures StepAsWritten("abc" + Prefix, 3) == Some(([], 3))
  {
    var text := "abc" + Prefix;
    StallPagePrefix(text);
    StallPageNoExt(text);
    AsWrittenStallsAt3(text, 3);
  }

  /** A page on which the loop as written ends with a fragment instead of a link: the bare
      prefix followed by "x". The first iteration appends "htt" and moves start to 3; the
      second finds no prefix and breaks. */
  lemma AsWrittenEndsWithFragment()
    ensures StepAsWritten(Prefix + "x", 0) == Some(("htt", 3))
    ensures StepAsWritten(Prefix + "x", 3) == None
  {
    var text := Prefix + "x";
    IsAtStart(Prefix, "x");
    assert Find(text, Prefix, 0) == 0;
    FindFirst(text, Ext, 0);
    if Find(text, Ext, 0) != -1 {
      ExtAfterPrefix(text, 0, Find(text, Ext, 0));
    }
    assert text[0] == 'h' && text[1] == 't' && text[2] == 't';
    assert PySlice(text, 0, 3) == "htt";
  }

  /** A pattern occurs at the start of a text that begins with it. */
  lemma IsAtStart(pat: string, b: string)
    ensures IsAt(pat + b, pat, 0)
  {
    IsAtChars(pat + b, pat, 0);
    assert forall d :: 0 <= d < |pat| ==> (pat + b)[d] == pat[d];
  }

  /** In "abc" followed by the prefix, the prefix is first found at 3, from 0 and from 3. */
  lemma StallPagePrefix(text: string)
    requires text == "abc" + Prefix
    ensures Find(text, Prefix, 0) == 3 && Find(text, Prefix, 3) == 3
  {
    IsAtEnd("abc", Prefix);
    NotAt(text, Prefix, 0);
    NotAt(text, Prefix, 1);
    NotAt(text, Prefix, 2);
    FindFirst(text, Prefix, 0);
  }

  /** A pattern occurs at the end of a text that ends with it. */
  lemma IsAtEnd(a: string, pat: string)
    ensures IsAt(a + pat, pat, |a|)
  {
    IsAtChars(a + pat, pat, |a|);
    assert forall d :: 0 <= d < |pat| ==> (a + pat)[|a| + d] == pat[d];
  }

  /** A non-empty pattern does not occur where its first character is missing. */
  lemma NotAt(text: string, pat: string, i: nat)
    requires i < |text| && pat != [] && text[i] != pat[0]
    ensures !IsAt(text, pat, i)
  {
  }

  /** In "abc" followed by the prefix, no ".mp3" occurs from 3 on. */
  lemma StallPageNoExt(text: string)
    requires text == "abc" + Prefix
    ensures Find(text, Ext, 3) == -1
  {
    IsAtChars(text, Prefix, 3);
    FindFirst(text, Ext, 3);
    if Find(text, Ext, 3) != -1 {
      ExtAfterPrefix(text, 3, Find(text, Ext, 3));
    }
  }
}
