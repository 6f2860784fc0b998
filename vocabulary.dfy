/** Vocabulary correction (src-tauri/src/vocabulary.rs): the user's
    phrase -> replacement list, the case-transfer rule, and the rewrite of a
    transcript entry by entry with a log of the corrections made. The JSON
    file behind the list is an in-memory sequence here. */
module Vocabulary {
  import opened Text
  import opened Seqs
  import opened Wrappers

  datatype VocabEntry = VocabEntry(id: nat, phrase: string, replacement: string, enabled: bool)

  datatype CorrectionApplied = CorrectionApplied(original: string, replacement: string, position: nat)

  datatype CorrectionResult = CorrectionResult(text: string, corrections: seq<CorrectionApplied>)

  /** One regex match: the byte span `start..end` of the current text. */
  datatype Span = Span(start: nat, end: nat)

  /** A match with the replacement chosen for it: `(usize, usize, String)`. */
  datatype Match = Match(start: nat, end: nat, replacement: string)

  // ---------------------------------------------------------------- apply_case

  /** Every letter of `m` is upper case and there is at least one letter. */
  predicate AllCaps(m: string)
  {
    (forall k :: 0 <= k < |m| ==> !IsAlphabetic(m[k]) || IsUppercase(m[k])) &&
    (exists k :: 0 <= k < |m| && IsAlphabetic(m[k]))
  }

  predicate StartsUpper(m: string)
  {
    |m| > 0 && IsUppercase(m[0])
  }

  /** Transfers the case pattern of the matched text onto the replacement:
      ALL CAPS stays all caps, a capitalised match capitalises the first
      character, anything else keeps the replacement as written. */
  function ApplyCase(matched: string, replacement: string): string
  {
    if AllCaps(matched) then ToUpperStr(replacement)
    else if StartsUpper(matched) then
      if replacement == [] then [] else [ToUpper(replacement[0])] + replacement[1..]
    else replacement
  }

  /** Only the case of the replacement's letters ever changes. */
  lemma ApplyCaseKeepsLetters(matched: string, replacement: string)
    ensures |ApplyCase(matched, replacement)| == |replacement|
    ensures ToLowerStr(ApplyCase(matched, replacement)) == ToLowerStr(replacement)
  {
    var r := ApplyCase(matched, replacement);
    if AllCaps(matched) {
      forall k | 0 <= k < |r| ensures ToLowerStr(r)[k] == ToLowerStr(replacement)[k] {
        LowerOfUpper(replacement[k]);
      }
    } else if StartsUpper(matched) && replacement != [] {
      forall k | 0 <= k < |r| ensures ToLowerStr(r)[k] == ToLowerStr(replacement)[k] {
        if k == 0 { LowerOfUpper(replacement[0]); } else { assert r[k] == replacement[k]; }
      }
    }
  }

  /** The case follows the matched text: an all-caps match gives an all-caps
      replacement, a capitalised match a capitalised one, anything else the
      replacement as written. */
  lemma ApplyCaseFollowsMatch(matched: string, replacement: string)
    ensures AllCaps(matched) ==>
              forall k :: 0 <= k < |ApplyCase(matched, replacement)| ==> !IsAsciiLower(ApplyCase(matched, replacement)[k])
    ensures !AllCaps(matched) && StartsUpper(matched) && replacement != [] ==>
              !IsAsciiLower(ApplyCase(matched, replacement)[0]) &&
              ApplyCase(matched, replacement)[1..] == replacement[1..]
    ensures !AllCaps(matched) && !StartsUpper(matched) ==> ApplyCase(matched, replacement) == replacement
  {
    var r := ApplyCase(matched, replacement);
    if AllCaps(matched) {
      assert r == ToUpperStr(replacement);
    } else if StartsUpper(matched) && replacement != [] {
      assert r == [ToUpper(replacement[0])] + replacement[1..];
    }
  }

  lemma ApplyCaseLowercase()
    ensures ApplyCase("teh", "the") == "the"
  {
  }

  lemma ApplyCaseTitleCase()
    ensures ApplyCase("Teh", "the") == "The"
  {
    assert !AllCaps("Teh") by { assert !IsUppercase("Teh"[1]) && IsAlphabetic("Teh"[1]); }
  }

  lemma ApplyCaseAllCaps()
    ensures ApplyCase("TEH", "the") == "THE"
  {
    assert AllCaps("TEH") by { assert IsAlphabetic("TEH"[0]); }
  }

  // ------------------------------------------------------------ regex matching

  /** `\b`: a word character on exactly one side of position `i`. */
  predicate BoundaryAt(t: string, i: nat)
    requires i <= |t|
  {
    (i > 0 && IsWordChar(t[i - 1])) != (i < |t| && IsWordChar(t[i]))
  }

  /** `(?i)\b<phrase>\b` matches `t` at `i`: a case-insensitive copy of the
      phrase that starts and ends on a word boundary. */
  predicate MatchesAt(t: string, p: string, i: nat)
  {
    i + |p| <= |t| && BoundaryAt(t, i) && BoundaryAt(t, i + |p|) &&
    ToLowerStr(t[i..i + |p|]) == ToLowerStr(p)
  }

  /** How far the search moves past a match: an empty match advances by one. */
  function Step(p: string): nat
  {
    if |p| == 0 then 1 else |p|
  }

  /** `Regex::find_iter` from position `from`: leftmost, non-overlapping
      matches, each a whole-word case-insensitive occurrence of the phrase. */
  function FindFrom(t: string, p: string, from: nat): (r: seq<Span>)
    requires from <= |t| + 1
    ensures forall k :: 0 <= k < |r| ==> from <= r[k].start && r[k].end == r[k].start + |p| <= |t|
    decreases |t| + 1 - from
  {
    if from > |t| then []
    else if MatchesAt(t, p, from) then [Span(from, from + |p|)] + FindFrom(t, p, from + Step(p))
    else FindFrom(t, p, from + 1)
  }

  /** Every reported span is a whole-word, case-insensitive occurrence. */
  lemma {:induction false} FindFromSound(t: string, p: string, from: nat)
    requires from <= |t| + 1
    ensures forall k :: 0 <= k < |FindFrom(t, p, from)| ==> MatchesAt(t, p, FindFrom(t, p, from)[k].start)
    decreases |t| + 1 - from
  {
    if from <= |t| {
      var r := FindFrom(t, p, from);
      if MatchesAt(t, p, from) {
        var r' := FindFrom(t, p, from + Step(p));
        FindFromSound(t, p, from + Step(p));
        assert r == [Span(from, from + |p|)] + r';
        forall k | 0 <= k < |r| ensures MatchesAt(t, p, r[k].start) {
          if k > 0 { assert r[k] == r'[k - 1]; }
        }
      } else {
        FindFromSound(t, p, from + 1);
      }
    }
  }

  /** Consecutive reports are at least one search step apart. */
  ghost predicate Spaced(r: seq<Span>, step: nat)
  {
    forall j, k :: 0 <= j < k < |r| ==> r[j].start + step <= r[k].start
  }

  lemma SpacedCons(s: Span, r: seq<Span>, step: nat)
    requires Spaced(r, step)
    requires forall k :: 0 <= k < |r| ==> s.start + step <= r[k].start
    ensures Spaced([s] + r, step)
  {
    var r' := [s] + r;
    forall j, k | 0 <= j < k < |r'| ensures r'[j].start + step <= r'[k].start {
      assert r'[k] == r[k - 1];
      if j > 0 { assert r'[j] == r[j - 1]; }
    }
  }

  /** Reported matches are in increasing order and never overlap. */
  lemma {:induction false} FindFromOrdered(t: string, p: string, from: nat)
    requires from <= |t| + 1
    ensures Spaced(FindFrom(t, p, from), Step(p))
    decreases |t| + 1 - from
  {
    if from <= |t| {
      var r := FindFrom(t, p, from);
      if MatchesAt(t, p, from) {
        var r' := FindFrom(t, p, from + Step(p));
        FindFromOrdered(t, p, from + Step(p));
        assert r == [Span(from, from + |p|)] + r';
        SpacedCons(Span(from, from + |p|), r', Step(p));
      } else {
        assert r == FindFrom(t, p, from + 1);
        FindFromOrdered(t, p, from + 1);
      }
    }
  }

  /** Position `i` is reported or lies inside a reported match. */
  ghost predicate Covers(r: seq<Span>, i: nat, step: nat)
  {
    exists k :: 0 <= k < |r| && r[k].start <= i < r[k].start + step
  }

  lemma CoversCons(s: Span, r: seq<Span>, i: nat, step: nat)
    requires Covers(r, i, step)
    ensures Covers([s] + r, i, step)
  {
    var k :| 0 <= k < |r| && r[k].start <= i < r[k].start + step;
    assert ([s] + r)[k + 1] == r[k];
  }

  /** No occurrence is missed: every position where the phrase occurs as a
      whole word is reported or lies inside a reported match. */
  lemma {:induction false} FindFromComplete(t: string, p: string, from: nat, i: nat)
    requires from <= i <= |t| && MatchesAt(t, p, i)
    ensures Covers(FindFrom(t, p, from), i, Step(p))
    decreases |t| + 1 - from
  {
    if MatchesAt(t, p, from) {
      if from + Step(p) <= i {
        FindFromComplete(t, p, from + Step(p), i);
      }
      CoveredAtMatch(t, p, from, i);
    } else {
      assert from != i;
      FindFromComplete(t, p, from + 1, i);
      assert FindFrom(t, p, from) == FindFrom(t, p, from + 1);
    }
  }

  /** The step of `FindFromComplete` at a reported match. */
  lemma CoveredAtMatch(t: string, p: string, from: nat, i: nat)
    requires from <= i <= |t| && MatchesAt(t, p, from)
    requires from + Step(p) <= i ==> Covers(FindFrom(t, p, from + Step(p)), i, Step(p))
    ensures Covers(FindFrom(t, p, from), i, Step(p))
  {
    var s0 := Span(from, from + |p|);
    var r := FindFrom(t, p, from);
    var r' := FindFrom(t, p, from + Step(p));
    assert r == [s0] + r';
    if i < from + Step(p) {
      assert r[0] == s0 && r[0].start <= i < r[0].start + Step(p);
    } else {
      CoversCons(s0, r', i, Step(p));
    }
  }

  function FindMatches(t: string, p: string): seq<Span>
  {
    FindFrom(t, p, 0)
  }

  /** Matches never overlap and lie inside the text, in increasing order. */
  ghost predicate WellFormed(t: string, ms: seq<Match>)
  {
    (forall k :: 0 <= k < |ms| ==> ms[k].start <= ms[k].end <= |t|) &&
    (forall j, k :: 0 <= j < k < |ms| ==> ms[j].end <= ms[k].start)
  }

  /** Every span lies inside the text. */
  ghost predicate InText(t: string, spans: seq<Span>)
  {
    forall k :: 0 <= k < |spans| ==> spans[k].start <= spans[k].end <= |t|
  }

  /** A found span with the replacement cased after the text it covers. */
  function ToMatch(t: string, replacement: string, s: Span): Match
    requires s.start <= s.end <= |t|
  {
    Match(s.start, s.end, ApplyCase(t[s.start..s.end], replacement))
  }

  /** Each span in turn, paired with its case-adjusted replacement. */
  function WithReplacements(t: string, replacement: string, spans: seq<Span>): (ms: seq<Match>)
    requires InText(t, spans)
    ensures |ms| == |spans|
    decreases |spans|
  {
    if spans == [] then []
    else
      var init := spans[..|spans| - 1];
      assert InText(t, init) by {
        forall k | 0 <= k < |init| ensures init[k].start <= init[k].end <= |t| {
          assert init[k] == spans[k];
        }
      }
      WithReplacements(t, replacement, init) + [ToMatch(t, replacement, spans[|spans| - 1])]
  }

  lemma {:induction false} WithReplacementsAt(t: string, replacement: string, spans: seq<Span>, j: nat)
    requires InText(t, spans) && j < |spans|
    ensures WithReplacements(t, replacement, spans)[j] == ToMatch(t, replacement, spans[j])
    decreases |spans|
  {
    var init := spans[..|spans| - 1];
    if j < |init| {
      assert init[j] == spans[j];
      WithReplacementsAt(t, replacement, init, j);
    }
  }

  lemma FoundInText(t: string, p: string)
    ensures InText(t, FindMatches(t, p))
  {
    var spans := FindMatches(t, p);
    forall k | 0 <= k < |spans| ensures spans[k].start <= spans[k].end <= |t| {
    }
  }

  /** The matches of one entry in the current text, each with its case-adjusted replacement. */
  function EntryMatches(t: string, e: VocabEntry): (ms: seq<Match>)
    ensures |ms| == |FindMatches(t, e.phrase)|
    ensures WellFormed(t, ms)
  {
    var spans := FindMatches(t, e.phrase);
    FoundInText(t, e.phrase);
    FindFromOrdered(t, e.phrase, 0);
    var ms := WithReplacements(t, e.replacement, spans);
    assert WellFormed(t, ms) by {
      forall k | 0 <= k < |ms| ensures ms[k].start == spans[k].start && ms[k].end == spans[k].end {
        WithReplacementsAt(t, e.replacement, spans, k);
      }
    }
    ms
  }

  // --------------------------------------------------------- applying matches

  function Splice(t: string, m: Match): string
    requires m.start <= m.end <= |t|
  {
    t[..m.start] + m.replacement + t[m.end..]
  }

  /** The log line for one replaced match: the text it covered, its
      replacement and its position. */
  function Logged(t: string, m: Match): CorrectionApplied
    requires m.start <= m.end <= |t|
  {
    CorrectionApplied(t[m.start..m.end], m.replacement, m.start)
  }

  /** `replace_range` over the matches from the last to the first, logging
      one correction per match in that order. */
  function ApplyReversed(t: string, ms: seq<Match>): (res: (string, seq<CorrectionApplied>))
    requires WellFormed(t, ms)
    ensures |res.1| == |ms|
    decreases |ms|
  {
    if ms == [] then (t, [])
    else
      var m := ms[|ms| - 1];
      var t' := Splice(t, m);
      var rest := ms[..|ms| - 1];
      SpliceLastKeepsRest(t, ms);
      var sub := ApplyReversed(t', rest);
      (sub.0, [Logged(t, m)] + sub.1)
  }

  /** The `k`-th logged correction is for the `k`-th match from the end: the
      text it covered, its replacement and its position. */
  lemma {:induction false} ReversedLogEntry(t: string, ms: seq<Match>, k: nat)
    requires WellFormed(t, ms) && k < |ms|
    ensures ApplyReversed(t, ms).1[k] == Logged(t, ms[|ms| - 1 - k])
    decreases |ms|
  {
    var m := ms[|ms| - 1];
    var rest := ms[..|ms| - 1];
    SpliceLastKeepsRest(t, ms);
    if k > 0 {
      ReversedLogEntry(Splice(t, m), rest, k - 1);
      assert rest[|rest| - 1 - (k - 1)] == ms[|ms| - 1 - k];
      SpliceKeepsEarlierSlices(t, ms);
    }
  }

  /** Reference rewrite read left to right: the text from `from`, with
      every match replaced by its replacement. */
  function Rebuild(t: string, ms: seq<Match>, from: nat): string
    requires from <= |t| && WellFormed(t, ms)
    requires forall k :: 0 <= k < |ms| ==> from <= ms[k].start
    decreases |ms|
  {
    if ms == [] then t[from..]
    else t[from..ms[0].start] + ms[0].replacement + Rebuild(t, ms[1..], ms[0].end)
  }

  /** Splicing in the last match leaves the earlier matches valid. */
  lemma SpliceLastKeepsRest(t: string, ms: seq<Match>)
    requires WellFormed(t, ms) && ms != []
    ensures WellFormed(Splice(t, ms[|ms| - 1]), ms[..|ms| - 1])
  {
    var last := ms[|ms| - 1];
    var rest := ms[..|ms| - 1];
    forall k | 0 <= k < |rest| ensures rest[k].end <= last.start {
      assert rest[k] == ms[k];
    }
  }

  /** Splicing in the last match leaves the text of the earlier matches as it was. */
  lemma SpliceKeepsEarlierSlices(t: string, ms: seq<Match>)
    requires WellFormed(t, ms) && ms != []
    ensures forall k :: 0 <= k < |ms| - 1 ==>
              Splice(t, ms[|ms| - 1])[ms[k].start..ms[k].end] == t[ms[k].start..ms[k].end]
  {
    var m := ms[|ms| - 1];
    forall k | 0 <= k < |ms| - 1
      ensures Splice(t, m)[ms[k].start..ms[k].end] == t[ms[k].start..ms[k].end]
    {
      assert ms[k].end <= m.start;
      assert Splice(t, m)[..m.start] == t[..m.start];
    }
  }

  lemma {:induction false} RebuildAfterLastSplice(t: string, ms: seq<Match>, from: nat)
    requires from <= |t| && WellFormed(t, ms) && ms != []
    requires forall k :: 0 <= k < |ms| ==> from <= ms[k].start
    ensures WellFormed(Splice(t, ms[|ms| - 1]), ms[..|ms| - 1])
    ensures Rebuild(Splice(t, ms[|ms| - 1]), ms[..|ms| - 1], from) == Rebuild(t, ms, from)
    decreases |ms|
  {
    var last := ms[|ms| - 1];
    var t' := Splice(t, last);
    var rest := ms[..|ms| - 1];
    SpliceLastKeepsRest(t, ms);
    if |ms| == 1 {
      assert rest == [];
      calc {
        Rebuild(t', rest, from);
        t'[from..];
        { assert t'[from..] == t[from..last.start] + last.replacement + t[last.end..]; }
        t[from..last.start] + last.replacement + t[last.end..];
        { assert ms[1..] == []; }
        Rebuild(t, ms, from);
      }
    } else {
      var m0 := ms[0];
      var tail := ms[1..];
      assert rest[0] == m0 && rest[1..] == tail[..|tail| - 1] && tail[|tail| - 1] == last;
      assert WellFormed(t, tail);
      assert m0.end <= last.start;
      assert t'[from..m0.start] == t[from..m0.start];
      RebuildAfterLastSplice(t, tail, m0.end);
    }
  }

  /** Applying the matches from the end backwards, as the source does to keep
      positions valid, gives the same text as a left-to-right rewrite. */
  lemma {:induction false} ReversedApplicationIsRebuild(t: string, ms: seq<Match>)
    requires WellFormed(t, ms)
    ensures ApplyReversed(t, ms).0 == Rebuild(t, ms, 0)
    decreases |ms|
  {
    if ms != [] {
      RebuildAfterLastSplice(t, ms, 0);
      ReversedApplicationIsRebuild(Splice(t, ms[|ms| - 1]), ms[..|ms| - 1]);
    }
  }

  // ------------------------------------------------------- apply_corrections

  /** One entry's effect: a disabled entry does nothing. */
  function ApplyEntry(t: string, e: VocabEntry): (string, seq<CorrectionApplied>)
  {
    if !e.enabled then (t, []) else ApplyReversed(t, EntryMatches(t, e))
  }

  /** The entries in list order, each on the text the previous ones produced;
      corrections are collected in the order they were made. */
  function ApplyEntries(t: string, entries: seq<VocabEntry>): (string, seq<CorrectionApplied>)
    decreases |entries|
  {
    if entries == [] then (t, [])
    else
      var first := ApplyEntry(t, entries[0]);
      var rest := ApplyEntries(first.0, entries[1..]);
      (rest.0, first.1 + rest.1)
  }

  function ByPosition(c: CorrectionApplied): int { c.position }

  /** `apply_corrections` as a value: the rewritten text and the corrections
      sorted by position. */
  function Corrected(text: string, entries: seq<VocabEntry>): (r: CorrectionResult)
    ensures SortedBy(r.corrections, ByPosition)
    ensures multiset(r.corrections) == multiset(ApplyEntries(text, entries).1)
  {
    var applied := ApplyEntries(text, entries);
    CorrectionResult(applied.0, SortByKey(applied.1, ByPosition))
  }

  /** What remains to be computed once `corrections` have been made and
      `result` is the text: the final text and the whole correction log. */
  ghost function Resume(result: string, corrections: seq<CorrectionApplied>, rest: seq<VocabEntry>): (string, seq<CorrectionApplied>)
  {
    var applied := ApplyEntries(result, rest);
    (applied.0, corrections + applied.1)
  }

  lemma ResumeStep(result: string, corrections: seq<CorrectionApplied>, entries: seq<VocabEntry>, i: nat)
    requires i < |entries|
    ensures Resume(result, corrections, entries[i..]) ==
              Resume(ApplyEntry(result, entries[i]).0, corrections + ApplyEntry(result, entries[i]).1, entries[i + 1..])
    ensures !entries[i].enabled ==>
              Resume(result, corrections, entries[i..]) == Resume(result, corrections, entries[i + 1..])
  {
    assert entries[i..][1..] == entries[i + 1..];
    var first := ApplyEntry(result, entries[i]);
    var rest := ApplyEntries(first.0, entries[i + 1..]);
    assert corrections + (first.1 + rest.1) == corrections + first.1 + rest.1;
    if !entries[i].enabled {
      assert corrections + first.1 == corrections;
    }
  }

  lemma ApplyReversedStep(t: string, ms: seq<Match>, j: nat)
    requires j < |ms| && WellFormed(t, ms[..j + 1])
    ensures WellFormed(Splice(t, ms[j]), ms[..j])
    ensures ApplyReversed(t, ms[..j + 1]) ==
              (ApplyReversed(Splice(t, ms[j]), ms[..j]).0,
               [Logged(t, ms[j])] +
               ApplyReversed(Splice(t, ms[j]), ms[..j]).1)
  {
    assert ms[..j + 1][..j] == ms[..j];
    SpliceLastKeepsRest(t, ms[..j + 1]);
  }

  // ------------------------------------------------- properties of the rewrite

  function IsEnabled(e: VocabEntry): bool { e.enabled }

  /** Disabled entries are skipped: the rewrite is the same as with the
      enabled entries alone, in their list order. */
  lemma {:induction false} OnlyEnabledEntriesApply(t: string, entries: seq<VocabEntry>)
    ensures ApplyEntries(t, entries) == ApplyEntries(t, Retain(entries, IsEnabled))
    decreases |entries|
  {
    if entries != [] {
      var e := entries[0];
      var rest := entries[1..];
      assert entries == [e] + rest;
      RetainAppend([e], rest, IsEnabled);
      assert [e][1..] == [];
      assert Retain([e], IsEnabled) == if e.enabled then [e] else [];
      if e.enabled {
        var t1 := ApplyEntry(t, e).0;
        assert Retain(entries, IsEnabled) == [e] + Retain(rest, IsEnabled);
        OnlyEnabledEntriesApply(t1, rest);
        ApplyEntriesCons(t, e, rest);
        ApplyEntriesCons(t, e, Retain(rest, IsEnabled));
      } else {
        assert Retain(entries, IsEnabled) == [] + Retain(rest, IsEnabled) == Retain(rest, IsEnabled);
        OnlyEnabledEntriesApply(t, rest);
        DisabledEntrySkipped(t, e, rest);
      }
    }
  }

  lemma ApplyEntriesCons(t: string, e: VocabEntry, rest: seq<VocabEntry>)
    ensures ApplyEntries(t, [e] + rest) ==
              (ApplyEntries(ApplyEntry(t, e).0, rest).0, ApplyEntry(t, e).1 + ApplyEntries(ApplyEntry(t, e).0, rest).1)
  {
    assert ([e] + rest)[1..] == rest;
  }

  lemma DisabledEntrySkipped(t: string, e: VocabEntry, rest: seq<VocabEntry>)
    requires !e.enabled
    ensures ApplyEntries(t, [e] + rest) == ApplyEntries(t, rest)
  {
    ApplyEntriesCons(t, e, rest);
    assert [] + ApplyEntries(t, rest).1 == ApplyEntries(t, rest).1;
  }

  /** A vocabulary with no enabled entry (in particular an empty one) leaves
      the text as it is and reports no correction. */
  lemma {:induction false} NoEnabledEntryNoChange(t: string, entries: seq<VocabEntry>)
    requires forall k :: 0 <= k < |entries| ==> !entries[k].enabled
    ensures Corrected(t, entries) == CorrectionResult(t, [])
  {
    OnlyEnabledEntriesApply(t, entries);
    var kept := Retain(entries, IsEnabled);
    if kept != [] {
      assert false;
    }
  }

  /** With no occurrence from `from` on, the scan reports nothing. */
  lemma {:induction false} NothingFound(t: string, p: string, from: nat)
    requires from <= |t| + 1
    requires forall i :: from <= i <= |t| ==> !MatchesAt(t, p, i)
    ensures FindFrom(t, p, from) == []
    decreases |t| + 1 - from
  {
    if from <= |t| {
      NothingFound(t, p, from + 1);
    }
  }

  /** An entry whose phrase never occurs as a whole word changes nothing. */
  lemma NoOccurrenceNoChange(t: string, e: VocabEntry)
    requires forall i :: 0 <= i <= |t| ==> !MatchesAt(t, e.phrase, i)
    ensures ApplyEntry(t, e) == (t, [])
  {
    NothingFound(t, e.phrase, 0);
    assert EntryMatches(t, e) == [];
  }

  /** The `k`-th correction an enabled entry logs is the `k`-th match from
      the end: a whole-word, case-insensitive occurrence of the phrase, the
      slice it covered, its case-adjusted replacement and its position. */
  ghost predicate LoggedMatch(t: string, e: VocabEntry, spans: seq<Span>, cs: seq<CorrectionApplied>, k: nat)
    requires |cs| == |spans| && k < |cs|
  {
    var s := spans[|spans| - 1 - k];
    cs[k].position == s.start &&
    MatchesAt(t, e.phrase, s.start) &&
    cs[k].original == t[s.start..s.start + |e.phrase|] &&
    cs[k].replacement == ApplyCase(cs[k].original, e.replacement)
  }

  /** The `k`-th span counted from the end. */
  function FromEnd(spans: seq<Span>, k: nat): Span
    requires k < |spans|
  {
    spans[|spans| - 1 - k]
  }

  /** The `j`-th match of an entry is the `j`-th occurrence found, with its
      case-adjusted replacement. */
  lemma EntryMatchAt(t: string, e: VocabEntry, j: nat)
    requires j < |FindMatches(t, e.phrase)|
    ensures FindMatches(t, e.phrase)[j].start <= FindMatches(t, e.phrase)[j].end <= |t|
    ensures EntryMatches(t, e)[j] == ToMatch(t, e.replacement, FindMatches(t, e.phrase)[j])
  {
    FoundInText(t, e.phrase);
    WithReplacementsAt(t, e.replacement, FindMatches(t, e.phrase), j);
  }

  /** The `k`-th correction logged for an enabled entry is for its `k`-th
      occurrence from the end. */
  lemma LogEntryOfSpan(t: string, e: VocabEntry, k: nat)
    requires e.enabled && k < |FindMatches(t, e.phrase)|
    ensures |ApplyEntry(t, e).1| == |FindMatches(t, e.phrase)|
    ensures FromEnd(FindMatches(t, e.phrase), k).start <= FromEnd(FindMatches(t, e.phrase), k).end <= |t|
    ensures ApplyEntry(t, e).1[k] == Logged(t, ToMatch(t, e.replacement, FromEnd(FindMatches(t, e.phrase), k)))
  {
    var ms := EntryMatches(t, e);
    var j := |ms| - 1 - k;
    EntryMatchAt(t, e, j);
    ReversedLogEntry(t, ms, k);
  }

  lemma CorrectionAt(t: string, e: VocabEntry, k: nat)
    requires e.enabled && k < |FindMatches(t, e.phrase)|
    ensures |ApplyEntry(t, e).1| == |FindMatches(t, e.phrase)|
    ensures LoggedMatch(t, e, FindMatches(t, e.phrase), ApplyEntry(t, e).1, k)
  {
    var spans := FindMatches(t, e.phrase);
    var sp := FromEnd(spans, k);
    assert MatchesAt(t, e.phrase, sp.start) && sp.end == sp.start + |e.phrase| by {
      FindFromSound(t, e.phrase, 0);
    }
    LogEntryOfSpan(t, e, k);
    assert Logged(t, ToMatch(t, e.replacement, sp)) ==
           CorrectionApplied(t[sp.start..sp.end], ApplyCase(t[sp.start..sp.end], e.replacement), sp.start);
  }

  /** One enabled entry logs exactly one correction per occurrence found,
      last occurrence first. */
  lemma OneEntryCorrections(t: string, e: VocabEntry)
    requires e.enabled
    ensures |ApplyEntry(t, e).1| == |FindMatches(t, e.phrase)|
    ensures forall k :: 0 <= k < |ApplyEntry(t, e).1| ==>
              LoggedMatch(t, e, FindMatches(t, e.phrase), ApplyEntry(t, e).1, k)
  {
    forall k | 0 <= k < |ApplyEntry(t, e).1|
      ensures LoggedMatch(t, e, FindMatches(t, e.phrase), ApplyEntry(t, e).1, k)
    {
      CorrectionAt(t, e, k);
    }
  }

  /** The text one enabled entry leaves is the left-to-right splice of all
      its matches. */
  lemma OneEntryText(t: string, e: VocabEntry)
    requires e.enabled
    ensures ApplyEntry(t, e).0 == Rebuild(t, EntryMatches(t, e), 0)
  {
    ReversedApplicationIsRebuild(t, EntryMatches(t, e));
  }

  /** The `find_iter` loop of apply_corrections: each match of the entry's
      phrase in the current text, with its case-adjusted replacement. */
  method CollectMatches(result: string, entry: VocabEntry) returns (matches: seq<Match>)
    ensures matches == EntryMatches(result, entry)
    ensures forall k :: 0 <= k < |matches| ==>
              MatchesAt(result, entry.phrase, matches[k].start) &&
              matches[k].end == matches[k].start + |entry.phrase|
  {
    var spans := FindMatches(result, entry.phrase);
    FoundInText(result, entry.phrase);
    matches := [];
    for k := 0 to |spans|
      invariant InText(result, spans[..k])
      invariant matches == WithReplacements(result, entry.replacement, spans[..k])
    {
      assert spans[..k + 1][..k] == spans[..k];
      var replacement := ApplyCase(result[spans[k].start..spans[k].end], entry.replacement);
      matches := matches + [Match(spans[k].start, spans[k].end, replacement)];
    }
    assert spans[..|spans|] == spans;
    EntryMatchesSound(result, entry);
  }

  /** Every collected match is a whole-word occurrence of the phrase. */
  lemma EntryMatchesSound(t: string, e: VocabEntry)
    ensures forall k :: 0 <= k < |EntryMatches(t, e)| ==>
              MatchesAt(t, e.phrase, EntryMatches(t, e)[k].start) &&
              EntryMatches(t, e)[k].end == EntryMatches(t, e)[k].start + |e.phrase|
  {
    var spans := FindMatches(t, e.phrase);
    var ms := EntryMatches(t, e);
    FoundInText(t, e.phrase);
    FindFromSound(t, e.phrase, 0);
    forall k | 0 <= k < |ms|
      ensures MatchesAt(t, e.phrase, ms[k].start)
      ensures ms[k].end == ms[k].start + |e.phrase|
    {
      WithReplacementsAt(t, e.replacement, spans, k);
    }
  }

  /** The reverse loop of apply_corrections: `replace_range` from the last
      match to the first, logging each replaced slice at its position. */
  method ReplaceFromEnd(text: string, matches: seq<Match>) returns (result: string, log: seq<CorrectionApplied>)
    requires WellFormed(text, matches)
    ensures (result, log) == ApplyReversed(text, matches)
    ensures result == Rebuild(text, matches, 0)
  {
    result := text;
    log := [];
    var j := |matches|;
    assert matches[..j] == matches;
    while j > 0
      invariant 0 <= j <= |matches|
      invariant WellFormed(result, matches[..j])
      invariant ApplyReversed(result, matches[..j]).0 == ApplyReversed(text, matches).0
      invariant log + ApplyReversed(result, matches[..j]).1 == ApplyReversed(text, matches).1
    {
      j := j - 1;
      var m := matches[j];
      ApplyReversedStep(result, matches, j);
      log := log + [CorrectionApplied(result[m.start..m.end], m.replacement, m.start)];
      result := result[..m.start] + m.replacement + result[m.end..];
    }
    assert matches[..0] == [];
    assert ApplyReversed(result, matches[..0]) == (result, []);
    assert result == ApplyReversed(text, matches).0;
    assert log == ApplyReversed(text, matches).1;
    ReversedApplicationIsRebuild(text, matches);
  }

  /** One enabled entry's pass of apply_corrections: collect its matches,
      then replace them from the last to the first. */
  method CorrectWithEntry(text: string, entry: VocabEntry) returns (result: string, log: seq<CorrectionApplied>)
    requires entry.enabled
    ensures (result, log) == ApplyEntry(text, entry)
  {
    var matches := CollectMatches(text, entry);
    result, log := ReplaceFromEnd(text, matches);
  }

  /** apply_corrections: rewrites the text entry by entry, in list order,
      then sorts the correction log by position. */
  method ApplyCorrections(text: string, entries: seq<VocabEntry>) returns (r: CorrectionResult)
    ensures r == Corrected(text, entries)
    ensures SortedBy(r.corrections, ByPosition)
  {
    var result := text;
    var corrections: seq<CorrectionApplied> := [];
    assert Resume(result, corrections, entries[0..]) == ApplyEntries(text, entries) by {
      assert entries[0..] == entries;
      assert [] + ApplyEntries(text, entries).1 == ApplyEntries(text, entries).1;
    }
    for i := 0 to |entries|
      invariant Resume(result, corrections, entries[i..]) == ApplyEntries(text, entries)
    {
      var entry := entries[i];
      ResumeStep(result, corrections, entries, i);
      if !entry.enabled {
        continue;
      }
      var log;
      result, log := CorrectWithEntry(result, entry);
      corrections := corrections + log;
    }
    assert entries[|entries|..] == [];
    assert Resume(result, corrections, []) == (result, corrections) by {
      assert corrections + [] == corrections;
    }
    r := CorrectionResult(result, SortByKey(corrections, ByPosition));
  }

  // ------------------------------------------------------------- entry list

  /** The first entry carrying `id`, as `iter().find(|e| e.id == id)`. */
  function FirstWithId(entries: seq<VocabEntry>, id: nat): (r: Option<nat>)
    ensures r.None? <==> forall k :: 0 <= k < |entries| ==> entries[k].id != id
    ensures r.Some? ==> r.value < |entries| && entries[r.value].id == id &&
                        forall k :: 0 <= k < r.value ==> entries[k].id != id
  {
    if entries == [] then None
    else if entries[0].id == id then Some(0)
    else match FirstWithId(entries[1..], id)
      case None => None
      case Some(i) => Some(i + 1)
  }

  /** The vocabulary list (`Vocabulary.entries`). */
  class VocabularyStore {
    var entries: seq<VocabEntry>

    constructor(initial: seq<VocabEntry>)
      ensures entries == initial
    {
      entries := initial;
    }

    /** add_entry: pushes the entry at the end. */
    method AddEntry(entry: VocabEntry)
      modifies this
      ensures entries == old(entries) + [entry]
    {
      entries := entries + [entry];
    }

    /** update_entry: rewrites phrase, replacement and enabled flag of the
        first entry with that id; nothing happens when there is none. */
    method UpdateEntry(id: nat, phrase: string, replacement: string, enabled: bool)
      modifies this
      ensures match FirstWithId(old(entries), id)
                case None => entries == old(entries)
                case Some(i) => entries == old(entries)[i := VocabEntry(id, phrase, replacement, enabled)]
    {
      var i := 0;
      while i < |entries| && entries[i].id != id
        invariant 0 <= i <= |entries|
        invariant forall k :: 0 <= k < i ==> entries[k].id != id
      {
        i := i + 1;
      }
      if i < |entries| {
        entries := entries[i := VocabEntry(id, phrase, replacement, enabled)];
      }
    }

    /** delete_entry: `retain(|e| e.id != id)`. */
    method DeleteEntry(id: nat)
      modifies this
      ensures entries == Retain(old(entries), (e: VocabEntry) => e.id != id)
      ensures forall k :: 0 <= k < |entries| ==> entries[k].id != id
      ensures forall k :: 0 <= k < |old(entries)| && old(entries)[k].id != id ==> old(entries)[k] in entries
    {
      entries := Retain(entries, (e: VocabEntry) => e.id != id);
    }
  }
}
