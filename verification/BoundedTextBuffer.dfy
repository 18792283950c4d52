/** The bounded capture of process output: only the newest chunks that fit are kept. */
module BoundedTextBuffer {

  const MARKER := "[output truncated]\n"

  function Concat(texts: seq<string>): string
    decreases |texts|
  {
    if texts == [] then "" else Concat(texts[..|texts| - 1]) + texts[|texts| - 1]
  }

  function Total(texts: seq<string>): nat
    decreases |texts|
  {
    if texts == [] then 0 else Total(texts[..|texts| - 1]) + |texts[|texts| - 1]|
  }

  predicate NoneEmpty(texts: seq<string>) {
    forall i :: 0 <= i < |texts| ==> texts[i] != ""
  }

  /** The last `limit` characters. */
  function Clip(text: string, limit: nat): (r: string)
    ensures |r| == if |text| <= limit then |text| else limit
  {
    if |text| <= limit then text else text[|text| - limit..]
  }

  function Clipped(texts: seq<string>, limit: nat): (r: seq<string>)
    ensures |r| == |texts|
    decreases |texts|
  {
    if texts == [] then [] else Clipped(texts[..|texts| - 1], limit) + [Clip(texts[|texts| - 1], limit)]
  }

  /** The longest run of newest chunks that fits. */
  function LongestFit(chunks: seq<string>, limit: nat): seq<string> {
    if Total(chunks) <= limit then chunks else LongestFit(chunks[1..], limit)
  }

  /** What a buffer holds after the given non-empty texts were appended. */
  function Kept(texts: seq<string>, limit: nat): seq<string> {
    LongestFit(Clipped(texts, limit), limit)
  }

  /** When the buffer calls its output truncated. */
  predicate Marked(texts: seq<string>, limit: nat) {
    |Kept(texts, limit)| < |texts| || (texts != [] && |texts[0]| >= limit)
  }

  // --- the reference in terms of totals ---

  lemma {:induction false} TotalHead(texts: seq<string>)
    requires texts != []
    ensures Total(texts) == |texts[0]| + Total(texts[1..])
    decreases |texts|
  {
    var last := |texts| - 1;
    if last > 0 {
      TotalHead(texts[..last]);
      assert texts[..last][1..] == texts[1..][..last - 1];
    } else {
      assert texts[..0] == [] && texts[1..] == [];
    }
  }

  lemma {:induction false} TotalIsLength(texts: seq<string>)
    ensures |Concat(texts)| == Total(texts)
    decreases |texts|
  {
    if texts != [] { TotalIsLength(texts[..|texts| - 1]); }
  }

  lemma TotalSnoc(chunks: seq<string>, c: string)
    ensures Total(chunks + [c]) == Total(chunks) + |c|
  {
    assert (chunks + [c])[..|chunks|] == chunks;
  }

  /** How many of the oldest chunks have to go. */
  function Dropped(chunks: seq<string>, limit: nat): (n: nat)
    ensures n <= |chunks|
  {
    if Total(chunks) <= limit then 0 else 1 + Dropped(chunks[1..], limit)
  }

  lemma TailOfTail(chunks: seq<string>, n: nat)
    requires n < |chunks|
    ensures chunks[1..][n..] == chunks[n + 1..]
  {
  }

  /** What remains fits, and with the last chunk that went it would not. */
  lemma {:induction false} DroppedIsExact(chunks: seq<string>, limit: nat)
    ensures var n := Dropped(chunks, limit);
      && LongestFit(chunks, limit) == chunks[n..] && Total(chunks[n..]) <= limit
      && (n > 0 ==> Total(chunks[n - 1..]) > limit)
    decreases |chunks|
  {
    if Total(chunks) <= limit {
      assert chunks[0..] == chunks;
    } else {
      var rest := Dropped(chunks[1..], limit);
      DroppedIsExact(chunks[1..], limit);
      TailOfTail(chunks, rest);
      if rest == 0 {
        assert chunks[0..] == chunks;
      } else {
        TailOfTail(chunks, rest - 1);
      }
    }
  }

  /** The chunks kept are a suffix that fits, and one more chunk would not. */
  lemma LongestFitIsMaximal(chunks: seq<string>, limit: nat)
    ensures var kept := LongestFit(chunks, limit);
      && |kept| <= |chunks| && kept == chunks[|chunks| - |kept|..] && Total(kept) <= limit
      && (|kept| < |chunks| ==> Total(chunks[|chunks| - |kept| - 1..]) > limit)
  {
    DroppedIsExact(chunks, limit);
    var n, kept := Dropped(chunks, limit), LongestFit(chunks, limit);
    assert |kept| == |chunks| - n;
  }

  /** Dropping while appending keeps the same chunks as dropping once at the end. */
  lemma {:induction false} DroppingEarlyIsHarmless(chunks: seq<string>, c: string, limit: nat)
    ensures LongestFit(LongestFit(chunks, limit) + [c], limit) == LongestFit(chunks + [c], limit)
    decreases |chunks|
  {
    if Total(chunks) > limit {
      DroppingEarlyIsHarmless(chunks[1..], c, limit);
      TotalSnoc(chunks, c);
      assert (chunks + [c])[1..] == chunks[1..] + [c];
    }
  }

  lemma ClippedSnoc(texts: seq<string>, text: string, limit: nat)
    ensures Clipped(texts + [text], limit) == Clipped(texts, limit) + [Clip(text, limit)]
  {
    assert (texts + [text])[..|texts|] == texts;
  }

  lemma KeptSnoc(texts: seq<string>, text: string, limit: nat)
    ensures Kept(texts + [text], limit) == LongestFit(Kept(texts, limit) + [Clip(text, limit)], limit)
  {
    ClippedSnoc(texts, text, limit);
    DroppingEarlyIsHarmless(Clipped(texts, limit), Clip(text, limit), limit);
  }

  /** A text that fills the buffer leaves nothing else in it. */
  lemma {:induction false} FullChunkStandsAlone(chunks: seq<string>, c: string, limit: nat)
    requires NoneEmpty(chunks) && |c| == limit
    ensures LongestFit(chunks + [c], limit) == [c]
    decreases |chunks|
  {
    TotalSnoc(chunks, c);
    if chunks == [] {
      assert chunks + [c] == [c];
      TotalSnoc([], c);
      assert [] + [c] == [c];
    } else {
      TotalHead(chunks);
      assert (chunks + [c])[1..] == chunks[1..] + [c];
      FullChunkStandsAlone(chunks[1..], c, limit);
    }
  }

  lemma {:induction false} ClippedAreNotEmpty(texts: seq<string>, limit: nat)
    requires NoneEmpty(texts) && limit > 0
    ensures NoneEmpty(Clipped(texts, limit))
    decreases |texts|
  {
    if texts != [] { ClippedAreNotEmpty(texts[..|texts| - 1], limit); }
  }

  lemma KeptAreNotEmpty(texts: seq<string>, limit: nat)
    requires NoneEmpty(texts) && limit > 0
    ensures NoneEmpty(Kept(texts, limit)) && |Kept(texts, limit)| <= |texts|
  {
    ClippedAreNotEmpty(texts, limit);
    LongestFitIsMaximal(Clipped(texts, limit), limit);
  }

  /** A text as long as the limit clears the buffer and sets the mark. */
  lemma LargeTextStep(texts: seq<string>, text: string, limit: nat)
    requires NoneEmpty(texts) && limit > 0 && |text| >= limit
    ensures Kept(texts + [text], limit) == [Clip(text, limit)] && Marked(texts + [text], limit)
  {
    KeptSnoc(texts, text, limit);
    KeptAreNotEmpty(texts, limit);
    FullChunkStandsAlone(Kept(texts, limit), Clip(text, limit), limit);
    assert texts == [] ==> (texts + [text])[0] == text;
  }

  lemma FitLength(chunks: seq<string>, limit: nat)
    ensures |LongestFit(chunks, limit)| == |chunks| <==> Total(chunks) <= limit
    ensures |LongestFit(chunks, limit)| <= |chunks|
  {
    LongestFitIsMaximal(chunks, limit);
    assert chunks[0..] == chunks;
  }

  /** A shorter text is kept; the mark is set when an old chunk had to go. */
  lemma SmallTextStep(texts: seq<string>, text: string, limit: nat)
    requires NoneEmpty(texts) && limit > 0 && |text| < limit
    ensures Kept(texts + [text], limit) == LongestFit(Kept(texts, limit) + [text], limit)
    ensures Marked(texts + [text], limit) <==> Marked(texts, limit) || Total(Kept(texts, limit) + [text]) > limit
  {
    var all := texts + [text];
    assert all[0] == if texts == [] then text else texts[0];
    KeptSnoc(texts, text, limit);
    KeptAreNotEmpty(texts, limit);
    FitLength(Kept(texts, limit) + [text], limit);
  }

  // --- what the buffer holds, and what was written ---

  predicate SuffixOf(s: string, whole: string) {
    |s| <= |whole| && whole[|whole| - |s|..] == s
  }

  lemma SuffixExtends(s: string, whole: string, text: string)
    requires SuffixOf(s, whole)
    ensures SuffixOf(s + text, whole + text)
  {
    assert whole + text == whole[..|whole| - |s|] + (s + text);
  }

  lemma ClipIsSuffix(whole: string, text: string, limit: nat)
    ensures SuffixOf(Clip(text, limit), whole + text)
  {
    var clip := Clip(text, limit);
    assert whole + text == whole + text[..|text| - |clip|] + clip;
  }

  /** Two chunks that fit together leave no room for a clipped one. */
  lemma {:induction false} ClippedTailIsSuffix(texts: seq<string>, limit: nat, from: nat)
    requires from <= |texts| && Total(Clipped(texts, limit)[from..]) <= limit && NoneEmpty(texts) && limit > 0
    ensures SuffixOf(Concat(Clipped(texts, limit)[from..]), Concat(texts))
    decreases |texts|
  {
    var last := |texts| - 1;
    if from <= last {
      var init, clip := texts[..last], Clip(texts[last], limit);
      var tail := Clipped(init, limit)[from..];
      assert Clipped(texts, limit)[from..] == tail + [clip];
      TotalSnoc(tail, clip);
      assert (tail + [clip])[..|tail|] == tail;
      if tail == [] {
        assert Concat(tail + [clip]) == clip;
        ClipIsSuffix(Concat(init), texts[last], limit);
      } else {
        ClippedTailIsSuffix(init, limit, from);
        ClippedAreNotEmpty(init, limit);
        assert tail[0] == Clipped(init, limit)[from];
        TotalHead(tail);
        assert clip == texts[last];
        SuffixExtends(Concat(tail), Concat(init), clip);
      }
    }
  }

  /** The payload is a suffix of everything written, no longer than the limit. */
  lemma PayloadIsSuffix(texts: seq<string>, limit: nat)
    requires NoneEmpty(texts) && limit > 0
    ensures SuffixOf(Concat(Kept(texts, limit)), Concat(texts)) && |Concat(Kept(texts, limit))| <= limit
  {
    var clipped, kept := Clipped(texts, limit), Kept(texts, limit);
    LongestFitIsMaximal(clipped, limit);
    ClippedTailIsSuffix(texts, limit, |clipped| - |kept|);
    TotalIsLength(kept);
  }

  lemma {:induction false} TotalBounds(texts: seq<string>, limit: nat)
    ensures Total(Clipped(texts, limit)) <= Total(texts)
    ensures Total(texts) <= limit ==> Clipped(texts, limit) == texts
    decreases |texts|
  {
    if texts != [] {
      var last := |texts| - 1;
      TotalBounds(texts[..last], limit);
      TotalSnoc(Clipped(texts[..last], limit), Clip(texts[last], limit));
      assert texts == texts[..last] + [texts[last]];
    }
  }

  /** The payload is the whole history exactly when the history fits. */
  lemma PayloadIsHistoryIffItFits(texts: seq<string>, limit: nat)
    requires NoneEmpty(texts) && limit > 0
    ensures Concat(Kept(texts, limit)) == Concat(texts) <==> |Concat(texts)| <= limit
  {
    PayloadIsSuffix(texts, limit);
    TotalIsLength(texts);
    TotalBounds(texts, limit);
  }

  lemma AloneOrMore(texts: seq<string>)
    requires NoneEmpty(texts) && texts != []
    ensures Total(texts) >= |texts[0]|
    ensures Total(texts) == |texts[0]| <==> |texts| == 1
  {
    TotalHead(texts);
    if |texts| > 1 { TotalHead(texts[1..]); }
    assert |texts| == 1 ==> texts[1..] == [];
  }

  lemma MarkedTotal(texts: seq<string>, limit: nat)
    requires NoneEmpty(texts) && limit > 0
    ensures Marked(texts, limit) <==> Total(texts) > limit || (|texts| == 1 && |texts[0]| == limit)
  {
    FitLength(Clipped(texts, limit), limit);
    TotalBounds(texts, limit);
    if texts != [] { AloneOrMore(texts); }
    if Total(Clipped(texts, limit)) <= limit && Total(texts) > limit { UnclippedFits(texts, limit); }
  }

  /** An unmarked output is the whole history. A marked one is a proper suffix, with one
      exception: a single text of exactly the limit is complete and still marked. */
  lemma MarkMeansLoss(texts: seq<string>, limit: nat)
    requires NoneEmpty(texts) && limit > 0
    ensures !Marked(texts, limit) ==> Concat(Kept(texts, limit)) == Concat(texts)
    ensures Marked(texts, limit) && Concat(Kept(texts, limit)) == Concat(texts)
       <==> |texts| == 1 && |texts[0]| == limit
  {
    MarkedTotal(texts, limit);
    PayloadIsHistoryIffItFits(texts, limit);
    TotalIsLength(texts);
    if texts != [] { AloneOrMore(texts); }
  }

  /** If the clipped texts all fit but the texts do not, there is one text and it was clipped. */
  lemma {:induction false} UnclippedFits(texts: seq<string>, limit: nat)
    requires NoneEmpty(texts) && limit > 0 && Total(Clipped(texts, limit)) <= limit && Total(texts) > limit
    ensures |texts| == 1 && |texts[0]| > limit
    decreases |texts|
  {
    var last := |texts| - 1;
    var init, clip := texts[..last], Clip(texts[last], limit);
    TotalSnoc(Clipped(init, limit), clip);
    TotalBounds(init, limit);
    if init != [] {
      ClippedAreNotEmpty(init, limit);
      TotalHead(Clipped(init, limit));
      assert clip == texts[last];
      if Total(init) > limit {
        UnclippedFits(init, limit);
        AloneOrMore(Clipped(init, limit));
      }
    }
  }

  /** The state of a buffer after the given texts. */
  ghost predicate Reflects(chunks: seq<string>, size: nat, truncated: bool, texts: seq<string>, limit: nat) {
    && NoneEmpty(texts)
    && chunks == Kept(texts, limit) && size == Total(chunks)
    && (truncated <==> Marked(texts, limit))
  }

  lemma SmallReflects(chunks: seq<string>, size: nat, truncated: bool, texts: seq<string>, limit: nat, text: string)
    requires Reflects(chunks, size, truncated, texts, limit) && 0 < |text| < limit
    ensures size + |text| == Total(chunks + [text])
    ensures var kept := LongestFit(chunks + [text], limit);
      Reflects(kept, Total(kept), truncated || size + |text| > limit, texts + [text], limit)
  {
    SmallTextStep(texts, text, limit);
    NoneEmptySnoc(texts, text);
    TotalSnoc(chunks, text);
  }

  lemma LargeReflects(texts: seq<string>, limit: nat, text: string)
    requires NoneEmpty(texts) && 0 < limit <= |text|
    ensures Reflects([text[|text| - limit..]], limit, true, texts + [text], limit)
  {
    LargeTextStep(texts, text, limit);
    LargeClip(text, limit);
    NoneEmptySnoc(texts, text);
    SingleTotal(text[|text| - limit..]);
  }

  lemma LargeClip(text: string, limit: nat)
    requires |text| >= limit
    ensures Clip(text, limit) == text[|text| - limit..]
  {
  }

  lemma SingleTotal(chunk: string)
    ensures Total([chunk]) == |chunk|
  {
    assert [chunk][..0] == [];
  }

  lemma NoneEmptySnoc(texts: seq<string>, text: string)
    requires NoneEmpty(texts) && text != ""
    ensures NoneEmpty(texts + [text])
  {
  }

  // --- the buffer ---

  class Buffer {
    const limit: nat
    var chunks: seq<string>
    var size: nat
    var truncated: bool
    /** Every non-empty text appended so far. */
    ghost var texts: seq<string>

    ghost predicate Valid()
      reads this
    {
      limit >= 1024 && Reflects(chunks, size, truncated, texts, limit)
    }

    constructor (requested: int)
      ensures Valid() && texts == [] && limit == (if requested < 1024 then 1024 else requested)
    {
      limit := if requested < 1024 then 1024 else requested;
      chunks, size, truncated := [], 0, false;
      texts := [];
    }

    /** Drops the oldest chunks until the rest fits. */
    method DropOldest()
      requires size == Total(chunks)
      modifies this
      ensures chunks == LongestFit(old(chunks), limit) && size == Total(chunks)
      ensures truncated == (old(truncated) || old(size) > limit)
      ensures texts == old(texts)
    {
      while size > limit && chunks != []
        invariant size == Total(chunks) && texts == old(texts)
        invariant LongestFit(chunks, limit) == LongestFit(old(chunks), limit)
        invariant truncated || size > limit <==> old(truncated) || old(size) > limit
        decreases |chunks|
      {
        TotalHead(chunks);
        size := size - |chunks[0]|;
        chunks := chunks[1..];
        truncated := true;
      }
    }

    /** A text that fills the buffer replaces everything. */
    method AppendLarge(text: string)
      requires Valid() && |text| >= limit
      modifies this
      ensures Valid() && texts == old(texts) + [text]
    {
      LargeReflects(texts, limit, text);
      var tail := text[|text| - limit..];
      texts := texts + [text];
      chunks, size, truncated := [tail], |tail|, true;
    }

    /** A shorter text is added, and old chunks make room for it. */
    method AppendSmall(text: string)
      requires Valid() && 0 < |text| < limit
      modifies this
      ensures Valid() && texts == old(texts) + [text]
    {
      SmallReflects(chunks, size, truncated, texts, limit, text);
      texts := texts + [text];
      chunks, size := chunks + [text], size + |text|;
      DropOldest();
    }

    method Append(text: string)
      requires Valid()
      modifies this
      ensures Valid() && texts == if text == "" then old(texts) else old(texts) + [text]
    {
      if text == "" { return; }
      if |text| >= limit { AppendLarge(text); } else { AppendSmall(text); }
    }

    /** The captured output: everything written, or the mark and a suffix of it. */
    method Text() returns (out: string)
      requires Valid()
      ensures !Marked(texts, limit) ==> out == Concat(texts)
      ensures Marked(texts, limit) ==>
        exists payload :: out == MARKER + payload && SuffixOf(payload, Concat(texts)) && |payload| <= limit
      ensures |Concat(texts)| > limit ==> Marked(texts, limit)
    {
      var payload := Concat(chunks);
      PayloadIsSuffix(texts, limit);
      PayloadIsHistoryIffItFits(texts, limit);
      MarkMeansLoss(texts, limit);
      out := if truncated then MARKER + payload else payload;
    }
  }
}
