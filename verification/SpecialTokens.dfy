/**
 * Special tokens around the byte-level BPE: they are cut out first, longest first, and
 * never merged. Runs of ordinary ids between them are decoded together, so the round
 * trip follows from the one of the byte-level BPE on every plain segment.
 */
module SpecialTokens {
  import opened Prelude
  import Bpe

  datatype Tokenizer = Tokenizer(bpe: Bpe.Model, specials: seq<string>, specialIds: map<string, int>,
                                 idToSpecial: map<int, string>)

  // ---------------------------------------------------------------------------
  // Cutting out special tokens
  // ---------------------------------------------------------------------------

  predicate StartsAt(text: string, s: string, i: nat) {
    i + |s| <= |text| && text[i..i + |s|] == s
  }

  /** Special tokens are not empty, and sorted by length, longest first. */
  ghost predicate Sorted(specials: seq<string>) {
    && (forall k :: 0 <= k < |specials| ==> specials[k] != "")
    && (forall a, b :: 0 <= a < b < |specials| ==> |specials[a]| >= |specials[b]|)
  }

  /** The first special token of the list that starts at position i. */
  function MatchAt(specials: seq<string>, text: string, i: nat): (r: Option<string>)
    ensures r.Some? ==> r.value in specials && StartsAt(text, r.value, i)
    ensures r.None? ==> forall k :: 0 <= k < |specials| ==> !StartsAt(text, specials[k], i)
  {
    if specials == [] then None
    else if StartsAt(text, specials[0], i) then Some(specials[0])
    else MatchAt(specials[1..], text, i)
  }

  /** In a sorted list that is the longest one. */
  lemma {:induction false} MatchIsLongest(specials: seq<string>, text: string, i: nat, s: string)
    requires Sorted(specials) && s in specials && StartsAt(text, s, i)
    ensures MatchAt(specials, text, i).Some? && |MatchAt(specials, text, i).value| >= |s|
    decreases |specials|
  {
    if !StartsAt(text, specials[0], i) {
      MatchIsLongest(specials[1..], text, i, s);
    }
  }

  datatype Segment = Plain(text: string) | Special(text: string)

  function Flush(cur: string): seq<Segment> { if cur == "" then [] else [Plain(cur)] }

  /** The text from i on, cut at special tokens; `cur` holds the plain characters since the last one. */
  function Segments(specials: seq<string>, text: string, i: nat, cur: string): seq<Segment>
    requires Sorted(specials) && i <= |text|
    decreases |text| - i
  {
    if i == |text| then Flush(cur)
    else
      var s := MatchAt(specials, text, i);
      if s.Some? then Flush(cur) + [Special(s.value)] + Segments(specials, text, i + |s.value|, "")
      else Segments(specials, text, i + 1, cur + [text[i]])
  }

  /** One step of the scan. */
  lemma {:induction false} SegmentsStep(specials: seq<string>, text: string, i: nat, cur: string)
    requires Sorted(specials) && i < |text|
    ensures var s := MatchAt(specials, text, i);
      && (s.Some? ==> s.value != "" && i + |s.value| <= |text|)
      && (s.Some? ==>
          Segments(specials, text, i, cur) ==
            Flush(cur) + ([Special(s.value)] + Segments(specials, text, i + |s.value|, "")))
      && (s.None? ==> Segments(specials, text, i, cur) == Segments(specials, text, i + 1, cur + [text[i]]))
  {
    var s := MatchAt(specials, text, i);
    if s.Some? {
      NotEmpty(specials, s.value);
      var rest := Segments(specials, text, i + |s.value|, "");
      assert Flush(cur) + [Special(s.value)] + rest == Flush(cur) + ([Special(s.value)] + rest);
    }
  }

  lemma {:induction false} SegmentsEnd(specials: seq<string>, text: string, i: nat, cur: string)
    requires Sorted(specials) && i == |text|
    ensures Segments(specials, text, i, cur) == Flush(cur) + []
  {
  }

  function SegmentIds(t: Tokenizer, seg: Segment): Option<seq<int>> {
    if seg.Plain? then Bpe.Encode(t.bpe, seg.text)
    else if seg.text in t.specialIds then Some([t.specialIds[seg.text]]) else None
  }

  function EncodeSegments(t: Tokenizer, segs: seq<Segment>): Option<seq<int>> {
    if segs == [] then Some([])
    else
      var first, rest := SegmentIds(t, segs[0]), EncodeSegments(t, segs[1..]);
      if first.None? || rest.None? then None else Some(first.value + rest.value)
  }

  function Encode(t: Tokenizer, text: string): Option<seq<int>>
    requires Sorted(t.specials)
  {
    EncodeSegments(t, Segments(t.specials, text, 0, ""))
  }

  /** What the loop still has to append to the ids so far. */
  ghost function Then(ids: seq<int>, rest: Option<seq<int>>): Option<seq<int>> {
    if rest.None? then None else Some(ids + rest.value)
  }

  lemma ThenStep(t: Tokenizer, ids: seq<int>, seg: Segment, segs: seq<Segment>)
    ensures SegmentIds(t, seg).None? ==> EncodeSegments(t, [seg] + segs).None?
    ensures SegmentIds(t, seg).Some? ==>
      Then(ids, EncodeSegments(t, [seg] + segs)) == Then(ids + SegmentIds(t, seg).value, EncodeSegments(t, segs))
  {
    hide SegmentIds;
    assert ([seg] + segs)[1..] == segs;
    if SegmentIds(t, seg).Some? && EncodeSegments(t, segs).Some? {
      assert ids + (SegmentIds(t, seg).value + EncodeSegments(t, segs).value) ==
        (ids + SegmentIds(t, seg).value) + EncodeSegments(t, segs).value;
    }
  }

  /** Encode the buffered plain characters, if there are any. */
  method FlushBuffer(t: Tokenizer, ids: seq<int>, cur: string, ghost rest: seq<Segment>) returns (r: Option<seq<int>>)
    ensures r.None? ==> EncodeSegments(t, Flush(cur) + rest).None?
    ensures r.Some? ==> Then(ids, EncodeSegments(t, Flush(cur) + rest)) == Then(r.value, EncodeSegments(t, rest))
  {
    hide EncodeSegments, SegmentIds, Then;
    if cur == "" {
      assert Flush(cur) + rest == rest;
      return Some(ids);
    }
    var mine := Bpe.EncodeText(t.bpe, cur);
    PlainIds(t, cur);
    ThenStep(t, ids, Plain(cur), rest);
    if mine.None? { return None; }
    r := Some(ids + mine.value);
  }

  /** A special token at position i: flush the buffer, then take its id. */
  method TakeSpecial(t: Tokenizer, text: string, i: nat, cur: string, ids: seq<int>,
                     s: string) returns (r: Option<seq<int>>)
    requires Sorted(t.specials) && i < |text| && MatchAt(t.specials, text, i) == Some(s)
    ensures s != "" && i + |s| <= |text|
    ensures r.None? ==> EncodeSegments(t, Segments(t.specials, text, i, cur)).None?
    ensures r.Some? ==>
      Then(ids, EncodeSegments(t, Segments(t.specials, text, i, cur))) ==
        Then(r.value, EncodeSegments(t, Segments(t.specials, text, i + |s|, "")))
  {
    SegmentsStep(t.specials, text, i, cur);
    hide Sorted, SegmentIds, EncodeSegments, Segments, Then, MatchAt, Flush;
    ghost var rest := Segments(t.specials, text, i + |s|, "");
    var flushed := FlushBuffer(t, ids, cur, [Special(s)] + rest);
    if flushed.None? { return None; }
    SpecialIds(t, s);
    ThenStep(t, flushed.value, Special(s), rest);
    if s !in t.specialIds {
      NoneThen(ids, flushed.value, EncodeSegments(t, Flush(cur) + ([Special(s)] + rest)),
               EncodeSegments(t, [Special(s)] + rest));
      return None;
    }
    r := Some(flushed.value + [t.specialIds[s]]);
  }

  lemma NoneThen(ids: seq<int>, ids': seq<int>, a: Option<seq<int>>, b: Option<seq<int>>)
    requires Then(ids, a) == Then(ids', b)
    ensures a.None? <==> b.None?
  {
  }

  /** Scan the text with a buffer of plain characters; every special token flushes it. */
  method EncodeText(t: Tokenizer, text: string) returns (r: Option<seq<int>>)
    requires Sorted(t.specials)
    ensures r == Encode(t, text)
  {
    hide Sorted, EncodeSegments, Segments, Then, MatchAt, Flush, ToCome;
    var ids: seq<int>, cur, i := [], "", 0;
    StartScan(t, text);
    while i < |text|
      invariant i <= |text| && ToCome(t, text, i, cur, ids)
      decreases |text| - i
    {
      var matched := MatchAt(t.specials, text, i);
      if matched.Some? {
        var more := TakeSpecial(t, text, i, cur, ids, matched.value);
        SpecialTaken(t, text, i, cur, ids, matched.value, more);
        if more.None? { return None; }
        ids, cur, i := more.value, "", i + |matched.value|;
      } else {
        PlainTaken(t, text, i, cur, ids);
        cur, i := cur + [text[i]], i + 1;
      }
    }
    r := FlushBuffer(t, ids, cur, []);
    EndScan(t, text, i, cur, ids, r);
  }

  /** The ids so far, followed by those of the segments to come, are the encoding of the text. */
  ghost predicate ToCome(t: Tokenizer, text: string, i: nat, cur: string, ids: seq<int>) {
    Sorted(t.specials) && i <= |text| &&
      Then(ids, EncodeSegments(t, Segments(t.specials, text, i, cur))) == Encode(t, text)
  }

  lemma StartScan(t: Tokenizer, text: string)
    requires Sorted(t.specials)
    ensures ToCome(t, text, 0, "", [])
  {
    var all := Encode(t, text);
    if all.Some? { assert [] + all.value == all.value; }
  }

  lemma SpecialTaken(t: Tokenizer, text: string, i: nat, cur: string, ids: seq<int>, s: string, more: Option<seq<int>>)
    requires ToCome(t, text, i, cur, ids) && Sorted(t.specials) && i + |s| <= |text|
    requires more.None? ==> EncodeSegments(t, Segments(t.specials, text, i, cur)).None?
    requires more.Some? ==>
      Then(ids, EncodeSegments(t, Segments(t.specials, text, i, cur))) ==
        Then(more.value, EncodeSegments(t, Segments(t.specials, text, i + |s|, "")))
    ensures more.None? ==> Encode(t, text).None?
    ensures more.Some? ==> ToCome(t, text, i + |s|, "", more.value)
  {
    hide EncodeSegments, Segments, Sorted;
  }

  lemma PlainTaken(t: Tokenizer, text: string, i: nat, cur: string, ids: seq<int>)
    requires ToCome(t, text, i, cur, ids) && Sorted(t.specials) && i < |text| && MatchAt(t.specials, text, i).None?
    ensures ToCome(t, text, i + 1, cur + [text[i]], ids)
  {
    hide EncodeSegments, Sorted, MatchAt;
    SegmentsStep(t.specials, text, i, cur);
  }

  lemma EndScan(t: Tokenizer, text: string, i: nat, cur: string, ids: seq<int>, r: Option<seq<int>>)
    requires ToCome(t, text, i, cur, ids) && i == |text|
    requires r.None? ==> EncodeSegments(t, Flush(cur) + []).None?
    requires r.Some? ==> Then(ids, EncodeSegments(t, Flush(cur) + [])) == Then(r.value, EncodeSegments(t, []))
    ensures Sorted(t.specials) && r == Encode(t, text)
  {
    hide EncodeSegments, Sorted;
    SegmentsEnd(t.specials, text, i, cur);
    if r.Some? { NoSegments(t, r.value); }
  }

  lemma NoSegments(t: Tokenizer, ids: seq<int>)
    ensures Then(ids, EncodeSegments(t, [])) == Some(ids)
  {
    assert ids + [] == ids;
  }

  lemma {:induction false} NotEmpty(specials: seq<string>, s: string)
    requires Sorted(specials) && s in specials
    ensures s != ""
  {
  }

  lemma PlainIds(t: Tokenizer, cur: string)
    ensures SegmentIds(t, Plain(cur)) == Bpe.Encode(t.bpe, cur)
  {
  }

  lemma SpecialIds(t: Tokenizer, s: string)
    ensures SegmentIds(t, Special(s)) == if s in t.specialIds then Some([t.specialIds[s]]) else None
  {
  }

  // ---------------------------------------------------------------------------
  // Decoding
  // ---------------------------------------------------------------------------

  function FlushIds(t: Tokenizer, cur: seq<int>): string { if cur == [] then "" else Bpe.Decode(t.bpe, cur) }

  /** Ids of special tokens become their text; runs of other ids are decoded together. */
  function DecodeFrom(t: Tokenizer, ids: seq<int>, cur: seq<int>): string
    decreases |ids|
  {
    if ids == [] then FlushIds(t, cur)
    else if ids[0] in t.idToSpecial then FlushIds(t, cur) + t.idToSpecial[ids[0]] + DecodeFrom(t, ids[1..], [])
    else DecodeFrom(t, ids[1..], cur + [ids[0]])
  }

  function Decode(t: Tokenizer, ids: seq<int>): string { DecodeFrom(t, ids, []) }

  method DecodeIds(t: Tokenizer, ids: seq<int>) returns (text: string)
    ensures text == Decode(t, ids)
  {
    var out, cur: seq<int> := "", [];
    for i := 0 to |ids|
      invariant out + DecodeFrom(t, ids[i..], cur) == Decode(t, ids)
    {
      assert ids[i..][0] == ids[i] && ids[i..][1..] == ids[i + 1..];
      if ids[i] in t.idToSpecial {
        ghost var rest := DecodeFrom(t, ids[i + 1..], []);
        ghost var was := out;
        if cur != [] {
          var part := Bpe.DecodeIds(t.bpe, cur);
          out := out + part;
        }
        assert out == was + FlushIds(t, cur) by { if cur == [] { assert was + "" == was; } }
        assert was + (FlushIds(t, cur) + t.idToSpecial[ids[i]] + rest) == (out + t.idToSpecial[ids[i]]) + rest;
        out, cur := out + t.idToSpecial[ids[i]], [];
      } else {
        cur := cur + [ids[i]];
      }
    }
    text := out;
    if cur != [] {
      var part := Bpe.DecodeIds(t.bpe, cur);
      text := text + part;
    } else {
      assert out + "" == out;
    }
  }

  // ---------------------------------------------------------------------------
  // The round trip
  // ---------------------------------------------------------------------------

  /** Ordinary text encodes losslessly into ids that are not special. */
  ghost predicate PlainOk(t: Tokenizer, text: string) {
    && Bpe.Encodable(t.bpe, text)
    && (Bpe.Encode(t.bpe, text).Some? ==>
          forall k :: 0 <= k < |Bpe.Encode(t.bpe, text).value| ==> Bpe.Encode(t.bpe, text).value[k] !in t.idToSpecial)
  }

  /** Special tokens have ids that lead back to them. */
  ghost predicate SpecialOk(t: Tokenizer, s: string) {
    s in t.specialIds && t.specialIds[s] in t.idToSpecial && t.idToSpecial[t.specialIds[s]] == s
  }

  ghost predicate SegmentOk(t: Tokenizer, seg: Segment) {
    if seg.Plain? then PlainOk(t, seg.text) else SpecialOk(t, seg.text)
  }

  ghost predicate SegmentsOk(t: Tokenizer, segs: seq<Segment>) {
    forall k :: 0 <= k < |segs| ==> SegmentOk(t, segs[k])
  }

  lemma {:induction false} OrdinaryRun(t: Tokenizer, run: seq<int>, rest: seq<int>, cur: seq<int>)
    requires forall k :: 0 <= k < |run| ==> run[k] !in t.idToSpecial
    ensures DecodeFrom(t, run + rest, cur) == DecodeFrom(t, rest, cur + run)
    decreases |run|
  {
    if run == [] {
      assert run + rest == rest && cur + run == cur;
    } else {
      assert (run + rest)[1..] == run[1..] + rest;
      OrdinaryRun(t, run[1..], rest, cur + [run[0]]);
      assert (cur + [run[0]]) + run[1..] == cur + run;
    }
  }

  /** A plain segment decodes to its text. */
  lemma PlainDecodes(t: Tokenizer, cur: string)
    requires Bpe.CodecOk(t.bpe) && PlainOk(t, cur)
    ensures SegmentIds(t, Plain(cur)).Some?
    ensures FlushIds(t, SegmentIds(t, Plain(cur)).value) == cur
    ensures forall k :: 0 <= k < |SegmentIds(t, Plain(cur)).value| ==>
      SegmentIds(t, Plain(cur)).value[k] !in t.idToSpecial
  {
    hide Bpe.Encode, Bpe.Encodable, Bpe.CodecOk;
    Bpe.EncodedDecodes(t.bpe, cur);
    var ids := Bpe.Encode(t.bpe, cur).value;
    if ids == [] {
      Bpe.NoIds(t.bpe);
      Bpe.CodecEnds(t.bpe, "");
    }
  }

  /** A special token, after the plain text before it. */
  lemma {:induction false} SpecialDecodes(t: Tokenizer, s: string, rest: seq<int>, cur: seq<int>)
    requires SpecialOk(t, s)
    ensures DecodeFrom(t, [t.specialIds[s]] + rest, cur) == FlushIds(t, cur) + s + DecodeFrom(t, rest, [])
  {
    assert ([t.specialIds[s]] + rest)[1..] == rest;
  }

  /** The ids of the segments decode to the buffer and the rest of the text. */
  lemma {:induction false} SegmentsDecode(t: Tokenizer, text: string, i: nat, cur: string)
    requires Bpe.CodecOk(t.bpe) && Sorted(t.specials) && i <= |text| &&
      SegmentsOk(t, Segments(t.specials, text, i, cur))
    ensures var ids := EncodeSegments(t, Segments(t.specials, text, i, cur));
      ids.Some? && Decode(t, ids.value) == cur + text[i..]
    decreases |text| - i
  {
    hide Bpe.CodecOk, Sorted, SegmentOk, SegmentIds, FlushIds, Segments, MatchAt, EncodeSegments, DecodeFrom;
    var segs := Segments(t.specials, text, i, cur);
    if i == |text| {
      SegmentsEnd(t.specials, text, i, cur);
      assert Flush(cur) + [] == Flush(cur);
      LastDecodes(t, cur);
      assert cur + text[i..] == cur;
    } else {
      var s := MatchAt(t.specials, text, i);
      SegmentsStep(t.specials, text, i, cur);
      if s.Some? {
        var j := i + |s.value|;
        var rest := Segments(t.specials, text, j, "");
        assert segs == Flush(cur) + [Special(s.value)] + rest;
        assert forall k :: 0 <= k < |rest| ==> rest[k] == segs[|Flush(cur)| + 1 + k];
        SegmentsDecode(t, text, j, "");
        assert "" + text[j..] == text[j..];
        FirstDecodes(t, cur, s.value, rest);
        assert cur + s.value + text[j..] == cur + text[i..];
      } else {
        SegmentsDecode(t, text, i + 1, cur + [text[i]]);
        assert (cur + [text[i]]) + text[i + 1..] == cur + text[i..];
      }
    }
  }

  lemma {:induction false} LastDecodes(t: Tokenizer, cur: string)
    requires Bpe.CodecOk(t.bpe) && SegmentsOk(t, Flush(cur))
    ensures var ids := EncodeSegments(t, Flush(cur)); ids.Some? && Decode(t, ids.value) == cur
  {
    hide Bpe.CodecOk, PlainOk, SegmentIds, FlushIds;
    if cur != "" {
      assert SegmentOk(t, Flush(cur)[0]);
      PlainDecodes(t, cur);
      var run := SegmentIds(t, Plain(cur)).value;
      assert Flush(cur)[1..] == [] && run + [] == run && [] + run == run;
      OrdinaryRun(t, run, [], []);
    } else {
      NothingFlushed(t);
    }
  }

  lemma NothingFlushed(t: Tokenizer)
    ensures FlushIds(t, []) == ""
  {
  }

  lemma {:induction false} FirstDecodes(t: Tokenizer, cur: string, s: string, rest: seq<Segment>)
    requires Bpe.CodecOk(t.bpe) && SegmentsOk(t, Flush(cur) + [Special(s)] + rest) && EncodeSegments(t, rest).Some?
    ensures var ids := EncodeSegments(t, Flush(cur) + [Special(s)] + rest);
      ids.Some? && Decode(t, ids.value) == cur + s + Decode(t, EncodeSegments(t, rest).value)
  {
    hide Bpe.CodecOk, PlainOk, SegmentIds, FlushIds, EncodeSegments, DecodeFrom;
    var segs := Flush(cur) + [Special(s)] + rest;
    assert SegmentOk(t, segs[|Flush(cur)|]) && segs[|Flush(cur)|] == Special(s);
    SpecialIds(t, s);
    var tail, id := EncodeSegments(t, rest).value, SpecialId(t, s);
    FirstOf(t, Special(s), rest);
    NothingFlushed(t);
    if cur == "" {
      assert segs == [Special(s)] + rest;
      SpecialDecodes(t, s, tail, []);
      assert "" + s == s;
    } else {
      assert SegmentOk(t, segs[0]) && segs[0] == Plain(cur);
      assert segs == [Plain(cur)] + ([Special(s)] + rest);
      PlainDecodes(t, cur);
      var run := SegmentIds(t, Plain(cur)).value;
      FirstOf(t, Plain(cur), [Special(s)] + rest);
      OrdinaryRun(t, run, [id] + tail, []);
      assert [] + run == run;
      SpecialDecodes(t, s, tail, run);
    }
  }

  function SpecialId(t: Tokenizer, s: string): int
    requires SpecialOk(t, s)
  {
    t.specialIds[s]
  }

  lemma {:induction false} FirstOf(t: Tokenizer, seg: Segment, rest: seq<Segment>)
    requires SegmentIds(t, seg).Some? && EncodeSegments(t, rest).Some?
    ensures EncodeSegments(t, [seg] + rest) == Some(SegmentIds(t, seg).value + EncodeSegments(t, rest).value)
  {
    hide SegmentIds;
    assert ([seg] + rest)[1..] == rest;
  }

  /** A symbol whose id leads back to it, and is not special. */
  predicate Ordinary(t: Tokenizer, sym: string) {
    Bpe.Invertible(t.bpe, sym) && t.bpe.vocab[sym] !in t.idToSpecial
  }

  /**
   * The tables alone: every symbol that plain text can lead to, a byte's or what a ranked pair
   * merges into, is ordinary, and every special token has an id that leads back to it.
   */
  ghost predicate TablesOk(t: Tokenizer) {
    && (forall b: Bpe.Byte :: Ordinary(t, [Bpe.CharOf(b)]))
    && (forall a: string, b: string :: (a, b) in t.bpe.rank ==> Ordinary(t, a + b))
    && (forall s :: s in t.specials ==> SpecialOk(t, s))
  }

  ghost predicate Tiles(t: Tokenizer) {
    forall text: string :: Bpe.Concat(t.bpe.split(text)) == text
  }

  lemma TablesPlain(t: Tokenizer, text: string)
    requires TablesOk(t) && Bpe.Concat(t.bpe.split(text)) == text
    ensures PlainOk(t, text)
  {
    var q := (id: int) => id !in t.idToSpecial;
    assert Bpe.TablesCover(t.bpe);
    Bpe.TablesEncode(t.bpe, text);
    Bpe.PieceIdsKeep(t.bpe, t.bpe.split(text), q);
    hide Bpe.TablesCover, Bpe.Encodable, Bpe.EncodePieces;
    var ids := Bpe.Encode(t.bpe, text).value;
    forall k | 0 <= k < |ids| ensures ids[k] !in t.idToSpecial {
      var id := ids[k];
      assert id in Bpe.EncodePieces(t.bpe, t.bpe.split(text)).value;
      assert q(id);
    }
  }

  /** Cutting at special tokens yields only segments that the tables can carry. */
  lemma {:induction false} SegmentsFromTables(t: Tokenizer, text: string, i: nat, cur: string)
    requires Sorted(t.specials) && TablesOk(t) && Tiles(t) && i <= |text|
    ensures SegmentsOk(t, Segments(t.specials, text, i, cur))
    decreases |text| - i
  {
    hide TablesOk, PlainOk, SpecialOk, Segments, MatchAt, Sorted;
    FlushFromTables(t, cur);
    if i == |text| {
      SegmentsEnd(t.specials, text, i, cur);
    } else {
      SegmentsStep(t.specials, text, i, cur);
      match MatchAt(t.specials, text, i)
      case Some(s) =>
        SegmentsFromTables(t, text, i + |s|, "");
        MatchSpecial(t, text, i);
      case None =>
        SegmentsFromTables(t, text, i + 1, cur + [text[i]]);
    }
  }

  lemma FlushFromTables(t: Tokenizer, cur: string)
    requires TablesOk(t) && Tiles(t)
    ensures SegmentsOk(t, Flush(cur))
  {
    TablesPlain(t, cur);
    hide TablesOk, PlainOk;
  }

  lemma MatchSpecial(t: Tokenizer, text: string, i: nat)
    requires TablesOk(t) && i <= |text| && MatchAt(t.specials, text, i).Some?
    ensures SpecialOk(t, MatchAt(t.specials, text, i).value)
  {
    hide SpecialOk;
  }

  /** Decoding what was encoded gives every text back, when the tables are covered and the pieces tile. */
  lemma RoundTrip(t: Tokenizer, text: string)
    requires Bpe.CodecOk(t.bpe) && Sorted(t.specials) && TablesOk(t) && Tiles(t)
    ensures Encode(t, text).Some? && Decode(t, Encode(t, text).value) == text
  {
    SegmentsFromTables(t, text, 0, "");
    EncodedDecodes(t, text);
  }

  lemma EncodedDecodes(t: Tokenizer, text: string)
    requires Bpe.CodecOk(t.bpe) && Sorted(t.specials) && SegmentsOk(t, Segments(t.specials, text, 0, ""))
    ensures Encode(t, text).Some? && Decode(t, Encode(t, text).value) == text
  {
    SegmentsDecode(t, text, 0, "");
    assert "" + text[0..] == text;
  }
}
