/**
 * The special-token tables, as they are built from the vocabulary and the configuration,
 * and when they carry every text.
 */
module SpecialTables {
  import opened Prelude
  import Bpe
  import T = SpecialTokens

  // ---------------------------------------------------------------------------
  // Building
  // ---------------------------------------------------------------------------

  function WithToken(m: Bpe.Model, x: (string, int)): Bpe.Model {
    m.(vocab := m.vocab[x.0 := x.1], tokens := m.tokens[x.1 := x.0])
  }

  /** Added tokens enter the vocabulary and its inverse; one that the vocabulary has keeps its id. */
  function Injected(m: Bpe.Model, added: seq<(string, int)>): Bpe.Model {
    if added == [] then m
    else
      var before, (content, id) := Injected(m, added[..|added| - 1]), added[|added| - 1];
      if content in before.vocab then before
      else WithToken(before, (content, id))
  }

  function WithString(strings: seq<string>, s: string): seq<string> {
    if s in strings then strings else strings + [s]
  }

  /** The strings that may be special: the added tokens and those the configuration names. */
  function Strings(added: seq<(string, int)>, named: seq<string>): seq<string> {
    if named != [] then WithString(Strings(added, named[..|named| - 1]), named[|named| - 1])
    else if added != [] then WithString(Strings(added[..|added| - 1], []), added[|added| - 1].0)
    else []
  }

  /** Behind everything that is at least as long. */
  function Insert(sorted: seq<string>, s: string): seq<string> {
    if sorted == [] || |s| > |sorted[0]| then [s] + sorted else [sorted[0]] + Insert(sorted[1..], s)
  }

  /** The strings of the vocabulary, longest first. */
  function Resolved(vocab: map<string, int>, strings: seq<string>): seq<string> {
    if strings == [] then []
    else
      var last := strings[|strings| - 1];
      var before := Resolved(vocab, strings[..|strings| - 1]);
      if last in vocab then Insert(before, last) else before
  }

  function Inverse(vocab: map<string, int>, specials: seq<string>): map<int, string>
    requires forall s :: s in specials ==> s in vocab
  {
    if specials == [] then map[]
    else
      var last := specials[|specials| - 1];
      Inverse(vocab, specials[..|specials| - 1])[vocab[last] := last]
  }

  function Built(m: Bpe.Model, added: seq<(string, int)>, named: seq<string>): T.Tokenizer {
    var bpe := Injected(m, added);
    var specials := Resolved(bpe.vocab, Strings(added, named));
    ResolvedIs(bpe.vocab, Strings(added, named));
    T.Tokenizer(bpe, specials, map s | s in specials :: bpe.vocab[s], Inverse(bpe.vocab, specials))
  }

  lemma {:induction false} InsertIs(sorted: seq<string>, s: string)
    ensures forall x :: x in Insert(sorted, s) <==> x in sorted || x == s
    ensures Descending(sorted) ==> Descending(Insert(sorted, s))
  {
    if !(sorted == [] || |s| > |sorted[0]|) {
      InsertIs(sorted[1..], s);
      var rest := Insert(sorted[1..], s);
      if Descending(sorted) {
        forall k | 0 <= k < |rest| ensures |rest[k]| <= |sorted[0]| { assert rest[k] in rest; }
      }
    }
  }

  ghost predicate Descending(strings: seq<string>) {
    forall a, b :: 0 <= a < b < |strings| ==> |strings[a]| >= |strings[b]|
  }

  /** The resolved strings are those of the vocabulary, longest first. */
  lemma {:induction false} ResolvedIs(vocab: map<string, int>, strings: seq<string>)
    ensures forall s :: s in Resolved(vocab, strings) <==> s in strings && s in vocab
    ensures Descending(Resolved(vocab, strings))
    decreases |strings|
  {
    if strings != [] {
      var last := |strings| - 1;
      ResolvedIs(vocab, strings[..last]);
      assert strings == strings[..last] + [strings[last]];
      InsertIs(Resolved(vocab, strings[..last]), strings[last]);
    }
  }

  method BuildSpecial(m: Bpe.Model, added: seq<(string, int)>, named: seq<string>) returns (t: T.Tokenizer)
    ensures t == Built(m, added, named)
  {
    var strings: seq<string>, bpe := [], m;
    for i := 0 to |added|
      invariant strings == Strings(added[..i], []) && bpe == Injected(m, added[..i])
    {
      assert added[..i + 1][..i] == added[..i];
      var (content, id) := added[i];
      if content !in strings { strings := strings + [content]; }
      if content !in bpe.vocab {
        bpe := bpe.(vocab := bpe.vocab[content := id], tokens := bpe.tokens[id := content]);
      }
    }
    assert added[..|added|] == added;
    for i := 0 to |named|
      invariant strings == Strings(added, named[..i])
    {
      assert named[..i + 1][..i] == named[..i];
      if named[i] !in strings { strings := strings + [named[i]]; }
    }
    assert named[..|named|] == named;
    var specials := Resolved(bpe.vocab, strings);
    ResolvedIs(bpe.vocab, strings);
    var inverse: map<int, string> := map[];
    for i := 0 to |specials|
      invariant inverse == Inverse(bpe.vocab, specials[..i])
    {
      assert specials[..i + 1][..i] == specials[..i];
      inverse := inverse[bpe.vocab[specials[i]] := specials[i]];
    }
    assert specials[..|specials|] == specials;
    t := T.Tokenizer(bpe, specials, map s | s in specials :: bpe.vocab[s], inverse);
  }

  // ---------------------------------------------------------------------------
  // What is built
  // ---------------------------------------------------------------------------

  ghost predicate AllInvertible(m: Bpe.Model) {
    forall sym :: sym in m.vocab ==> Bpe.Invertible(m, sym)
  }

  /** The vocabulary file: different ids, no empty symbol, every byte and every merge. */
  ghost predicate BaseOk(m: Bpe.Model) {
    && AllInvertible(m) && "" !in m.vocab
    && (forall b: Bpe.Byte :: [Bpe.CharOf(b)] in m.vocab)
    && (forall a: string, b: string :: (a, b) in m.rank ==> a + b in m.vocab)
  }

  /** Tokens that the vocabulary lacks are added under ids of their own. */
  ghost predicate FreshIds(m: Bpe.Model, added: seq<(string, int)>) {
    && (forall i :: 0 <= i < |added| ==> added[i].0 != "")
    && (forall i :: 0 <= i < |added| && added[i].0 !in m.vocab ==> added[i].1 !in m.tokens)
    && (forall i, j :: 0 <= i < j < |added| && added[i].0 !in m.vocab && added[j].0 !in m.vocab ==>
          added[i].0 == added[j].0 || added[i].1 != added[j].1)
  }

  ghost predicate IsAdded(added: seq<(string, int)>, sym: string) {
    exists i :: 0 <= i < |added| && added[i].0 == sym
  }

  ghost predicate IsNewId(m: Bpe.Model, added: seq<(string, int)>, id: int) {
    exists i :: 0 <= i < |added| && added[i].0 !in m.vocab && added[i].1 == id
  }

  /** What injection keeps: the given vocabulary, with the added tokens and their ids. */
  ghost predicate Extends(m: Bpe.Model, added: seq<(string, int)>, m': Bpe.Model) {
    && m' == m.(vocab := m'.vocab, tokens := m'.tokens) && AllInvertible(m')
    && (forall sym :: sym in m.vocab ==> sym in m'.vocab && m'.vocab[sym] == m.vocab[sym])
    && (forall sym :: sym in m'.vocab <==> sym in m.vocab || IsAdded(added, sym))
    && (forall id :: id in m'.tokens ==> id in m.tokens || IsNewId(m, added, id))
  }

  lemma AddedMore(added: seq<(string, int)>, x: (string, int))
    ensures forall sym :: IsAdded(added + [x], sym) <==> IsAdded(added, sym) || sym == x.0
  {
    var more := added + [x];
    assert more[|added|] == x;
    forall sym ensures IsAdded(more, sym) <==> IsAdded(added, sym) || sym == x.0 {
      if IsAdded(added, sym) {
        var i :| 0 <= i < |added| && added[i].0 == sym;
        assert more[i] == added[i];
      }
    }
  }

  lemma NewIdsMore(m: Bpe.Model, added: seq<(string, int)>, x: (string, int))
    ensures forall id :: IsNewId(m, added + [x], id) <==> IsNewId(m, added, id) || (x.0 !in m.vocab && x.1 == id)
  {
    var more := added + [x];
    assert more[|added|] == x;
    forall id ensures IsNewId(m, more, id) <==> IsNewId(m, added, id) || (x.0 !in m.vocab && x.1 == id) {
      if IsNewId(m, added, id) {
        var i :| 0 <= i < |added| && added[i].0 !in m.vocab && added[i].1 == id;
        assert more[i] == added[i];
      }
    }
  }

  lemma TokenInvertible(m: Bpe.Model, x: (string, int))
    requires AllInvertible(m) && x.0 !in m.vocab && x.1 !in m.tokens
    ensures AllInvertible(WithToken(m, x))
  {
    var m' := WithToken(m, x);
    forall sym | sym in m'.vocab ensures Bpe.Invertible(m', sym) {
      if sym != x.0 { assert Bpe.Invertible(m, sym); }
    }
  }

  lemma ExtendsMore(m: Bpe.Model, added: seq<(string, int)>, m1: Bpe.Model, x: (string, int))
    requires Extends(m, added, m1) && (x.0 !in m1.vocab ==> x.1 !in m1.tokens)
    ensures Extends(m, added + [x], if x.0 in m1.vocab then m1 else WithToken(m1, x))
  {
    AddedMore(added, x);
    NewIdsMore(m, added, x);
    if x.0 !in m1.vocab { TokenInvertible(m1, x); }
    hide IsAdded, IsNewId, AllInvertible;
  }

  lemma FreshBefore(m: Bpe.Model, added: seq<(string, int)>, x: (string, int))
    requires FreshIds(m, added + [x])
    ensures FreshIds(m, added)
  {
    var more := added + [x];
    assert forall i :: 0 <= i < |added| ==> more[i] == added[i];
  }

  /** The injected vocabulary extends the given one, and stays invertible. */
  lemma {:induction false} InjectedExtends(m: Bpe.Model, added: seq<(string, int)>)
    requires AllInvertible(m) && FreshIds(m, added)
    ensures Extends(m, added, Injected(m, added))
    decreases |added|
  {
    hide Extends, FreshIds, WithToken;
    if added == [] {
      NoneAdded(m);
    } else {
      var before, x := added[..|added| - 1], added[|added| - 1];
      assert added == before + [x];
      FreshBefore(m, before, x);
      InjectedExtends(m, before);
      if x.0 !in Injected(m, before).vocab { NewIdUnused(m, before, x); }
      ExtendsMore(m, before, Injected(m, before), x);
    }
  }

  lemma NoneAdded(m: Bpe.Model)
    requires AllInvertible(m)
    ensures Extends(m, [], m)
  {
  }

  lemma NewIdUnused(m: Bpe.Model, added: seq<(string, int)>, x: (string, int))
    requires FreshIds(m, added + [x]) && Extends(m, added, Injected(m, added)) && x.0 !in Injected(m, added).vocab
    ensures x.1 !in Injected(m, added).tokens
  {
    var more := added + [x];
    assert more[|added|] == x;
    if IsNewId(m, added, x.1) {
      var i :| 0 <= i < |added| && added[i].0 !in m.vocab && added[i].1 == x.1;
      assert more[i] == added[i];
      assert IsAdded(added, added[i].0);
    }
  }

  /** In an invertible vocabulary, the inverse of the special ids leads back to the special tokens and to no others. */
  lemma {:induction false} InverseIs(m: Bpe.Model, specials: seq<string>)
    requires AllInvertible(m) && forall s :: s in specials ==> s in m.vocab
    ensures forall s :: s in specials ==> m.vocab[s] in Inverse(m.vocab, specials)
    ensures forall id :: id in Inverse(m.vocab, specials) ==>
      var s := Inverse(m.vocab, specials)[id]; s in specials && m.vocab[s] == id
    decreases |specials|
  {
    if specials != [] {
      var before, last := specials[..|specials| - 1], specials[|specials| - 1];
      assert specials == before + [last];
      InverseIs(m, before);
    }
  }

  lemma OneSymbol(m: Bpe.Model, a: string, b: string)
    requires AllInvertible(m) && a in m.vocab && b in m.vocab && m.vocab[a] == m.vocab[b]
    ensures a == b
  {
    assert Bpe.Invertible(m, a) && Bpe.Invertible(m, b);
  }

  /** Special tokens that no plain text can lead to: neither a byte's symbol nor what a ranked pair merges into. */
  ghost predicate Apart(rank: Bpe.Ranks, specials: seq<string>) {
    && (forall b: Bpe.Byte :: [Bpe.CharOf(b)] !in specials)
    && (forall a: string, b: string :: (a, b) in rank ==> a + b !in specials)
  }

  /** A symbol of the built vocabulary is ordinary exactly when it is not special. */
  lemma OrdinaryIff(m: Bpe.Model, added: seq<(string, int)>, named: seq<string>, sym: string)
    requires AllInvertible(m) && FreshIds(m, added) && sym in m.vocab
    ensures T.Ordinary(Built(m, added, named), sym) <==> sym !in Built(m, added, named).specials
  {
    var t := Built(m, added, named);
    InjectedExtends(m, added);
    hide Injected, FreshIds, Resolved;
    ResolvedIs(t.bpe.vocab, Strings(added, named));
    InverseIs(t.bpe, t.specials);
    assert Bpe.Invertible(t.bpe, sym);
    var id := t.bpe.vocab[sym];
    if id in t.idToSpecial { OneSymbol(t.bpe, sym, t.idToSpecial[id]); }
  }

  lemma {:induction false} StringsAre(added: seq<(string, int)>, named: seq<string>)
    ensures forall s :: s in Strings(added, named) <==> IsAdded(added, s) || s in named
    decreases |added| + |named|
  {
    if named != [] {
      StringsAre(added, named[..|named| - 1]);
      assert named == named[..|named| - 1] + [named[|named| - 1]];
    } else if added != [] {
      var x := added[|added| - 1];
      StringsAre(added[..|added| - 1], []);
      assert added == added[..|added| - 1] + [x];
      AddedMore(added[..|added| - 1], x);
    }
  }

  // ---------------------------------------------------------------------------
  // What the built tables carry
  // ---------------------------------------------------------------------------

  /** The special tokens are the added and the named ones that have an id; each is in the vocabulary under its id. */
  lemma SpecialsAre(m: Bpe.Model, added: seq<(string, int)>, named: seq<string>)
    requires BaseOk(m) && FreshIds(m, added)
    ensures var t := Built(m, added, named);
      && T.Sorted(t.specials)
      && (forall s :: s in t.specials <==> IsAdded(added, s) || (s in named && s in m.vocab))
      && (forall s :: s in t.specials ==> T.SpecialOk(t, s) && s in t.bpe.vocab && t.bpe.vocab[s] == t.specialIds[s])
  {
    var t := Built(m, added, named);
    InjectedExtends(m, added);
    StringsAre(added, named);
    ResolvedIs(t.bpe.vocab, Strings(added, named));
    hide Injected, Strings, Resolved;
    InverseIs(t.bpe, t.specials);
    forall s | s in t.specials ensures T.SpecialOk(t, s) {
      OneSymbol(t.bpe, s, t.idToSpecial[t.bpe.vocab[s]]);
    }
    NoEmpty(added);
  }

  lemma NoEmpty(added: seq<(string, int)>)
    requires forall i :: 0 <= i < |added| ==> added[i].0 != ""
    ensures !IsAdded(added, "")
  {
  }

  /**
   * The built tables meet the condition of the round trip exactly when no special token is a byte's
   * symbol or a merge.
   */
  lemma BuiltOkExactly(m: Bpe.Model, added: seq<(string, int)>, named: seq<string>)
    requires BaseOk(m) && FreshIds(m, added)
    ensures T.TablesOk(Built(m, added, named)) <==> Apart(m.rank, Built(m, added, named).specials)
  {
    var t := Built(m, added, named);
    SpecialsAre(m, added, named);
    InjectedExtends(m, added);
    assert t.bpe.rank == m.rank;
    hide Built, T.SpecialOk, FreshIds, T.Ordinary;
    forall b: Bpe.Byte ensures T.Ordinary(t, [Bpe.CharOf(b)]) <==> [Bpe.CharOf(b)] !in t.specials {
      OrdinaryIff(m, added, named, [Bpe.CharOf(b)]);
    }
    forall a: string, b: string | (a, b) in m.rank ensures T.Ordinary(t, a + b) <==> a + b !in t.specials {
      OrdinaryIff(m, added, named, a + b);
    }
  }

  /**
   * With the tables as they are built, special tokens included, decoding what was encoded gives
   * every text back, when plain text cannot lead to a special token and the pieces tile.
   */
  lemma RoundTrip(m: Bpe.Model, added: seq<(string, int)>, named: seq<string>, text: string)
    requires Bpe.CodecOk(m) && BaseOk(m) && FreshIds(m, added)
    requires forall part: string :: Bpe.Concat(m.split(part)) == part
    requires Apart(m.rank, Built(m, added, named).specials)
    ensures var t := Built(m, added, named);
      T.Sorted(t.specials) && T.Encode(t, text).Some? && T.Decode(t, T.Encode(t, text).value) == text
  {
    var t := Built(m, added, named);
    SpecialsAre(m, added, named);
    BuiltOkExactly(m, added, named);
    InjectedExtends(m, added);
    SameCodec(m, t.bpe);
    hide Built, FreshIds, BaseOk, T.TablesOk, Bpe.CodecOk, Apart;
    assert T.Tiles(t);
    T.RoundTrip(t, text);
  }

  lemma SameCodec(m: Bpe.Model, m': Bpe.Model)
    requires Bpe.CodecOk(m) && m'.utf8 == m.utf8 && m'.text == m.text
    ensures Bpe.CodecOk(m')
  {
  }

  /** A special token that is the symbol of another character's only byte is what that character comes back as. */
  lemma ByteSymbolSpecial(t: T.Tokenizer, b: Bpe.Byte, c: char)
    requires T.Sorted(t.specials) && T.MatchAt(t.specials, [c], 0).None?
    requires t.bpe.split([c]) == [[c]] && t.bpe.utf8([c]) == [b]
    requires var s := [Bpe.CharOf(b)];
      s in t.specials && T.SpecialOk(t, s) && s in t.bpe.vocab && t.bpe.vocab[s] == t.specialIds[s]
    ensures c != Bpe.CharOf(b)
    ensures T.Encode(t, [c]).Some? && T.Decode(t, T.Encode(t, [c]).value) == [Bpe.CharOf(b)]
  {
    var s, id := [Bpe.CharOf(b)], t.bpe.vocab[[Bpe.CharOf(b)]];
    OneByte(t.bpe, b, c);
    if c == Bpe.CharOf(b) { Matched(t.specials, [c], s); }
    hide Bpe.Encode, T.Sorted;
    T.SegmentsStep(t.specials, [c], 0, "");
    assert "" + [[c][0]] == [c];
    T.SegmentsEnd(t.specials, [c], 1, [c]);
    var segs := T.Segments(t.specials, [c], 0, "");
    assert segs == [T.Plain([c])];
    T.PlainIds(t, [c]);
    assert T.EncodeSegments(t, segs[1..]) == Some([]);
    assert [id] + [] == [id];
    assert T.EncodeSegments(t, segs) == Some([id]);
    assert [id][1..] == [] && T.DecodeFrom(t, [], []) == "";
    assert "" + s + "" == s;
  }

  lemma OneByte(m: Bpe.Model, b: Bpe.Byte, c: char)
    requires m.split([c]) == [[c]] && m.utf8([c]) == [b] && [Bpe.CharOf(b)] in m.vocab
    ensures Bpe.Encode(m, [c]) == Some([m.vocab[[Bpe.CharOf(b)]]])
  {
    var words := Bpe.Singles(Bpe.Symbols([b]));
    assert words == [[Bpe.CharOf(b)]];
    assert Bpe.Final(m, [c]) == words;
    assert words[..0] == [] && [[c]][..0] == [];
    var ids := [m.vocab[words[0]]];
    assert Bpe.SymbolIds(m, words[0]) == Some(ids) && Bpe.IdsOf(m, []) == Some([]) && [] + ids == ids;
    assert Bpe.IdsOf(m, words) == Some(ids);
    assert Bpe.EncodePieces(m, []) == Some([]);
    assert Bpe.EncodePieces(m, [[c]]) == Some(ids);
  }

  lemma Matched(specials: seq<string>, text: string, s: string)
    requires s in specials && text == s
    ensures T.MatchAt(specials, text, 0).Some?
  {
    var k :| 0 <= k < |specials| && specials[k] == s;
    assert T.StartsAt(text, specials[k], 0);
  }
}
