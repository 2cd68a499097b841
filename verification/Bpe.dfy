/**
 * Byte-level BPE. The UTF-8 codec and the pre-tokenization pattern are parameters;
 * what the round trip needs of them is stated where it is used.
 */
module Bpe {
  import opened Prelude

  type Byte = b: nat | b < 256

  // ---------------------------------------------------------------------------
  // Bytes as printable characters
  // ---------------------------------------------------------------------------

  /** Bytes that stand for themselves. */
  predicate Printable(b: nat) {
    33 <= b <= 126 || 0xA1 <= b <= 0xAC || 0xAE <= b <= 0xFF
  }

  /** How many bytes below b do not. */
  function HiddenBelow(b: nat): (n: nat)
    ensures n <= b
  {
    if b == 0 then 0 else HiddenBelow(b - 1) + if Printable(b - 1) then 0 else 1
  }

  function Code(b: Byte): (c: nat)
    ensures c < 512
  {
    if Printable(b) then b else 256 + HiddenBelow(b)
  }

  function CharOf(b: Byte): char { Code(b) as char }

  lemma {:induction false} HiddenGrows(a: nat, b: nat)
    requires a < b && !Printable(a)
    ensures HiddenBelow(a) < HiddenBelow(b)
  {
    if a < b - 1 { HiddenGrows(a, b - 1); }
  }

  /** Different bytes get different characters. */
  lemma CharInjective(a: Byte, b: Byte)
    requires CharOf(a) == CharOf(b)
    ensures a == b
  {
    assert Code(a) == Code(b);
    if !Printable(a) && a < b { HiddenGrows(a, b); }
    if !Printable(b) && b < a { HiddenGrows(b, a); }
  }

  /** In closed form: control characters, then the second block of them, then the soft hyphen. */
  lemma CharIs(b: Byte)
    ensures CharOf(b) as int == if b < 0x21 then 0x100 + b else if 0x7F <= b < 0xA1 then 0x121 + (b - 0x7F)
      else if b == 0xAD then 0x143 else b
  {
    HiddenIs(b);
  }

  lemma {:induction false} HiddenIs(b: nat)
    requires b <= 256
    ensures HiddenBelow(b) == if b < 0x21 then b else if b < 0x7F then 0x21 else if b < 0xA1 then b - 0x7F + 0x21
      else if b <= 0xAD then 0x43 else 0x44
  {
    if b > 0 { HiddenIs(b - 1); }
  }

  /** The table as the source builds it: printable bytes first, the others numbered from 256. */
  method BytesToUnicode() returns (table: map<nat, char>)
    ensures forall b: Byte :: b in table && table[b] == CharOf(b)
    ensures forall b :: b in table ==> b < 256
  {
    table := map[];
    hide CharOf, Printable;
    for b := 0 to 256
      invariant Stage(table, b, 0)
    {
      if Printable(b) {
        PrintableCode(b);
        table := table[b := b as char];
      }
    }
    var n := 0;
    for b := 0 to 256
      invariant n == HiddenBelow(b)
      invariant Stage(table, 256, b)
    {
      HiddenCode(b);
      if b !in table {
        table := table[b := (256 + n) as char];
        n := n + 1;
      }
    }
  }

  /** The printable bytes below p and all bytes below a are in the table, with their characters. */
  ghost predicate Stage(table: map<nat, char>, p: nat, a: nat) {
    && (forall b :: b in table ==> b < 256)
    && (forall b: Byte :: b in table <==> b < a || (b < p && Printable(b)))
    && (forall b: Byte :: b in table ==> table[b] == CharOf(b))
  }

  lemma PrintableCode(b: Byte)
    requires Printable(b)
    ensures CharOf(b) == b as char
  {
  }

  lemma HiddenCode(b: Byte)
    ensures !Printable(b) ==> CharOf(b) == (256 + HiddenBelow(b)) as char
    ensures HiddenBelow(b + 1) == HiddenBelow(b) + if Printable(b) then 0 else 1
  {
  }

  /** The inverse table, searched from the top. */
  function ByteFrom(c: char, n: nat): (r: Option<nat>)
    requires n <= 256
    ensures r.Some? ==> r.value < n
  {
    if n == 0 then None else if CharOf(n - 1) == c then Some(n - 1) else ByteFrom(c, n - 1)
  }

  function ByteOf(c: char): (r: Option<nat>)
    ensures r.Some? ==> r.value < 256
  {
    ByteFrom(c, 256)
  }

  lemma {:induction false} ByteFromFinds(b: Byte, n: nat)
    requires b < n <= 256
    ensures ByteFrom(CharOf(b), n) == Some(b)
  {
    if CharOf(n - 1) == CharOf(b) {
      CharInjective(n - 1, b);
    } else {
      ByteFromFinds(b, n - 1);
    }
  }

  lemma ByteOfChar(b: Byte)
    ensures ByteOf(CharOf(b)) == Some(b as nat)
  {
    ByteFromFinds(b, 256);
  }

  function Symbols(data: seq<Byte>): (s: string)
    ensures |s| == |data|
  {
    seq(|data|, i requires 0 <= i < |data| => CharOf(data[i]))
  }

  // ---------------------------------------------------------------------------
  // Merging
  // ---------------------------------------------------------------------------

  type Ranks = map<(string, string), nat>

  function Concat(words: seq<string>): string {
    if words == [] then "" else words[0] + Concat(words[1..])
  }

  function Singles(s: string): (words: seq<string>)
    ensures |words| == |s|
  {
    seq(|s|, i requires 0 <= i < |s| => [s[i]])
  }

  predicate Mergeable(rank: Ranks, words: seq<string>, i: nat) {
    i + 1 < |words| && (words[i], words[i + 1]) in rank
  }

  function RankAt(rank: Ranks, words: seq<string>, i: nat): nat
    requires Mergeable(rank, words, i)
  {
    rank[(words[i], words[i + 1])]
  }

  /** Among the first n pairs: the lowest rank, the leftmost of equals. */
  ghost predicate IsBest(rank: Ranks, words: seq<string>, n: nat, best: Option<nat>) {
    match best
    case None => forall j :: 0 <= j < n ==> !Mergeable(rank, words, j)
    case Some(i) =>
      && i < n && Mergeable(rank, words, i)
      && forall j :: 0 <= j < n && Mergeable(rank, words, j) ==>
           RankAt(rank, words, i) < RankAt(rank, words, j) ||
             (RankAt(rank, words, i) == RankAt(rank, words, j) && i <= j)
  }

  lemma BestUnique(rank: Ranks, words: seq<string>, n: nat, a: Option<nat>, b: Option<nat>)
    requires IsBest(rank, words, n, a) && IsBest(rank, words, n, b)
    ensures a == b
  {
    if a.Some? { assert Mergeable(rank, words, a.value); }
    if b.Some? { assert Mergeable(rank, words, b.value); }
  }

  function Best(rank: Ranks, words: seq<string>, n: nat): (best: Option<nat>)
    requires n < |words| || n == 0
    ensures IsBest(rank, words, n, best)
  {
    if n == 0 then None
    else
      var before := Best(rank, words, n - 1);
      if Mergeable(rank, words, n - 1) &&
          (before.None? || RankAt(rank, words, n - 1) < RankAt(rank, words, before.value))
      then Some(n - 1) else before
  }

  function MergeAt(words: seq<string>, i: nat): (merged: seq<string>)
    requires i + 1 < |words|
    ensures |merged| == |words| - 1
  {
    words[..i] + [words[i] + words[i + 1]] + words[i + 2..]
  }

  /** Merge the best pair until none is left. */
  function MergeAll(rank: Ranks, words: seq<string>): (done: seq<string>)
    decreases |words|
  {
    if |words| <= 1 then words
    else
      var best := Best(rank, words, |words| - 1);
      if best.None? then words else MergeAll(rank, MergeAt(words, best.value))
  }

  lemma {:induction false} ConcatAppend(a: seq<string>, b: seq<string>)
    ensures Concat(a + b) == Concat(a) + Concat(b)
    decreases |a|
  {
    if a == [] {
      assert a + b == b;
    } else {
      assert (a + b)[1..] == a[1..] + b;
      ConcatAppend(a[1..], b);
    }
  }

  lemma ConcatSmall(a: string, b: string)
    ensures Concat([a]) == a && Concat([a, b]) == a + b
  {
    assert [a, b][1..] == [b] && [b][1..] == [] && [a][1..] == [];
    assert b + "" == b && a + "" == a;
  }

  lemma {:induction false} MergeKeepsText(words: seq<string>, i: nat)
    requires i + 1 < |words|
    ensures Concat(MergeAt(words, i)) == Concat(words)
  {
    hide Concat;
    var a, pair, merged, rest := words[..i], [words[i], words[i + 1]], [words[i] + words[i + 1]], words[i + 2..];
    assert words == a + (pair + rest) && MergeAt(words, i) == a + (merged + rest);
    ConcatAppend(a, pair + rest);
    ConcatAppend(pair, rest);
    ConcatAppend(a, merged + rest);
    ConcatAppend(merged, rest);
    ConcatSmall(words[i], words[i + 1]);
    ConcatSmall(words[i] + words[i + 1], "");
  }

  /** The final symbols spell the same text, and no two neighbours can be merged. */
  lemma {:induction false} MergeAllDone(rank: Ranks, words: seq<string>)
    ensures Concat(MergeAll(rank, words)) == Concat(words)
    ensures forall i: nat :: i + 1 < |MergeAll(rank, words)| ==> !Mergeable(rank, MergeAll(rank, words), i)
    decreases |words|
  {
    if |words| > 1 {
      var best := Best(rank, words, |words| - 1);
      if best.Some? {
        MergeKeepsText(words, best.value);
        MergeAllDone(rank, MergeAt(words, best.value));
      }
    }
  }

  lemma {:induction false} ConcatSingles(s: string)
    ensures Concat(Singles(s)) == s
  {
    if s != "" {
      assert Singles(s)[1..] == Singles(s[1..]);
      ConcatSingles(s[1..]);
    }
  }

  /** One scan over the neighbouring pairs. */
  method FindBest(rank: Ranks, words: seq<string>) returns (best: Option<nat>)
    requires |words| > 1
    ensures best == Best(rank, words, |words| - 1)
  {
    hide Best;
    best := None;
    for i := 0 to |words| - 1
      invariant IsBest(rank, words, i, best)
    {
      var pair := (words[i], words[i + 1]);
      if pair in rank && (best.None? || rank[pair] < rank[(words[best.value], words[best.value + 1])]) {
        best := Some(i);
      }
    }
    BestUnique(rank, words, |words| - 1, best, Best(rank, words, |words| - 1));
  }

  /** The merge loop: join the best pair in place, until no pair has a rank. */
  method BpeSymbols(rank: Ranks, data: seq<Byte>) returns (words: seq<string>)
    ensures words == MergeAll(rank, Singles(Symbols(data)))
    ensures Concat(words) == Symbols(data)
    ensures forall i: nat :: i + 1 < |words| ==> !Mergeable(rank, words, i)
  {
    hide Best, Concat, Symbols, Singles, IsBest;
    words := Singles(Symbols(data));
    ConcatSingles(Symbols(data));
    MergeAllDone(rank, words);
    while |words| > 1
      invariant MergeAll(rank, words) == MergeAll(rank, Singles(Symbols(data)))
      decreases |words|
    {
      var best := FindBest(rank, words);
      if best.None? { break; }
      BestInside(rank, words);
      ghost var before := words;
      words := words[best.value := words[best.value] + words[best.value + 1]];
      words := words[..best.value + 1] + words[best.value + 2..];
      assert words == MergeAt(before, best.value);
    }
  }

  lemma BestInside(rank: Ranks, words: seq<string>)
    requires |words| > 1
    ensures var best := Best(rank, words, |words| - 1); best.Some? ==> best.value + 1 < |words|
  {
  }

  // ---------------------------------------------------------------------------
  // Ids
  // ---------------------------------------------------------------------------

  /** Merge ranks, the vocabulary and its inverse, the pre-tokenizer, and the UTF-8 codec. */
  datatype Model = Model(rank: Ranks, vocab: map<string, int>, tokens: map<int, string>,
                         split: string -> seq<string>, utf8: string -> seq<Byte>, text: seq<Byte> -> string)

  function HexDigit(n: nat): char
    requires n < 16
  {
    "0123456789ABCDEF"[n]
  }

  function ByteToken(b: Byte): string { "<0x" + [HexDigit(b / 16), HexDigit(b % 16)] + ">" }

  /** What a hexadecimal digit stands for; 16 for any other character. */
  function HexValue(c: char): nat {
    if '0' <= c <= '9' then (c - '0') as nat else if 'A' <= c <= 'F' then 10 + (c - 'A') as nat else 16
  }

  /** The token of a byte is two upper-case digits in brackets, and they spell the byte. */
  lemma ByteTokenIs(b: Byte)
    ensures var t := ByteToken(b);
      |t| == 6 && t[..3] == "<0x" && t[5] == '>' && HexValue(t[3]) < 16 && HexValue(t[4]) < 16 &&
      16 * HexValue(t[3]) + HexValue(t[4]) == b
  {
    DigitValue(b / 16);
    DigitValue(b % 16);
  }

  lemma DigitValue(n: nat)
    requires n < 16
    ensures HexValue(HexDigit(n)) == n
  {
  }

  /** One token per byte, for a symbol that has no id of its own; None when a token is missing. */
  function ByteIds(m: Model, sym: string): Option<seq<int>> {
    if sym == "" then Some([])
    else
      var b, rest := ByteOf(sym[0]), ByteIds(m, sym[1..]);
      if b.None? || ByteToken(b.value) !in m.vocab || rest.None? then None
      else Some([m.vocab[ByteToken(b.value)]] + rest.value)
  }

  function SymbolIds(m: Model, sym: string): Option<seq<int>> {
    if sym in m.vocab then Some([m.vocab[sym]]) else ByteIds(m, sym)
  }

  function IdsOf(m: Model, words: seq<string>): Option<seq<int>> {
    if words == [] then Some([])
    else
      var last := |words| - 1;
      var before, mine := IdsOf(m, words[..last]), SymbolIds(m, words[last]);
      if before.None? || mine.None? then None else Some(before.value + mine.value)
  }

  /** The final symbols of one pre-token. */
  function Final(m: Model, piece: string): seq<string> { MergeAll(m.rank, Singles(Symbols(m.utf8(piece)))) }

  function EncodePieces(m: Model, pieces: seq<string>): Option<seq<int>> {
    if pieces == [] then Some([])
    else
      var last := |pieces| - 1;
      var before, mine := EncodePieces(m, pieces[..last]), IdsOf(m, Final(m, pieces[last]));
      if before.None? || mine.None? then None else Some(before.value + mine.value)
  }

  function Encode(m: Model, text: string): Option<seq<int>> { EncodePieces(m, m.split(text)) }

  method PieceToIds(m: Model, piece: string) returns (ids: Option<seq<int>>)
    ensures ids == IdsOf(m, Final(m, piece))
  {
    var words := BpeSymbols(m.rank, m.utf8(piece));
    hide SymbolIds;
    var out: seq<int> := [];
    for i := 0 to |words|
      invariant IdsOf(m, words[..i]) == Some(out)
      invariant words == Final(m, piece)
    {
      assert words[..i + 1][..i] == words[..i];
      var mine := SymbolIds(m, words[i]);
      if mine.None? {
        MissingStays(m, words, i + 1);
        return None;
      }
      out := out + mine.value;
    }
    assert words[..|words|] == words;
    ids := Some(out);
  }

  lemma {:induction false} MissingStays(m: Model, words: seq<string>, n: nat)
    requires n <= |words| && IdsOf(m, words[..n]).None?
    ensures IdsOf(m, words).None?
    decreases |words| - n
  {
    hide SymbolIds;
    assert words[..|words|] == words;
    if n < |words| {
      assert words[..n + 1][..n] == words[..n];
      MissingStays(m, words, n + 1);
    }
  }

  method EncodeText(m: Model, text: string) returns (ids: Option<seq<int>>)
    ensures ids == Encode(m, text)
  {
    hide IdsOf, Final;
    var pieces := m.split(text);
    var out: seq<int> := [];
    for i := 0 to |pieces|
      invariant EncodePieces(m, pieces[..i]) == Some(out)
    {
      assert pieces[..i + 1][..i] == pieces[..i];
      var mine := PieceToIds(m, pieces[i]);
      if mine.None? {
        PieceMissingStays(m, pieces, i + 1);
        return None;
      }
      out := out + mine.value;
    }
    assert pieces[..|pieces|] == pieces;
    ids := Some(out);
  }

  lemma {:induction false} PieceMissingStays(m: Model, pieces: seq<string>, n: nat)
    requires n <= |pieces| && EncodePieces(m, pieces[..n]).None?
    ensures EncodePieces(m, pieces).None?
    decreases |pieces| - n
  {
    hide IdsOf, Final;
    assert pieces[..|pieces|] == pieces;
    if n < |pieces| {
      assert pieces[..n + 1][..n] == pieces[..n];
      PieceMissingStays(m, pieces, n + 1);
    }
  }

  /** The bytes of a token's characters; characters outside the table are skipped. */
  function TokenBytes(token: string): seq<Byte> {
    if token == "" then []
    else
      var last := |token| - 1;
      var b := ByteOf(token[last]);
      TokenBytes(token[..last]) + if b.Some? then [b.value as Byte] else []
  }

  /** Unknown ids are skipped. */
  function IdBytes(m: Model, ids: seq<int>): seq<Byte> {
    if ids == [] then []
    else
      var last := |ids| - 1;
      IdBytes(m, ids[..last]) + if ids[last] in m.tokens then TokenBytes(m.tokens[ids[last]]) else []
  }

  function Decode(m: Model, ids: seq<int>): string { m.text(IdBytes(m, ids)) }

  method DecodeIds(m: Model, ids: seq<int>) returns (text: string)
    ensures text == Decode(m, ids)
  {
    var buf: seq<Byte> := [];
    for i := 0 to |ids|
      invariant buf == IdBytes(m, ids[..i])
    {
      assert ids[..i + 1][..i] == ids[..i];
      if ids[i] in m.tokens {
        var token := m.tokens[ids[i]];
        ghost var was := buf;
        for k := 0 to |token|
          invariant buf == was + TokenBytes(token[..k])
        {
          assert token[..k + 1][..k] == token[..k];
          var b := ByteOf(token[k]);
          if b.Some? { buf := buf + [b.value as Byte]; }
        }
        assert token[..|token|] == token;
      }
    }
    assert ids[..|ids|] == ids;
    text := m.text(buf);
  }

  // ---------------------------------------------------------------------------
  // Losslessness
  // ---------------------------------------------------------------------------

  lemma {:induction false} TokenBytesAppend(a: string, b: string)
    ensures TokenBytes(a + b) == TokenBytes(a) + TokenBytes(b)
    decreases |b|
  {
    if b == "" {
      assert a + b == a;
    } else {
      var last := |b| - 1;
      assert (a + b)[..|a + b| - 1] == a + b[..last];
      TokenBytesAppend(a, b[..last]);
    }
  }

  lemma {:induction false} IdBytesAppend(m: Model, a: seq<int>, b: seq<int>)
    ensures IdBytes(m, a + b) == IdBytes(m, a) + IdBytes(m, b)
    decreases |b|
  {
    if b == [] {
      assert a + b == a;
    } else {
      var last := |b| - 1;
      assert (a + b)[..|a + b| - 1] == a + b[..last];
      IdBytesAppend(m, a, b[..last]);
    }
  }

  /** Characters of bytes give the bytes back. */
  lemma {:induction false} SymbolsBytes(data: seq<Byte>)
    ensures TokenBytes(Symbols(data)) == data
  {
    if data != [] {
      var last := |data| - 1;
      assert Symbols(data)[..last] == Symbols(data[..last]);
      SymbolsBytes(data[..last]);
      ByteOfChar(data[last]);
    }
  }

  /** The symbol has an id, and the id leads back to it. */
  predicate Invertible(m: Model, sym: string) {
    sym in m.vocab && m.vocab[sym] in m.tokens && m.tokens[m.vocab[sym]] == sym
  }

  ghost predicate Covered(m: Model, words: seq<string>) {
    forall k :: 0 <= k < |words| ==> Invertible(m, words[k])
  }

  /** The tables alone: every byte's symbol, and what every ranked pair merges into, is invertible. */
  ghost predicate TablesCover(m: Model) {
    && (forall b: Byte :: Invertible(m, [CharOf(b)]))
    && (forall a: string, b: string :: (a, b) in m.rank ==> Invertible(m, a + b))
  }

  /** What holds of the words and of every ranked pair's merge holds of the final symbols. */
  lemma {:induction false} MergeAllKeeps(rank: Ranks, words: seq<string>, p: string -> bool)
    requires forall k :: 0 <= k < |words| ==> p(words[k])
    requires forall a: string, b: string :: (a, b) in rank ==> p(a + b)
    ensures forall k :: 0 <= k < |MergeAll(rank, words)| ==> p(MergeAll(rank, words)[k])
    decreases |words|
  {
    if |words| > 1 {
      var best := Best(rank, words, |words| - 1);
      if best.Some? {
        var i := best.value;
        assert Mergeable(rank, words, i);
        assert p(words[i] + words[i + 1]);
        MergeAllKeeps(rank, MergeAt(words, i), p);
      }
    }
  }

  /** What holds of every byte's symbol and of every merge holds of the final symbols of every piece. */
  lemma FinalKeeps(m: Model, piece: string, p: string -> bool)
    requires forall b: Byte :: p([CharOf(b)])
    requires forall a: string, b: string :: (a, b) in m.rank ==> p(a + b)
    ensures forall k :: 0 <= k < |Final(m, piece)| ==> p(Final(m, piece)[k])
  {
    var data := m.utf8(piece);
    var words := Singles(Symbols(data));
    forall k | 0 <= k < |words| ensures p(words[k]) {
      assert words[k] == [CharOf(data[k])];
    }
    MergeAllKeeps(m.rank, words, p);
  }

  /** Whatever the piece, its final symbols are covered when the tables are. */
  lemma FinalCovered(m: Model, piece: string)
    requires TablesCover(m)
    ensures Covered(m, Final(m, piece))
  {
    var p := (sym: string) => Invertible(m, sym);
    hide Invertible, Final;
    FinalKeeps(m, piece, p);
    forall k | 0 <= k < |Final(m, piece)| ensures Invertible(m, Final(m, piece)[k]) {
      assert p(Final(m, piece)[k]);
    }
  }

  lemma {:induction false} IdsSpell(m: Model, words: seq<string>)
    requires Covered(m, words)
    ensures IdsOf(m, words).Some? && IdBytes(m, IdsOf(m, words).value) == TokenBytes(Concat(words))
    decreases |words|
  {
    if words != [] {
      var last := |words| - 1;
      IdsSpell(m, words[..last]);
      assert words == words[..last] + [words[last]];
      ConcatAppend(words[..last], [words[last]]);
      ConcatSmall(words[last], "");
      TokenBytesAppend(Concat(words[..last]), words[last]);
      var id := m.vocab[words[last]];
      IdBytesAppend(m, IdsOf(m, words[..last]).value, [id]);
      OneId(m, id, words[last]);
    }
  }

  lemma OneId(m: Model, id: int, token: string)
    requires id in m.tokens && m.tokens[id] == token
    ensures IdBytes(m, [id]) == TokenBytes(token)
  {
    assert [id][..0] == [];
    assert [] + TokenBytes(token) == TokenBytes(token);
  }

  /** UTF-8 encodes piece by piece and decodes what it encoded. */
  ghost predicate CodecOk(m: Model) {
    && m.utf8("") == []
    && (forall a: string, b: string :: m.utf8(a + b) == m.utf8(a) + m.utf8(b))
    && (forall t: string :: m.text(m.utf8(t)) == t)
  }

  lemma CodecAppend(m: Model, a: string, b: string)
    requires CodecOk(m)
    ensures m.utf8(a + b) == m.utf8(a) + m.utf8(b)
  {
  }

  lemma CodecEnds(m: Model, t: string)
    requires CodecOk(m)
    ensures m.utf8("") == [] && m.text(m.utf8(t)) == t
  {
  }

  lemma PieceSpells(m: Model, piece: string)
    requires Covered(m, Final(m, piece))
    ensures IdsOf(m, Final(m, piece)).Some? && IdBytes(m, IdsOf(m, Final(m, piece)).value) == m.utf8(piece)
  {
    hide IdsOf, Covered;
    IdsSpell(m, Final(m, piece));
    MergeAllDone(m.rank, Singles(Symbols(m.utf8(piece))));
    ConcatSingles(Symbols(m.utf8(piece)));
    SymbolsBytes(m.utf8(piece));
  }

  ghost predicate AllCovered(m: Model, pieces: seq<string>) {
    forall p :: 0 <= p < |pieces| ==> Covered(m, Final(m, pieces[p]))
  }

  lemma {:induction false} PiecesSpell(m: Model, pieces: seq<string>)
    requires CodecOk(m) && AllCovered(m, pieces)
    ensures EncodePieces(m, pieces).Some? && IdBytes(m, EncodePieces(m, pieces).value) == m.utf8(Concat(pieces))
    decreases |pieces|
  {
    hide CodecOk, IdsOf, Final, Covered, IdBytes;
    CodecEnds(m, "");
    if pieces == [] {
      NoIds(m);
    } else {
      var last := |pieces| - 1;
      var before, piece := pieces[..last], pieces[last];
      PiecesSpell(m, before);
      PieceSpells(m, piece);
      assert pieces == before + [piece];
      ConcatAppend(before, [piece]);
      ConcatSmall(piece, "");
      CodecAppend(m, Concat(before), piece);
      IdBytesAppend(m, EncodePieces(m, before).value, IdsOf(m, Final(m, piece)).value);
    }
  }

  lemma NoIds(m: Model)
    ensures IdBytes(m, []) == []
  {
  }

  /** The pieces tile the text, and every final symbol is covered by the vocabulary. */
  ghost predicate Encodable(m: Model, text: string) {
    && Concat(m.split(text)) == text
    && AllCovered(m, m.split(text))
  }

  /** What holds of the ids of these symbols holds of every id that encoding produces. */
  lemma {:induction false} IdsKeep(m: Model, words: seq<string>, q: int -> bool)
    requires Covered(m, words) && forall k :: 0 <= k < |words| ==> q(m.vocab[words[k]])
    ensures IdsOf(m, words).Some? && forall id :: id in IdsOf(m, words).value ==> q(id)
    decreases |words|
  {
    if words != [] { IdsKeep(m, words[..|words| - 1], q); }
  }

  /** What holds of the id of every byte's symbol and of every merge holds of every id of every text. */
  lemma {:induction false} PieceIdsKeep(m: Model, pieces: seq<string>, q: int -> bool)
    requires TablesCover(m)
    requires forall b: Byte :: q(m.vocab[[CharOf(b)]])
    requires forall a: string, b: string :: (a, b) in m.rank ==> q(m.vocab[a + b])
    ensures EncodePieces(m, pieces).Some? && forall id :: id in EncodePieces(m, pieces).value ==> q(id)
    decreases |pieces|
  {
    if pieces != [] {
      var piece := pieces[|pieces| - 1];
      var p := (sym: string) => Invertible(m, sym) && q(m.vocab[sym]);
      hide Final, IdsOf;
      PieceIdsKeep(m, pieces[..|pieces| - 1], q);
      FinalKeeps(m, piece, p);
      var words := Final(m, piece);
      forall k | 0 <= k < |words| ensures Invertible(m, words[k]) && q(m.vocab[words[k]]) { assert p(words[k]); }
      IdsKeep(m, words, q);
    }
  }

  /** When the tables are covered, every text that the pieces tile is encodable. */
  lemma TablesEncode(m: Model, text: string)
    requires TablesCover(m) && Concat(m.split(text)) == text
    ensures Encodable(m, text)
  {
    hide TablesCover, Covered;
    forall p | 0 <= p < |m.split(text)| ensures Covered(m, Final(m, m.split(text)[p])) {
      FinalCovered(m, m.split(text)[p]);
    }
  }

  /** With covered tables, decoding what was encoded gives back every text that the pieces tile. */
  lemma RoundTrip(m: Model, text: string)
    requires CodecOk(m) && TablesCover(m) && Concat(m.split(text)) == text
    ensures Encode(m, text).Some? && Decode(m, Encode(m, text).value) == text
  {
    TablesEncode(m, text);
    EncodedDecodes(m, text);
  }

  lemma EncodedDecodes(m: Model, text: string)
    requires CodecOk(m) && Encodable(m, text)
    ensures Encode(m, text).Some? && Decode(m, Encode(m, text).value) == text
  {
    PiecesSpell(m, m.split(text));
    CodecEnds(m, text);
    hide CodecOk;
  }
}
