/**
 Grouping a document into chunks under a character ceiling: paragraphs first, and the
 sentences of any paragraph that is too long on its own.
 */
module Chunker {
  import opened Common
  import opened Text

  const MIN_CHUNK_CHARS := 60

  /** A stripped paragraph and the sentences it splits into. */
  datatype Paragraph = Paragraph(text: string, sentences: seq<string>)

  /** Consecutive pieces and what joins them into one chunk. */
  datatype Group = Group(pieces: seq<string>, sep: string)
  {
    function Text(): string { Join(pieces, sep) }
  }

  const PARAGRAPHS := "\n\n"
  const SENTENCES := " "

  predicate Trimmed(s: string) {
    s != "" && !IsSpace(s[0]) && !IsSpace(s[|s| - 1])
  }

  predicate WellSplit(p: Paragraph) {
    AllTrimmed(p.sentences)
  }

  function Join(pieces: seq<string>, sep: string): string {
    if |pieces| == 0 then ""
    else if |pieces| == 1 then pieces[0]
    else Join(pieces[..|pieces| - 1], sep) + sep + pieces[|pieces| - 1]
  }

  function Flatten(groups: seq<Group>): seq<string> {
    if groups == [] then [] else groups[0].pieces + Flatten(groups[1..])
  }

  function Texts(groups: seq<Group>): seq<string> {
    seq(|groups|, i requires 0 <= i < |groups| => groups[i].Text())
  }

  function KeepLong(chunks: seq<string>): seq<string> {
    if chunks == [] then []
    else (if |chunks[0]| >= MIN_CHUNK_CHARS then [chunks[0]] else []) + KeepLong(chunks[1..])
  }

  // -- Packing ----------------------------------------------------------

  /** One piece alone, or joined text within the ceiling. */
  predicate Admissible(pieces: seq<string>, sep: string, max: int) {
    |pieces| <= 1 || |Join(pieces, sep)| <= max
  }

  /** Fill the buffer while the next piece fits. `eager` pushes the buffer even when it is empty. */
  function Pack(pieces: seq<string>, sep: string, max: int, buffer: seq<string>, eager: bool): seq<Group>
    decreases |pieces|
  {
    if pieces == [] then Flush(buffer, sep)
    else if |Join(buffer, sep)| + |pieces[0]| + |sep| > max && (buffer != [] || eager) then
      [Group(buffer, sep)] + Pack(pieces[1..], sep, max, [pieces[0]], eager)
    else Pack(pieces[1..], sep, max, buffer + [pieces[0]], eager)
  }

  function Flush(buffer: seq<string>, sep: string): seq<Group> {
    if buffer == [] then [] else [Group(buffer, sep)]
  }

  /** Every non-empty paragraph in order, an over-long one as its sentences. */
  function Pieces(paragraphs: seq<Paragraph>, max: int): seq<string> {
    if paragraphs == [] then []
    else (if paragraphs[0].text == "" then []
          else if |paragraphs[0].text| > max then paragraphs[0].sentences
          else [paragraphs[0].text])
         + Pieces(paragraphs[1..], max)
  }

  function GroupAll(paragraphs: seq<Paragraph>, max: int, buffer: seq<string>): seq<Group>
    decreases |paragraphs|
  {
    if paragraphs == [] then Flush(buffer, PARAGRAPHS)
    else
      var p, rest := paragraphs[0], paragraphs[1..];
      if p.text == "" then GroupAll(rest, max, buffer)
      else if |p.text| > max then
        Flush(buffer, PARAGRAPHS) + Pack(p.sentences, SENTENCES, max, [], false) + GroupAll(rest, max, [])
      else if |Join(buffer, PARAGRAPHS)| + |p.text| + 2 > max then
        [Group(buffer, PARAGRAPHS)] + GroupAll(rest, max, [p.text])
      else GroupAll(rest, max, buffer + [p.text])
  }

  // -- The loops --------------------------------------------------------

  lemma {:induction false} JoinNonEmpty(pieces: seq<string>, sep: string)
    requires pieces != [] && NoneBlank(pieces)
    ensures Join(pieces, sep) != ""
  {
    assert pieces[|pieces| - 1] in pieces;
  }

  lemma JoinMore(pieces: seq<string>, sep: string, s: string)
    ensures Join(pieces + [s], sep) == if pieces == [] then s else Join(pieces, sep) + sep + s
  {
    assert (pieces + [s])[..|pieces|] == pieces;
  }

  lemma {:induction false} JoinTrimmed(pieces: seq<string>)
    requires pieces != [] && AllTrimmed(pieces)
    ensures Trimmed(Join(pieces, SENTENCES))
  {
    if |pieces| > 1 {
      JoinTrimmed(pieces[..|pieces| - 1]);
      assert Trimmed(pieces[|pieces| - 1]);
    }
  }

  lemma StripTrimmed(s: string)
    requires Trimmed(s)
    ensures Strip(s) == s && Strip(" " + s) == s
  {
    assert StripLeft(" " + s, IsSpace) == StripLeft((" " + s)[1..], IsSpace);
    assert (" " + s)[1..] == s;
  }

  method SplitLong(sentences: seq<string>, maxChars: int) returns (out: seq<string>)
    requires AllTrimmed(sentences)
    ensures out == Texts(Pack(sentences, SENTENCES, maxChars, [], false))
  {
    out := [];
    var buffer := "";
    ghost var groups, held := [], [];
    for i := 0 to |sentences|
      invariant buffer == Join(held, SENTENCES) && out == Texts(groups) && AllTrimmed(held)
      invariant Splitting(sentences, i, maxChars, groups, held)
    {
      var sentence := sentences[i];
      HeldIffBuffer(held, buffer);
      SplitTurn(sentences, i, maxChars, groups, held);
      if |buffer| + |sentence| + 1 > maxChars && buffer != "" {
        out := out + [buffer];
        groups := groups + [Group(held, SENTENCES)];
        buffer, held := sentence, [sentence];
      } else {
        StripJoined(held, buffer, sentence);
        buffer, held := Strip(buffer + " " + sentence), held + [sentence];
      }
    }
    SplitEnds(sentences, maxChars, groups, held);
    if buffer != "" {
      out := out + [buffer];
    }
  }

  predicate AllTrimmed(pieces: seq<string>) {
    forall s | s in pieces :: Trimmed(s)
  }

  /** `groups` and the held buffer are what filling has done with the first `i` sentences. */
  predicate Splitting(sentences: seq<string>, i: nat, max: int, groups: seq<Group>, held: seq<string>)
    requires i <= |sentences|
  {
    groups + Pack(sentences[i..], SENTENCES, max, held, false) == Pack(sentences, SENTENCES, max, [], false)
  }

  lemma SplitTurn(sentences: seq<string>, i: nat, max: int, groups: seq<Group>, held: seq<string>)
    requires i < |sentences| && Splitting(sentences, i, max, groups, held)
    ensures var pushed := groups + [Group(held, SENTENCES)];
            && Texts(pushed) == Texts(groups) + [Join(held, SENTENCES)]
            && if |Join(held, SENTENCES)| + |sentences[i]| + 1 > max && held != []
               then Splitting(sentences, i + 1, max, pushed, [sentences[i]])
               else Splitting(sentences, i + 1, max, groups, held + [sentences[i]])
  {
    var g, later := Group(held, SENTENCES), Pack(sentences[i + 1..], SENTENCES, max, [sentences[i]], false);
    PackTurnUnfolds(sentences, i, max, held);
    assert groups + ([g] + later) == (groups + [g]) + later;
    TextsAppend(groups, [g]);
    assert Texts([g]) == [g.Text()];
  }

  lemma SplitEnds(sentences: seq<string>, max: int, groups: seq<Group>, held: seq<string>)
    requires Splitting(sentences, |sentences|, max, groups, held) && AllTrimmed(held)
    ensures Texts(Pack(sentences, SENTENCES, max, [], false))
         == Texts(groups) + (if Join(held, SENTENCES) == "" then [] else [Join(held, SENTENCES)])
  {
    assert sentences[|sentences|..] == [];
    HeldIffBuffer(held, Join(held, SENTENCES));
    TextsAppend(groups, Flush(held, SENTENCES));
  }

  lemma HeldIffBuffer(held: seq<string>, buffer: string)
    requires buffer == Join(held, SENTENCES) && AllTrimmed(held)
    ensures buffer == "" <==> held == []
    ensures Texts(Flush(held, SENTENCES)) == if buffer == "" then [] else [buffer]
  {
    if held != [] {
      JoinTrimmed(held);
      var g := Group(held, SENTENCES);
      assert Texts([g]) == [g.Text()];
    }
  }

  lemma PackTurnUnfolds(sentences: seq<string>, i: nat, max: int, held: seq<string>)
    requires i < |sentences|
    ensures Pack(sentences[i..], SENTENCES, max, held, false) ==
            if |Join(held, SENTENCES)| + |sentences[i]| + 1 > max && held != [] then
              [Group(held, SENTENCES)] + Pack(sentences[i + 1..], SENTENCES, max, [sentences[i]], false)
            else Pack(sentences[i + 1..], SENTENCES, max, held + [sentences[i]], false)
  {
    assert sentences[i..][1..] == sentences[i + 1..];
  }

  lemma StripJoined(held: seq<string>, buffer: string, sentence: string)
    requires buffer == Join(held, SENTENCES) && Trimmed(sentence) && AllTrimmed(held)
    ensures Strip(buffer + " " + sentence) == Join(held + [sentence], SENTENCES)
  {
    JoinMore(held, SENTENCES, sentence);
    if held == [] {
      assert buffer + " " + sentence == " " + sentence;
      StripTrimmed(sentence);
    } else {
      JoinTrimmed(held + [sentence]);
      StripTrimmed(Join(held + [sentence], SENTENCES));
    }
  }

  /** One turn of the paragraph loop: what it pushes and what it leaves in the buffer. */
  function Turn(p: Paragraph, max: int, buffer: seq<string>): (seq<Group>, seq<string>) {
    if p.text == "" then ([], buffer)
    else if |p.text| > max then (Flush(buffer, PARAGRAPHS) + Pack(p.sentences, SENTENCES, max, [], false), [])
    else if |Join(buffer, PARAGRAPHS)| + |p.text| + 2 > max then ([Group(buffer, PARAGRAPHS)], [p.text])
    else ([], buffer + [p.text])
  }

  lemma TurnUnfolds(paragraphs: seq<Paragraph>, i: nat, max: int, buffer: seq<string>)
    requires i < |paragraphs|
    ensures GroupAll(paragraphs[i..], max, buffer)
         == Turn(paragraphs[i], max, buffer).0 + GroupAll(paragraphs[i + 1..], max, Turn(paragraphs[i], max, buffer).1)
  {
    assert paragraphs[i..][1..] == paragraphs[i + 1..];
  }

  method ProcessParagraph(p: Paragraph, maxChars: int, buffer: string, ghost held: seq<string>)
    returns (pushed: seq<string>, buffer': string)
    requires WellSplit(p) && buffer == Join(held, PARAGRAPHS) && NoneBlank(held)
    ensures pushed == Texts(Turn(p, maxChars, held).0)
    ensures buffer' == Join(Turn(p, maxChars, held).1, PARAGRAPHS)
    ensures NoneBlank(Turn(p, maxChars, held).1)
  {
    var para := p.text;
    if held != [] {
      JoinNonEmpty(held, PARAGRAPHS);
    }
    JoinMore(held, PARAGRAPHS, para);
    if para == "" {
      return [], buffer;
    }
    if |para| > maxChars {
      pushed := if buffer != "" then [buffer] else [];
      var split := SplitLong(p.sentences, maxChars);
      pushed := pushed + split;
      buffer' := "";
    } else if |buffer| + |para| + 2 > maxChars {
      pushed, buffer' := [buffer], para;
    } else {
      pushed := [];
      buffer' := if buffer != "" then buffer + "\n\n" + para else para;
    }
  }

  lemma TextsAppend(a: seq<Group>, b: seq<Group>)
    ensures Texts(a + b) == Texts(a) + Texts(b)
  {
  }

  lemma FlushTexts(held: seq<string>)
    requires NoneBlank(held)
    ensures held == [] ==> Texts(Flush(held, PARAGRAPHS)) == []
    ensures held != [] ==> Texts(Flush(held, PARAGRAPHS)) == [Join(held, PARAGRAPHS)] && Join(held, PARAGRAPHS) != ""
  {
    if held != [] {
      JoinNonEmpty(held, PARAGRAPHS);
      var g := Group(held, PARAGRAPHS);
      assert Texts([g]) == [g.Text()];
    }
  }

  method DropShort(chunks: seq<string>) returns (out: seq<string>)
    ensures out == KeepLong(chunks)
  {
    out := [];
    for i := 0 to |chunks|
      invariant out + KeepLong(chunks[i..]) == KeepLong(chunks)
    {
      assert chunks[i..][1..] == chunks[i + 1..];
      if |chunks[i]| >= MIN_CHUNK_CHARS {
        out := out + [chunks[i]];
      }
    }
    assert chunks[|chunks|..] == [];
  }

  method ChunkText(paragraphs: seq<Paragraph>, maxChars: int) returns (out: seq<string>)
    requires forall p | p in paragraphs :: WellSplit(p)
    ensures out == KeepLong(Texts(GroupAll(paragraphs, maxChars, [])))
  {
    var chunks, buffer := [], "";
    ghost var groups, held := [], [];
    assert paragraphs[0..] == paragraphs;
    for i := 0 to |paragraphs|
      invariant buffer == Join(held, PARAGRAPHS) && chunks == Texts(groups) && NoneBlank(held)
      invariant Chunking(paragraphs, i, maxChars, groups, held)
    {
      var p, pushed := paragraphs[i], [];
      assert WellSplit(p);
      ChunkTurn(paragraphs, i, maxChars, groups, held);
      pushed, buffer := ProcessParagraph(p, maxChars, buffer, held);
      chunks := chunks + pushed;
      groups, held := groups + Turn(p, maxChars, held).0, Turn(p, maxChars, held).1;
    }
    ChunkEnds(paragraphs, maxChars, groups, held);
    if buffer != "" {
      chunks := chunks + [buffer];
    }
    assert chunks == Texts(GroupAll(paragraphs, maxChars, []));
    out := DropShort(chunks);
  }

  predicate NoneBlank(pieces: seq<string>) {
    forall s | s in pieces :: s != ""
  }

  /** `groups` and the held buffer are what the loop has done with the first `i` paragraphs. */
  predicate Chunking(paragraphs: seq<Paragraph>, i: nat, max: int, groups: seq<Group>, held: seq<string>)
    requires i <= |paragraphs|
  {
    groups + GroupAll(paragraphs[i..], max, held) == GroupAll(paragraphs, max, [])
  }

  lemma ChunkTurn(paragraphs: seq<Paragraph>, i: nat, max: int, groups: seq<Group>, held: seq<string>)
    requires i < |paragraphs| && Chunking(paragraphs, i, max, groups, held)
    ensures var turn := Turn(paragraphs[i], max, held);
            && Chunking(paragraphs, i + 1, max, groups + turn.0, turn.1)
            && Texts(groups + turn.0) == Texts(groups) + Texts(turn.0)
  {
    var turn := Turn(paragraphs[i], max, held);
    var later := GroupAll(paragraphs[i + 1..], max, turn.1);
    TurnUnfolds(paragraphs, i, max, held);
    TextsAppend(groups, turn.0);
    assert groups + (turn.0 + later) == (groups + turn.0) + later;
  }

  lemma ChunkEnds(paragraphs: seq<Paragraph>, max: int, groups: seq<Group>, held: seq<string>)
    requires Chunking(paragraphs, |paragraphs|, max, groups, held) && NoneBlank(held)
    ensures Texts(GroupAll(paragraphs, max, []))
         == Texts(groups) + (if Join(held, PARAGRAPHS) != "" then [Join(held, PARAGRAPHS)] else [])
  {
    assert paragraphs[|paragraphs|..] == [];
    LastBuffer(groups, held);
  }

  lemma LastBuffer(groups: seq<Group>, held: seq<string>)
    requires NoneBlank(held)
    ensures Texts(groups + Flush(held, PARAGRAPHS))
         == Texts(groups) + (if Join(held, PARAGRAPHS) != "" then [Join(held, PARAGRAPHS)] else [])
  {
    TextsAppend(groups, Flush(held, PARAGRAPHS));
    FlushTexts(held);
  }

  // -- Nothing lost, repeated or reordered ------------------------------

  lemma {:induction false} FlattenAppend(a: seq<Group>, b: seq<Group>)
    ensures Flatten(a + b) == Flatten(a) + Flatten(b)
  {
    if a == [] {
      assert a + b == b;
    } else {
      assert (a + b)[1..] == a[1..] + b;
      FlattenAppend(a[1..], b);
    }
  }

  lemma {:induction false} PackKeepsPieces(pieces: seq<string>, sep: string, max: int, buffer: seq<string>, eager: bool)
    ensures Flatten(Pack(pieces, sep, max, buffer, eager)) == buffer + pieces
    decreases |pieces|
  {
    if pieces != [] {
      PackKeepsPieces(pieces[1..], sep, max, [pieces[0]], eager);
      PackKeepsPieces(pieces[1..], sep, max, buffer + [pieces[0]], eager);
      assert buffer + pieces == buffer + [pieces[0]] + pieces[1..];
    }
  }

  /** Before short chunks are dropped, the chunks are exactly the document's pieces, in order. */
  lemma {:induction false} NothingLost(paragraphs: seq<Paragraph>, max: int, buffer: seq<string>)
    ensures Flatten(GroupAll(paragraphs, max, buffer)) == buffer + Pieces(paragraphs, max)
    decreases |paragraphs|
  {
    if paragraphs != [] {
      var rest := paragraphs[1..];
      var turn := Turn(paragraphs[0], max, buffer);
      FirstTurn(paragraphs, max, buffer);
      NothingLost(rest, max, turn.1);
      FlattenAppend(turn.0, GroupAll(rest, max, turn.1));
      TurnKeepsPieces(paragraphs[0], max, buffer);
      PiecesOfFirst(paragraphs, max);
      Reassociate(Flatten(turn.0), turn.1, buffer, Pieces([paragraphs[0]], max), Pieces(rest, max));
    }
  }

  lemma Reassociate(a: seq<string>, b: seq<string>, c: seq<string>, d: seq<string>, e: seq<string>)
    requires a + b == c + d
    ensures a + (b + e) == c + (d + e)
  {
    assert a + (b + e) == (a + b) + e;
  }

  lemma FirstTurn(paragraphs: seq<Paragraph>, max: int, buffer: seq<string>)
    requires paragraphs != []
    ensures var turn := Turn(paragraphs[0], max, buffer);
            GroupAll(paragraphs, max, buffer) == turn.0 + GroupAll(paragraphs[1..], max, turn.1)
  {
    assert paragraphs[0..] == paragraphs;
    TurnUnfolds(paragraphs, 0, max, buffer);
  }

  lemma PiecesOfFirst(paragraphs: seq<Paragraph>, max: int)
    requires paragraphs != []
    ensures Pieces(paragraphs, max) == Pieces([paragraphs[0]], max) + Pieces(paragraphs[1..], max)
  {
    assert [paragraphs[0]][1..] == [];
  }

  lemma TurnKeepsPieces(p: Paragraph, max: int, buffer: seq<string>)
    ensures Flatten(Turn(p, max, buffer).0) + Turn(p, max, buffer).1 == buffer + Pieces([p], max)
  {
    assert [p][1..] == [];
    PackKeepsPieces(p.sentences, SENTENCES, max, [], false);
    FlattenAppend(Flush(buffer, PARAGRAPHS), Pack(p.sentences, SENTENCES, max, [], false));
    assert [Group(buffer, PARAGRAPHS)][1..] == [];
  }

  /** The filter removes every short chunk and nothing else. */
  lemma {:induction false} OnlyShortDropped(chunks: seq<string>, c: string)
    ensures multiset(KeepLong(chunks))[c] == if |c| >= MIN_CHUNK_CHARS then multiset(chunks)[c] else 0
  {
    if chunks != [] {
      OnlyShortDropped(chunks[1..], c);
      assert chunks == [chunks[0]] + chunks[1..];
    }
  }

  /** Part by part and in order, of sixty characters or more. */
  lemma {:induction false} KeepLongMeans(a: seq<string>, b: seq<string>, c: string)
    ensures KeepLong(a + b) == KeepLong(a) + KeepLong(b)
    ensures KeepLong([c]) == if |c| >= 60 then [c] else []
    decreases |a|
  {
    assert [c][1..] == [];
    if a == [] {
      assert a + b == b;
    } else {
      assert (a + b)[1..] == a[1..] + b;
      KeepLongMeans(a[1..], b, c);
    }
  }

  /** A chunk's text is its pieces in order with the separator between. */
  lemma {:induction false} JoinMeans(first: string, rest: seq<string>, sep: string)
    ensures Join([first] + rest, sep) == if rest == [] then first else first + sep + Join(rest, sep)
    decreases |rest|
  {
    if rest != [] {
      var last, fewer := rest[|rest| - 1], rest[..|rest| - 1];
      assert [first] + rest == ([first] + fewer) + [last] && rest == fewer + [last];
      JoinMore([first] + fewer, sep, last);
      JoinMore(fewer, sep, last);
      JoinMeans(first, fewer, sep);
      if fewer == [] {
        assert [first] + fewer == [first];
      } else {
        Behind(first, sep, Join(fewer, sep), last);
      }
    }
  }

  lemma Behind(first: string, sep: string, middle: string, last: string)
    ensures first + sep + middle + sep + last == first + sep + (middle + sep + last)
  {
  }

  /** Every chunk is as full as it can be: the next one's first piece would not have fitted. */
  predicate FilledUp(groups: seq<Group>, sep: string, max: int) {
    |groups| <= 1
    || (&& groups[1].pieces != [] && |groups[0].Text()| + |sep| + |groups[1].pieces[0]| > max
        && FilledUp(groups[1..], sep, max))
  }

  lemma {:induction false} PackHead(pieces: seq<string>, sep: string, max: int, buffer: seq<string>, eager: bool)
    requires buffer != []
    ensures var packed := Pack(pieces, sep, max, buffer, eager);
            packed != [] && buffer <= packed[0].pieces && packed[0].sep == sep
    decreases |pieces|
  {
    if pieces != [] {
      PackHead(pieces[1..], sep, max, buffer + [pieces[0]], eager);
    }
  }

  /** Filling is greedy: no chunk is closed while the next piece still fits. */
  lemma {:induction false} PackIsGreedy(pieces: seq<string>, sep: string, max: int, buffer: seq<string>, eager: bool)
    ensures FilledUp(Pack(pieces, sep, max, buffer, eager), sep, max)
    ensures forall g | g in Pack(pieces, sep, max, buffer, eager) :: g.sep == sep
    decreases |pieces|
  {
    if pieces != [] {
      PackIsGreedy(pieces[1..], sep, max, [pieces[0]], eager);
      PackIsGreedy(pieces[1..], sep, max, buffer + [pieces[0]], eager);
      PackHead(pieces[1..], sep, max, [pieces[0]], eager);
      FilledFirstUp(Group(buffer, sep), Pack(pieces[1..], sep, max, [pieces[0]], eager), sep, max, pieces[0]);
    }
  }

  lemma FilledFirstUp(g: Group, rest: seq<Group>, sep: string, max: int, piece: string)
    requires FilledUp(rest, sep, max) && rest != [] && [piece] <= rest[0].pieces
    ensures |g.Text()| + |sep| + |piece| > max ==> FilledUp([g] + rest, sep, max)
  {
    assert ([g] + rest)[1..] == rest && rest[0].pieces[0] == piece;
  }

  // -- The ceiling ------------------------------------------------------

  predicate WithinCeiling(g: Group, max: int) {
    |g.Text()| <= max || (|g.pieces| == 1 && g.sep == SENTENCES)
  }

  lemma {:induction false} PackCeiling(pieces: seq<string>, max: int, buffer: seq<string>)
    requires buffer == [] || WithinCeiling(Group(buffer, SENTENCES), max)
    ensures forall g | g in Pack(pieces, SENTENCES, max, buffer, false) :: WithinCeiling(g, max)
    decreases |pieces|
  {
    if pieces != [] {
      JoinMore(buffer, SENTENCES, pieces[0]);
      if |Join(buffer, SENTENCES)| + |pieces[0]| + 1 > max && buffer != [] {
        PackCeiling(pieces[1..], max, [pieces[0]]);
      } else {
        PackCeiling(pieces[1..], max, buffer + [pieces[0]]);
      }
    }
  }

  /** Every chunk is within the ceiling or is one single sentence that is over it. */
  lemma {:induction false} CeilingHolds(paragraphs: seq<Paragraph>, max: nat, buffer: seq<string>)
    requires |Join(buffer, PARAGRAPHS)| <= max
    ensures forall g | g in GroupAll(paragraphs, max, buffer) :: WithinCeiling(g, max)
    decreases |paragraphs|
  {
    if paragraphs != [] {
      var p, rest := paragraphs[0], paragraphs[1..];
      JoinMore(buffer, PARAGRAPHS, p.text);
      if p.text == "" {
        CeilingHolds(rest, max, buffer);
      } else if |p.text| > max {
        PackCeiling(p.sentences, max, []);
        CeilingHolds(rest, max, []);
      } else if |Join(buffer, PARAGRAPHS)| + |p.text| + 2 > max {
        CeilingHolds(rest, max, [p.text]);
      } else {
        CeilingHolds(rest, max, buffer + [p.text]);
      }
    }
  }

  // -- No grouping uses fewer chunks ------------------------------------

  function NonEmpty(groups: seq<Group>): nat {
    if groups == [] then 0 else (if groups[0].pieces == [] then 0 else 1) + NonEmpty(groups[1..])
  }

  /** How many chunks filling makes from a non-empty buffer on. */
  function Count(pieces: seq<string>, sep: string, max: int, buffer: seq<string>): nat
    decreases |pieces|
  {
    if pieces == [] then 1
    else if Admissible(buffer + [pieces[0]], sep, max) then Count(pieces[1..], sep, max, buffer + [pieces[0]])
    else 1 + Count(pieces[1..], sep, max, [pieces[0]])
  }

  lemma {:induction false} PackCount(pieces: seq<string>, sep: string, max: int, buffer: seq<string>, eager: bool)
    requires buffer != []
    ensures NonEmpty(Pack(pieces, sep, max, buffer, eager)) == Count(pieces, sep, max, buffer)
    decreases |pieces|
  {
    if pieces != [] {
      JoinMore(buffer, sep, pieces[0]);
      PackCount(pieces[1..], sep, max, [pieces[0]], eager);
      PackCount(pieces[1..], sep, max, buffer + [pieces[0]], eager);
    } else {
      assert NonEmpty([Group(buffer, sep)]) == 1 + NonEmpty([Group(buffer, sep)][1..]);
    }
  }

  lemma {:induction false} JoinSuffix(a: seq<string>, b: seq<string>, sep: string)
    ensures |Join(b, sep)| <= |Join(a + b, sep)|
    decreases |b|
  {
    if b != [] {
      var last := b[|b| - 1];
      assert b == b[..|b| - 1] + [last] && a + b == (a + b[..|b| - 1]) + [last];
      JoinSuffix(a, b[..|b| - 1], sep);
      JoinMore(b[..|b| - 1], sep, last);
      JoinMore(a + b[..|b| - 1], sep, last);
    }
  }

  lemma {:induction false} JoinPrefix(a: seq<string>, b: seq<string>, sep: string)
    ensures |Join(a, sep)| <= |Join(a + b, sep)|
    decreases |b|
  {
    if b == [] {
      assert a + b == a;
    } else {
      var last := b[|b| - 1];
      assert a + b == (a + b[..|b| - 1]) + [last];
      JoinPrefix(a, b[..|b| - 1], sep);
      JoinMore(a + b[..|b| - 1], sep, last);
    }
  }

  /** A longer buffer with the same end never helps, and hurts by at most one chunk. */
  lemma {:induction false} SuffixStaysAhead(x: seq<string>, b: seq<string>, pieces: seq<string>, sep: string, max: int)
    requires b != []
    ensures Count(pieces, sep, max, b) <= Count(pieces, sep, max, x + b) <= Count(pieces, sep, max, b) + 1
    decreases |pieces|
  {
    if pieces != [] {
      var p, rest := pieces[0], pieces[1..];
      assert x + b + [p] == x + (b + [p]);
      JoinSuffix(x, b + [p], sep);
      SuffixStaysAhead(x, b + [p], rest, sep, max);
      SuffixStaysAhead(b, [p], rest, sep, max);
    }
  }

  /** A grouping in order, with no empty group, each one piece or within the ceiling. */
  predicate Grouping(groups: seq<seq<string>>, sep: string, max: int) {
    forall g | g in groups :: g != [] && Admissible(g, sep, max)
  }

  function Concat(groups: seq<seq<string>>): seq<string> {
    if groups == [] then [] else groups[0] + Concat(groups[1..])
  }

  /** `b` plus `tail` is the other grouping's current group; `groups` are its remaining ones. */
  lemma {:induction false} GreedyKeepsUp(b: seq<string>, tail: seq<string>, groups: seq<seq<string>>, sep: string, max: int)
    requires b != [] && Admissible(b + tail, sep, max) && Grouping(groups, sep, max)
    ensures Count(tail + Concat(groups), sep, max, b) <= 1 + |groups|
    decreases |tail| + |Concat(groups)|, |groups|
  {
    var pieces := tail + Concat(groups);
    if tail != [] {
      var p := tail[0];
      assert pieces[1..] == tail[1..] + Concat(groups);
      assert b + tail == (b + [p]) + tail[1..];
      JoinPrefix(b + [p], tail[1..], sep);
      GreedyKeepsUp(b + [p], tail[1..], groups, sep, max);
    } else if groups != [] {
      var g := groups[0];
      assert g in groups;
      assert pieces == g + Concat(groups[1..]);
      assert pieces[1..] == g[1..] + Concat(groups[1..]) && pieces[0] == g[0];
      assert [g[0]] + g[1..] == g && forall x | x in groups[1..] :: x in groups;
      GreedyKeepsUp([g[0]], g[1..], groups[1..], sep, max);
      SuffixStaysAhead(b, [g[0]], pieces[1..], sep, max);
    }
  }

  lemma PackFromEmpty(pieces: seq<string>, sep: string, max: int, eager: bool)
    requires pieces != []
    ensures NonEmpty(Pack(pieces, sep, max, [], eager)) == Count(pieces[1..], sep, max, [pieces[0]])
  {
    var p, rest := pieces[0], pieces[1..];
    var packed := Pack(rest, sep, max, [p], eager);
    PackCount(rest, sep, max, [p], eager);
    assert [] + [p] == [p];
    assert ([Group([], sep)] + packed)[1..] == packed;
  }

  /**
   Filling is optimal: no order-preserving grouping of the same pieces under the same
   ceiling has fewer chunks. The empty chunk an eager fill may push first is not counted.
   */
  lemma PackingOptimal(pieces: seq<string>, sep: string, max: int, eager: bool, groups: seq<seq<string>>)
    requires Grouping(groups, sep, max) && Concat(groups) == pieces
    ensures NonEmpty(Pack(pieces, sep, max, [], eager)) <= |groups|
  {
    if groups != [] {
      var g := groups[0];
      assert g in groups && forall x | x in groups[1..] :: x in groups;
      assert pieces == g + Concat(groups[1..]);
      var p, rest := pieces[0], pieces[1..];
      assert rest == g[1..] + Concat(groups[1..]) && [p] + g[1..] == g;
      GreedyKeepsUp([p], g[1..], groups[1..], sep, max);
      PackFromEmpty(pieces, sep, max, eager);
    }
  }

  // -- Where filling applies ----------------------------------------

  /** Empty paragraphs are skipped, so they fit anywhere. */
  predicate Fits(p: Paragraph, max: int) { p.text == "" || |p.text| <= max }

  function ParagraphTexts(run: seq<Paragraph>): seq<string> {
    if run == [] then []
    else (if run[0].text == "" then [] else [run[0].text]) + ParagraphTexts(run[1..])
  }

  /** A maximal run of paragraphs that fit is packed by itself. */
  lemma {:induction false} RunIsPacked(run: seq<Paragraph>, tail: seq<Paragraph>, max: int, buffer: seq<string>)
    requires forall p | p in run :: Fits(p, max)
    requires tail == [] || !Fits(tail[0], max)
    ensures GroupAll(run + tail, max, buffer)
         == Pack(ParagraphTexts(run), PARAGRAPHS, max, buffer, true) + GroupAll(tail, max, [])
    decreases |run|
  {
    if run == [] {
      assert run + tail == tail;
      RunEnds(tail, max, buffer);
    } else {
      var rest, turn := run[1..], Turn(run[0], max, buffer);
      assert Fits(run[0], max) && forall q | q in rest :: q in run;
      assert (run + tail)[0] == run[0] && (run + tail)[1..] == rest + tail;
      FirstTurn(run + tail, max, buffer);
      RunIsPacked(rest, tail, max, turn.1);
      PackTurn(run, max, buffer);
      var filled := Pack(ParagraphTexts(rest), PARAGRAPHS, max, turn.1, true);
      Regroup(turn.0, filled, GroupAll(tail, max, []));
    }
  }

  lemma Regroup<T>(a: seq<T>, b: seq<T>, c: seq<T>)
    ensures a + (b + c) == (a + b) + c
  {
  }

  lemma RunEnds(tail: seq<Paragraph>, max: int, buffer: seq<string>)
    requires tail == [] || !Fits(tail[0], max)
    ensures GroupAll(tail, max, buffer) == Flush(buffer, PARAGRAPHS) + GroupAll(tail, max, [])
  {
    if tail != [] {
      FirstTurn(tail, max, buffer);
      FirstTurn(tail, max, []);
      assert Flush([], PARAGRAPHS) == [];
    }
  }

  lemma PackTurn(run: seq<Paragraph>, max: int, buffer: seq<string>)
    requires run != [] && Fits(run[0], max)
    ensures var turn := Turn(run[0], max, buffer);
            Pack(ParagraphTexts(run), PARAGRAPHS, max, buffer, true)
            == turn.0 + Pack(ParagraphTexts(run[1..]), PARAGRAPHS, max, turn.1, true)
  {
    var texts, rest := ParagraphTexts(run), ParagraphTexts(run[1..]);
    if run[0].text == "" {
      assert texts == rest;
    } else {
      assert texts[0] == run[0].text && texts[1..] == rest;
    }
  }

  /** An over-long paragraph is packed by itself, sentence by sentence. */
  lemma LongParagraphIsPacked(p: Paragraph, rest: seq<Paragraph>, max: int)
    requires !Fits(p, max)
    ensures GroupAll([p] + rest, max, []) == Pack(p.sentences, SENTENCES, max, [], false) + GroupAll(rest, max, [])
  {
    assert ([p] + rest)[1..] == rest;
    assert Flush([], PARAGRAPHS) == [];
  }

  // -- Empty chunks -----------------------------------------------------

  ghost predicate HasEmpty(groups: seq<Group>) {
    exists k :: 0 <= k < |groups| && groups[k].pieces == []
  }

  /**
   Paragraph `i` is met with an empty buffer: since the start, when that was `open`, or
   since an over-long paragraph, there have been only blank ones.
   */
  ghost predicate MetBare(paragraphs: seq<Paragraph>, i: int, max: int, open: bool) {
    0 <= i < |paragraphs|
    && exists j :: BareSince(paragraphs, j, i) && if j == 0 then open else !Fits(paragraphs[j - 1], max)
  }

  predicate BareSince(paragraphs: seq<Paragraph>, j: int, i: int) {
    0 <= j <= i < |paragraphs| && forall k | j <= k < i :: paragraphs[k].text == ""
  }

  /** A paragraph that fits, but for which the separator leaves no room. */
  predicate JustFits(p: Paragraph, max: int) {
    p.text != "" && max - 2 < |p.text| <= max
  }

  ghost predicate EmptyPushed(paragraphs: seq<Paragraph>, max: int, open: bool) {
    exists i :: MetBare(paragraphs, i, max, open) && JustFits(paragraphs[i], max)
  }

  lemma {:induction false} PackLeavesNone(pieces: seq<string>, sep: string, max: int, buffer: seq<string>)
    ensures !HasEmpty(Pack(pieces, sep, max, buffer, false))
    decreases |pieces|
  {
    if pieces != [] {
      PackLeavesNone(pieces[1..], sep, max, [pieces[0]]);
      PackLeavesNone(pieces[1..], sep, max, buffer + [pieces[0]]);
    }
  }

  lemma HasEmptyAppend(a: seq<Group>, b: seq<Group>)
    ensures HasEmpty(a + b) <==> HasEmpty(a) || HasEmpty(b)
  {
    if k :| 0 <= k < |a| && a[k].pieces == [] {
      assert (a + b)[k].pieces == [];
    }
    if k :| 0 <= k < |b| && b[k].pieces == [] {
      assert (a + b)[|a| + k].pieces == [];
    }
  }

  /** What one turn pushes empty, and whether it leaves the buffer empty. */
  lemma TurnEmpties(p: Paragraph, max: int, buffer: seq<string>)
    ensures HasEmpty(Turn(p, max, buffer).0) <==> buffer == [] && JustFits(p, max)
    ensures Turn(p, max, buffer).1 == [] <==> if p.text == "" then buffer == [] else !Fits(p, max)
  {
    if !Fits(p, max) {
      HasEmptyAppend(Flush(buffer, PARAGRAPHS), Pack(p.sentences, SENTENCES, max, [], false));
      PackLeavesNone(p.sentences, SENTENCES, max, []);
    } else if p.text != "" && |Join(buffer, PARAGRAPHS)| + |p.text| + 2 > max {
      assert Turn(p, max, buffer).0[0].pieces == buffer;
    }
  }

  lemma MetBareNext(paragraphs: seq<Paragraph>, i: int, max: int, open: bool)
    requires 0 < i < |paragraphs|
    ensures var p := paragraphs[0];
            MetBare(paragraphs, i, max, open)
            <==> MetBare(paragraphs[1..], i - 1, max, if p.text == "" then open else !Fits(p, max))
  {
    var rest, before := paragraphs[1..], i - 1;
    var after := if paragraphs[0].text == "" then open else !Fits(paragraphs[0], max);
    if j :| BareSince(paragraphs, j, i) && if j == 0 then open else !Fits(paragraphs[j - 1], max) {
      if j == 0 {
        assert BareSince(rest, 0, before);
      } else {
        assert BareSince(rest, j - 1, before);
      }
    }
    if j :| BareSince(rest, j, before) && if j == 0 then after else !Fits(rest[j - 1], max) {
      if j == 0 && paragraphs[0].text == "" {
        assert BareSince(paragraphs, 0, i);
      } else {
        assert BareSince(paragraphs, j + 1, i);
      }
    }
  }

  lemma EmptyPushedNext(paragraphs: seq<Paragraph>, max: int, open: bool)
    requires paragraphs != []
    ensures var p := paragraphs[0];
            EmptyPushed(paragraphs, max, open)
            <==> || (open && JustFits(p, max))
                 || EmptyPushed(paragraphs[1..], max, if p.text == "" then open else !Fits(p, max))
  {
    var p, rest := paragraphs[0], paragraphs[1..];
    var after := if p.text == "" then open else !Fits(p, max);
    if open && JustFits(p, max) {
      assert BareSince(paragraphs, 0, 0);
      assert MetBare(paragraphs, 0, max, open);
    }
    if i :| MetBare(rest, i, max, after) && JustFits(rest[i], max) {
      MetBareNext(paragraphs, i + 1, max, open);
    }
    if i :| MetBare(paragraphs, i, max, open) && JustFits(paragraphs[i], max) && i > 0 {
      MetBareNext(paragraphs, i, max, open);
      assert rest[i - 1] == paragraphs[i];
    }
  }

  /** From any buffer: a chunk without pieces is pushed exactly when some such paragraph is met bare. */
  lemma {:induction false} EmptyGroupIff(paragraphs: seq<Paragraph>, max: int, buffer: seq<string>)
    ensures HasEmpty(GroupAll(paragraphs, max, buffer)) <==> EmptyPushed(paragraphs, max, buffer == [])
    decreases |paragraphs|
  {
    if paragraphs != [] {
      var turn := Turn(paragraphs[0], max, buffer);
      FirstTurn(paragraphs, max, buffer);
      HasEmptyAppend(turn.0, GroupAll(paragraphs[1..], max, turn.1));
      TurnEmpties(paragraphs[0], max, buffer);
      EmptyGroupIff(paragraphs[1..], max, turn.1);
      EmptyPushedNext(paragraphs, max, buffer == []);
    }
  }

  lemma {:induction false} FlattenHolds(groups: seq<Group>, k: nat, piece: string)
    requires k < |groups| && piece in groups[k].pieces
    ensures piece in Flatten(groups)
  {
    if k > 0 {
      FlattenHolds(groups[1..], k - 1, piece);
    }
  }

  lemma {:induction false} PiecesNotBlank(paragraphs: seq<Paragraph>, max: int)
    requires forall p | p in paragraphs :: WellSplit(p)
    ensures NoneBlank(Pieces(paragraphs, max))
  {
    if paragraphs != [] {
      assert WellSplit(paragraphs[0]);
      PiecesNotBlank(paragraphs[1..], max);
    }
  }

  /** No pieces is the only way to come out empty. */
  lemma EmptyText(paragraphs: seq<Paragraph>, max: int)
    requires forall p | p in paragraphs :: WellSplit(p)
    ensures "" in Texts(GroupAll(paragraphs, max, [])) <==> HasEmpty(GroupAll(paragraphs, max, []))
  {
    var groups := GroupAll(paragraphs, max, []);
    NothingLost(paragraphs, max, []);
    PiecesNotBlank(paragraphs, max);
    forall k | 0 <= k < |groups| ensures Texts(groups)[k] == "" <==> groups[k].pieces == [] {
      forall piece | piece in groups[k].pieces ensures piece != "" {
        FlattenHolds(groups, k, piece);
        assert [] + Pieces(paragraphs, max) == Pieces(paragraphs, max);
      }
      if groups[k].pieces != [] {
        JoinNonEmpty(groups[k].pieces, groups[k].sep);
      }
    }
    if HasEmpty(groups) {
      var k :| 0 <= k < |groups| && groups[k].pieces == [];
      assert Texts(groups)[k] == "";
    }
  }

  /**
   Of a whole document: the loop pushes an empty chunk exactly when some paragraph that
   fits, but with fewer than two characters to spare, is met at the start of the document
   or behind an over-long paragraph. The length filter removes it.
   */
  lemma EmptyChunkIff(paragraphs: seq<Paragraph>, max: int)
    requires forall p | p in paragraphs :: WellSplit(p)
    ensures "" in Texts(GroupAll(paragraphs, max, [])) <==>
              exists i, j :: BareSince(paragraphs, j, i) && JustFits(paragraphs[i], max)
                             && (j == 0 || !Fits(paragraphs[j - 1], max))
    ensures "" !in KeepLong(Texts(GroupAll(paragraphs, max, [])))
  {
    EmptyText(paragraphs, max);
    EmptyGroupIff(paragraphs, max, []);
    OnlyShortDropped(Texts(GroupAll(paragraphs, max, [])), "");
    if i :| MetBare(paragraphs, i, max, true) && JustFits(paragraphs[i], max) {
      var j :| BareSince(paragraphs, j, i) && if j == 0 then true else !Fits(paragraphs[j - 1], max);
    }
    if i, j :| BareSince(paragraphs, j, i) && JustFits(paragraphs[i], max) && (j == 0 || !Fits(paragraphs[j - 1], max)) {
      assert MetBare(paragraphs, i, max, true);
    }
    assert multiset(KeepLong(Texts(GroupAll(paragraphs, max, []))))[""] == 0;
  }

  // -- Whole documents --------------------------------------------------

  /** What is filled by itself: a run of paragraphs that fit, or the sentences of one that does not. */
  datatype Segment = Segment(pieces: seq<string>, sep: string)

  /** How many paragraphs fit before the first that does not. */
  function RunLength(paragraphs: seq<Paragraph>, max: int): (n: nat)
    ensures n <= |paragraphs|
    ensures forall p | p in paragraphs[..n] :: Fits(p, max)
    ensures n < |paragraphs| ==> !Fits(paragraphs[n], max)
  {
    if paragraphs == [] || !Fits(paragraphs[0], max) then 0
    else
      assert paragraphs[..1 + RunLength(paragraphs[1..], max)]
          == [paragraphs[0]] + paragraphs[1..][..RunLength(paragraphs[1..], max)];
      1 + RunLength(paragraphs[1..], max)
  }

  function Segments(paragraphs: seq<Paragraph>, max: int): seq<Segment>
    decreases |paragraphs|
  {
    var n := RunLength(paragraphs, max);
    [Segment(ParagraphTexts(paragraphs[..n]), PARAGRAPHS)]
    + if n == |paragraphs| then []
      else [Segment(paragraphs[n].sentences, SENTENCES)] + Segments(paragraphs[n + 1..], max)
  }

  function Filled(segments: seq<Segment>, max: int): seq<Group> {
    if segments == [] then []
    else Pack(segments[0].pieces, segments[0].sep, max, [], segments[0].sep == PARAGRAPHS) + Filled(segments[1..], max)
  }

  function AllPieces(segments: seq<Segment>): seq<string> {
    if segments == [] then [] else segments[0].pieces + AllPieces(segments[1..])
  }

  /** The whole loop is nothing but filling, segment by segment. */
  lemma {:induction false} DocumentIsFilled(paragraphs: seq<Paragraph>, max: int)
    ensures GroupAll(paragraphs, max, []) == Filled(Segments(paragraphs, max), max)
    decreases |paragraphs|
  {
    var n := RunLength(paragraphs, max);
    var run, tail, segments := paragraphs[..n], paragraphs[n..], Segments(paragraphs, max);
    assert run + tail == paragraphs;
    RunIsPacked(run, tail, max, []);
    if tail == [] {
      FilledFirst(segments, max);
      assert segments[1..] == [];
    } else {
      var rest := paragraphs[n + 1..];
      assert tail == [tail[0]] + rest;
      LongParagraphIsPacked(tail[0], rest, max);
      DocumentIsFilled(rest, max);
      FilledFirst(segments, max);
      FilledFirst(segments[1..], max);
      assert segments[1..][1..] == Segments(rest, max);
    }
  }

  lemma FilledFirst(segments: seq<Segment>, max: int)
    requires segments != []
    ensures Filled(segments, max)
         == Pack(segments[0].pieces, segments[0].sep, max, [], segments[0].sep == PARAGRAPHS) + Filled(segments[1..], max)
  {
  }

  /** One grouping for each segment, in order and under the same ceiling. */
  predicate Plan(plan: seq<seq<seq<string>>>, segments: seq<Segment>, max: int) {
    && |plan| == |segments|
    && forall i | 0 <= i < |plan| :: Grouping(plan[i], segments[i].sep, max) && Concat(plan[i]) == segments[i].pieces
  }

  function PlanSize(plan: seq<seq<seq<string>>>): nat {
    if plan == [] then 0 else |plan[0]| + PlanSize(plan[1..])
  }

  lemma {:induction false} NonEmptyAppend(a: seq<Group>, b: seq<Group>)
    ensures NonEmpty(a + b) == NonEmpty(a) + NonEmpty(b)
  {
    if a == [] {
      assert a + b == b;
    } else {
      assert (a + b)[1..] == a[1..] + b;
      NonEmptyAppend(a[1..], b);
    }
  }

  lemma {:induction false} FilledOptimal(segments: seq<Segment>, max: int, plan: seq<seq<seq<string>>>)
    requires Plan(plan, segments, max)
    ensures NonEmpty(Filled(segments, max)) <= PlanSize(plan)
    decreases |segments|
  {
    if segments != [] {
      var s := segments[0];
      PackingOptimal(s.pieces, s.sep, max, s.sep == PARAGRAPHS, plan[0]);
      FilledOptimal(segments[1..], max, plan[1..]);
      FilledFirst(segments, max);
      NonEmptyAppend(Pack(s.pieces, s.sep, max, [], s.sep == PARAGRAPHS), Filled(segments[1..], max));
    }
  }

  /**
   Of a whole document: no plan that groups each run of fitting paragraphs, and the
   sentences of each over-long one, in order and under the same ceiling, has fewer chunks
   than the loop's non-empty ones.
   */
  lemma DocumentOptimal(paragraphs: seq<Paragraph>, max: int, plan: seq<seq<seq<string>>>)
    requires Plan(plan, Segments(paragraphs, max), max)
    ensures NonEmpty(GroupAll(paragraphs, max, [])) <= PlanSize(plan)
  {
    DocumentIsFilled(paragraphs, max);
    FilledOptimal(Segments(paragraphs, max), max, plan);
  }

  /** The segments are the document: put together, they are its pieces in order. */
  lemma {:induction false} SegmentsCover(paragraphs: seq<Paragraph>, max: int)
    ensures AllPieces(Segments(paragraphs, max)) == Pieces(paragraphs, max)
    decreases |paragraphs|
  {
    var n := RunLength(paragraphs, max);
    var run, tail, segments := paragraphs[..n], paragraphs[n..], Segments(paragraphs, max);
    assert run + tail == paragraphs;
    RunPieces(run, tail, max);
    if tail == [] {
      assert segments[1..] == [];
    } else {
      var rest := paragraphs[n + 1..];
      assert tail[1..] == rest;
      SegmentsCover(rest, max);
      assert segments[1..][1..] == Segments(rest, max);
      assert AllPieces(segments[1..]) == tail[0].sentences + AllPieces(segments[1..][1..]);
    }
  }

  lemma {:induction false} RunPieces(run: seq<Paragraph>, tail: seq<Paragraph>, max: int)
    requires forall p | p in run :: Fits(p, max)
    ensures Pieces(run + tail, max) == ParagraphTexts(run) + Pieces(tail, max)
    decreases |run|
  {
    if run == [] {
      assert run + tail == tail;
    } else {
      var rest, first := run[1..], Pieces([run[0]], max);
      assert Fits(run[0], max) && forall q | q in rest :: q in run;
      var whole := run + tail;
      assert whole[0] == run[0] && whole[1..] == rest + tail;
      PiecesOfFirst(whole, max);
      RunPieces(rest, tail, max);
      FitPiece(run, max);
      Regroup(first, ParagraphTexts(rest), Pieces(tail, max));
    }
  }

  lemma FitPiece(run: seq<Paragraph>, max: int)
    requires run != [] && Fits(run[0], max)
    ensures ParagraphTexts(run) == Pieces([run[0]], max) + ParagraphTexts(run[1..])
  {
    assert [run[0]][1..] == [];
  }
}
