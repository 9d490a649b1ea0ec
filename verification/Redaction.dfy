/**
 The numeric branch of card redaction: 13 to 19 digits, at most one space or dash
 between neighbours, not touching another digit on either side; and its use on every
 string of a JSON-shaped value.
 */
module Redaction {
  import opened Common

  const PAN_PLACEHOLDER := "[REDACTED_CARD]"
  const MIN_DIGITS := 13
  const MAX_DIGITS := 19

  predicate IsDigit(c: char) { '0' <= c <= '9' }

  predicate IsSeparator(c: char) { c == ' ' || c == '-' }

  predicate DigitAt(t: string, i: int) { 0 <= i < |t| && IsDigit(t[i]) }

  /** How far the next digit of a run is: adjacent, or past one separator; 0 when there is none. */
  function Stride(t: string, i: nat): (k: nat)
    ensures k <= 2 && (k > 0 ==> DigitAt(t, i + k))
  {
    if DigitAt(t, i + 1) then 1
    else if i + 1 < |t| && IsSeparator(t[i + 1]) && DigitAt(t, i + 2) then 2
    else 0
  }

  /** `n` digits of one run start at `i`, and no digit follows the last. */
  predicate RunAt(t: string, i: nat, n: nat)
    decreases n
  {
    && n > 0 && DigitAt(t, i)
    && if n == 1 then !DigitAt(t, i + 1) else Stride(t, i) > 0 && RunAt(t, i + Stride(t, i), n - 1)
  }

  /** Where that run ends. */
  function RunEnd(t: string, i: nat, n: nat): (end: nat)
    requires RunAt(t, i, n)
    ensures i < end <= |t| && !DigitAt(t, end) && DigitAt(t, end - 1)
    decreases n
  {
    if n == 1 then i + 1 else RunEnd(t, i + Stride(t, i), n - 1)
  }

  /** A card-shaped sequence: what the pattern matches. */
  predicate CardAt(t: string, i: nat, n: nat) {
    MIN_DIGITS <= n <= MAX_DIGITS && !DigitAt(t, i - 1) && RunAt(t, i, n)
  }

  /** The greedy match at `i`: as many digits as possible, backing off to the fewest allowed. */
  function LongestCard(t: string, i: nat, n: nat): (found: Option<nat>)
    requires MIN_DIGITS <= n <= MAX_DIGITS
    ensures found.Some? ==> CardAt(t, i, found.value)
    ensures found.None? ==> forall k | MIN_DIGITS <= k <= n :: !CardAt(t, i, k)
    decreases |t|, n
  {
    if CardAt(t, i, n) then Some(n)
    else if n == MIN_DIGITS then None
    else LongestCard(t, i, n - 1)
  }

  datatype Piece = Kept(c: char) | Card(run: string)

  /** The leftmost, non-overlapping matches from `i` on, and the characters between them. */
  function Scan(t: string, i: nat): seq<Piece>
    requires i <= |t|
    decreases |t| - i
  {
    if i == |t| then []
    else
      var found := LongestCard(t, i, MAX_DIGITS);
      match found
      case None => [Kept(t[i])] + Scan(t, i + 1)
      case Some(n) => [Card(t[i..RunEnd(t, i, n)])] + Scan(t, RunEnd(t, i, n))
  }

  function DigitCount(s: string): nat {
    if s == "" then 0 else (if IsDigit(s[0]) then 1 else 0) + DigitCount(s[1..])
  }

  function Original(pieces: seq<Piece>): string {
    if pieces == [] then ""
    else (match pieces[0] case Kept(c) => [c] case Card(run) => run) + Original(pieces[1..])
  }

  /** The substitution checks the digit count once more before replacing. */
  function Rendered(p: Piece): string {
    match p
    case Kept(c) => [c]
    case Card(run) => if MIN_DIGITS <= DigitCount(run) <= MAX_DIGITS then PAN_PLACEHOLDER else run
  }

  function Render(pieces: seq<Piece>): string {
    if pieces == [] then "" else Rendered(pieces[0]) + Render(pieces[1..])
  }

  function Redact(t: string): string { Render(Scan(t, 0)) }

  // -- What is replaced and what is kept --------------------------------

  lemma {:induction false} DigitCountAppend(a: string, b: string)
    ensures DigitCount(a + b) == DigitCount(a) + DigitCount(b)
  {
    if a == "" {
      assert a + b == b;
    } else {
      assert (a + b)[1..] == a[1..] + b;
      DigitCountAppend(a[1..], b);
    }
  }

  lemma Split(t: string, i: nat, j: nat, k: nat)
    requires i <= j <= k <= |t|
    ensures t[i..k] == t[i..j] + t[j..k]
    ensures t[i..] == t[i..j] + t[j..]
  {
  }

  /** From one digit of a run to the next there is one digit to count. */
  lemma StrideDigits(t: string, i: nat)
    requires DigitAt(t, i)
    ensures DigitCount(t[i..i + 1]) == 1
    ensures Stride(t, i) > 0 ==> DigitCount(t[i..i + Stride(t, i)]) == 1
  {
    assert t[i..i + 1][1..] == "";
    if Stride(t, i) == 2 {
      Split(t, i, i + 1, i + 2);
      DigitCountAppend(t[i..i + 1], t[i + 1..i + 2]);
      assert t[i + 1..i + 2][1..] == "";
    }
  }

  lemma {:induction false} RunDigits(t: string, i: nat, n: nat)
    requires RunAt(t, i, n)
    ensures DigitCount(t[i..RunEnd(t, i, n)]) == n
    decreases n
  {
    StrideDigits(t, i);
    if n > 1 {
      var k := Stride(t, i);
      RunDigits(t, i + k, n - 1);
      Split(t, i, i + k, RunEnd(t, i, n));
      DigitCountAppend(t[i..i + k], t[i + k..RunEnd(t, i, n)]);
    }
  }

  lemma {:induction false} RunCharacters(t: string, i: nat, n: nat, k: nat)
    requires RunAt(t, i, n) && i <= k < RunEnd(t, i, n)
    ensures IsDigit(t[k]) || IsSeparator(t[k])
    decreases n
  {
    if n > 1 && k >= i + Stride(t, i) {
      RunCharacters(t, i + Stride(t, i), n - 1, k);
    }
  }

  lemma FoundIsCardShaped(t: string, i: nat, n: nat)
    requires RunAt(t, i, n) && MIN_DIGITS <= n <= MAX_DIGITS
    ensures CardShaped(t[i..RunEnd(t, i, n)])
  {
    RunDigits(t, i, n);
    forall k | i <= k < RunEnd(t, i, n) ensures IsDigit(t[k]) || IsSeparator(t[k]) {
      RunCharacters(t, i, n, k);
    }
  }

  predicate CardShaped(run: string) {
    && MIN_DIGITS <= DigitCount(run) <= MAX_DIGITS
    && forall k | 0 <= k < |run| :: IsDigit(run[k]) || IsSeparator(run[k])
  }

  /**
   The scan loses nothing: put back together it is the text from `i` on, and every
   piece it marks as a card is 13 to 19 digits and separators, so it is always replaced.
   */
  lemma {:induction false} ScanKeepsText(t: string, i: nat)
    requires i <= |t|
    ensures Original(Scan(t, i)) == t[i..]
    ensures forall p | p in Scan(t, i) && p.Card? :: CardShaped(p.run) && Rendered(p) == PAN_PLACEHOLDER
    decreases |t| - i
  {
    if i < |t| {
      var found := LongestCard(t, i, MAX_DIGITS);
      if found.Some? {
        var end := RunEnd(t, i, found.value);
        FoundIsCardShaped(t, i, found.value);
        CardPiece(t[i..end], Scan(t, end));
        ScanKeepsText(t, end);
        Split(t, i, end, |t|);
      } else {
        KeptPiece(t[i], Scan(t, i + 1));
        ScanKeepsText(t, i + 1);
        Split(t, i, i + 1, |t|);
        assert t[i..i + 1] == [t[i]];
      }
    }
  }

  lemma CardPiece(run: string, rest: seq<Piece>)
    ensures Original([Card(run)] + rest) == run + Original(rest)
    ensures CardShaped(run) ==> Render([Card(run)] + rest) == PAN_PLACEHOLDER + Render(rest)
  {
    assert ([Card(run)] + rest)[1..] == rest;
  }

  lemma KeptPiece(c: char, rest: seq<Piece>)
    ensures Original([Kept(c)] + rest) == [c] + Original(rest)
    ensures Render([Kept(c)] + rest) == [c] + Render(rest)
  {
    assert ([Kept(c)] + rest)[1..] == rest;
  }

  // -- Which parts are replaced -----------------------------------------

  lemma {:induction false} LongestIsLongest(t: string, i: nat, n: nat)
    requires MIN_DIGITS <= n <= MAX_DIGITS && LongestCard(t, i, n).Some?
    ensures LongestCard(t, i, n).value <= n
    ensures forall k | LongestCard(t, i, n).value < k <= n :: !CardAt(t, i, k)
  {
    if !CardAt(t, i, n) {
      LongestIsLongest(t, i, n - 1);
    }
  }

  /** At `i` the longest card that begins there is replaced; a character is kept where none begins. */
  ghost predicate RightPiece(t: string, i: nat, p: Piece) {
    match p
    case Kept(c) => i < |t| && t[i] == c && forall k | MIN_DIGITS <= k <= MAX_DIGITS :: !CardAt(t, i, k)
    case Card(run) =>
      exists n: nat :: CardAt(t, i, n) && run == t[i..RunEnd(t, i, n)] && forall k | n < k <= MAX_DIGITS :: !CardAt(t, i, k)
  }

  /** Piece after piece, each is the right one where the text in front of it ends. */
  ghost predicate RightPieces(t: string, i: nat, pieces: seq<Piece>)
    decreases |pieces|
  {
    if pieces == [] then i == |t|
    else RightPiece(t, i, pieces[0]) && RightPieces(t, i + |Original([pieces[0]])|, pieces[1..])
  }

  lemma CardIsRight(t: string, i: nat)
    requires i < |t| && LongestCard(t, i, MAX_DIGITS).Some?
    ensures RightPiece(t, i, Card(t[i..RunEnd(t, i, LongestCard(t, i, MAX_DIGITS).value)]))
  {
    LongestIsLongest(t, i, MAX_DIGITS);
    var n := LongestCard(t, i, MAX_DIGITS).value;
    assert CardAt(t, i, n);
  }

  lemma PieceOriginal(p: Piece)
    ensures Original([p]) == match p case Kept(c) => [c] case Card(run) => run
  {
    assert [p][1..] == [];
  }

  /**
   The scan is leftmost and longest: going by the text in front of each piece, a replaced
   one is the longest card at its place, and no card begins at a kept character.
   */
  lemma {:induction false} LeftmostLongest(t: string, i: nat)
    requires i <= |t|
    ensures RightPieces(t, i, Scan(t, i))
    decreases |t| - i
  {
    if i < |t| {
      var p, next := FirstPiece(t, i);
      LeftmostLongest(t, next);
      RightCons(t, i, p, Scan(t, next), next);
    }
  }

  lemma FirstPiece(t: string, i: nat) returns (p: Piece, next: nat)
    requires i < |t|
    ensures i < next <= |t| && Scan(t, i) == [p] + Scan(t, next)
    ensures RightPiece(t, i, p) && |Original([p])| == next - i
  {
    var found := LongestCard(t, i, MAX_DIGITS);
    next := EndOf(t, i);
    p := if found.Some? then Card(t[i..next]) else Kept(t[i]);
    PieceOriginal(p);
    if found.Some? {
      CardIsRight(t, i);
    }
  }

  lemma RightCons(t: string, i: nat, p: Piece, rest: seq<Piece>, next: nat)
    requires RightPiece(t, i, p) && i + |Original([p])| == next && RightPieces(t, next, rest)
    ensures RightPieces(t, i, [p] + rest)
  {
    assert ([p] + rest)[1..] == rest;
  }

  /** So it is of the piece at any position. */
  lemma {:induction false} RightAt(t: string, i: nat, pieces: seq<Piece>, k: nat)
    requires RightPieces(t, i, pieces) && k < |pieces|
    ensures RightPiece(t, i + |Original(pieces[..k])|, pieces[k])
    decreases k
  {
    if k > 0 {
      var first, rest := pieces[0], pieces[1..];
      RightAt(t, i + |Original([first])|, rest, k - 1);
      assert pieces[..k] == [first] + rest[..k - 1];
      OriginalFirst(first, rest[..k - 1]);
    } else {
      assert pieces[..0] == [];
    }
  }

  lemma OriginalFirst(p: Piece, rest: seq<Piece>)
    ensures Original([p] + rest) == Original([p]) + Original(rest)
  {
    assert ([p] + rest)[1..] == rest && [p][1..] == [];
  }

  // -- What a card is ---------------------------------------------------

  /** Digits with at most one space or dash between neighbours, from a digit to a digit no digit follows. */
  predicate RunText(t: string, i: int, end: int) {
    && 0 <= i < end <= |t|
    && '0' <= t[i] <= '9' && '0' <= t[end - 1] <= '9'
    && (end < |t| ==> !('0' <= t[end] <= '9'))
    && forall k | i <= k < end ::
         || '0' <= t[k] <= '9'
         || ((t[k] == ' ' || t[k] == '-') && i < k < end - 1 && '0' <= t[k - 1] <= '9' && '0' <= t[k + 1] <= '9')
  }

  /** Thirteen to nineteen such digits, with no digit in front. */
  predicate CardText(t: string, i: int, end: int) {
    RunText(t, i, end) && (i > 0 ==> !('0' <= t[i - 1] <= '9')) && 13 <= DigitCount(t[i..end]) <= 19
  }

  lemma {:induction false} RunIsText(t: string, i: nat, n: nat)
    requires RunAt(t, i, n)
    ensures RunText(t, i, RunEnd(t, i, n))
    decreases n
  {
    if n > 1 {
      RunIsText(t, i + Stride(t, i), n - 1);
    }
  }

  lemma NextText(t: string, i: nat, end: nat)
    requires RunText(t, i, end) && end > i + 1
    ensures 1 <= Stride(t, i) && i + Stride(t, i) < end && RunText(t, i + Stride(t, i), end)
  {
    if !('0' <= t[i + 1] <= '9') {
      assert i + 1 < end - 1;
    }
  }

  lemma {:induction false} TextIsRun(t: string, i: nat, end: nat) returns (n: nat)
    requires RunText(t, i, end)
    ensures RunAt(t, i, n) && RunEnd(t, i, n) == end
    decreases end - i
  {
    if end == i + 1 {
      n := 1;
    } else {
      NextText(t, i, end);
      n := TextIsRun(t, i + Stride(t, i), end);
      n := n + 1;
    }
  }

  /** Card-shaped, as the scan looks for it step by step, is what the pattern says. */
  lemma CardMeans(t: string, i: nat, end: nat)
    ensures CardText(t, i, end) <==> exists n :: CardAt(t, i, n) && RunEnd(t, i, n) == end
  {
    if CardText(t, i, end) {
      var n := TextIsRun(t, i, end);
      RunDigits(t, i, n);
      assert CardAt(t, i, n);
    }
    if n :| CardAt(t, i, n) && RunEnd(t, i, n) == end {
      RunIsText(t, i, n);
      RunDigits(t, i, n);
    }
  }

  // -- Nothing card-shaped remains --------------------------------------

  lemma {:induction false} RunShift(prefix: string, t: string, i: nat, n: nat)
    ensures RunAt(prefix + t, |prefix| + i, n) == RunAt(t, i, n)
    decreases n
  {
    var u := prefix + t;
    assert forall k | 0 <= k < |t| :: u[|prefix| + k] == t[k];
    assert Stride(u, |prefix| + i) == Stride(t, i);
    if n > 1 {
      RunShift(prefix, t, i + Stride(t, i), n - 1);
    }
  }

  function Tail(t: string, i: nat): string
    requires i <= |t|
  {
    Render(Scan(t, i))
  }

  lemma TailStep(t: string, i: nat)
    requires i < |t|
    ensures var found := LongestCard(t, i, MAX_DIGITS);
            Tail(t, i) == if found.None? then [t[i]] + Tail(t, i + 1)
                          else PAN_PLACEHOLDER + Tail(t, RunEnd(t, i, found.value))
  {
    var found := LongestCard(t, i, MAX_DIGITS);
    if found.Some? {
      var end := RunEnd(t, i, found.value);
      FoundIsCardShaped(t, i, found.value);
      CardPiece(t[i..end], Scan(t, end));
    } else {
      KeptPiece(t[i], Scan(t, i + 1));
    }
  }

  /**
   The outputs from every position, by position: `kept` where the character stays, and
   elsewhere a placeholder standing for the card that ends at `ends`.
   */
  datatype Layout = Layout(tails: seq<string>, kept: seq<bool>, ends: seq<nat>, placeholder: string)

  predicate KeptAt(t: string, l: Layout, i: int) {
    0 <= i < |l.kept| && l.kept[i]
  }

  ghost predicate LaidAt(t: string, l: Layout, i: nat)
    requires i < |t| && |l.tails| == |t| + 1 && |l.kept| == |l.ends| == |t|
  {
    if l.kept[i] then
      && l.tails[i] == [t[i]] + l.tails[i + 1]
      && (forall n | MIN_DIGITS <= n <= MAX_DIGITS :: !CardAt(t, i, n))
    else
      && i < l.ends[i] <= |t| && l.tails[i] == l.placeholder + l.tails[l.ends[i]]
      && DigitAt(t, i) && !DigitAt(t, i - 1) && DigitAt(t, l.ends[i] - 1) && !DigitAt(t, l.ends[i])
  }

  ghost predicate Laid(t: string, l: Layout) {
    && |l.tails| == |t| + 1 && |l.kept| == |l.ends| == |t| && l.tails[|t|] == ""
    && l.placeholder != "" && (forall k | 0 <= k < |l.placeholder| :: !IsDigit(l.placeholder[k]))
    && (forall i | 0 <= i < |t| :: LaidAt(t, l, i))
  }

  /** The next digit of a run in the output, from a kept digit, is the input's, and is kept too. */
  lemma StrideWasThere(t: string, l: Layout, i: nat)
    requires Laid(t, l) && DigitAt(t, i) && KeptAt(t, l, i)
    ensures DigitAt(l.tails[i], 1) <==> DigitAt(t, i + 1)
    ensures Stride(l.tails[i], 0) > 0 ==> Stride(t, i) == Stride(l.tails[i], 0) && KeptAt(t, l, i + Stride(t, i))
    ensures Stride(l.tails[i], 0) == 2 ==> KeptAt(t, l, i + 1)
  {
    assert LaidAt(t, l, i);
    if i + 1 < |t| {
      assert LaidAt(t, l, i + 1);
      if i + 2 < |t| {
        assert LaidAt(t, l, i + 2);
      }
    }
  }

  lemma RunContinues(t: string, l: Layout, i: nat, n: nat)
    requires Laid(t, l) && DigitAt(t, i) && KeptAt(t, l, i) && n > 1 && RunAt(l.tails[i], 0, n)
    ensures Stride(t, i) > 0 && RunAt(l.tails[i + Stride(t, i)], 0, n - 1)
  {
    StrideWasThere(t, l, i);
    assert LaidAt(t, l, i);
    RunShift([t[i]], l.tails[i + 1], Stride(t, i) - 1, n - 1);
    if Stride(t, i) == 2 {
      assert LaidAt(t, l, i + 1);
      RunShift([t[i + 1]], l.tails[i + 2], 0, n - 1);
    }
  }

  /** A run at the head of the output, where nothing was replaced, was there in the input. */
  lemma {:induction false} RunWasThere(t: string, l: Layout, i: nat, n: nat)
    requires Laid(t, l) && DigitAt(t, i) && KeptAt(t, l, i) && RunAt(l.tails[i], 0, n)
    ensures RunAt(t, i, n)
    decreases n
  {
    StrideWasThere(t, l, i);
    if n > 1 {
      RunContinues(t, l, i, n);
      RunWasThere(t, l, i + Stride(t, i), n - 1);
    }
  }

  lemma BehindPrefix(prefix: string, rest: string, s: nat, n: nat)
    requires |prefix| <= s < |prefix| + |rest|
    ensures RunAt(prefix + rest, s, n) == RunAt(rest, s - |prefix|, n)
    ensures s > |prefix| ==> DigitAt(prefix + rest, s - 1) == DigitAt(rest, s - |prefix| - 1)
    ensures s == |prefix| > 0 ==> DigitAt(prefix + rest, s - 1) == IsDigit(prefix[s - 1])
  {
    RunShift(prefix, rest, s - |prefix|, n);
  }

  /** The output from a position is empty, or begins with a digit only where a digit was kept. */
  lemma DigitHead(t: string, l: Layout, i: nat)
    requires Laid(t, l) && i <= |t| && DigitAt(l.tails[i], 0)
    ensures DigitAt(t, i) && KeptAt(t, l, i)
  {
    if i < |t| {
      assert LaidAt(t, l, i);
    }
  }

  /** No card starts anywhere in the output from `i` on, given what stood before `i`. */
  lemma {:induction false} TailHasNoCard(t: string, l: Layout, i: nat, s: nat, n: nat)
    requires Laid(t, l) && i <= |t| && MIN_DIGITS <= n <= MAX_DIGITS
    requires s > 0 ==> !DigitAt(l.tails[i], s - 1)
    requires s == 0 ==> !DigitAt(t, i - 1)
    ensures !RunAt(l.tails[i], s, n)
    decreases |t| - i
  {
    if DigitAt(l.tails[i], s) {
      assert LaidAt(t, l, i);
      if s == 0 {
        DigitHead(t, l, i);
        if RunAt(l.tails[i], 0, n) {
          RunWasThere(t, l, i, n);
          assert CardAt(t, i, n);
        }
      } else if l.kept[i] {
        BehindPrefix([t[i]], l.tails[i + 1], s, n);
        TailHasNoCard(t, l, i + 1, s - 1, n);
      } else if s > |l.placeholder| {
        BehindPrefix(l.placeholder, l.tails[l.ends[i]], s, n);
        TailHasNoCard(t, l, l.ends[i], s - |l.placeholder|, n);
      } else if s == |l.placeholder| {
        DigitHead(t, l, l.ends[i]);
      }
    }
  }

  /** The scan's own layout. */
  function LayoutOf(t: string): Layout {
    Layout(seq(|t| + 1, i requires 0 <= i <= |t| => Tail(t, i)),
           seq(|t|, i requires 0 <= i < |t| => LongestCard(t, i, MAX_DIGITS).None?),
           seq(|t|, i requires 0 <= i < |t| => EndOf(t, i)),
           PAN_PLACEHOLDER)
  }

  function EndOf(t: string, i: nat): nat
    requires i < |t|
  {
    var found := LongestCard(t, i, MAX_DIGITS);
    if found.Some? then RunEnd(t, i, found.value) else i + 1
  }

  lemma KeptIsLaid(t: string, i: nat)
    requires i < |t| && LongestCard(t, i, MAX_DIGITS).None?
    ensures Tail(t, i) == [t[i]] + Tail(t, i + 1)
    ensures forall n | MIN_DIGITS <= n <= MAX_DIGITS :: !CardAt(t, i, n)
  {
    TailStep(t, i);
  }

  lemma CardIsLaid(t: string, i: nat)
    requires i < |t| && LongestCard(t, i, MAX_DIGITS).Some?
    ensures i < EndOf(t, i) <= |t|
    ensures Tail(t, i) == PAN_PLACEHOLDER + Tail(t, EndOf(t, i))
  {
    TailStep(t, i);
  }

  lemma CardEnds(t: string, i: nat)
    requires i < |t| && LongestCard(t, i, MAX_DIGITS).Some?
    ensures DigitAt(t, i) && !DigitAt(t, i - 1) && DigitAt(t, EndOf(t, i) - 1) && !DigitAt(t, EndOf(t, i))
  {
  }

  lemma PlaceholderHasNoDigit()
    ensures PAN_PLACEHOLDER != "" && forall k | 0 <= k < |PAN_PLACEHOLDER| :: !IsDigit(PAN_PLACEHOLDER[k])
  {
  }

  lemma ScanIsLaid(t: string)
    ensures Laid(t, LayoutOf(t))
  {
    var l := LayoutOf(t);
    PlaceholderHasNoDigit();
    forall i | 0 <= i < |t| ensures LaidAt(t, l, i) {
      if l.kept[i] {
        KeptIsLaid(t, i);
      } else {
        CardIsLaid(t, i);
        CardEnds(t, i);
      }
    }
  }

  predicate Clean(t: string) {
    forall s, n | 0 <= s < |t| && MIN_DIGITS <= n <= MAX_DIGITS :: !CardAt(t, s, n)
  }

  /** After redaction no card-shaped sequence remains, wherever one is looked for. */
  lemma NoCardRemains(t: string)
    ensures Clean(Redact(t))
  {
    var out := Redact(t);
    forall s: nat, n: nat | s < |out| && MIN_DIGITS <= n <= MAX_DIGITS ensures !CardAt(out, s, n) {
      if !DigitAt(out, s - 1) {
        ScanIsLaid(t);
        TailHasNoCard(t, LayoutOf(t), 0, s, n);
      }
    }
  }

  /** So in the output there is no such text anywhere. */
  lemma NoCardText(t: string, i: nat, end: nat)
    ensures !CardText(Redact(t), i, end)
  {
    NoCardRemains(t);
    CardMeans(Redact(t), i, end);
  }

  predicate AllDigits(t: string) {
    forall k | 0 <= k < |t| :: '0' <= t[k] <= '9'
  }

  lemma {:induction false} DigitsCount(t: string)
    requires AllDigits(t)
    ensures DigitCount(t) == |t|
  {
    if t != "" {
      DigitsCount(t[1..]);
    }
  }

  /** A number on its own is replaced whole from thirteen digits to nineteen, and otherwise left alone. */
  lemma LoneNumber(t: string)
    requires AllDigits(t)
    ensures Redact(t) == if 13 <= |t| <= 19 then "[REDACTED_CARD]" else t
  {
    DigitsCount(t);
    assert t[0..|t|] == t;
    if 13 <= |t| <= 19 {
      WholeIsCard(t);
      assert Scan(t, |t|) == [];
      CardPiece(t, []);
      assert [Card(t)] + [] == [Card(t)];
    } else {
      forall s, n | 0 <= s < |t| && MIN_DIGITS <= n <= MAX_DIGITS ensures !CardAt(t, s, n) {
        if CardAt(t, s, n) {
          LoneCard(t, s, n);
        }
      }
      RedactFixesClean(t);
    }
  }

  lemma LoneCard(t: string, s: nat, n: nat)
    requires AllDigits(t) && CardAt(t, s, n)
    ensures n == DigitCount(t)
  {
    assert s == 0;
    WholeRun(t, n);
  }

  lemma WholeRun(t: string, n: nat)
    requires AllDigits(t) && RunAt(t, 0, n)
    ensures n == DigitCount(t) && RunEnd(t, 0, n) == |t|
  {
    RunDigits(t, 0, n);
    assert RunEnd(t, 0, n) == |t| && t[0..|t|] == t;
  }

  lemma WholeIsCard(t: string)
    requires AllDigits(t) && 13 <= |t| <= 19 && DigitCount(t) == |t|
    ensures LongestCard(t, 0, MAX_DIGITS) == Some(|t|) && RunEnd(t, 0, |t|) == |t| && CardShaped(t)
  {
    var n := TextIsRun(t, 0, |t|);
    WholeRun(t, n);
    assert CardAt(t, 0, |t|);
    WholeRun(t, LongestCard(t, 0, MAX_DIGITS).value);
  }

  lemma {:induction false} CleanUnchanged(t: string, i: nat)
    requires i <= |t| && Clean(t)
    ensures Tail(t, i) == t[i..]
    decreases |t| - i
  {
    if i < |t| {
      TailStep(t, i);
      CleanUnchanged(t, i + 1);
      assert t[i..] == [t[i]] + t[i + 1..];
    }
  }

  /** A text is left alone exactly when it holds no card; so redacting twice changes nothing more. */
  lemma RedactFixesClean(t: string)
    ensures Redact(t) == t <==> Clean(t)
    ensures Redact(Redact(t)) == Redact(t)
  {
    NoCardRemains(t);
    CleanUnchanged(Redact(t), 0);
    if Clean(t) {
      CleanUnchanged(t, 0);
    }
  }

  // -- The passes that follow -------------------------------------------

  /** Text put in for what a later pass removes: no digits, and nothing a run could go on through. */
  predicate Inert(put: string) {
    && put != "" && (forall k | 0 <= k < |put| :: !IsDigit(put[k]))
    && !IsSeparator(put[0]) && !IsSeparator(put[|put| - 1])
  }

  /** A span that cuts no group of digits in two. */
  predicate WholeGroups(before: string, span: string, after: string) {
    && span != ""
    && !(DigitAt(before, |before| - 1) && DigitAt(span, 0))
    && !(DigitAt(span, |span| - 1) && DigitAt(after, 0))
  }

  /** A run that ends within `a` does not depend on what follows, unless that is a digit. */
  lemma {:induction false} RunBefore(a: string, y: string, z: string, s: nat, n: nat)
    requires RunAt(a + y, s, n) && RunEnd(a + y, s, n) <= |a|
    requires RunEnd(a + y, s, n) == |a| ==> !DigitAt(z, 0)
    ensures RunAt(a + z, s, n)
    decreases n
  {
    var t, u := a + y, a + z;
    assert forall k | 0 <= k < |a| :: t[k] == u[k];
    if n == 1 {
      assert s + 1 == |a| ==> DigitAt(u, s + 1) == DigitAt(z, 0);
    } else {
      assert s + Stride(t, s) < RunEnd(t, s, n);
      RunBefore(a, y, z, s + Stride(t, s), n - 1);
    }
  }

  lemma CardBefore(before: string, span: string, put: string, after: string, s: nat, n: nat)
    requires WholeGroups(before, span, after) && Inert(put) && s < |before|
    requires CardAt(before + (put + after), s, n)
    ensures CardAt(before + (span + after), s, n)
  {
    var x := before + (put + after);
    assert x[|before|] == put[0];
    if RunEnd(x, s, n) > |before| {
      RunCharacters(x, s, n, |before|);
      assert false;
    }
    assert RunEnd(x, s, n) == |before| ==> DigitAt(before, |before| - 1);
    assert (span + after)[0] == span[0];
    RunBefore(before, put + after, span + after, s, n);
  }

  lemma CardBehind(before: string, span: string, put: string, after: string, s: nat, n: nat)
    requires WholeGroups(before, span, after) && Inert(put) && |before| + |put| <= s
    requires CardAt((before + put) + after, s, n)
    ensures CardAt((before + span) + after, |before| + |span| + (s - |before| - |put|), n)
  {
    var x, t, k := (before + put) + after, (before + span) + after, s - |before| - |put|;
    assert s == |before + put| + k;
    RunShift(before + put, after, k, n);
    RunShift(before + span, after, k, n);
    if k > 0 {
      assert x[s - 1] == after[k - 1] == t[|before + span| + k - 1];
    } else {
      assert x[s] == after[0] && t[|before + span| - 1] == span[|span| - 1];
    }
  }

  /** Replacing whole groups by inert text leaves a clean text clean. */
  lemma ReplacementKeepsClean(before: string, span: string, put: string, after: string)
    requires Clean(before + span + after) && WholeGroups(before, span, after) && Inert(put)
    ensures Clean(before + put + after)
  {
    var x, t := before + put + after, before + span + after;
    assert x == before + (put + after) && t == before + (span + after);
    forall s: nat, n: nat | s < |x| && MIN_DIGITS <= n <= MAX_DIGITS ensures !CardAt(x, s, n) {
      if |before| <= s < |before| + |put| {
        assert x[s] == put[s - |before|];
      } else if CardAt(x, s, n) {
        if s < |before| {
          CardBefore(before, span, put, after, s, n);
        } else {
          CardBehind(before, span, put, after, s, n);
        }
      }
    }
  }

  datatype Replacement = Replacement(before: string, span: string, put: string, after: string)
  {
    predicate Allowed() { WholeGroups(before, span, after) && Inert(put) }
    function From(): string { before + span + after }
    function To(): string { before + put + after }
  }

  function Outcome(t: string, later: seq<Replacement>): string {
    if later == [] then t else later[|later| - 1].To()
  }

  /** Each replacement starts from the text the ones before it left. */
  predicate Follows(t: string, later: seq<Replacement>) {
    later == []
    || (var before, last := later[..|later| - 1], later[|later| - 1];
        Follows(t, before) && last.Allowed() && last.From() == Outcome(t, before))
  }

  lemma {:induction false} ReplacementsKeepClean(t: string, later: seq<Replacement>)
    requires Clean(t) && Follows(t, later)
    ensures Clean(Outcome(t, later))
  {
    if later != [] {
      var last := later[|later| - 1];
      ReplacementsKeepClean(t, later[..|later| - 1]);
      ReplacementKeepsClean(last.before, last.span, last.put, last.after);
    }
  }

  /**
   Whatever the later passes replace, as long as it is whole groups and by inert text, no
   card-shaped sequence comes back. Number words begin and end with letters, and a
   security code is a group of digits with no digit on either side.
   */
  lemma LaterPassesKeepClean(t: string, later: seq<Replacement>)
    requires Follows(Redact(t), later)
    ensures Clean(Outcome(Redact(t), later))
  {
    NoCardRemains(t);
    ReplacementsKeepClean(Redact(t), later);
  }

  // -- Structures -------------------------------------------------------

  datatype Json = Str(s: string) | Dict(entries: seq<Entry>) | List(items: seq<Json>) | Atom(value: int)

  datatype Entry = Entry(key: string, value: Json)

  /** A dictionary display: a repeated key keeps its place and takes the later value. */
  function Put(entries: seq<Entry>, e: Entry): seq<Entry> {
    if entries == [] then [e]
    else if entries[0].key == e.key then [e] + entries[1..]
    else [entries[0]] + Put(entries[1..], e)
  }

  /** Apply `f` to every string and key. */
  function MapStrings(v: Json, f: string -> string): Json
    decreases v, 0
  {
    match v
    case Str(s) => Str(f(s))
    case Dict(entries) => Dict(MapEntries(v, |entries|, f))
    case List(items) => List(seq(|items|, i requires 0 <= i < |items| => MapStrings(items[i], f)))
    case Atom(_) => v
  }

  function MapEntries(v: Json, n: nat, f: string -> string): seq<Entry>
    requires v.Dict? && n <= |v.entries|
    decreases v, 0, n
  {
    if n == 0 then []
    else Put(MapEntries(v, n - 1, f), Entry(f(v.entries[n - 1].key), MapStrings(v.entries[n - 1].value, f)))
  }

  function RedactStructure(v: Json): Json {
    MapStrings(v, Redact)
  }

  predicate EveryString(v: Json, p: string -> bool)
    decreases v
  {
    match v
    case Str(s) => p(s)
    case Dict(entries) => forall i | 0 <= i < |entries| :: p(entries[i].key) && EveryString(entries[i].value, p)
    case List(items) => forall i | 0 <= i < |items| :: EveryString(items[i], p)
    case Atom(_) => true
  }

  predicate EveryEntry(entries: seq<Entry>, p: string -> bool) {
    forall i | 0 <= i < |entries| :: p(entries[i].key) && EveryString(entries[i].value, p)
  }

  lemma {:induction false} PutKeeps(entries: seq<Entry>, e: Entry, p: string -> bool)
    requires EveryEntry(entries, p) && p(e.key) && EveryString(e.value, p)
    ensures EveryEntry(Put(entries, e), p)
  {
    if entries != [] && entries[0].key != e.key {
      PutKeeps(entries[1..], e, p);
    }
  }

  lemma {:induction false} MapReachesAll(v: Json, f: string -> string, p: string -> bool)
    requires forall s :: p(f(s))
    ensures EveryString(MapStrings(v, f), p)
    decreases v, 0
  {
    match v
    case Str(s) =>
    case Dict(entries) => MapReachesEntries(v, |entries|, f, p);
    case List(items) =>
      forall i | 0 <= i < |items| ensures EveryString(MapStrings(items[i], f), p) {
        MapReachesAll(items[i], f, p);
      }
    case Atom(_) =>
  }

  lemma {:induction false} MapReachesEntries(v: Json, n: nat, f: string -> string, p: string -> bool)
    requires v.Dict? && n <= |v.entries| && forall s :: p(f(s))
    ensures EveryEntry(MapEntries(v, n, f), p)
    decreases v, 0, n
  {
    if n > 0 {
      var e := v.entries[n - 1];
      MapReachesEntries(v, n - 1, f, p);
      MapReachesAll(e.value, f, p);
      PutKeeps(MapEntries(v, n - 1, f), Entry(f(e.key), MapStrings(e.value, f)), p);
    }
  }

  /** Every string and every key, at any depth, comes out without a card-shaped sequence. */
  lemma StructureRedacted(v: Json)
    ensures EveryString(RedactStructure(v), Clean)
  {
    forall s ensures Clean(Redact(s)) {
      NoCardRemains(s);
    }
    MapReachesAll(v, Redact, Clean);
  }

  /** No dictionary, at any depth, holds a key twice. */
  predicate DistinctKeys(v: Json)
    decreases v
  {
    match v
    case Str(_) => true
    case Dict(entries) => NoRepeats(entries) && forall i | 0 <= i < |entries| :: DistinctKeys(entries[i].value)
    case List(items) => forall i | 0 <= i < |items| :: DistinctKeys(items[i])
    case Atom(_) => true
  }

  predicate NoRepeats(entries: seq<Entry>) {
    forall i, j | 0 <= i < j < |entries| :: entries[i].key != entries[j].key
  }

  predicate AllDistinct(entries: seq<Entry>) {
    forall i | 0 <= i < |entries| :: DistinctKeys(entries[i].value)
  }

  lemma {:induction false} PutDistinct(entries: seq<Entry>, e: Entry)
    requires NoRepeats(entries) && AllDistinct(entries) && DistinctKeys(e.value)
    ensures NoRepeats(Put(entries, e)) && AllDistinct(Put(entries, e))
    ensures forall o | o in Put(entries, e) :: o == e || o in entries
  {
    if entries != [] && entries[0].key != e.key {
      PutDistinct(entries[1..], e);
      var rest := Put(entries[1..], e);
      forall j | 0 <= j < |rest| ensures rest[j].key != entries[0].key && (rest[j] == e || rest[j] in entries) {
        assert rest[j] in rest;
      }
    }
  }

  lemma {:induction false} PutNew(entries: seq<Entry>, e: Entry)
    requires forall i | 0 <= i < |entries| :: entries[i].key != e.key
    ensures Put(entries, e) == entries + [e]
  {
    if entries != [] {
      PutNew(entries[1..], e);
    }
  }

  lemma {:induction false} MapDistinct(v: Json, f: string -> string)
    ensures DistinctKeys(MapStrings(v, f))
    decreases v, 0
  {
    match v
    case Str(s) =>
    case Dict(entries) => MapEntriesDistinct(v, |entries|, f);
    case List(items) =>
      forall i | 0 <= i < |items| ensures DistinctKeys(MapStrings(items[i], f)) {
        MapDistinct(items[i], f);
      }
    case Atom(_) =>
  }

  lemma {:induction false} MapEntriesDistinct(v: Json, n: nat, f: string -> string)
    requires v.Dict? && n <= |v.entries|
    ensures NoRepeats(MapEntries(v, n, f)) && AllDistinct(MapEntries(v, n, f))
    decreases v, 0, n
  {
    if n > 0 {
      var e := v.entries[n - 1];
      MapEntriesDistinct(v, n - 1, f);
      MapDistinct(e.value, f);
      PutDistinct(MapEntries(v, n - 1, f), Entry(f(e.key), MapStrings(e.value, f)));
    }
  }

  lemma {:induction false} MapFixes(v: Json, f: string -> string, p: string -> bool)
    requires EveryString(v, p) && DistinctKeys(v) && forall s | p(s) :: f(s) == s
    ensures MapStrings(v, f) == v
    decreases v, 0
  {
    match v
    case Str(s) =>
    case Dict(entries) =>
      MapFixesEntries(v, |entries|, f, p);
      assert entries[..|entries|] == entries;
    case List(items) =>
      forall i | 0 <= i < |items| ensures MapStrings(items[i], f) == items[i] {
        MapFixes(items[i], f, p);
      }
    case Atom(_) =>
  }

  lemma {:induction false} MapFixesEntries(v: Json, n: nat, f: string -> string, p: string -> bool)
    requires v.Dict? && n <= |v.entries|
    requires EveryString(v, p) && DistinctKeys(v) && forall s | p(s) :: f(s) == s
    ensures MapEntries(v, n, f) == v.entries[..n]
    decreases v, 0, n
  {
    if n > 0 {
      var e := v.entries[n - 1];
      MapFixesEntries(v, n - 1, f, p);
      MapFixes(e.value, f, p);
      PutNew(v.entries[..n - 1], e);
      assert v.entries[..n] == v.entries[..n - 1] + [e];
    }
  }

  /**
   A structure with nothing to redact comes back whole: same keys, order, values and
   nesting. Redacting twice is redacting once.
   */
  lemma StructureFixesClean(v: Json)
    ensures EveryString(v, Clean) && DistinctKeys(v) ==> RedactStructure(v) == v
    ensures RedactStructure(RedactStructure(v)) == RedactStructure(v)
  {
    forall s | Clean(s) ensures Redact(s) == s {
      RedactFixesClean(s);
    }
    if EveryString(v, Clean) && DistinctKeys(v) {
      MapFixes(v, Redact, Clean);
    }
    StructureRedacted(v);
    MapDistinct(v, Redact);
    MapFixes(RedactStructure(v), Redact, Clean);
  }

  function Lookup(entries: seq<Entry>, key: string): Option<Json> {
    if entries == [] then None
    else if entries[0].key == key then Some(entries[0].value)
    else Lookup(entries[1..], key)
  }

  /** The value of the last of the first `n` entries whose key becomes `key`. */
  function LastBecoming(entries: seq<Entry>, n: nat, f: string -> string, key: string): Option<Json>
    requires n <= |entries|
  {
    if n == 0 then None
    else if f(entries[n - 1].key) == key then Some(entries[n - 1].value)
    else LastBecoming(entries, n - 1, f, key)
  }

  lemma {:induction false} PutLookup(entries: seq<Entry>, e: Entry, key: string)
    ensures Lookup(Put(entries, e), key) == if e.key == key then Some(e.value) else Lookup(entries, key)
  {
    if entries != [] {
      if entries[0].key == e.key {
        assert ([e] + entries[1..])[1..] == entries[1..];
      } else {
        PutLookup(entries[1..], e, key);
        assert ([entries[0]] + Put(entries[1..], e))[1..] == Put(entries[1..], e);
      }
    }
  }

  lemma {:induction false} MapLookup(v: Json, n: nat, f: string -> string, key: string)
    requires v.Dict? && n <= |v.entries|
    ensures var last := LastBecoming(v.entries, n, f, key);
            Lookup(MapEntries(v, n, f), key) == if last.None? then None else Some(MapStrings(last.value, f))
    decreases n
  {
    if n > 0 {
      var e := v.entries[n - 1];
      MapLookup(v, n - 1, f, key);
      PutLookup(MapEntries(v, n - 1, f), Entry(f(e.key), MapStrings(e.value, f)), key);
    }
  }

  /**
   What comes out, level by level: a string redacted, a list of the same length redacted
   item by item, any other value as it was, and a dictionary in which each key has the
   redacted value of the last entry whose redacted key it is, and no other key occurs.
   */
  lemma StructureMeans(v: Json)
    ensures v.Str? ==> RedactStructure(v) == Str(Redact(v.s))
    ensures v.Atom? ==> RedactStructure(v) == v
    ensures v.List? ==>
              && RedactStructure(v).List? && |RedactStructure(v).items| == |v.items|
              && forall i | 0 <= i < |v.items| :: RedactStructure(v).items[i] == RedactStructure(v.items[i])
    ensures v.Dict? ==>
              && RedactStructure(v).Dict?
              && forall key :: var last := LastBecoming(v.entries, |v.entries|, Redact, key);
                   Lookup(RedactStructure(v).entries, key)
                   == if last.None? then None else Some(RedactStructure(last.value))
  {
    if v.Dict? {
      forall key ensures var last := LastBecoming(v.entries, |v.entries|, Redact, key);
        Lookup(RedactStructure(v).entries, key) == if last.None? then None else Some(RedactStructure(last.value))
      {
        MapLookup(v, |v.entries|, Redact, key);
      }
    }
  }
}
