/** Guess matching and room codes: `normalizeString`, `isCloseMatch`,
    `levenshteinDistance` and `generateRoomCode`. */
module Helpers {
  import opened JsString

  // ---------------------------------------------------------------------------------------
  // normalizeString
  // ---------------------------------------------------------------------------------------

  /** `toLowerCase` on one character, for ASCII, Latin-1 and the three letters outside
      Latin-1 whose lower case is an ASCII letter or a Latin-1 letter. U+0130 becomes "i"
      followed by a combining dot, which the accent stripping removes anyway, so it is
      mapped to 'i' directly. */
  function LowerChar(c: char): char {
    if 'A' <= c <= 'Z' || ('\U{00C0}' <= c <= '\U{00DE}' && c != '\U{00D7}') then (c as int + 32) as char
    else if c == '\U{0130}' then 'i'
    else if c == '\U{212A}' then 'k'
    else if c == '\U{212B}' then '\U{00E5}'
    else c
  }

  /** NFD decomposition followed by removal of the combining marks U+0300..U+036F, on the
      lower-case Latin-1 letters that decompose: each becomes its base letter. */
  function StripAccent(c: char): char {
    if '\U{00E0}' <= c <= '\U{00E5}' then 'a'
    else if c == '\U{00E7}' then 'c'
    else if '\U{00E8}' <= c <= '\U{00EB}' then 'e'
    else if '\U{00EC}' <= c <= '\U{00EF}' then 'i'
    else if c == '\U{00F1}' then 'n'
    else if '\U{00F2}' <= c <= '\U{00F6}' then 'o'
    else if '\U{00F9}' <= c <= '\U{00FC}' then 'u'
    else if c == '\U{00FD}' || c == '\U{00FF}' then 'y'
    else c
  }

  function FoldChar(c: char): char {
    StripAccent(LowerChar(c))
  }

  /** The characters `[a-z0-9\s]` that survive the removal of special characters. */
  predicate IsKept(c: char) {
    ('a' <= c <= 'z') || ('0' <= c <= '9') || IsSpace(c)
  }

  predicate AllKept(s: string) {
    forall k :: 0 <= k < |s| ==> IsKept(s[k])
  }

  /** What one character becomes: its folded form if that is kept, otherwise nothing. */
  function CleanChar(c: char): string {
    if IsKept(FoldChar(c)) then [FoldChar(c)] else []
  }

  /** Lower-casing, accent stripping and removal of everything outside `[a-z0-9\s]`, one
      character at a time. */
  function Clean(s: string): (r: string)
    ensures |r| <= |s|
  {
    if s == [] then []
    else CleanChar(s[0]) + Clean(s[1..])
  }

  /** Only characters of `[a-z0-9\s]` survive cleaning. */
  lemma {:induction false} CleanKept(s: string)
    ensures AllKept(Clean(s))
  {
    if s != [] {
      CleanKept(s[1..]);
      var h, t := CleanChar(s[0]), Clean(s[1..]);
      assert forall k :: 0 <= k < |h| + |t| ==> (h + t)[k] == if k < |h| then h[k] else t[k - |h|];
    }
  }

  /** `normalizeString(str)`. The guard `if (!str) return ''` only catches the empty string
      here, and the general path returns '' for it as well. */
  function Normalize(s: string): (r: string)
    ensures s == [] ==> r == []
    ensures AllKept(r)
    ensures NoEdgeSpace(r)
  {
    if s == [] then []
    else
      CleanKept(s);
      Trim(Clean(s))
  }

  lemma FoldKept(c: char)
    requires IsKept(c)
    ensures FoldChar(c) == c
  {
  }

  lemma {:induction false} CleanOfKept(s: string)
    requires AllKept(s)
    ensures Clean(s) == s
  {
    if s != [] {
      FoldKept(s[0]);
      CleanOfKept(s[1..]);
    }
  }

  /** The output of `normalizeString` is a fixed point of it. */
  lemma {:induction false} NormalizeIdempotent(s: string)
    ensures Normalize(Normalize(s)) == Normalize(s)
  {
    var n := Normalize(s);
    if n != [] {
      CleanOfKept(n);
      TrimOfTrimmed(n);
    }
  }

  /** Lower-casing makes the case of an ASCII letter irrelevant. */
  lemma FoldIgnoresCase(c: char)
    ensures FoldChar(UpperChar(c)) == FoldChar(c)
  {
  }

  /** Accent stripping sends every accented Latin-1 letter, in either case, to its base
      letter, and lower-casing sends each ASCII capital to its small letter. */
  lemma AccentFolding(c: char)
    ensures 'A' <= c <= 'Z' ==> FoldChar(c) as int == c as int + 32
    ensures ('\U{C0}' <= c <= '\U{C5}' || '\U{E0}' <= c <= '\U{E5}') ==> FoldChar(c) == 'a'
    ensures (c == '\U{C7}' || c == '\U{E7}') ==> FoldChar(c) == 'c'
    ensures ('\U{C8}' <= c <= '\U{CB}' || '\U{E8}' <= c <= '\U{EB}') ==> FoldChar(c) == 'e'
    ensures ('\U{CC}' <= c <= '\U{CF}' || '\U{EC}' <= c <= '\U{EF}') ==> FoldChar(c) == 'i'
    ensures (c == '\U{D1}' || c == '\U{F1}') ==> FoldChar(c) == 'n'
    ensures ('\U{D2}' <= c <= '\U{D6}' || '\U{F2}' <= c <= '\U{F6}') ==> FoldChar(c) == 'o'
    ensures ('\U{D9}' <= c <= '\U{DC}' || '\U{F9}' <= c <= '\U{FC}') ==> FoldChar(c) == 'u'
    ensures (c == '\U{DD}' || c == '\U{FD}' || c == '\U{FF}') ==> FoldChar(c) == 'y'
  {
  }

  /** Cleaning works one character at a time. */
  lemma {:induction false} CleanAppend(a: string, b: string)
    ensures Clean(a + b) == Clean(a) + Clean(b)
  {
    if a == [] {
      assert a + b == b;
    } else {
      CleanAppendHead(a, b);
      CleanAppend(a[1..], b);
      ConcatAssoc(CleanChar(a[0]), Clean(a[1..]), Clean(b));
    }
  }

  lemma CleanAppendHead(a: string, b: string)
    requires a != []
    ensures Clean(a + b) == CleanChar(a[0]) + Clean(a[1..] + b)
  {
    assert [a[0]] + (a[1..] + b) == a + b;
    CleanCons(a[0], a[1..] + b);
  }

  lemma ConcatAssoc(h: string, x: string, y: string)
    ensures h + (x + y) == (h + x) + y
  {
  }

  /** One character survives cleaning, folded, exactly when its folded form is in
      `[a-z0-9\s]`. */
  lemma CleanOne(c: char)
    ensures IsKept(FoldChar(c)) ==> Clean([c]) == [FoldChar(c)]
    ensures !IsKept(FoldChar(c)) ==> Clean([c]) == []
  {
  }

  lemma {:induction false} CleanIgnoresCase(s: string)
    ensures Clean(ToUpper(s)) == Clean(s)
  {
    if s != [] {
      var u := ToUpper(s);
      assert u[0] == UpperChar(s[0]);
      assert u[1..] == ToUpper(s[1..]);
      FoldIgnoresCase(s[0]);
      CleanIgnoresCase(s[1..]);
    }
  }

  /** Case does not matter to the comparison: a guess typed in capitals normalizes as typed
      in small letters. */
  lemma NormalizeIgnoresCase(s: string)
    ensures Normalize(ToUpper(s)) == Normalize(s)
  {
    CleanIgnoresCase(s);
  }

  /** Typing a guess, or the word, in capitals never changes the verdict; in particular a
      word matches itself in capitals. */
  lemma CaseInsensitiveMatch(guess: string, target: string)
    ensures IsCloseMatch(ToUpper(guess), target) == IsCloseMatch(guess, target)
    ensures IsCloseMatch(guess, ToUpper(target)) == IsCloseMatch(guess, target)
    ensures IsCloseMatch(guess, ToUpper(guess))
  {
    NormalizeIgnoresCase(guess);
    NormalizeIgnoresCase(target);
  }

  /** An accented word normalizes to its plain spelling. */
  lemma AccentedWordNormalizes()
    ensures Normalize("P\U{E3}o") == "pao"
  {
    CleanCons('o', []);
    CleanCons('\U{E3}', "o");
    CleanCons('P', "\U{E3}o");
    assert Clean("P\U{E3}o") == "pao";
    TrimOfTrimmed("pao");
  }

  lemma CleanCons(c: char, t: string)
    ensures Clean([c] + t) == CleanChar(c) + Clean(t)
  {
    assert ([c] + t)[0] == c;
    assert ([c] + t)[1..] == t;
  }

  // ---------------------------------------------------------------------------------------
  // levenshteinDistance
  // ---------------------------------------------------------------------------------------

  function Min3(a: nat, b: nat, c: nat): (m: nat)
    ensures m <= a && m <= b && m <= c
    ensures m == a || m == b || m == c
  {
    if a <= b && a <= c then a else if b <= c then b else c
  }

  function Max(a: nat, b: nat): nat {
    if a < b then b else a
  }

  /** The value the dynamic-programming matrix holds for the prefixes `a` and `b`: the row
      index runs over `a`, the column index over `b`. On equal last characters the source
      takes the diagonal alone, otherwise one more than the least of diagonal, left and up. */
  function EditDistance(a: string, b: string): nat
    decreases |a| + |b|
  {
    if |a| == 0 then |b|
    else if |b| == 0 then |a|
    else if a[|a| - 1] == b[|b| - 1] then EditDistance(a[..|a| - 1], b[..|b| - 1])
    else 1 + Min3(EditDistance(a[..|a| - 1], b[..|b| - 1]),
                  EditDistance(a, b[..|b| - 1]),
                  EditDistance(a[..|a| - 1], b))
  }

  /** One matrix cell in terms of its three neighbours, stated on prefixes as the loops index
      them. */
  lemma EditDistanceStep(a: string, b: string, i: nat, j: nat)
    requires 1 <= i <= |a| && 1 <= j <= |b|
    ensures EditDistance(a[..i], b[..j]) ==
      if a[i - 1] == b[j - 1] then EditDistance(a[..i - 1], b[..j - 1])
      else 1 + Min3(EditDistance(a[..i - 1], b[..j - 1]),
                    EditDistance(a[..i], b[..j - 1]),
                    EditDistance(a[..i - 1], b[..j]))
  {
    assert a[..i][..i - 1] == a[..i - 1];
    assert b[..j][..j - 1] == b[..j - 1];
  }

  /** `levenshteinDistance(str1, str2)`: fills `matrix[i][j]` for 0 <= i <= |str2| and
      0 <= j <= |str1| and returns the bottom-right cell. */
  method LevenshteinDistance(str1: string, str2: string) returns (d: nat)
    ensures d == EditDistance(str2, str1)
  {
    var rows, cols := |str2|, |str1|;
    var matrix := new nat[rows + 1, cols + 1];
    for i := 0 to rows + 1
      invariant forall i' :: 0 <= i' < i ==> matrix[i', 0] == i'
    {
      matrix[i, 0] := i;
    }
    for j := 0 to cols + 1
      invariant forall i' :: 0 <= i' <= rows ==> matrix[i', 0] == i'
      invariant forall j' :: 0 <= j' < j ==> matrix[0, j'] == j'
    {
      matrix[0, j] := j;
    }
    for i := 1 to rows + 1
      invariant forall i', j' :: 0 <= i' < i && 0 <= j' <= cols ==>
        matrix[i', j'] == EditDistance(str2[..i'], str1[..j'])
      invariant forall i' :: i <= i' <= rows ==> matrix[i', 0] == i'
    {
      FillRow(matrix, str1, str2, i);
    }
    d := matrix[rows, cols];
    assert str2[..rows] == str2 && str1[..cols] == str1;
  }

  /** One pass of the inner loop: row `i` from the row above it and its own first cell. */
  method FillRow(matrix: array2<nat>, str1: string, str2: string, i: nat)
    requires matrix.Length0 == |str2| + 1 && matrix.Length1 == |str1| + 1
    requires 1 <= i <= |str2|
    requires forall j' :: 0 <= j' <= |str1| ==> matrix[i - 1, j'] == EditDistance(str2[..i - 1], str1[..j'])
    requires matrix[i, 0] == i
    modifies matrix
    ensures forall j' :: 0 <= j' <= |str1| ==> matrix[i, j'] == EditDistance(str2[..i], str1[..j'])
    ensures forall i', j' :: 0 <= i' <= |str2| && i' != i && 0 <= j' <= |str1| ==>
      matrix[i', j'] == old(matrix[i', j'])
  {
    EditDistanceToEmpty(str2[..i]);
    assert str1[..0] == [];
    for j := 1 to |str1| + 1
      invariant forall j' :: 0 <= j' < j ==> matrix[i, j'] == EditDistance(str2[..i], str1[..j'])
      invariant forall i', j' :: 0 <= i' <= |str2| && i' != i && 0 <= j' <= |str1| ==>
        matrix[i', j'] == old(matrix[i', j'])
    {
      EditDistanceStep(str2, str1, i, j);
      if str2[i - 1] == str1[j - 1] {
        matrix[i, j] := matrix[i - 1, j - 1];
      } else {
        matrix[i, j] := Min3(matrix[i - 1, j - 1] + 1, matrix[i, j - 1] + 1, matrix[i - 1, j] + 1);
      }
    }
  }

  lemma {:induction false} EditDistanceToEmpty(s: string)
    ensures EditDistance(s, []) == |s| && EditDistance([], s) == |s|
  {
  }

  lemma {:induction false} EditDistanceSelf(s: string)
    ensures EditDistance(s, s) == 0
    decreases |s|
  {
    if s != [] {
      EditDistanceSelf(s[..|s| - 1]);
    }
  }

  /** Distance zero holds exactly for identical strings. */
  lemma {:induction false} EditDistanceZeroIff(a: string, b: string)
    ensures EditDistance(a, b) == 0 <==> a == b
    decreases |a| + |b|
  {
    if a == b {
      EditDistanceSelf(a);
    } else if |a| > 0 && |b| > 0 && a[|a| - 1] == b[|b| - 1] {
      EditDistanceZeroIff(a[..|a| - 1], b[..|b| - 1]);
      assert a == a[..|a| - 1] + [a[|a| - 1]];
      assert b == b[..|b| - 1] + [b[|b| - 1]];
    }
  }

  lemma {:induction false} EditDistanceSymmetric(a: string, b: string)
    ensures EditDistance(a, b) == EditDistance(b, a)
    decreases |a| + |b|
  {
    if |a| > 0 && |b| > 0 {
      EditDistanceSymmetric(a[..|a| - 1], b[..|b| - 1]);
      if a[|a| - 1] != b[|b| - 1] {
        EditDistanceSymmetric(a, b[..|b| - 1]);
        EditDistanceSymmetric(a[..|a| - 1], b);
      }
    }
  }

  lemma {:induction false} EditDistanceAtMostMax(a: string, b: string)
    ensures EditDistance(a, b) <= Max(|a|, |b|)
    decreases |a| + |b|
  {
    if |a| > 0 && |b| > 0 {
      EditDistanceAtMostMax(a[..|a| - 1], b[..|b| - 1]);
    }
  }

  /** When the two strings share no character every column and row costs one edit, so the
      distance is the longer length. */
  lemma {:induction false} EditDistanceDisjoint(a: string, b: string)
    requires forall i, j :: 0 <= i < |a| && 0 <= j < |b| ==> a[i] != b[j]
    ensures EditDistance(a, b) == Max(|a|, |b|)
    decreases |a| + |b|
  {
    if |a| > 0 && |b| > 0 {
      EditDistanceDisjoint(a[..|a| - 1], b[..|b| - 1]);
      EditDistanceDisjoint(a, b[..|b| - 1]);
      EditDistanceDisjoint(a[..|a| - 1], b);
    }
  }

  /** A single substituted last character costs exactly one edit. */
  lemma EditDistanceLastSubstitution(s: string, x: char, y: char)
    requires x != y
    ensures EditDistance(s + [x], s + [y]) == 1
  {
    assert (s + [x])[..|s|] == s && (s + [y])[..|s|] == s;
    EditDistanceSelf(s);
  }

  // ---------------------------------------------------------------------------------------
  // isCloseMatch
  // ---------------------------------------------------------------------------------------

  /** The decision `isCloseMatch` takes on the normalized guess `g` and target `t`: exact
      match, then containment either way, then `1 - d / max > 0.7`, which for a positive
      `max` is `10 * d < 3 * max`. */
  function MatchNormalized(g: string, t: string): (r: bool)
    ensures g == t ==> r
    ensures Includes(t, g) || Includes(g, t) ==> r
    ensures !Includes(t, g) && !Includes(g, t) ==>
      |g| > 0 && |t| > 0 && (r <==> 10 * EditDistance(t, g) < 3 * Max(|g|, |t|))
  {
    if g == t then
      IncludesSelf(t);
      true
    else if Includes(t, g) || Includes(g, t) then true
    else
      IncludesEmpty(t);
      IncludesEmpty(g);
      10 * EditDistance(t, g) < 3 * Max(|g|, |t|)
  }

  /** `isCloseMatch(guess, target)`. */
  function IsCloseMatch(guess: string, target: string): (r: bool)
    ensures Normalize(guess) == Normalize(target) ==> r
  {
    MatchNormalized(Normalize(guess), Normalize(target))
  }

  /** A guess that normalizes to nothing matches every target, because every string
      includes the empty string. */
  lemma EmptyGuessMatchesAll(guess: string, target: string)
    requires Normalize(guess) == []
    ensures IsCloseMatch(guess, target)
  {
    IncludesEmpty(Normalize(target));
  }

  lemma MatchNormalizedSymmetric(g: string, t: string)
    ensures MatchNormalized(g, t) == MatchNormalized(t, g)
  {
    EditDistanceSymmetric(g, t);
  }

  lemma IsCloseMatchSymmetric(guess: string, target: string)
    ensures IsCloseMatch(guess, target) == IsCloseMatch(target, guess)
  {
    MatchNormalizedSymmetric(Normalize(guess), Normalize(target));
  }

  /** Non-empty normalized strings with no character in common never match: neither
      includes the other and their distance is the longer length, a similarity of 0. */
  lemma DisjointNeverMatch(g: string, t: string)
    requires |g| > 0 && |t| > 0
    requires forall i, j :: 0 <= i < |t| && 0 <= j < |g| ==> t[i] != g[j]
    ensures !MatchNormalized(g, t)
  {
    EditDistanceDisjoint(t, g);
    NoCommonCharNotIncluded(t, g);
    NoCommonCharNotIncluded(g, t);
  }

  lemma {:induction false} NoCommonCharNotIncluded(s: string, needle: string)
    requires |needle| > 0
    requires forall i, j :: 0 <= i < |s| && 0 <= j < |needle| ==> s[i] != needle[j]
    ensures !Includes(s, needle)
  {
    if |needle| <= |s| {
      assert s[..|needle|][0] == s[0];
    }
    if s != [] {
      NoCommonCharNotIncluded(s[1..], needle);
    }
  }

  /** A one-letter typo at the end of a word of four or more letters is accepted, since
      10 * 1 < 3 * max exactly when max >= 4. */
  lemma TypoAtEndAccepted(w: string, x: char, y: char)
    requires x != y && |w| >= 3
    ensures MatchNormalized(w + [x], w + [y])
  {
    EditDistanceLastSubstitution(w, y, x);
  }

  // ---------------------------------------------------------------------------------------
  // generateRoomCode
  // ---------------------------------------------------------------------------------------

  const ROOM_CODE_CHARS := "ABCDEFGHJKLMNPQRSTUVWXYZ23456789"
  const ROOM_CODE_LENGTH := 6

  /** The index `Math.floor(r * chars.length)` picked from one `Math.random()` draw. */
  function PickIndex(r: real): (k: nat)
    requires 0.0 <= r < 1.0
    ensures k < |ROOM_CODE_CHARS|
  {
    (r * 32.0).Floor
  }

  /** `generateRoomCode()` with its six `Math.random()` draws given as `draws`. */
  method GenerateRoomCode(draws: seq<real>) returns (code: string)
    requires |draws| == ROOM_CODE_LENGTH
    requires forall k :: 0 <= k < |draws| ==> 0.0 <= draws[k] < 1.0
    ensures |code| == ROOM_CODE_LENGTH
    ensures forall k :: 0 <= k < |code| ==> code[k] == ROOM_CODE_CHARS[PickIndex(draws[k])]
    ensures forall k :: 0 <= k < |code| ==> code[k] in ROOM_CODE_CHARS
  {
    code := "";
    for i := 0 to ROOM_CODE_LENGTH
      invariant |code| == i
      invariant forall k :: 0 <= k < i ==> code[k] == ROOM_CODE_CHARS[PickIndex(draws[k])]
    {
      code := code + [ROOM_CODE_CHARS[PickIndex(draws[i])]];
    }
  }

  /** The position of `c` in the room-code alphabet, computed from its code point. */
  function AlphabetIndex(c: char): int {
    if 'A' <= c <= 'H' then c as int - 'A' as int
    else if 'J' <= c <= 'N' then c as int - 'A' as int - 1
    else if 'P' <= c <= 'Z' then c as int - 'A' as int - 2
    else if '2' <= c <= '9' then 24 + c as int - '2' as int
    else -1
  }

  /** The alphabet has 32 characters, each at the position `AlphabetIndex` gives it; I, O,
      0 and 1 are left out. */
  lemma RoomCodeAlphabet()
    ensures |ROOM_CODE_CHARS| == 32
    ensures forall k :: 0 <= k < |ROOM_CODE_CHARS| ==> AlphabetIndex(ROOM_CODE_CHARS[k]) == k
    ensures AlphabetIndex('I') == -1 && AlphabetIndex('O') == -1
    ensures AlphabetIndex('0') == -1 && AlphabetIndex('1') == -1
  {
  }

  /** Hence no character appears twice, and each draw picks a distinct character per slot. */
  lemma RoomCodeAlphabetDistinct()
    ensures forall i, j :: 0 <= i < j < |ROOM_CODE_CHARS| ==> ROOM_CODE_CHARS[i] != ROOM_CODE_CHARS[j]
  {
    RoomCodeAlphabet();
  }
}
