/**
 * broker/utilities_bun.go: field names to column names and back, on bytes; and the column names of an upsert
 * (broker/database.go).
 */
module Names {
  import opened Basics

  newtype byte = x: int | 0 <= x < 256

  /** A Go string: its bytes. */
  type Text = seq<byte>

  const UNDERSCORE: byte := 95

  predicate IsUpper(c: byte) {
    65 <= c <= 90
  }

  predicate IsLower(c: byte) {
    97 <= c <= 122
  }

  function ToUpper(c: byte): byte
    requires IsLower(c)
  {
    c - 32
  }

  function ToLower(c: byte): byte
    requires IsUpper(c)
  {
    c + 32
  }

  // ---------------------------------------------------------------- Underscore

  /** An inner capital with a small neighbour on either side starts a word. */
  predicate StartsWord(s: Text, i: nat)
    requires i < |s|
  {
    IsUpper(s[i]) && i > 0 && i + 1 < |s| && (IsLower(s[i - 1]) || IsLower(s[i + 1]))
  }

  function Piece(s: Text, i: nat): Text
    requires i < |s|
  {
    if StartsWord(s, i) then [UNDERSCORE, ToLower(s[i])]
    else if IsUpper(s[i]) then [ToLower(s[i])]
    else [s[i]]
  }

  /** What the first n bytes of s become. */
  function Pieces(s: Text, n: nat): Text
    requires n <= |s|
  {
    if n == 0 then [] else Pieces(s, n - 1) + Piece(s, n - 1)
  }

  function Column(s: Text): Text {
    Pieces(s, |s|)
  }

  method Underscore(s: Text) returns (r: Text)
    ensures r == Column(s)
  {
    r := [];
    for i := 0 to |s|
      invariant r == Pieces(s, i)
    {
      var c := s[i];
      if IsUpper(c) {
        if i > 0 && i + 1 < |s| && (IsLower(s[i - 1]) || IsLower(s[i + 1])) {
          r := r + [UNDERSCORE, ToLower(c)];
        } else {
          r := r + [ToLower(c)];
        }
      } else {
        r := r + [c];
      }
    }
  }

  /** How many of the first n bytes start a word. */
  function Starts(s: Text, n: nat): nat
    requires n <= |s|
  {
    if n == 0 then 0 else Starts(s, n - 1) + if StartsWord(s, n - 1) then 1 else 0
  }

  function Small(c: byte): byte {
    if 65 <= c <= 90 then c + 32 else c
  }

  /** The byte at i is in the column, made small, behind all bytes before it and all underscores put in so far. */
  ghost predicate Placed(s: Text, column: Text, i: nat)
    requires i < |s|
  {
    var p := i + Starts(s, i);
    if StartsWord(s, i) then p + 1 < |column| && column[p] == UNDERSCORE && column[p + 1] == Small(s[i])
    else p < |column| && column[p] == Small(s[i])
  }

  lemma PiecePlaced(s: Text, i: nat, before: Text)
    requires i < |s| && |before| == i + Starts(s, i)
    ensures Placed(s, before + Piece(s, i), i)
  {
  }

  lemma {:induction false} PiecesArePlaced(s: Text, n: nat)
    requires n <= |s|
    ensures |Pieces(s, n)| == n + Starts(s, n) && forall i | 0 <= i < n :: Placed(s, Pieces(s, n), i)
  {
    hide StartsWord;
    if n > 0 {
      PiecesArePlaced(s, n - 1);
      forall i | 0 <= i < n
        ensures Placed(s, Pieces(s, n), i)
      {
        if i < n - 1 {
          assert Placed(s, Pieces(s, n - 1), i);
        } else {
          PiecePlaced(s, i, Pieces(s, i));
        }
      }
    }
  }

  /** An underscore is put in before the bytes that start a word and nowhere else; capitals become small. */
  lemma UnderscoresWhereWordsStart(s: Text)
    ensures |Column(s)| == |s| + Starts(s, |s|) && forall i | 0 <= i < |s| :: Placed(s, Column(s), i)
  {
    PiecesArePlaced(s, |s|);
    hide Placed, Pieces, Starts;
  }

  // ---------------------------------------------------------------- CamelCased

  /** The two variables of the loop. */
  datatype Scan = Scan(out: Text, upperNext: bool)

  function Next(scan: Scan, c: byte): Scan {
    if c == UNDERSCORE then scan.(upperNext := true)
    else Scan(scan.out + [if scan.upperNext && IsLower(c) then ToUpper(c) else c], false)
  }

  function ScanAll(scan: Scan, s: Text): Scan {
    if s == [] then scan else Next(ScanAll(scan, s[..|s| - 1]), s[|s| - 1])
  }

  const BEGIN := Scan([], true)

  function Camel(s: Text): Text {
    ScanAll(BEGIN, s).out
  }

  method CamelCased(s: Text) returns (r: Text)
    ensures r == Camel(s)
  {
    r := [];
    var upperNext := true;
    for i := 0 to |s|
      invariant Scan(r, upperNext) == ScanAll(BEGIN, s[..i])
    {
      assert s[..i + 1][..i] == s[..i];
      var c := s[i];
      if c == UNDERSCORE {
        upperNext := true;
        continue;
      }
      if upperNext {
        if IsLower(c) {
          c := ToUpper(c);
        }
        upperNext := false;
      }
      r := r + [c];
    }
    assert s[..|s|] == s;
  }

  /** How many of the first n bytes are no underscores. */
  function Letters(s: Text, n: nat): nat
    requires n <= |s|
  {
    if n == 0 then 0 else Letters(s, n - 1) + if s[n - 1] == UNDERSCORE then 0 else 1
  }

  /** The byte at i after CamelCased: a capital at the beginning and after an underscore. */
  function Raised(s: Text, i: nat): byte
    requires i < |s|
  {
    if (i == 0 || s[i - 1] == UNDERSCORE) && 97 <= s[i] <= 122 then s[i] - 32 else s[i]
  }

  /** What the scan has after n bytes. */
  ghost predicate Scanned(s: Text, n: nat, scan: Scan)
    requires n <= |s|
  {
    && |scan.out| == Letters(s, n) && (scan.upperNext <==> n == 0 || s[n - 1] == UNDERSCORE)
    && forall i | 0 <= i < n && s[i] != UNDERSCORE ::
         Letters(s, i) < |scan.out| && scan.out[Letters(s, i)] == Raised(s, i)
  }

  lemma ScanNext(s: Text, n: nat, scan: Scan)
    requires 0 < n <= |s| && Scanned(s, n - 1, scan)
    ensures Scanned(s, n, Next(scan, s[n - 1]))
  {
  }

  lemma {:induction false} ScanIsRaised(s: Text, n: nat)
    requires n <= |s|
    ensures Scanned(s, n, ScanAll(BEGIN, s[..n]))
  {
    hide Scanned, ScanAll;
    if n == 0 {
      NothingScanned(s);
    } else {
      ScanIsRaised(s, n - 1);
      ScanStep(s, n);
      ScanNext(s, n, ScanAll(BEGIN, s[..n - 1]));
    }
  }

  lemma NothingScanned(s: Text)
    ensures Scanned(s, 0, ScanAll(BEGIN, s[..0]))
  {
  }

  lemma ScanStep(s: Text, n: nat)
    requires 0 < n <= |s|
    ensures ScanAll(BEGIN, s[..n]) == Next(ScanAll(BEGIN, s[..n - 1]), s[n - 1])
  {
    assert s[..n][..n - 1] == s[..n - 1];
  }

  /** CamelCased drops exactly the underscores and raises exactly the letters at the beginning and after them. */
  lemma CamelIsRaised(s: Text)
    ensures |Camel(s)| == Letters(s, |s|)
    ensures forall i | 0 <= i < |s| && s[i] != UNDERSCORE ::
              Letters(s, i) < |Camel(s)| && Camel(s)[Letters(s, i)] == Raised(s, i)
  {
    assert s[..|s|] == s;
    ScanIsRaised(s, |s|);
    hide Letters, Raised, ScanAll;
  }

  function Exported(s: Text): Text {
    if s != [] && IsLower(s[0]) then [ToUpper(s[0])] + s[1..] else s
  }

  method ToExported(s: Text) returns (r: Text)
    ensures r == Exported(s)
    ensures |r| == |s| && forall i | 0 <= i < |s| :: r[i] == if i == 0 && 97 <= s[0] <= 122 then s[0] - 32 else s[i]
  {
    if |s| == 0 {
      return s;
    }
    var c := s[0];
    if IsLower(c) {
      var b := new byte[|s|](i requires 0 <= i < |s| => s[i]);
      b[0] := ToUpper(c);
      return b[..];
    }
    return s;
  }

  // ---------------------------------------------------------------- there and back

  lemma {:induction false} ScanAppend(scan: Scan, a: Text, b: Text)
    ensures ScanAll(scan, a + b) == ScanAll(ScanAll(scan, a), b)
  {
    if b == [] {
      assert a + b == a;
    } else {
      ScanAppend(scan, a, b[..|b| - 1]);
      assert (a + b)[..|a + b| - 1] == a + b[..|b| - 1];
    }
  }

  /** The byte at i after both conversions: only the first letter and the starts of words are capital. */
  function Recase(s: Text, i: nat): byte
    requires i < |s|
  {
    if i == 0 then (if IsLower(s[0]) then ToUpper(s[0]) else s[0])
    else if IsUpper(s[i]) && !StartsWord(s, i) then ToLower(s[i])
    else s[i]
  }

  lemma ScanPiece(s: Text, i: nat, out: Text)
    requires i < |s| && s[i] != UNDERSCORE
    ensures ScanAll(Scan(out, i == 0), Piece(s, i)) == Scan(out + [Recase(s, i)], false)
  {
    var scan, piece := Scan(out, i == 0), Piece(s, i);
    assert ScanAll(scan, []) == scan;
    assert piece[..|piece| - 1] == if StartsWord(s, i) then [UNDERSCORE] else [];
    assert StartsWord(s, i) ==> ScanAll(scan, [UNDERSCORE]) == Next(scan, UNDERSCORE) by {
      assert [UNDERSCORE][..0] == [];
    }
  }

  function Recased(s: Text, n: nat): Text
    requires n <= |s|
  {
    if n == 0 then [] else Recased(s, n - 1) + [Recase(s, n - 1)]
  }

  /** Both conversions, as far as they have got. */
  lemma {:induction false} ScanPieces(s: Text, n: nat)
    requires n <= |s| && UNDERSCORE !in s
    ensures ScanAll(BEGIN, Pieces(s, n)) == Scan(Recased(s, n), n == 0)
  {
    hide Recase, Piece;
    if n > 0 {
      ScanPieces(s, n - 1);
      ScanAppend(BEGIN, Pieces(s, n - 1), Piece(s, n - 1));
      assert s[n - 1] in s;
      ScanPiece(s, n - 1, Recased(s, n - 1));
    }
  }

  lemma {:induction false} RecasedAt(s: Text, n: nat)
    requires n <= |s|
    ensures |Recased(s, n)| == n && forall i | 0 <= i < n :: Recased(s, n)[i] == Recase(s, i)
  {
    hide Recase;
    if n > 0 {
      RecasedAt(s, n - 1);
    }
  }

  lemma RecaseIsIdentityIff(s: Text)
    requires UNDERSCORE !in s
    ensures (forall i | 0 <= i < |s| :: Recase(s, i) == s[i]) <==> Convertible(s)
  {
  }

  lemma {:induction false} NoUnderscoreLeft(s: Text)
    ensures UNDERSCORE !in Camel(s)
  {
    if s != [] {
      NoUnderscoreLeft(s[..|s| - 1]);
    }
  }

  /** The names that survive the conversion to a column name and back. */
  predicate Convertible(s: Text) {
    && UNDERSCORE !in s
    && (s != [] ==> !IsLower(s[0]))
    && forall i | 0 < i < |s| && IsUpper(s[i]) :: i + 1 < |s| && (IsLower(s[i - 1]) || IsLower(s[i + 1]))
  }

  /** Converting to a column name and back is the identity on exactly the convertible names. */
  lemma RoundTripIff(s: Text)
    ensures Camel(Column(s)) == s <==> Convertible(s)
  {
    hide Recase, Pieces;
    if UNDERSCORE in s {
      NoUnderscoreLeft(Column(s));
    } else {
      ScanPieces(s, |s|);
      RecasedAt(s, |s|);
      RecaseIsIdentityIff(s);
      hide Convertible, Recased;
    }
  }

  /** Two different convertible names never share a column. */
  lemma ColumnsAreDistinct(fields: seq<Text>)
    requires NoDup(fields) && forall f | f in fields :: Convertible(f)
    ensures NoDup(seq(|fields|, i requires 0 <= i < |fields| => Column(fields[i])))
  {
    forall i, j | 0 <= i < j < |fields|
      ensures Column(fields[i]) != Column(fields[j])
    {
      RoundTripIff(fields[i]);
      RoundTripIff(fields[j]);
    }
  }

  // ---------------------------------------------------------------- when two names share a column

  function Lower(c: byte): byte {
    if IsUpper(c) then ToLower(c) else c
  }

  /**
   * What a column name keeps of a field name: the letters, whatever their case; before each letter, how many
   * underscores stand there, the start of a word being one; and the underscores after the last letter.
   */
  datatype Reading = Reading(letters: Text, gaps: seq<nat>, open: nat)

  const NOTHING := Reading([], [], 0)

  function Read(r: Reading, c: byte, start: bool): Reading {
    if c == UNDERSCORE then r.(open := r.open + 1)
    else Reading(r.letters + [Lower(c)], r.gaps + [r.open + if start then 1 else 0], 0)
  }

  /** The first n bytes of a field name, read. */
  function ReadName(s: Text, n: nat): Reading
    requires n <= |s|
  {
    if n == 0 then NOTHING else Read(ReadName(s, n - 1), s[n - 1], StartsWord(s, n - 1))
  }

  /** A column name, read: its underscores are all there is to the starts of words. */
  function ReadColumn(r: Reading, column: Text): Reading {
    if column == [] then r else Read(ReadColumn(r, column[..|column| - 1]), column[|column| - 1], false)
  }

  function Underscores(n: nat): Text {
    seq(n, i => UNDERSCORE)
  }

  /** The column name with this reading. */
  function Spell(letters: Text, gaps: seq<nat>): Text
    requires |letters| == |gaps|
  {
    if letters == [] then []
    else
      var k := |letters| - 1;
      Spell(letters[..k], gaps[..k]) + Underscores(gaps[k]) + [letters[k]]
  }

  lemma {:induction false} ReadingFits(s: Text, n: nat)
    requires n <= |s|
    ensures |ReadName(s, n).letters| == |ReadName(s, n).gaps|
  {
    hide StartsWord, Lower;
    if n > 0 {
      ReadingFits(s, n - 1);
    }
  }

  lemma SpellMore(letters: Text, gaps: seq<nat>, c: byte, gap: nat)
    requires |letters| == |gaps|
    ensures Spell(letters + [c], gaps + [gap]) == Spell(letters, gaps) + Underscores(gap) + [c]
  {
    assert (letters + [c])[..|letters|] == letters && (gaps + [gap])[..|gaps|] == gaps;
  }

  lemma UnderscoresMore(n: nat)
    ensures Underscores(n + 1) == Underscores(n) + [UNDERSCORE]
  {
  }

  lemma PieceIs(s: Text, i: nat)
    requires i < |s|
    ensures Piece(s, i) == (if StartsWord(s, i) then [UNDERSCORE] else []) + [Lower(s[i])]
    ensures StartsWord(s, i) ==> s[i] != UNDERSCORE
    ensures s[i] == UNDERSCORE <==> Lower(s[i]) == UNDERSCORE
    ensures Lower(Lower(s[i])) == Lower(s[i])
  {
  }

  function Spelled(r: Reading): Text
    requires |r.letters| == |r.gaps|
  {
    Spell(r.letters, r.gaps) + Underscores(r.open)
  }

  lemma SpellStep(r: Reading, c: byte, start: bool)
    requires |r.letters| == |r.gaps| && (start ==> c != UNDERSCORE)
    ensures var t := Read(r, c, start); |t.letters| == |t.gaps|
    ensures Spelled(Read(r, c, start))
         == Spelled(r) + (if start then [UNDERSCORE] else []) + [if c == UNDERSCORE then c else Lower(c)]
  {
    hide Lower, Underscores, Spell;
    UnderscoresMore(r.open);
    if c != UNDERSCORE {
      SpellNothing();
      SpellMore(r.letters, r.gaps, Lower(c), r.open + if start then 1 else 0);
    }
  }

  /** The column name of a field name is its reading, spelled out. */
  lemma {:induction false} PiecesSpell(s: Text, n: nat)
    requires n <= |s|
    ensures |ReadName(s, n).letters| == |ReadName(s, n).gaps| && Pieces(s, n) == Spelled(ReadName(s, n))
  {
    ReadingFits(s, n);
    hide Piece, StartsWord, Lower, Read, Spelled;
    if n == 0 {
      assert Spelled(NOTHING) == [] by { SpelledNothing(); }
    } else {
      PiecesSpell(s, n - 1);
      PieceIs(s, n - 1);
      SpellStep(ReadName(s, n - 1), s[n - 1], StartsWord(s, n - 1));
      var whole, start := Spelled(ReadName(s, n - 1)), if StartsWord(s, n - 1) then [UNDERSCORE] else [];
      assert whole + start + [Lower(s[n - 1])] == whole + (start + [Lower(s[n - 1])]);
    }
  }

  lemma SpelledNothing()
    ensures Spelled(NOTHING) == []
  {
  }

  lemma SpellNothing()
    ensures Spell([], []) == [] && Underscores(0) == []
  {
  }

  lemma {:induction false} ReadAppend(r: Reading, a: Text, b: Text)
    ensures ReadColumn(r, a + b) == ReadColumn(ReadColumn(r, a), b)
  {
    hide Read;
    if b == [] {
      assert a + b == a;
    } else {
      ReadAppend(r, a, b[..|b| - 1]);
      assert (a + b)[..|a + b| - 1] == a + b[..|b| - 1];
    }
  }

  lemma ReadOne(r: Reading, c: byte)
    ensures ReadColumn(r, [c]) == Read(r, c, false)
  {
    hide Read;
    assert [c][..0] == [];
  }

  lemma ReadPiece(r: Reading, s: Text, i: nat)
    requires i < |s|
    ensures ReadColumn(r, Piece(s, i)) == Read(r, s[i], StartsWord(s, i))
  {
    PieceIs(s, i);
    hide Piece, StartsWord, Lower, ReadColumn;
    var c := Lower(s[i]);
    ReadOne(r, c);
    if StartsWord(s, i) {
      ReadOne(r, UNDERSCORE);
      ReadAppend(r, [UNDERSCORE], [c]);
      ReadOne(ReadColumn(r, [UNDERSCORE]), c);
    } else {
      assert [] + [c] == [c];
    }
  }

  /** Reading the column name gives what reading the field name gave. */
  lemma {:induction false} ColumnReads(s: Text, n: nat)
    requires n <= |s|
    ensures ReadColumn(NOTHING, Pieces(s, n)) == ReadName(s, n)
  {
    hide Read, Piece, StartsWord;
    if n > 0 {
      ColumnReads(s, n - 1);
      ReadAppend(NOTHING, Pieces(s, n - 1), Piece(s, n - 1));
      ReadPiece(ReadName(s, n - 1), s, n - 1);
    }
  }

  /** Two field names share a column if and only if they read the same. */
  lemma SameColumnIff(s: Text, t: Text)
    ensures Column(s) == Column(t) <==> ReadName(s, |s|) == ReadName(t, |t|)
  {
    hide Pieces, ReadName, ReadColumn, Spelled;
    ColumnReads(s, |s|);
    ColumnReads(t, |t|);
    PiecesSpell(s, |s|);
    PiecesSpell(t, |t|);
  }

  /** Equal up to case, letter by letter, with the same starts of words. */
  predicate SameWords(s: Text, t: Text) {
    |s| == |t| && forall i | 0 <= i < |s| :: Lower(s[i]) == Lower(t[i]) && StartsWord(s, i) == StartsWord(t, i)
  }

  lemma {:induction false} ReadPlain(s: Text, n: nat)
    requires n <= |s| && UNDERSCORE !in s
    ensures var r := ReadName(s, n);
      && |r.letters| == n && |r.gaps| == n && r.open == 0
      && forall i | 0 <= i < n :: r.letters[i] == Lower(s[i]) && r.gaps[i] == if StartsWord(s, i) then 1 else 0
  {
    hide StartsWord, Lower;
    if n > 0 {
      ReadPlain(s, n - 1);
      assert s[n - 1] in s;
    }
  }

  /**
   * Two field names without underscores share a column if and only if they are of the same length, equal up to case,
   * and the same letters in them start words.
   */
  lemma PlainSameColumnIff(s: Text, t: Text)
    requires UNDERSCORE !in s && UNDERSCORE !in t
    ensures Column(s) == Column(t) <==> SameWords(s, t)
  {
    hide StartsWord, Lower, ReadName, Column;
    SameColumnIff(s, t);
    ReadPlain(s, |s|);
    ReadPlain(t, |t|);
    var r, q := ReadName(s, |s|), ReadName(t, |t|);
    if r == q {
      assert forall i | 0 <= i < |s| :: r.letters[i] == q.letters[i] && r.gaps[i] == q.gaps[i];
    }
    if SameWords(s, t) {
      assert r.letters == q.letters && r.gaps == q.gaps;
    }
  }

  /** The columns of a list of fields are distinct if and only if no two of the fields read the same. */
  lemma ColumnsAreDistinctIff(fields: seq<Text>)
    ensures NoDup(seq(|fields|, i requires 0 <= i < |fields| => Column(fields[i])))
       <==> forall i, j | 0 <= i < j < |fields| ::
              ReadName(fields[i], |fields[i]|) != ReadName(fields[j], |fields[j]|)
  {
    hide Column, ReadName;
    forall i, j | 0 <= i < j < |fields|
      ensures Column(fields[i]) == Column(fields[j])
         <==> ReadName(fields[i], |fields[i]|) == ReadName(fields[j], |fields[j]|)
    {
      SameColumnIff(fields[i], fields[j]);
    }
    var columns := seq(|fields|, i requires 0 <= i < |fields| => Column(fields[i]));
    assert forall i | 0 <= i < |fields| :: columns[i] == Column(fields[i]);
  }

  /** The exported names "AB" and "Ab" share the column "ab"; only the second is convertible. */
  lemma CollisionOutside()
    ensures Column([65, 66]) == Column([65, 98]) && Convertible([65, 98]) && !Convertible([65, 66])
  {
    assert SameWords([65, 66], [65, 98]);
    PlainSameColumnIff([65, 66], [65, 98]);
    hide Column;
  }

  /** CamelCased agrees with ToExported on text without underscores. */
  lemma {:induction false} CamelIsExported(s: Text)
    requires UNDERSCORE !in s
    ensures ScanAll(BEGIN, s) == Scan(Exported(s), s == [])
  {
    hide Exported, Next;
    if s == [] {
      ExportedNothing();
    } else {
      var init, last := s[..|s| - 1], s[|s| - 1];
      assert s == init + [last] && last in s;
      CamelIsExported(init);
      ExportedGrows(init, last);
    }
  }

  lemma ExportedNothing()
    ensures Exported([]) == []
  {
  }

  lemma ExportedGrows(init: Text, last: byte)
    requires last != UNDERSCORE
    ensures Next(Scan(Exported(init), init == []), last) == Scan(Exported(init + [last]), false)
  {
  }
}
