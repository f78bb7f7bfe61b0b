/**
 * The engine's `String` container as its container test exercises it:
 * resizing that keeps the prefix, compaction, span replacement, joining with
 * a glue string, splitting on a separator character, and case mapping.
 */
module Strings {

  /** The parts interleaved with the glue: the first part, then glue and part for each further one. */
  function Join(parts: seq<string>, glue: string): string
  {
    if |parts| <= 1 then (if parts == [] then "" else parts[0])
    else Join(parts[..|parts| - 1], glue) + glue + parts[|parts| - 1]
  }

  /** A left-to-right scan for separators: the pieces already cut, and the piece being read. */
  datatype ScanState = ScanState(done: seq<string>, current: string)

  /**
   * The scan after reading `s`: a separator closes the current piece and
   * opens an empty one, any other character extends the current piece.
   */
  function Scan(s: string, sep: char): (st: ScanState)
    ensures forall k :: 0 <= k < |st.done| ==> sep !in st.done[k]
    ensures sep !in st.current
    decreases |s|
  {
    if s == [] then ScanState([], "")
    else
      var st := Scan(s[..|s| - 1], sep);
      var c := s[|s| - 1];
      if c == sep then ScanState(st.done + [st.current], "") else ScanState(st.done, st.current + [c])
  }

  /** The maximal separator-free pieces of `s`, empty ones included, in order. */
  function Pieces(s: string, sep: char): (r: seq<string>)
    ensures |r| >= 1
    ensures forall k :: 0 <= k < |r| ==> sep !in r[k]
  {
    var st := Scan(s, sep);
    st.done + [st.current]
  }

  /** The non-empty strings of `ps`, in order. */
  function NonEmpty(ps: seq<string>): (r: seq<string>)
    ensures |r| <= |ps|
    ensures forall k :: 0 <= k < |r| ==> r[k] != "" && r[k] in ps
  {
    if ps == [] then [] else (if ps[0] == "" then [] else [ps[0]]) + NonEmpty(ps[1..])
  }

  /** What `String::Split` returns: the pieces, without the empty ones unless they are kept. */
  function SplitResult(s: string, sep: char, keepEmptyStrings: bool): seq<string>
  {
    if keepEmptyStrings then Pieces(s, sep) else NonEmpty(Pieces(s, sep))
  }

  /** Dropping the empty strings keeps a list that has none. */
  lemma {:induction false} NonEmptyKeepsAll(ps: seq<string>)
    requires forall k :: 0 <= k < |ps| ==> ps[k] != ""
    ensures NonEmpty(ps) == ps
  {
    if ps != [] {
      NonEmptyKeepsAll(ps[1..]);
    }
  }

  lemma {:induction false} NonEmptyAppend(a: seq<string>, b: seq<string>)
    ensures NonEmpty(a + b) == NonEmpty(a) + NonEmpty(b)
  {
    if a == [] {
      assert a + b == b;
    } else {
      assert (a + b)[0] == a[0];
      assert (a + b)[1..] == a[1..] + b;
      NonEmptyAppend(a[1..], b);
    }
  }

  /** Joining one more part after at least one adds the glue before it. */
  lemma JoinSnoc(parts: seq<string>, x: string, glue: string)
    ensures Join(parts + [x], glue) == if parts == [] then x else Join(parts, glue) + glue + x
  {
    assert (parts + [x])[..|parts|] == parts;
  }

  /** Joining all the pieces with the separator gives back the split string. */
  lemma {:induction false} JoinPiecesRestores(s: string, sep: char)
    ensures Join(Pieces(s, sep), [sep]) == s
    decreases |s|
  {
    if s != [] {
      var prefix, c := s[..|s| - 1], s[|s| - 1];
      var st := Scan(prefix, sep);
      JoinPiecesRestores(prefix, sep);
      assert s == prefix + [c];
      JoinSnoc(st.done, st.current, [sep]);
      if c == sep {
        JoinSnoc(st.done + [st.current], "", [sep]);
      } else {
        JoinSnoc(st.done, st.current + [c], [sep]);
      }
    }
  }

  /** Split results never contain the separator, and without `keepEmptyStrings` no piece is empty. */
  lemma SplitPiecesAreClean(s: string, sep: char, keepEmptyStrings: bool)
    ensures forall k :: 0 <= k < |SplitResult(s, sep, keepEmptyStrings)| ==>
              sep !in SplitResult(s, sep, keepEmptyStrings)[k]
              && (keepEmptyStrings || SplitResult(s, sep, keepEmptyStrings)[k] != "")
  {
    var ps := Pieces(s, sep);
    if !keepEmptyStrings {
      forall k | 0 <= k < |NonEmpty(ps)| ensures sep !in NonEmpty(ps)[k] {
        var j :| 0 <= j < |ps| && ps[j] == NonEmpty(ps)[k];
      }
    }
  }

  /** Reading one more character after `s`. */
  lemma ScanSnoc(s: string, c: char, sep: char)
    ensures var st := Scan(s, sep);
      Scan(s + [c], sep) == if c == sep then ScanState(st.done + [st.current], "") else ScanState(st.done, st.current + [c])
  {
    assert (s + [c])[..|s|] == s;
  }

  /** Reading separator-free text only extends the current piece. */
  lemma {:induction false} ScanWord(s: string, w: string, sep: char)
    requires sep !in w
    ensures Scan(s + w, sep) == ScanState(Scan(s, sep).done, Scan(s, sep).current + w)
    decreases |w|
  {
    if w == [] {
      assert s + w == s;
    } else {
      var front, c := w[..|w| - 1], w[|w| - 1];
      assert w == front + [c];
      ScanWord(s, front, sep);
      assert s + w == (s + front) + [c];
      ScanSnoc(s + front, c, sep);
      assert Scan(s, sep).current + front + [c] == Scan(s, sep).current + w;
    }
  }

  /**
   * Splitting three non-empty separator-free words joined by single
   * separators gives the three words in order (the container test splits
   * "aa bb CC" on spaces this way).
   */
  lemma ScanThreeWords(x: string, y: string, z: string, sep: char)
    requires sep !in x && sep !in y && sep !in z
    ensures Scan(x + [sep] + y + [sep] + z, sep) == ScanState([x, y], z)
  {
    var s2, s3, s4 := x + [sep], x + [sep] + y, x + [sep] + y + [sep];
    assert [] + x == x;
    ScanWord([], x, sep);
    assert Scan(x, sep) == ScanState([], x);
    ScanSnoc(x, sep, sep);
    assert Scan(s2, sep) == ScanState([x], []);
    ScanWord(s2, y, sep);
    assert [] + y == y;
    assert Scan(s3, sep) == ScanState([x], y);
    ScanSnoc(s3, sep, sep);
    assert Scan(s4, sep) == ScanState([x, y], []);
    ScanWord(s4, z, sep);
    assert [] + z == z;
  }

  lemma SplitThreeWords(x: string, y: string, z: string, sep: char)
    requires sep !in x && sep !in y && sep !in z
    requires x != "" && y != "" && z != ""
    ensures SplitResult(x + [sep] + y + [sep] + z, sep, false) == [x, y, z]
  {
    ScanThreeWords(x, y, z, sep);
    var ps := [x, y] + [z];
    assert ps == [x, y, z];
    assert Pieces(x + [sep] + y + [sep] + z, sep) == ps;
    NonEmptyKeepsAll(ps);
  }

  /** The pieces `String::Split` keeps from `ps`: all of them, or the non-empty ones. */
  function Kept(ps: seq<string>, keepEmptyStrings: bool): seq<string>
  {
    if keepEmptyStrings then ps else NonEmpty(ps)
  }

  /** Keeping from the cut pieces plus one more keeps that piece when it is non-empty or empties are kept. */
  lemma {:induction false} KeptSnoc(ps: seq<string>, piece: string, keepEmptyStrings: bool)
    ensures Kept(ps + [piece], keepEmptyStrings)
            == Kept(ps, keepEmptyStrings) + (if |piece| > 0 || keepEmptyStrings then [piece] else [])
  {
    NonEmptyAppend(ps, [piece]);
    assert [piece][1..] == [];
  }

  /** One character of the splitting loop: the scan state the loop keeps moves on by that character. */
  lemma {:induction false} SplitStep(s: string, i: nat, start: nat, sep: char, keepEmptyStrings: bool)
    requires start <= i < |s|
    requires Scan(s[..i], sep).current == s[start..i]
    ensures s[i] == sep ==>
              Scan(s[..i + 1], sep).current == s[i + 1..i + 1]
              && Kept(Scan(s[..i + 1], sep).done, keepEmptyStrings)
                 == Kept(Scan(s[..i], sep).done, keepEmptyStrings)
                    + (if |s[start..i]| > 0 || keepEmptyStrings then [s[start..i]] else [])
    ensures s[i] != sep ==>
              Scan(s[..i + 1], sep).current == s[start..i + 1]
              && Scan(s[..i + 1], sep).done == Scan(s[..i], sep).done
  {
    assert s[..i + 1] == s[..i] + [s[i]];
    ScanSnoc(s[..i], s[i], sep);
    if s[i] == sep {
      KeptSnoc(Scan(s[..i], sep).done, s[start..i], keepEmptyStrings);
    } else {
      assert s[start..i + 1] == s[start..i] + [s[i]];
    }
  }

  /** `String::Split`: one scan, cutting at each separator. */
  method Split(s: string, sep: char, keepEmptyStrings: bool) returns (ret: seq<string>)
    ensures ret == SplitResult(s, sep, keepEmptyStrings)
  {
    ret := [];
    var start := 0;
    var i := 0;
    while i < |s|
      invariant 0 <= start <= i <= |s|
      invariant Scan(s[..i], sep).current == s[start..i]
      invariant ret == Kept(Scan(s[..i], sep).done, keepEmptyStrings)
    {
      SplitStep(s, i, start, sep, keepEmptyStrings);
      if s[i] == sep {
        var piece := s[start..i];
        if |piece| > 0 || keepEmptyStrings {
          ret := ret + [piece];
        }
        start := i + 1;
      }
      i := i + 1;
    }
    assert s[..i] == s;
    var piece := s[start..];
    KeptSnoc(Scan(s, sep).done, piece, keepEmptyStrings);
    if |piece| > 0 || keepEmptyStrings {
      ret := ret + [piece];
    }
  }

  /** `String::Joined`: the first part, then the glue and the next part for each further one. */
  method Joined(subStrings: seq<string>, glue: string) returns (joined: string)
    ensures joined == Join(subStrings, glue)
  {
    if |subStrings| == 0 {
      return "";
    }
    joined := subStrings[0];
    var i := 1;
    while i < |subStrings|
      invariant 1 <= i <= |subStrings|
      invariant joined == Join(subStrings[..i], glue)
    {
      assert subStrings[..i + 1][..i] == subStrings[..i];
      joined := joined + glue + subStrings[i];
      i := i + 1;
    }
    assert subStrings[..i] == subStrings;
  }

  const CYRILLIC_CAPITAL_IO: char := '\U{0401}'
  const CYRILLIC_SMALL_IO: char := '\U{0451}'

  predicate IsUpperLetter(c: char)
  {
    ('A' <= c <= 'Z') || ('\U{0410}' <= c <= '\U{042F}') || c == CYRILLIC_CAPITAL_IO
  }

  predicate IsLowerLetter(c: char)
  {
    ('a' <= c <= 'z') || ('\U{0430}' <= c <= '\U{044F}') || c == CYRILLIC_SMALL_IO
  }

  /** The lower-case form of a Latin or Russian capital; every other character is kept. */
  function LowerChar(c: char): (r: char)
    ensures IsUpperLetter(c) ==> IsLowerLetter(r)
    ensures !IsUpperLetter(c) ==> r == c
  {
    if 'A' <= c <= 'Z' then (c as int + 32) as char
    else if '\U{0410}' <= c <= '\U{042F}' then (c as int + 32) as char
    else if c == CYRILLIC_CAPITAL_IO then CYRILLIC_SMALL_IO
    else c
  }

  /** The upper-case form of a Latin or Russian small letter; every other character is kept. */
  function UpperChar(c: char): (r: char)
    ensures IsLowerLetter(c) ==> IsUpperLetter(r)
    ensures !IsLowerLetter(c) ==> r == c
  {
    if 'a' <= c <= 'z' then (c as int - 32) as char
    else if '\U{0430}' <= c <= '\U{044F}' then (c as int - 32) as char
    else if c == CYRILLIC_SMALL_IO then CYRILLIC_CAPITAL_IO
    else c
  }

  /** The two character maps are inverse on the letters they move. */
  lemma CaseRoundTrip(c: char)
    ensures IsUpperLetter(c) ==> UpperChar(LowerChar(c)) == c
    ensures IsLowerLetter(c) ==> LowerChar(UpperChar(c)) == c
  {
  }

  function ToLower(s: string): (r: string)
    ensures |r| == |s|
    ensures forall i :: 0 <= i < |s| ==> !IsUpperLetter(r[i])
  {
    seq(|s|, i requires 0 <= i < |s| => LowerChar(s[i]))
  }

  function ToUpper(s: string): (r: string)
    ensures |r| == |s|
    ensures forall i :: 0 <= i < |s| ==> !IsLowerLetter(r[i])
  {
    seq(|s|, i requires 0 <= i < |s| => UpperChar(s[i]))
  }

  /** On a string without small letters, lowering and then raising restores it. */
  lemma LowerThenUpperRestores(s: string)
    requires forall i :: 0 <= i < |s| ==> !IsLowerLetter(s[i])
    ensures ToUpper(ToLower(s)) == s
  {
    forall i | 0 <= i < |s|
      ensures ToUpper(ToLower(s))[i] == s[i]
    {
      CaseRoundTrip(s[i]);
    }
  }

  /** On a string without capitals, raising and then lowering restores it. */
  lemma UpperThenLowerRestores(s: string)
    requires forall i :: 0 <= i < |s| ==> !IsUpperLetter(s[i])
    ensures ToLower(ToUpper(s)) == s
  {
    forall i | 0 <= i < |s|
      ensures ToLower(ToUpper(s))[i] == s[i]
    {
      CaseRoundTrip(s[i]);
    }
  }

  class String {
    var chars: string

    function Length(): (n: nat)
      reads this
      ensures n == |chars|
    {
      |chars|
    }

    constructor ()
      ensures chars == ""
    {
      chars := "";
    }

    /** Set the length to `n`, keeping the common prefix; new characters are unspecified. */
    method Resize(n: nat)
      modifies this
      ensures |chars| == n
      ensures n <= |old(chars)| ==> chars == old(chars)[..n]
      ensures n > |old(chars)| ==> chars[..|old(chars)|] == old(chars)
    {
      if n <= |chars| {
        chars := chars[..n];
      } else {
        chars := chars + seq(n - |chars|, _ => '\0');
      }
    }

    method Assign(s: string)
      modifies this
      ensures chars == s
    {
      chars := s;
    }

    /** Release unused capacity; the content is unchanged. */
    method Compact()
      modifies this
      ensures chars == old(chars)
    {
    }

    /**
     * Replace the span [pos, pos + length) with `replaceWith`; a span that
     * does not lie inside the string changes nothing.
     */
    method Replace(pos: nat, length: nat, replaceWith: string)
      modifies this
      ensures pos + length <= |old(chars)| ==>
                chars == old(chars)[..pos] + replaceWith + old(chars)[pos + length..]
      ensures pos + length > |old(chars)| ==> chars == old(chars)
    {
      if pos + length > |chars| {
        return;
      }
      chars := chars[..pos] + replaceWith + chars[pos + length..];
    }
  }

  /** `n` consecutive code points starting at `first`. */
  function CharRun(first: char, n: nat): (r: string)
    requires first as int + n <= 0xD800
    ensures |r| == n
  {
    seq(n, i requires 0 <= i < n => (first as int + i) as char)
  }

  /** The container test's capitals: Latin A-Z, then the Russian alphabet with Ё after Е. */
  function TestUpperAlphabet(): string
  {
    CharRun('A', 26) + CharRun('\U{0410}', 6) + [CYRILLIC_CAPITAL_IO] + CharRun('\U{0416}', 26)
  }

  /** The container test's small letters, in the same order. */
  function TestLowerAlphabet(): string
  {
    CharRun('a', 26) + CharRun('\U{0430}', 6) + [CYRILLIC_SMALL_IO] + CharRun('\U{0436}', 26)
  }

  /** The characters the container test expects case mapping to leave alone. */
  const TEST_UNCASED: string := "@*?4\U{70B9}"

  /**
   * The container test's case mapping: lowering its capitals gives its small
   * letters and raising gives them back, while "@*?4点" is unchanged both ways.
   */
  lemma CaseMappingExample()
    ensures ToLower(TestUpperAlphabet() + TEST_UNCASED) == TestLowerAlphabet() + TEST_UNCASED
    ensures ToUpper(TestLowerAlphabet() + TEST_UNCASED) == TestUpperAlphabet() + TEST_UNCASED
  {
    var u, l := TestUpperAlphabet() + TEST_UNCASED, TestLowerAlphabet() + TEST_UNCASED;
    forall i | 0 <= i < |u| ensures ToLower(u)[i] == l[i] && ToUpper(l)[i] == u[i] {
      if i >= 59 {
        var j := i - 59;
        if j == 0 {} else if j == 1 {} else if j == 2 {} else if j == 3 {} else {}
      }
    }
  }

  /**
   * The container test's first block: one string resized, reassigned and
   * compacted. `lengths` are the lengths it reads after construction and
   * each of the first three steps; `final` is the content it ends with.
   */
  method TestResizeAndCompact() returns (lengths: seq<nat>, final: string)
    ensures lengths == [0, 9, 1024, 10]
    ensures final == "01234" && |final| == 5
  {
    var str := new String();
    var n0 := str.Length();
    str.Resize(9);
    var n1 := str.Length();
    str.Resize(1024);
    var n2 := str.Length();
    str.Assign("0123456789");
    var n3 := str.Length();
    str.Resize(5);
    assert str.chars == "01234";
    str.Compact();
    lengths, final := [n0, n1, n2, n3], str.chars;
  }

  /** The container test's joining and span-replacement blocks: what each leaves. */
  method TestJoinedAndReplace() returns (joined: string, replaced: string)
    ensures joined == "aa!bb!CC"
    ensures replaced == "bool Swap(Array<T>&)"
  {
    joined := Joined(["aa", "bb", "CC"], "!");
    assert joined == "aa!bb!CC";

    var s := new String();
    s.Assign("bool Swap(T[]&)");
    s.Replace(10, 3, "Array<T>");
    replaced := s.chars;
  }
}
