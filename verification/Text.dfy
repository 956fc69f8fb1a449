/** String operations of the two source languages. */
module Text {

  /** White space that both languages strip, beyond tab to carriage return and the space itself. */
  predicate IsWideSpace(c: char) {
    || c == '\U{00A0}' || c == '\U{1680}' || '\U{2000}' <= c <= '\U{200A}' || c == '\U{2028}' || c == '\U{2029}'
    || c == '\U{202F}' || c == '\U{205F}' || c == '\U{3000}'
  }

  /** Python's `str.isspace` characters. */
  predicate IsPythonSpace(c: char) {
    '\t' <= c <= '\r' || '\U{001C}' <= c <= ' ' || c == '\U{0085}' || IsWideSpace(c)
  }

  /** What JavaScript's `trim` removes. */
  predicate IsScriptSpace(c: char) {
    '\t' <= c <= '\r' || c == ' ' || c == '\U{FEFF}' || IsWideSpace(c)
  }

  function TrimStart(s: string, space: char -> bool): (r: string)
    ensures r == [] || !space(r[0])
    ensures |r| <= |s| && r == s[|s| - |r|..]
    ensures (forall i | 0 <= i < |s| :: space(s[i])) <==> r == []
  {
    if s != [] && space(s[0]) then TrimStart(s[1..], space) else s
  }

  function TrimEnd(s: string, space: char -> bool): (r: string)
    ensures r == [] || !space(r[|r| - 1])
    ensures r <= s
    ensures (forall i | 0 <= i < |s| :: space(s[i])) <==> r == []
  {
    if s != [] && space(s[|s| - 1]) then TrimEnd(s[..|s| - 1], space) else s
  }

  /** `strip` / `trim`. */
  function Trim(s: string, space: char -> bool): string {
    TrimEnd(TrimStart(s, space), space)
  }

  function Join(lines: seq<string>, separator: string): string {
    if lines == [] then ""
    else if |lines| == 1 then lines[0]
    else lines[0] + separator + Join(lines[1..], separator)
  }

  /** Split at every occurrence of a character: never empty. */
  function SplitChar(s: string, c: char): (r: seq<string>)
    ensures r != []
    ensures forall i | 0 <= i < |r| :: c !in r[i]
  {
    if s == "" then [""]
    else
      var rest := SplitChar(s[1..], c);
      if s[0] == c then [""] + rest
      else [[s[0]] + rest[0]] + rest[1..]
  }

  /** Splitting what was joined gives back the lines, when none of them holds the separator. */
  lemma {:induction false} SplitJoin(lines: seq<string>, c: char)
    requires lines != [] && forall i | 0 <= i < |lines| :: c !in lines[i]
    ensures SplitChar(Join(lines, [c]), c) == lines
  {
    if |lines| == 1 {
      SplitWhole(lines[0], c);
    } else {
      SplitJoin(lines[1..], c);
      SplitPrefix(lines[0], Join(lines[1..], [c]), c);
      assert lines[0] + [c] + Join(lines[1..], [c]) == lines[0] + ([c] + Join(lines[1..], [c]));
      assert lines == [lines[0]] + lines[1..];
    }
  }

  lemma {:induction false} SplitWhole(s: string, c: char)
    requires c !in s
    ensures SplitChar(s, c) == [s]
  {
    if s != "" {
      SplitWhole(s[1..], c);
      assert s == [s[0]] + s[1..];
    }
  }

  lemma {:induction false} SplitPrefix(a: string, b: string, c: char)
    requires c !in a
    ensures SplitChar(a + ([c] + b), c) == [a] + SplitChar(b, c)
  {
    if a == "" {
      assert a + ([c] + b) == [c] + b;
    } else {
      assert (a + ([c] + b))[1..] == a[1..] + ([c] + b);
      SplitPrefix(a[1..], b, c);
      assert a == [a[0]] + a[1..];
    }
  }

  lemma {:induction false} JoinSplit(s: string, c: char)
    ensures Join(SplitChar(s, c), [c]) == s
  {
    if s != "" {
      JoinSplit(s[1..], c);
      var rest := SplitChar(s[1..], c);
      if s[0] == c {
        assert ([""] + rest)[1..] == rest;
        assert s == [c] + s[1..];
      } else if |rest| > 1 {
        var r := [[s[0]] + rest[0]] + rest[1..];
        assert r[1..] == rest[1..];
        assert s == [s[0]] + s[1..];
        assert r[0] + [c] + Join(r[1..], [c]) == [s[0]] + (rest[0] + [c] + Join(rest[1..], [c]));
      } else {
        assert s == [s[0]] + s[1..];
      }
    }
  }

  // --- `" ".join(s.split())` --------------------------------------------------------------------------

  predicate Word(w: string) {
    w != "" && forall i | 0 <= i < |w| :: !IsPythonSpace(w[i])
  }

  /** Python's `split()`: the longest runs without white space. */
  function Words(s: string): (r: seq<string>)
    ensures forall i | 0 <= i < |r| :: Word(r[i])
    ensures s != "" && !IsPythonSpace(s[0]) ==> r != []
  {
    if s == "" then []
    else if IsPythonSpace(s[0]) then Words(s[1..])
    else
      var rest := Words(s[1..]);
      assert |s| > 1 && !IsPythonSpace(s[1]) ==> Word(rest[0]) && Word([s[0]] + rest[0]);
      if |s| > 1 && !IsPythonSpace(s[1]) then [[s[0]] + rest[0]] + rest[1..] else [[s[0]]] + rest
  }

  /** No white space but blanks. */
  predicate BlanksOnly(s: string) {
    forall i | 0 <= i < |s| :: IsPythonSpace(s[i]) ==> s[i] == ' '
  }

  function Collapse(s: string): string {
    Join(Words(s), " ")
  }

  lemma {:induction false} WordThen(w: string, rest: string)
    requires Word(w) && (rest == "" || IsPythonSpace(rest[0]))
    ensures Words(w + rest) == [w] + Words(rest)
  {
    assert (w + rest)[1..] == w[1..] + rest;
    if |w| > 1 {
      WordThen(w[1..], rest);
      assert Words(w + rest) == [[w[0]] + w[1..]] + Words(rest);
      assert [w[0]] + w[1..] == w;
    } else {
      assert w[1..] + rest == rest && w == [w[0]];
    }
  }

  /** Splitting at white space undoes joining with blanks. */
  lemma {:induction false} WordsOfJoin(ws: seq<string>)
    requires forall i | 0 <= i < |ws| :: Word(ws[i])
    ensures Words(Join(ws, " ")) == ws
  {
    if |ws| == 1 {
      WordThen(ws[0], "");
      assert ws[0] + "" == ws[0];
    } else if |ws| > 1 {
      var rest := Join(ws[1..], " ");
      WordsOfJoin(ws[1..]);
      WordThen(ws[0], " " + rest);
      assert (" " + rest)[1..] == rest;
      assert ws[0] + " " + rest == ws[0] + (" " + rest);
    }
  }

  /** The only white space is single blanks between words, and a second pass changes nothing. */
  lemma CollapseIsOneLine(s: string)
    ensures BlanksOnly(Collapse(s))
    ensures Collapse(Collapse(s)) == Collapse(s)
    ensures Collapse(s) == "" <==> forall i | 0 <= i < |s| :: IsPythonSpace(s[i])
  {
    WordsOfJoin(Words(s));
    JoinedSpaces(Words(s));
    NoWords(s);
  }

  lemma {:induction false} JoinedSpaces(ws: seq<string>)
    requires forall i | 0 <= i < |ws| :: Word(ws[i])
    ensures BlanksOnly(Join(ws, " "))
    ensures Join(ws, " ") == "" <==> ws == []
  {
    if |ws| > 1 {
      JoinedSpaces(ws[1..]);
      assert Word(ws[0]) && Join(ws, " ") == ws[0] + " " + Join(ws[1..], " ");
    } else if |ws| == 1 {
      assert Word(ws[0]);
    }
  }

  lemma {:induction false} NoWords(s: string)
    ensures Words(s) == [] <==> forall i | 0 <= i < |s| :: IsPythonSpace(s[i])
  {
    if s != "" {
      NoWords(s[1..]);
      if IsPythonSpace(s[0]) {
        assert (forall i | 0 <= i < |s| :: IsPythonSpace(s[i])) <==>
          forall i | 0 <= i < |s[1..]| :: IsPythonSpace(s[1..][i]);
      }
    }
  }
}
