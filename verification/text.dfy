/** String helpers that stand for the library calls the source makes on
    strings: `os.path.basename`, `str.split`, `String.prototype.replace`,
    `includes`, `trim`, the digit filters of the payment form and the
    split/capitalise/join of scene labels. Characters are Unicode scalar
    values; case mapping is modelled for ASCII letters only. */
module Text {

  predicate IsDigit(c: char) { '0' <= c <= '9' }
  predicate IsUpper(c: char) { 'A' <= c <= 'Z' }
  predicate IsLower(c: char) { 'a' <= c <= 'z' }
  predicate IsLetter(c: char) { IsUpper(c) || IsLower(c) }

  /** Whitespace removed by JavaScript's `trim`: the white space and line
      terminators of section 12.2 and 12.3 of ECMA-262 (tab, vertical tab,
      form feed, space, no-break space, the byte-order mark, the space
      separators of Unicode category Zs, line feed, carriage return and the
      line and paragraph separators). */
  predicate IsSpace(c: char) {
    c == ' ' || c == '\t' || c == '\n' || c == '\r' || c == '\U{B}' || c == '\U{C}'
    || c == '\U{A0}' || c == '\U{FEFF}' || c == '\U{1680}' || '\U{2000}' <= c <= '\U{200A}'
    || c == '\U{2028}' || c == '\U{2029}' || c == '\U{202F}' || c == '\U{205F}' || c == '\U{3000}'
  }

  /** `s.length` in JavaScript: the number of UTF-16 code units, which is
      two for each character outside the Basic Multilingual Plane. */
  function Utf16Length(s: string): (n: nat)
    ensures |s| <= n <= 2 * |s|
    ensures n == |s| <==> forall i | 0 <= i < |s| :: s[i] as int < 0x1_0000
  {
    if s == [] then 0
    else
      assert forall i | 0 < i < |s| :: s[i] == s[1..][i - 1];
      (if s[0] as int < 0x1_0000 then 1 else 2) + Utf16Length(s[1..])
  }

  /** `c.toUpperCase()` on one character (ASCII letters only). */
  function Upper(c: char): (u: char)
    ensures IsLower(c) ==> IsUpper(u) && u as int == c as int - 32
    ensures !IsLower(c) ==> u == c
  {
    if IsLower(c) then (c as int - 32) as char else c
  }

  /** `c.lower()` on one character (ASCII letters only). */
  function Lower(c: char): (l: char)
    ensures IsUpper(c) ==> IsLower(l) && l as int == c as int + 32
    ensures !IsUpper(c) ==> l == c
  {
    if IsUpper(c) then (c as int + 32) as char else c
  }

  predicate AllDigits(s: string) { forall i | 0 <= i < |s| :: IsDigit(s[i]) }

  /** `s.replace(/\D/g, '')`: the digits of `s`, in their order. */
  function Digits(s: string): (r: string)
    ensures |r| <= |s|
    ensures AllDigits(r)
    ensures AllDigits(s) ==> r == s
  {
    if s == [] then []
    else
      assert s == [s[0]] + s[1..];
      (if IsDigit(s[0]) then [s[0]] else []) + Digits(s[1..])
  }

  /** The digit filter works piece by piece: filtering a concatenation
      concatenates the filtered pieces. */
  lemma {:induction false} DigitsAppend(a: string, b: string)
    ensures Digits(a + b) == Digits(a) + Digits(b)
  {
    if a != [] {
      DigitsAppend(a[1..], b);
      assert (a + b)[1..] == a[1..] + b;
      assert (a + b)[0] == a[0];
    } else {
      assert a + b == b;
    }
  }

  /** A single character survives the filter exactly when it is a digit. */
  lemma DigitsOfChar(c: char)
    ensures Digits([c]) == if IsDigit(c) then [c] else []
  {
    assert [c][1..] == [];
  }

  /** `sub` occurs in `s` at index `i`. */
  predicate OccursAt(s: string, sub: string, i: int) {
    0 <= i && i + |sub| <= |s| && s[i..i + |sub|] == sub
  }

  /** `s.includes(sub)`. */
  predicate Contains(s: string, sub: string) {
    exists i | 0 <= i <= |s| - |sub| :: OccursAt(s, sub, i)
  }

  predicate StartsWith(s: string, prefix: string) {
    |prefix| <= |s| && s[..|prefix|] == prefix
  }

  /** `sub` occurs in `s` at index `i` and nowhere before. */
  predicate FirstAt(s: string, sub: string, i: int) {
    OccursAt(s, sub, i) && forall j | 0 <= j < i :: !OccursAt(s, sub, j)
  }

  /** Past the first character, an occurrence in `s` is an occurrence in its
      tail one place earlier. */
  lemma OccursInTail(s: string, sub: string, j: int)
    requires s != [] && 1 <= j
    ensures OccursAt(s, sub, j) <==> OccursAt(s[1..], sub, j - 1)
  {
    if j - 1 + |sub| <= |s[1..]| {
      var a, b := s[j..j + |sub|], s[1..][j - 1..j - 1 + |sub|];
      forall k | 0 <= k < |sub| ensures a[k] == b[k] {
        assert a[k] == s[j + k] && b[k] == s[1..][j - 1 + k];
      }
      assert a == b;
    }
  }

  /** A string that contains `sub` has a first occurrence of it. */
  lemma FirstExists(s: string, sub: string, k: int)
    requires OccursAt(s, sub, k)
    ensures exists i :: FirstAt(s, sub, i)
    decreases k
  {
    if j :| 0 <= j < k && OccursAt(s, sub, j) {
      FirstExists(s, sub, j);
    } else {
      assert FirstAt(s, sub, k);
    }
  }

  /** `s.replace(pat, rep)` with a string pattern: only the first occurrence
      is replaced, and a string without the pattern comes back unchanged. */
  function ReplaceFirst(s: string, pat: string, rep: string): (r: string)
    requires pat != ""
    ensures !Contains(s, pat) ==> r == s
    ensures forall i | FirstAt(s, pat, i) :: r == s[..i] + rep + s[i + |pat|..]
    decreases |s|
  {
    if |s| < |pat| then s
    else if StartsWith(s, pat) then
      ReplaceAtStart(s, pat, rep);
      rep + s[|pat|..]
    else
      var t := s[1..];
      var r' := ReplaceFirst(t, pat, rep);
      ReplaceInTail(s, pat, rep, r');
      [s[0]] + r'
  }

  /** A pattern at the start is the first occurrence. */
  lemma ReplaceAtStart(s: string, pat: string, rep: string)
    requires pat != "" && StartsWith(s, pat)
    ensures Contains(s, pat)
    ensures forall i | FirstAt(s, pat, i) :: rep + s[|pat|..] == s[..i] + rep + s[i + |pat|..]
  {
    assert OccursAt(s, pat, 0);
    forall i | FirstAt(s, pat, i) ensures i == 0 { }
  }

  /** When `s` does not start with the pattern, its first occurrence is the
      tail's, one place further on, and replacing in the tail replaces it. */
  lemma ReplaceInTail(s: string, pat: string, rep: string, r': string)
    requires s != [] && pat != "" && !OccursAt(s, pat, 0)
    requires !Contains(s[1..], pat) ==> r' == s[1..]
    requires forall i | FirstAt(s[1..], pat, i) :: r' == s[1..][..i] + rep + s[1..][i + |pat|..]
    ensures !Contains(s, pat) ==> [s[0]] + r' == s
    ensures forall i | FirstAt(s, pat, i) :: [s[0]] + r' == s[..i] + rep + s[i + |pat|..]
  {
    var t := s[1..];
    if Contains(t, pat) {
      var i :| 0 <= i <= |t| - |pat| && OccursAt(t, pat, i);
      OccursInTail(s, pat, i + 1);
      assert Contains(s, pat);
    }
    forall i | FirstAt(s, pat, i) ensures [s[0]] + r' == s[..i] + rep + s[i + |pat|..] {
      FirstInTail(s, pat, i);
      SpliceTail(s, pat, rep, i);
    }
  }

  /** The first occurrence in `s`, when not at the start, is the first in
      its tail one place earlier. */
  lemma FirstInTail(s: string, pat: string, i: int)
    requires s != [] && !OccursAt(s, pat, 0) && FirstAt(s, pat, i)
    ensures 1 <= i && FirstAt(s[1..], pat, i - 1)
  {
    OccursInTail(s, pat, i);
    forall j | 0 <= j < i - 1 ensures !OccursAt(s[1..], pat, j) {
      OccursInTail(s, pat, j + 1);
    }
  }

  lemma SpliceTail(s: string, pat: string, rep: string, i: int)
    requires 1 <= i && i + |pat| <= |s|
    ensures [s[0]] + (s[1..][..i - 1] + rep + s[1..][i - 1 + |pat|..]) == s[..i] + rep + s[i + |pat|..]
  {
    assert [s[0]] + s[1..][..i - 1] == s[..i];
    assert s[1..][i - 1 + |pat|..] == s[i + |pat|..];
  }

  /** The part of `s` after its last `sep`, or all of `s` when there is none:
      `os.path.basename` for `sep == '/'`, and `s.split(sep).pop()` in
      JavaScript. */
  function AfterLast(s: string, sep: char): string {
    if s == [] then []
    else if s[|s| - 1] == sep then []
    else AfterLast(s[..|s| - 1], sep) + [s[|s| - 1]]
  }

  /** `AfterLast` is the last segment: a suffix without separators that is
      the whole string or follows a separator. */
  lemma {:induction false} AfterLastSegment(s: string, sep: char)
    ensures var r := AfterLast(s, sep);
            && |r| <= |s| && r == s[|s| - |r|..]
            && sep !in r
            && (|r| < |s| ==> s[|s| - |r| - 1] == sep)
  {
    if s != [] && s[|s| - 1] != sep {
      var init := s[..|s| - 1];
      AfterLastSegment(init, sep);
      var r0 := AfterLast(init, sep);
      assert s[|s| - |r0| - 1..] == init[|init| - |r0|..] + [s[|s| - 1]];
    }
  }

  /** The part after the last separator of `prefix + [sep] + name` is `name`
      when `name` holds no separator. */
  lemma {:induction false} AfterLastOf(prefix: string, sep: char, name: string)
    requires sep !in name
    ensures AfterLast(prefix + [sep] + name, sep) == name
  {
    var s := prefix + [sep] + name;
    if name == [] {
      assert s[|s| - 1] == sep;
    } else {
      var init := name[..|name| - 1];
      assert s[..|s| - 1] == prefix + [sep] + init;
      AfterLastOf(prefix, sep, init);
      assert name == init + [name[|name| - 1]];
    }
  }

  /** `s.split(sep)[0]` in Python: the part of `s` before its first `sep`. */
  function BeforeFirst(s: string, sep: char): (r: string)
    ensures |r| <= |s| && r == s[..|r|]
    ensures sep !in r
    ensures |r| < |s| ==> s[|r|] == sep
  {
    if s == [] then []
    else if s[0] == sep then []
    else [s[0]] + BeforeFirst(s[1..], sep)
  }

  /** When the first separator sits at `a`, the part before it is `s[..a]`. */
  lemma {:induction false} BeforeFirstAt(s: string, sep: char, a: nat)
    requires a < |s| && s[a] == sep
    requires forall k | 0 <= k < a :: s[k] != sep
    ensures BeforeFirst(s, sep) == s[..a]
  {
    if a > 0 {
      BeforeFirstAt(s[1..], sep, a - 1);
      assert s[..a] == [s[0]] + s[1..][..a - 1];
    }
  }

  /** When the last separator sits at `e`, the part after it is `s[e + 1..]`. */
  lemma {:induction false} AfterLastAt(s: string, sep: char, e: nat)
    requires e < |s| && s[e] == sep
    requires forall k | e < k < |s| :: s[k] != sep
    ensures AfterLast(s, sep) == s[e + 1..]
  {
    if e < |s| - 1 {
      var init := s[..|s| - 1];
      AfterLastAt(init, sep, e);
      assert s[e + 1..] == init[e + 1..] + [s[|s| - 1]];
    }
  }

  /** `os.path.join(folder, name)` for a relative `name`. */
  function PathJoin(folder: string, name: string): (r: string)
    ensures StartsWith(r, folder)
    ensures |name| <= |r| && r[|r| - |name|..] == name
  {
    if folder == [] || folder[|folder| - 1] == '/' then folder + name
    else folder + "/" + name
  }

  /** `s.split(sep)`: the maximal pieces of `s` between separators. */
  function Split(s: string, sep: char): (parts: seq<string>)
    ensures |parts| >= 1
    ensures forall k | 0 <= k < |parts| :: sep !in parts[k]
  {
    if s == [] then [""]
    else
      var rest := Split(s[1..], sep);
      if s[0] == sep then [""] + rest
      else [[s[0]] + rest[0]] + rest[1..]
  }

  /** `parts.join(sep)`. */
  function Join(parts: seq<string>, sep: char): string {
    if |parts| == 0 then ""
    else if |parts| == 1 then parts[0]
    else parts[0] + [sep] + Join(parts[1..], sep)
  }

  lemma {:induction false} JoinConsHead(x: char, a: string, rest: seq<string>, sep: char)
    ensures Join([[x] + a] + rest, sep) == [x] + Join([a] + rest, sep)
  {
    var p := [[x] + a] + rest;
    var q := [a] + rest;
    assert p[1..] == rest && q[1..] == rest;
  }

  /** Joining the pieces of a split gives the original string back. */
  lemma {:induction false} JoinSplit(s: string, sep: char)
    ensures Join(Split(s, sep), sep) == s
  {
    if s != [] {
      var rest := Split(s[1..], sep);
      JoinSplit(s[1..], sep);
      if s[0] == sep {
        assert ([""] + rest)[1..] == rest;
        assert Join([""] + rest, sep) == "" + [sep] + Join(rest, sep);
      } else {
        assert rest == [rest[0]] + rest[1..];
        JoinConsHead(s[0], rest[0], rest[1..], sep);
      }
    }
  }

  /** `word.charAt(0).toUpperCase() + word.slice(1)`. */
  function Capitalize(w: string): string {
    if w == [] then [] else [Upper(w[0])] + w[1..]
  }

  function CapitalizeAll(words: seq<string>): (r: seq<string>)
    ensures |r| == |words|
    ensures forall k | 0 <= k < |words| :: r[k] == Capitalize(words[k])
  {
    if words == [] then [] else [Capitalize(words[0])] + CapitalizeAll(words[1..])
  }

  /** `s.split('_').map(capitalise).join(' ')`: the label the screens show for
      a scene key such as `living_room`. */
  function TitleWords(s: string): string {
    Join(CapitalizeAll(Split(s, '_')), ' ')
  }

  /** Character-by-character reading of `TitleWords`: an underscore becomes a
      space and the first character of each word is upper-cased. */
  function TitleChars(s: string, atWordStart: bool): string {
    if s == [] then []
    else if s[0] == '_' then " " + TitleChars(s[1..], true)
    else [if atWordStart then Upper(s[0]) else s[0]] + TitleChars(s[1..], false)
  }

  lemma {:induction false} TitleWordsChars(s: string, atWordStart: bool)
    ensures var parts := Split(s, '_');
            Join([if atWordStart then Capitalize(parts[0]) else parts[0]]
                 + CapitalizeAll(parts[1..]), ' ') == TitleChars(s, atWordStart)
  {
    var parts := Split(s, '_');
    if s != [] {
      var rest := Split(s[1..], '_');
      TitleWordsChars(s[1..], s[0] == '_');
      if s[0] == '_' {
        assert parts == [""] + rest;
        assert parts[1..] == rest;
        assert CapitalizeAll(rest) == [Capitalize(rest[0])] + CapitalizeAll(rest[1..]);
        var tail := CapitalizeAll(parts[1..]);
        assert ([""] + tail)[1..] == tail;
      } else {
        assert parts == [[s[0]] + rest[0]] + rest[1..];
        var x := if atWordStart then Upper(s[0]) else s[0];
        assert (if atWordStart then Capitalize(parts[0]) else parts[0]) == [x] + rest[0];
        JoinConsHead(x, rest[0], CapitalizeAll(rest[1..]), ' ');
      }
    }
  }

  /** The scene label has the key's length; underscores become spaces and a
      letter that starts a word is capitalised. */
  lemma {:induction false} TitleWordsAt(s: string)
    ensures TitleWords(s) == TitleChars(s, true)
    ensures |TitleWords(s)| == |s|
    ensures forall i | 0 <= i < |s| ::
      TitleWords(s)[i] == (if s[i] == '_' then ' '
                           else if i == 0 || s[i - 1] == '_' then Upper(s[i])
                           else s[i])
  {
    var parts := Split(s, '_');
    TitleWordsChars(s, true);
    assert CapitalizeAll(parts) == [Capitalize(parts[0])] + CapitalizeAll(parts[1..]);
    TitleCharsAt(s, true);
    var t := TitleWords(s);
    forall i | 0 <= i < |s|
      ensures t[i] == (if s[i] == '_' then ' '
                       else if i == 0 || s[i - 1] == '_' then Upper(s[i])
                       else s[i])
    {
      var c := TitleChars(s, true);
      assert t[i] == c[i];
      if i == 0 {
        assert c[0] == (if s[0] == '_' then ' ' else Upper(s[0]));
      } else {
        assert c[i] == (if s[i] == '_' then ' ' else if s[i - 1] == '_' then Upper(s[i]) else s[i]);
      }
    }
  }

  lemma {:induction false} TitleCharsAt(s: string, atWordStart: bool)
    ensures |TitleChars(s, atWordStart)| == |s|
    ensures forall i {:trigger TitleChars(s, atWordStart)[i]} | 0 <= i < |s| ::
      TitleChars(s, atWordStart)[i] == (if s[i] == '_' then ' '
                                        else if (if i == 0 then atWordStart else s[i - 1] == '_') then Upper(s[i])
                                        else s[i])
  {
    if s != [] {
      TitleCharsAt(s[1..], s[0] == '_');
      var t := TitleChars(s, atWordStart);
      forall i | 0 <= i < |s|
        ensures t[i] == (if s[i] == '_' then ' '
                         else if (if i == 0 then atWordStart else s[i - 1] == '_') then Upper(s[i])
                         else s[i])
      {
        if i > 0 {
          assert t[i] == TitleChars(s[1..], s[0] == '_')[i - 1];
          assert s[1..][i - 1] == s[i];
          assert i - 1 > 0 ==> s[1..][i - 2] == s[i - 1];
        }
      }
    }
  }

  function TrimStart(s: string): (r: string)
    ensures |r| <= |s| && r == s[|s| - |r|..]
    ensures forall i | 0 <= i < |s| - |r| :: IsSpace(s[i])
    ensures r != [] ==> !IsSpace(r[0])
  {
    if s == [] || !IsSpace(s[0]) then s else TrimStart(s[1..])
  }

  function TrimEnd(s: string): (r: string)
    ensures |r| <= |s| && r == s[..|r|]
    ensures forall i | |r| <= i < |s| :: IsSpace(s[i])
    ensures r != [] ==> !IsSpace(r[|r| - 1])
  {
    if s == [] || !IsSpace(s[|s| - 1]) then s else TrimEnd(s[..|s| - 1])
  }

  /** `s.trim()`. */
  function Trim(s: string): string {
    TrimEnd(TrimStart(s))
  }

  /** A string trims to nothing exactly when every character is whitespace. */
  lemma TrimEmpty(s: string)
    ensures Trim(s) == "" <==> forall i | 0 <= i < |s| :: IsSpace(s[i])
  {
    var a := TrimStart(s);
    if Trim(s) == "" && a != [] {
      // `a` starts with a non-blank, which `TrimEnd` keeps.
      assert false;
    }
  }
}
