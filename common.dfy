/** Helpers shared by every module: an option type, the few JavaScript string and array
    operations the components rely on (ASCII case folding, `includes`, `trim`, `split`,
    `join`, `slice`, `filter`), and decimal rendering of integers. */
module Common {

  datatype Option<+T> = None | Some(value: T)

  // ---------------------------------------------------------------- case folding

  /** `toLowerCase` on one character (ASCII letters only). */
  function LowerChar(c: char): (r: char)
    ensures 'A' <= c <= 'Z' ==> r as int == c as int + 32
    ensures !('A' <= c <= 'Z') ==> r == c
  {
    if 'A' <= c <= 'Z' then (c as int + 32) as char else c
  }

  /** `toUpperCase` on one character (ASCII letters only). */
  function UpperChar(c: char): (r: char)
    ensures 'a' <= c <= 'z' ==> r as int == c as int - 32
    ensures !('a' <= c <= 'z') ==> r == c
  {
    if 'a' <= c <= 'z' then (c as int - 32) as char else c
  }

  /** `String.prototype.toLowerCase`, ASCII only. */
  function Lower(s: string): (r: string)
    ensures |r| == |s|
    ensures forall i :: 0 <= i < |s| ==> r[i] == LowerChar(s[i])
  {
    if s == [] then [] else [LowerChar(s[0])] + Lower(s[1..])
  }

  /** Lower-casing twice is lower-casing once. */
  lemma LowerIdempotent(s: string)
    ensures Lower(Lower(s)) == Lower(s)
  {
    assert forall i :: 0 <= i < |s| ==> LowerChar(LowerChar(s[i])) == LowerChar(s[i]);
  }

  // ---------------------------------------------------------------- substrings

  predicate StartsWith(s: string, prefix: string)
  {
    |prefix| <= |s| && s[..|prefix|] == prefix
  }

  predicate EndsWith(s: string, suffix: string)
  {
    |suffix| <= |s| && s[|s| - |suffix|..] == suffix
  }

  /** `String.prototype.includes`: `sub` occurs somewhere in `s`. */
  predicate Contains(s: string, sub: string)
    decreases |s|
  {
    StartsWith(s, sub) || (|s| > 0 && Contains(s[1..], sub))
  }

  /** `sub` occurs in `s` starting at position `i`. */
  predicate OccursAt(s: string, sub: string, i: int)
  {
    0 <= i <= |s| - |sub| && s[i..i + |sub|] == sub
  }

  /** `Contains` means: there is a position where `sub` occurs. */
  lemma {:induction false} ContainsIffOccurs(s: string, sub: string)
    ensures Contains(s, sub) <==> exists i :: OccursAt(s, sub, i)
    decreases |s|
  {
    if StartsWith(s, sub) {
      assert OccursAt(s, sub, 0);
    } else if |s| > 0 {
      ContainsIffOccurs(s[1..], sub);
      if Contains(s[1..], sub) {
        var i :| OccursAt(s[1..], sub, i);
        assert s[i + 1..i + 1 + |sub|] == s[1..][i..i + |sub|];
        assert OccursAt(s, sub, i + 1);
      }
      if exists i :: OccursAt(s, sub, i) {
        var i :| OccursAt(s, sub, i);
        assert i != 0;
        assert s[1..][i - 1..i - 1 + |sub|] == s[i..i + |sub|];
        assert OccursAt(s[1..], sub, i - 1);
      }
    }
  }

  /** Lower-casing both sides keeps an occurrence. */
  lemma {:induction false} ContainsLower(s: string, sub: string)
    requires Contains(s, sub)
    ensures Contains(Lower(s), Lower(sub))
    decreases |s|
  {
    if StartsWith(s, sub) {
      assert Lower(s)[..|sub|] == Lower(sub);
    } else {
      ContainsLower(s[1..], sub);
      assert Lower(s)[1..] == Lower(s[1..]);
    }
  }

  /** The empty string occurs in every string, as in JavaScript. */
  lemma ContainsEmpty(s: string)
    ensures Contains(s, "")
  {
    assert StartsWith(s, "");
  }

  /** `text.toLowerCase().includes(term.toLowerCase())`, the search test of the list filters. */
  predicate MatchesTerm(text: string, term: string)
  {
    Contains(Lower(text), Lower(term))
  }

  /** The empty term matches everything, neither side's case matters, and a plain substring
      always matches. */
  lemma MatchesTermProperties(text: string, term: string)
    ensures MatchesTerm(text, "")
    ensures MatchesTerm(text, term) <==> MatchesTerm(text, Lower(term))
    ensures MatchesTerm(text, term) <==> MatchesTerm(Lower(text), term)
    ensures Contains(text, term) ==> MatchesTerm(text, term)
  {
    ContainsEmpty(Lower(text));
    LowerIdempotent(term);
    LowerIdempotent(text);
    if Contains(text, term) {
      ContainsLower(text, term);
    }
  }

  // ---------------------------------------------------------------- trim

  /** The characters `trim` strips: JavaScript's white space (tab, vertical tab, form feed,
      space, no-break space, the byte-order mark and the Unicode space separators) and its
      line terminators. */
  predicate IsSpace(c: char)
  {
    c == ' ' || c == '\t' || c == '\n' || c == '\r' || c == '\U{B}' || c == '\U{C}'
    || c == '\U{A0}' || c == '\U{FEFF}' || c == '\U{1680}' || '\U{2000}' <= c <= '\U{200A}'
    || c == '\U{2028}' || c == '\U{2029}' || c == '\U{202F}' || c == '\U{205F}' || c == '\U{3000}'
  }

  function TrimStart(s: string): (r: string)
    ensures |r| <= |s| && r == s[|s| - |r|..]
    ensures r != [] ==> !IsSpace(r[0])
    ensures forall i :: 0 <= i < |s| - |r| ==> IsSpace(s[i])
  {
    if s != [] && IsSpace(s[0]) then TrimStart(s[1..]) else s
  }

  function TrimEnd(s: string): (r: string)
    ensures |r| <= |s| && r == s[..|r|]
    ensures r != [] ==> !IsSpace(r[|r| - 1])
    ensures forall i :: |r| <= i < |s| ==> IsSpace(s[i])
  {
    if s != [] && IsSpace(s[|s| - 1]) then TrimEnd(s[..|s| - 1]) else s
  }

  /** `String.prototype.trim`. */
  function Trim(s: string): (r: string)
    ensures r == [] || (!IsSpace(r[0]) && !IsSpace(r[|r| - 1]))
    ensures Blank(s) <==> r == []
  {
    TrimEnd(TrimStart(s))
  }

  /** A string that `trim` turns into "" (the source's `!message.trim()`). */
  predicate Blank(s: string)
  {
    forall i :: 0 <= i < |s| ==> IsSpace(s[i])
  }

  // ---------------------------------------------------------------- split / join

  /** Number of occurrences of `c` in `s`. */
  function CountChar(s: string, c: char): nat
  {
    if s == [] then 0 else (if s[0] == c then 1 else 0) + CountChar(s[1..], c)
  }

  /** `s.split(sep)` with a one-character separator: the pieces between separators;
      there is always one more piece than separators, so "" gives [""]. */
  function Split(s: string, sep: char): (r: seq<string>)
    ensures |r| == CountChar(s, sep) + 1
    ensures forall k :: 0 <= k < |r| ==> sep !in r[k]
  {
    if s == [] then [""]
    else
      var rest := Split(s[1..], sep);
      if s[0] == sep then [""] + rest else [[s[0]] + rest[0]] + rest[1..]
  }

  /** `parts.join(sep)`. */
  function Join(parts: seq<string>, sep: string): string
  {
    if parts == [] then "" else if |parts| == 1 then parts[0] else parts[0] + sep + Join(parts[1..], sep)
  }

  /** Joining the pieces of a split with the same separator gives the string back. */
  lemma {:induction false} JoinSplit(s: string, sep: char)
    ensures Join(Split(s, sep), [sep]) == s
  {
    if s != [] {
      JoinSplit(s[1..], sep);
      var rest := Split(s[1..], sep);
      if s[0] != sep {
        if |rest| == 1 {
          assert Join(rest, [sep]) == rest[0];
        } else {
          assert Join(rest, [sep]) == rest[0] + [sep] + Join(rest[1..], [sep]);
          assert [[s[0]] + rest[0]] + rest[1..] == [[s[0]] + rest[0]] + rest[1..];
          assert Join([[s[0]] + rest[0]] + rest[1..], [sep])
              == [s[0]] + rest[0] + [sep] + Join(rest[1..], [sep]);
        }
      }
    }
  }

  /** Splitting a separator-free prefix followed by the separator peels off that prefix. */
  lemma {:induction false} SplitWordThenSep(w: string, t: string, sep: char)
    requires sep !in w
    ensures Split(w + [sep] + t, sep) == [w] + Split(t, sep)
  {
    var s := w + [sep] + t;
    if w != [] {
      SplitWordThenSep(w[1..], t, sep);
      assert s[1..] == w[1..] + [sep] + t;
      assert s[0] == w[0] && w[0] != sep;
      assert [w[0]] + w[1..] == w;
    } else {
      assert s == [sep] + t;
      assert s[1..] == t;
    }
  }

  /** A string without the separator splits into itself alone. */
  lemma {:induction false} SplitNoSep(w: string, sep: char)
    requires sep !in w
    ensures Split(w, sep) == [w]
  {
    if w != [] {
      SplitNoSep(w[1..], sep);
      assert w[0] != sep;
      assert [w[0]] + w[1..] == w;
    }
  }

  /** Position of the first occurrence of `c` in `s`. */
  function IndexOf(s: string, c: char): (k: nat)
    requires c in s
    ensures k < |s| && s[k] == c && c !in s[..k]
  {
    if s[0] == c then 0 else 1 + IndexOf(s[1..], c)
  }

  /** `word.charAt(0).toUpperCase() + word.slice(1)`. */
  function Capitalize(w: string): (r: string)
    ensures |r| == |w|
    ensures w != [] ==> r[0] == UpperChar(w[0]) && r[1..] == w[1..]
  {
    if w == [] then [] else [UpperChar(w[0])] + w[1..]
  }

  function MapStrings(f: string -> string, s: seq<string>): (r: seq<string>)
    ensures |r| == |s|
    ensures forall i :: 0 <= i < |s| ==> r[i] == f(s[i])
  {
    if s == [] then [] else [f(s[0])] + MapStrings(f, s[1..])
  }

  /** `s.split("-").map(capitalize).join(" ")`, the display form of a persona slug. */
  function DisplayName(s: string): string
  {
    Join(MapStrings(Capitalize, Split(s, '-')), " ")
  }

  /** Character `i` of the display name of `s`: dashes become spaces and each word's first
      character is upper-cased; nothing else changes. */
  function DisplayChar(s: string, i: int): char
    requires 0 <= i < |s|
  {
    if s[i] == '-' then ' ' else if i == 0 || s[i - 1] == '-' then UpperChar(s[i]) else s[i]
  }

  /** The display name of `w-t` is the capitalised first word, a space, and the display name
      of the rest. */
  lemma DisplayNameFirstWord(w: string, t: string)
    requires '-' !in w
    ensures DisplayName(w + "-" + t) == Capitalize(w) + " " + DisplayName(t)
  {
    SplitWordThenSep(w, t, '-');
    var parts := Split(t, '-');
    assert MapStrings(Capitalize, [w] + parts) == [Capitalize(w)] + MapStrings(Capitalize, parts);
  }

  /** The display name has the same length as the slug and is described character by character
      by `DisplayChar`. */
  lemma {:induction false} DisplayNameChars(s: string)
    ensures |DisplayName(s)| == |s|
    ensures forall i :: 0 <= i < |s| ==> DisplayName(s)[i] == DisplayChar(s, i)
    decreases |s|
  {
    if '-' !in s {
      SplitNoSep(s, '-');
      assert MapStrings(Capitalize, [s]) == [Capitalize(s)];
    } else {
      var k := IndexOf(s, '-');
      var w, t := s[..k], s[k + 1..];
      assert s == w + "-" + t;
      DisplayNameFirstWord(w, t);
      DisplayNameChars(t);
      DisplayNamePieces(s, w, t);
    }
  }

  lemma DisplayNamePieces(s: string, w: string, t: string)
    requires s == w + "-" + t && '-' !in w
    requires |DisplayName(t)| == |t|
    requires forall i :: 0 <= i < |t| ==> DisplayName(t)[i] == DisplayChar(t, i)
    requires DisplayName(s) == Capitalize(w) + " " + DisplayName(t)
    ensures |DisplayName(s)| == |s|
    ensures forall i :: 0 <= i < |s| ==> DisplayName(s)[i] == DisplayChar(s, i)
  {
    var r, k := DisplayName(s), |w|;
    forall i | 0 <= i < |s|
      ensures r[i] == DisplayChar(s, i)
    {
      if i < k {
        assert s[i] == w[i] && r[i] == Capitalize(w)[i];
        if i > 0 {
          assert s[i - 1] == w[i - 1];
          assert Capitalize(w)[i] == Capitalize(w)[1..][i - 1];
        }
      } else if i > k {
        assert s[i] == t[i - k - 1];
        assert r[i] == DisplayName(t)[i - k - 1];
        if i > k + 1 {
          assert s[i - 1] == t[i - k - 2];
        }
      }
    }
  }

  // ---------------------------------------------------------------- arrays

  /** `Array.prototype.filter`. */
  function Filter<T>(s: seq<T>, p: T -> bool): (r: seq<T>)
    ensures |r| <= |s|
    ensures forall i :: 0 <= i < |r| ==> r[i] in s && p(r[i])
    ensures forall i :: 0 <= i < |s| && p(s[i]) ==> s[i] in r
  {
    if s == [] then [] else if p(s[0]) then [s[0]] + Filter(s[1..], p) else Filter(s[1..], p)
  }

  /** Filters by two tests that agree everywhere give the same list. */
  lemma {:induction false} FilterSame<T>(s: seq<T>, p: T -> bool, q: T -> bool)
    requires forall x :: p(x) == q(x)
    ensures Filter(s, p) == Filter(s, q)
  {
    if s != [] {
      FilterSame(s[1..], p, q);
    }
  }

  /** `a` is `b` with some elements removed, the rest in the same order. */
  predicate IsSubsequence<T(==)>(a: seq<T>, b: seq<T>)
  {
    a == [] || (|b| > 0 && ((a[0] == b[0] && IsSubsequence(a[1..], b[1..])) || IsSubsequence(a, b[1..])))
  }

  /** Filtering keeps the survivors in their original order. */
  lemma {:induction false} FilterIsSubsequence<T>(s: seq<T>, p: T -> bool)
    ensures IsSubsequence(Filter(s, p), s)
  {
    if s != [] {
      FilterIsSubsequence(s[1..], p);
      if p(s[0]) {
        assert Filter(s, p)[1..] == Filter(s[1..], p);
      }
    }
  }

  /** A filter whose test every element passes changes nothing. */
  lemma {:induction false} FilterAll<T>(s: seq<T>, p: T -> bool)
    requires forall i :: 0 <= i < |s| ==> p(s[i])
    ensures Filter(s, p) == s
  {
    if s != [] {
      FilterAll(s[1..], p);
    }
  }

  /** `s.slice(0, n)`: a negative `n` counts from the end, as in JavaScript. */
  function SliceTo<T>(s: seq<T>, n: int): (r: seq<T>)
    ensures n >= 0 ==> |r| == (if n < |s| then n else |s|)
    ensures n < 0 ==> |r| == (if |s| + n > 0 then |s| + n else 0)
    ensures r == s[..|r|]
  {
    var k := if n >= 0 then (if n < |s| then n else |s|) else (if |s| + n > 0 then |s| + n else 0);
    s[..k]
  }

  /** `Array.prototype.map` with a conditional update: the elements passing `p` are replaced
      by their image under `f`, the others are kept, in place. */
  function MapWhere<T>(s: seq<T>, p: T -> bool, f: T -> T): (r: seq<T>)
    ensures |r| == |s|
    ensures forall i :: 0 <= i < |s| ==> r[i] == (if p(s[i]) then f(s[i]) else s[i])
  {
    if s == [] then [] else [if p(s[0]) then f(s[0]) else s[0]] + MapWhere(s[1..], p, f)
  }

  /** Applying an update twice is applying it once, when the update is itself idempotent and
      leaves the selection test unchanged. */
  lemma MapWhereIdempotent<T>(s: seq<T>, p: T -> bool, f: T -> T)
    requires forall x :: p(x) ==> p(f(x)) && f(f(x)) == f(x)
    ensures MapWhere(MapWhere(s, p, f), p, f) == MapWhere(s, p, f)
  {
  }

  /** The position of the first element passing `p`, or `|s|` when there is none. */
  function FindIndex<T>(s: seq<T>, p: T -> bool): (k: nat)
    ensures k <= |s|
    ensures forall j :: 0 <= j < k ==> !p(s[j])
    ensures k < |s| ==> p(s[k])
  {
    if s == [] then 0 else if p(s[0]) then 0 else 1 + FindIndex(s[1..], p)
  }

  /** `Array.prototype.find`: the first element passing `p`. */
  function Find<T>(s: seq<T>, p: T -> bool): (r: Option<T>)
    ensures r.None? <==> forall i :: 0 <= i < |s| ==> !p(s[i])
    ensures r.Some? ==> p(r.value) && r.value in s
    ensures r.Some? <==> FindIndex(s, p) < |s|
    ensures r.Some? ==> r.value == s[FindIndex(s, p)]
  {
    var k := FindIndex(s, p);
    if k < |s| then Some(s[k]) else None
  }

  /** The number of elements passing `p`. */
  function Count<T>(s: seq<T>, p: T -> bool): (n: nat)
    ensures n <= |s|
  {
    |Filter(s, p)|
  }

  /** `reduce((sum, x) => sum + f(x), 0)`. */
  function Sum<T>(s: seq<T>, f: T -> int): int
  {
    if s == [] then 0 else f(s[0]) + Sum(s[1..], f)
  }

  /** A sum of terms between 0 and `b` lies between 0 and `b` times the number of terms. */
  lemma {:induction false} SumBounds<T>(s: seq<T>, f: T -> int, b: nat)
    requires forall i :: 0 <= i < |s| ==> 0 <= f(s[i]) <= b
    ensures 0 <= Sum(s, f) <= b * |s|
  {
    if s != [] {
      SumBounds(s[1..], f, b);
      assert b * |s| == b * |s[1..]| + b;
    }
  }

  /** With no negative term, every term is at most the sum. */
  lemma {:induction false} SumAtLeastTerm<T>(s: seq<T>, f: T -> int, i: nat)
    requires forall j :: 0 <= j < |s| ==> f(s[j]) >= 0
    requires i < |s|
    ensures f(s[i]) <= Sum(s, f)
  {
    if i > 0 {
      SumAtLeastTerm(s[1..], f, i - 1);
    } else {
      SumNonNegative(s[1..], f);
    }
  }

  lemma {:induction false} SumNonNegative<T>(s: seq<T>, f: T -> int)
    requires forall j :: 0 <= j < |s| ==> f(s[j]) >= 0
    ensures Sum(s, f) >= 0
  {
    if s != [] {
      SumNonNegative(s[1..], f);
    }
  }

  /** Appending an element adds its term to the sum. */
  lemma {:induction false} SumAppend<T>(s: seq<T>, x: T, f: T -> int)
    ensures Sum(s + [x], f) == Sum(s, f) + f(x)
  {
    if s == [] {
      assert [x][1..] == [];
    } else {
      SumAppend(s[1..], x, f);
      assert (s + [x])[1..] == s[1..] + [x];
    }
  }

  // ---------------------------------------------------------------- numbers

  function DigitChar(d: nat): (c: char)
    requires d < 10
  {
    ['0', '1', '2', '3', '4', '5', '6', '7', '8', '9'][d]
  }

  /** Decimal rendering of a natural number, as a template literal prints it. */
  function NatToString(n: nat): (r: string)
    ensures |r| > 0
    ensures forall i :: 0 <= i < |r| ==> '0' <= r[i] <= '9'
  {
    if n < 10 then [DigitChar(n)] else NatToString(n / 10) + [DigitChar(n % 10)]
  }

  /** The value a decimal numeral denotes. */
  function DecimalValue(s: string): int
  {
    if s == [] then 0 else DecimalValue(s[..|s| - 1]) * 10 + (s[|s| - 1] as int - '0' as int)
  }

  /** Reading back the numeral gives the number: the rendering loses nothing. */
  lemma {:induction false} NatToStringValue(n: nat)
    ensures DecimalValue(NatToString(n)) == n
  {
    if n >= 10 {
      NatToStringValue(n / 10);
      var r := NatToString(n);
      assert r[..|r| - 1] == NatToString(n / 10);
    }
  }

  function Min(a: int, b: int): int { if a < b then a else b }
  function Max(a: int, b: int): int { if a < b then b else a }
}
