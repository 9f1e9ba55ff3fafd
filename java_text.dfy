/** The few `java.lang.String` and Apache Commons `StringUtils` operations the
    request processor relies on, with their Java semantics written out. */
module JavaText {
  import opened Json

  /** Index of the first `c` in `s`, or `|s|` when `s` has none. */
  function IndexOf(s: string, c: char): (i: nat)
    ensures i <= |s|
    ensures i < |s| ==> s[i] == c
    ensures forall k :: 0 <= k < i ==> s[k] != c
  {
    if |s| == 0 then 0 else if s[0] == c then 0 else 1 + IndexOf(s[1..], c)
  }

  /** The part of `s` before its first `c` (all of `s` when there is none). */
  function BeforeFirst(s: string, c: char): (r: string)
    ensures r <= s && c !in r
    ensures |r| < |s| ==> s[|r|] == c
  {
    s[..IndexOf(s, c)]
  }

  /** `s` cut at every `c`, empty pieces included: one piece more than `s` has `c`s. */
  function Pieces(s: string, c: char): (r: seq<string>)
    ensures |r| >= 1 && r[0] == BeforeFirst(s, c)
    ensures forall k :: 0 <= k < |r| ==> c !in r[k]
    decreases |s|
  {
    var i := IndexOf(s, c);
    if i == |s| then [s] else [s[..i]] + Pieces(s[i + 1..], c)
  }

  /** `p` without its trailing run of empty strings. */
  function DropTrailingEmpty(p: seq<string>): (r: seq<string>)
    ensures r <= p
    ensures r == [] || r[|r| - 1] != ""
    ensures forall k :: |r| <= k < |p| ==> p[k] == ""
  {
    if p == [] then []
    else if p[|p| - 1] == "" then DropTrailingEmpty(p[..|p| - 1])
    else p
  }

  /** `s.split(c)` in Java, for a one-character pattern that is not a regular
      expression metacharacter (`"_"`, `","`): limit 0, so trailing empty
      strings are removed, except that an input with no match yields `[s]`. */
  function Split(s: string, c: char): (r: seq<string>)
    ensures forall k :: 0 <= k < |r| ==> c !in r[k]
  {
    if c !in s then [s] else DropTrailingEmpty(Pieces(s, c))
  }

  /** `StringUtils.join(parts, sep)`. */
  function Join(parts: seq<string>, sep: string): (r: string)
    ensures |parts| > 0 ==> parts[0] <= r
    ensures |parts| > 0 ==> |r| == TotalLength(parts) + (|parts| - 1) * |sep|
  {
    if |parts| == 0 then ""
    else if |parts| == 1 then parts[0]
    else parts[0] + sep + Join(parts[1..], sep)
  }

  /** The summed lengths of `parts`. */
  function TotalLength(parts: seq<string>): nat
  {
    if parts == [] then 0 else |parts[0]| + TotalLength(parts[1..])
  }

  /** `Character.isWhitespace`: the Unicode space, line and paragraph separators
      other than the non-breaking ones, and the ASCII controls U+0009-U+000D,
      U+001C-U+001F. */
  predicate IsWhitespace(ch: char)
  {
    || ch == ' '
    || '\t' <= ch <= '\r'
    || '\U{1C}' <= ch <= '\U{1F}'
    || ch == '\U{1680}'
    || '\U{2000}' <= ch <= '\U{2006}'
    || '\U{2008}' <= ch <= '\U{200A}'
    || ch == '\U{2028}' || ch == '\U{2029}'
    || ch == '\U{205F}' || ch == '\U{3000}'
  }

  /** `StringUtils.isBlank`: null, empty, or whitespace only. */
  predicate IsBlank(s: Option<string>)
  {
    s.None? || forall k :: 0 <= k < |s.value| ==> IsWhitespace(s.value[k])
  }

  /** `StringUtils.isBlank` on typical job parameters: `null`, empty and
      whitespace-only values are blank, so is an ideographic space; a value
      with an id in it is not, nor is a no-break space, which Java does not
      count as whitespace. */
  lemma IsBlankCases()
    ensures IsBlank(None) && IsBlank(Some("")) && IsBlank(Some(" \t\n"))
    ensures IsBlank(Some("\U{3000}"))
    ensures !IsBlank(Some(" s1 ")) && !IsBlank(Some("\U{A0}"))
  {
    assert !IsWhitespace(" s1 "[1]);
    assert !IsWhitespace("\U{A0}"[0]);
  }

  /** `s` is made of `c`s only (possibly none). */
  predicate OnlyChar(s: string, c: char)
  {
    forall k :: 0 <= k < |s| ==> s[k] == c
  }

  /** Every string of `p` is empty. */
  predicate AllEmpty(p: seq<string>)
  {
    forall k :: 0 <= k < |p| ==> p[k] == ""
  }

  /** Every piece is empty exactly when `s` is made of `c`s only. */
  lemma {:induction false} PiecesAllEmpty(s: string, c: char)
    ensures AllEmpty(Pieces(s, c)) <==> OnlyChar(s, c)
    decreases |s|
  {
    var i := IndexOf(s, c);
    var p := Pieces(s, c);
    if i < |s| {
      var rest := s[i + 1..];
      PiecesAllEmpty(rest, c);
      assert p == [s[..i]] + Pieces(rest, c);
      assert p[1..] == Pieces(rest, c);
      if i == 0 {
        assert s == [c] + rest;
        assert OnlyChar(s, c) <==> OnlyChar(rest, c);
        assert AllEmpty(p) <==> AllEmpty(p[1..]);
      } else {
        assert s[0] != c && p[0] != "";
      }
    } else if |s| > 0 {
      assert s[0] != c && p[0] != "";
    }
  }

  /** Java's `requestId.split("_")[0]`: it exists unless `s` is non-empty and
      made of `c`s only (an `ArrayIndexOutOfBoundsException` in Java), and it
      is then the part of `s` before the first `c`. */
  lemma SplitHead(s: string, c: char)
    ensures |Split(s, c)| == 0 <==> s != [] && OnlyChar(s, c)
    ensures |Split(s, c)| > 0 ==> Split(s, c)[0] == BeforeFirst(s, c)
  {
    if c in s {
      var p := Pieces(s, c);
      var r := DropTrailingEmpty(p);
      PiecesAllEmpty(s, c);
      if r != [] {
        assert r[0] == p[0];
        assert r[|r| - 1] == p[|r| - 1] != "";
      }
    } else if s != [] {
      assert s[0] != c;
    }
  }

  /** When the first `c` of `s` is at `i > 0`, Java's `s.split(c)[0]` is `s[..i]`. */
  lemma SplitHeadAt(s: string, c: char, i: nat)
    requires 0 < i < |s| && s[i] == c
    requires forall k :: 0 <= k < i ==> s[k] != c
    ensures |Split(s, c)| > 0 && Split(s, c)[0] == s[..i]
  {
    SplitHead(s, c);
    assert IndexOf(s, c) == i;
    assert s[0] != c;
  }

  /** `Pieces` undoes a join on `c` of pieces free of `c`. */
  lemma {:induction false} PiecesOfJoin(parts: seq<string>, c: char)
    requires parts != []
    requires forall k :: 0 <= k < |parts| ==> c !in parts[k]
    ensures Pieces(Join(parts, [c]), c) == parts
  {
    var s := Join(parts, [c]);
    if |parts| == 1 {
      assert IndexOf(s, c) == |s|;
    } else {
      var a, rest := parts[0], Join(parts[1..], [c]);
      assert s == a + [c] + rest;
      var i := IndexOf(s, c);
      assert s[|a|] == c;
      assert i == |a|;
      assert s[..i] == a;
      assert s[i + 1..] == rest;
      PiecesOfJoin(parts[1..], c);
      assert Pieces(s, c) == [a] + parts[1..];
    }
  }

  /** Splitting a list joined with `c` gives the list back without its trailing
      empty strings, provided no element contains `c` and the list is not the
      single empty string (whose split is `[""]`). */
  lemma SplitOfJoin(parts: seq<string>, c: char)
    requires parts != []
    requires forall k :: 0 <= k < |parts| ==> c !in parts[k]
    requires |parts| > 1 || parts[0] != ""
    ensures Split(Join(parts, [c]), c) == DropTrailingEmpty(parts)
  {
    var s := Join(parts, [c]);
    if |parts| > 1 {
      PiecesOfJoin(parts, c);
      assert s == parts[0] + [c] + Join(parts[1..], [c]);
      assert s[|parts[0]|] == c;
    } else {
      assert s == parts[0] && c !in s;
      assert DropTrailingEmpty(parts) == parts;
    }
  }

  /** Round trip: splitting a list joined with `c` gives the list back, provided
      no element contains `c` and the last element is not an empty string that
      Java's `split` would drop. */
  lemma SplitJoin(parts: seq<string>, c: char)
    requires parts != []
    requires forall k :: 0 <= k < |parts| ==> c !in parts[k]
    requires |parts| == 1 || parts[|parts| - 1] != ""
    ensures Split(Join(parts, [c]), c) == parts
  {
    var s := Join(parts, [c]);
    PiecesOfJoin(parts, c);
    if |parts| > 1 {
      assert s == parts[0] + [c] + Join(parts[1..], [c]);
      assert s[|parts[0]|] == c;
    } else {
      assert c !in s;
    }
  }
}
