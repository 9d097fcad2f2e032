/** ASCII versions of the string built-ins the front end calls:
    `trim`, `toLowerCase`, `includes` and `split` on one character. */
module Text {

  /** The ASCII characters `String.prototype.trim` removes. */
  predicate IsSpace(c: char) {
    c == ' ' || c == '\t' || c == '\n' || c == '\r' || c as int == 11 || c as int == 12
  }

  predicate AllSpace(s: string) {
    forall k :: 0 <= k < |s| ==> IsSpace(s[k])
  }

  /** The number of white-space characters `s` starts with. */
  function Leading(s: string): (n: nat)
    ensures n <= |s|
    ensures forall k :: 0 <= k < n ==> IsSpace(s[k])
    ensures n < |s| ==> !IsSpace(s[n])
  {
    if |s| > 0 && IsSpace(s[0]) then 1 + Leading(s[1..]) else 0
  }

  /** The number of white-space characters `s` ends with. */
  function Trailing(s: string): (n: nat)
    ensures n <= |s|
    ensures forall k :: |s| - n <= k < |s| ==> IsSpace(s[k])
    ensures n < |s| ==> !IsSpace(s[|s| - 1 - n])
  {
    if |s| > 0 && IsSpace(s[|s| - 1]) then 1 + Trailing(s[..|s| - 1]) else 0
  }

  /** `s.trim()`: the slice of `s` left once its leading and then its
      trailing white space are dropped; it neither starts nor ends with
      white space. */
  function Trim(s: string): (r: string)
    ensures |r| <= |s|
    ensures r == [] || (!IsSpace(r[0]) && !IsSpace(r[|r| - 1]))
  {
    s[Leading(s)..TrimEndIndex(s)]
  }

  /** Where the trimmed slice of `s` ends. */
  function TrimEndIndex(s: string): (j: nat)
    ensures Leading(s) <= j <= |s|
  {
    |s| - Trailing(s[Leading(s)..])
  }

  /** Everything `Trim` drops is white space. */
  lemma TrimIsSlice(s: string)
    ensures Trim(s) == s[Leading(s)..TrimEndIndex(s)]
    ensures AllSpace(s[..Leading(s)]) && AllSpace(s[TrimEndIndex(s)..])
  {
    LeadingIsSpace(s);
    TrailingIsSpace(s);
  }

  lemma LeadingIsSpace(s: string)
    ensures AllSpace(s[..Leading(s)])
  {
    var p := s[..Leading(s)];
    forall k | 0 <= k < |p| ensures IsSpace(p[k]) {
      assert p[k] == s[k];
    }
  }

  lemma TrailingIsSpace(s: string)
    ensures AllSpace(s[TrimEndIndex(s)..])
  {
    var i := Leading(s);
    var t := s[i..];
    var j := TrimEndIndex(s);
    var p := s[j..];
    forall k | 0 <= k < |p| ensures IsSpace(p[k]) {
      assert p[k] == t[j - i + k];
    }
  }

  /** Trimming leaves nothing exactly when the text is all white space. */
  lemma TrimBlankIff(s: string)
    ensures Trim(s) == [] <==> AllSpace(s)
  {
    LeadingIsSpace(s);
    if Trim(s) == [] {
      assert s[..Leading(s)] == s;
    }
  }

  /** Trimming only removes characters. */
  lemma TrimAddsNothing(s: string, c: char)
    requires c !in s
    ensures c !in Trim(s)
  {
    TrimIsSlice(s);
  }

  /** A string without surrounding white space is its own trim. */
  lemma TrimOfUnpadded(s: string)
    requires s != [] && !IsSpace(s[0]) && !IsSpace(s[|s| - 1])
    ensures Trim(s) == s
  {
    assert Leading(s) == 0;
    assert s[0..] == s;
    assert Trailing(s) == 0;
  }

  /** Trimming twice is trimming once. */
  lemma TrimIdempotent(s: string)
    ensures Trim(Trim(s)) == Trim(s)
  {
    var t := Trim(s);
    if t != [] {
      TrimOfUnpadded(t);
    }
  }

  /** The ASCII case mapping `toLowerCase` applies. */
  function LowerChar(c: char): char {
    if 'A' <= c <= 'Z' then (c as int + 32) as char else c
  }

  predicate IsUpper(c: char) {
    'A' <= c <= 'Z'
  }

  /** `s.toLowerCase()` on ASCII text: same length, no upper-case letter left,
      every other character kept. */
  function ToLower(s: string): (r: string)
    ensures |r| == |s|
    ensures forall k :: 0 <= k < |r| ==> !IsUpper(r[k])
    ensures forall k :: 0 <= k < |r| && !IsUpper(s[k]) ==> r[k] == s[k]
  {
    seq(|s|, k requires 0 <= k < |s| => LowerChar(s[k]))
  }

  lemma ToLowerIdempotent(s: string)
    ensures ToLower(ToLower(s)) == ToLower(s)
  {
  }

  predicate StartsWith(s: string, prefix: string) {
    |prefix| <= |s| && s[..|prefix|] == prefix
  }

  /** `hay.includes(needle)`, scanning left to right. */
  function Includes(hay: string, needle: string): bool
  {
    StartsWith(hay, needle) || (|hay| > 0 && Includes(hay[1..], needle))
  }

  /** `needle` occurs in `hay` starting at position `i`. */
  predicate OccursAt(hay: string, needle: string, i: int) {
    0 <= i <= |hay| - |needle| && hay[i..i + |needle|] == needle
  }

  /** The scan finds `needle` exactly when it occurs somewhere in `hay`. */
  lemma {:induction false} IncludesIffOccurs(hay: string, needle: string)
    ensures Includes(hay, needle) <==> exists i :: OccursAt(hay, needle, i)
  {
    if StartsWith(hay, needle) {
      assert OccursAt(hay, needle, 0);
    } else if |hay| > 0 {
      IncludesIffOccurs(hay[1..], needle);
      if Includes(hay[1..], needle) {
        var i :| OccursAt(hay[1..], needle, i);
        assert hay[i + 1..i + 1 + |needle|] == hay[1..][i..i + |needle|];
        assert OccursAt(hay, needle, i + 1);
      }
      if exists i :: OccursAt(hay, needle, i) {
        var i :| OccursAt(hay, needle, i);
        assert i != 0;
        assert hay[1..][i - 1..i - 1 + |needle|] == hay[i..i + |needle|];
        assert OccursAt(hay[1..], needle, i - 1);
      }
    }
  }

  /** The empty string is found in every string. */
  lemma IncludesEmpty(hay: string)
    ensures Includes(hay, "")
  {
    assert StartsWith(hay, "");
  }

  /** Case-insensitive `includes`, as the job search writes it:
      both sides lower-cased first. */
  predicate IncludesIgnoringCase(hay: string, needle: string) {
    Includes(ToLower(hay), ToLower(needle))
  }

  /** A string always contains itself, whatever its case. */
  lemma {:induction false} IncludesItself(s: string)
    ensures IncludesIgnoringCase(s, s)
  {
    var l := ToLower(s);
    assert l[..|l|] == l;
    assert StartsWith(l, l);
  }

  /** `s.split(sep)` for a one-character separator: `""` gives `[""]` and
      adjacent separators give empty pieces. */
  function Split(s: string, sep: char): (r: seq<string>)
    ensures |r| >= 1
    ensures forall k :: 0 <= k < |r| ==> sep !in r[k]
  {
    if |s| == 0 then [""]
    else if s[0] == sep then [""] + Split(s[1..], sep)
    else
      var rest := Split(s[1..], sep);
      [[s[0]] + rest[0]] + rest[1..]
  }

  /** `pieces.join(sep)`. */
  function Join(pieces: seq<string>, sep: char): string
    requires |pieces| >= 1
  {
    if |pieces| == 1 then pieces[0] else pieces[0] + [sep] + Join(pieces[1..], sep)
  }

  function Count(s: string, c: char): nat {
    if s == [] then 0 else (if s[0] == c then 1 else 0) + Count(s[1..], c)
  }

  /** Splitting loses nothing: joining the pieces gives back the text, and
      there is one piece more than there are separators. */
  lemma {:induction false} SplitJoin(s: string, sep: char)
    ensures Join(Split(s, sep), sep) == s
    ensures |Split(s, sep)| == Count(s, sep) + 1
  {
    if |s| > 0 {
      SplitJoin(s[1..], sep);
      var rest := Split(s[1..], sep);
      if s[0] == sep {
        assert Split(s, sep)[1..] == rest;
        assert s == [sep] + s[1..];
      } else {
        var r := Split(s, sep);
        assert r[0] == [s[0]] + rest[0];
        if |rest| == 1 {
          assert s == [s[0]] + s[1..];
        } else {
          assert r[1..] == rest[1..];
          assert s == [s[0]] + s[1..];
        }
      }
    }
  }
}
