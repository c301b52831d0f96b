/** String helpers with the JavaScript semantics the web client relies on.
    Strings are sequences of `char`; JavaScript's UTF-16 code units are not
    distinguished from Unicode scalar values here. */
module Text {

  /** Whitespace as JavaScript's `trim`, `trimEnd` and the regular-expression
      class `\s` define it: the WhiteSpace and LineTerminator code points. */
  predicate IsSpace(c: char) {
    var n := c as int;
    (9 <= n <= 13) || n == 32 || n == 0xA0 || n == 0x1680 || (0x2000 <= n <= 0x200A) || n == 0x2028 || n == 0x2029 || n == 0x202F || n == 0x205F || n == 0x3000 || n == 0xFEFF
  }

  /** Every character of `s` is whitespace (the empty string included). */
  predicate IsBlank(s: string) {
    forall i :: 0 <= i < |s| ==> IsSpace(s[i])
  }

  /** `s.trimEnd()`: drops the trailing whitespace. */
  function TrimEnd(s: string): (r: string)
    ensures |r| <= |s| && r == s[..|r|]
    ensures r == [] || !IsSpace(r[|r| - 1])
  {
    if |s| > 0 && IsSpace(s[|s| - 1]) then TrimEnd(s[..|s| - 1]) else s
  }

  /** What `TrimEnd` drops is whitespace only. */
  lemma {:induction false} TrimEndDropsBlank(s: string)
    ensures IsBlank(s[|TrimEnd(s)|..])
    decreases |s|
  {
    if |s| > 0 && IsSpace(s[|s| - 1]) {
      var p := s[..|s| - 1];
      TrimEndDropsBlank(p);
      assert s[|TrimEnd(s)|..] == p[|TrimEnd(p)|..] + [s[|s| - 1]];
    }
  }

  /** Trailing whitespace does not change what `TrimEnd` keeps. */
  lemma {:induction false} TrimEndBlankSuffix(s: string, ws: string)
    requires IsBlank(ws)
    ensures TrimEnd(s + ws) == TrimEnd(s)
    decreases |ws|
  {
    if ws != [] {
      var p := ws[..|ws| - 1];
      assert (s + ws)[..|s + ws| - 1] == s + p;
      TrimEndBlankSuffix(s, p);
    } else {
      assert s + ws == s;
    }
  }

  /** `TrimEnd` leaves nothing exactly when the text is whitespace only. */
  lemma TrimEndEmptyIffBlank(s: string)
    ensures TrimEnd(s) == [] <==> IsBlank(s)
  {
    TrimEndDropsBlank(s);
    if TrimEnd(s) != [] {
      var r := TrimEnd(s);
      assert s[|r| - 1] == r[|r| - 1];
    }
  }

  /** `s.trim()`: drops the leading and the trailing whitespace. */
  function Trim(s: string): string
    decreases |s|
  {
    if |s| > 0 && IsSpace(s[0]) then Trim(s[1..])
    else if |s| > 0 && IsSpace(s[|s| - 1]) then Trim(s[..|s| - 1])
    else s
  }

  lemma {:induction false} TrimEmptyIffBlank(s: string)
    ensures Trim(s) == [] <==> IsBlank(s)
    decreases |s|
  {
    if |s| > 0 && IsSpace(s[0]) {
      TrimEmptyIffBlank(s[1..]);
      assert IsBlank(s) <==> IsBlank(s[1..]) by {
        if IsBlank(s[1..]) {
          forall k | 0 <= k < |s| ensures IsSpace(s[k]) {
            if k > 0 { assert s[k] == s[1..][k - 1]; }
          }
        }
      }
    } else if |s| > 0 && IsSpace(s[|s| - 1]) {
      var p := s[..|s| - 1];
      TrimEmptyIffBlank(p);
      assert p[0] == s[0];
    } else if |s| > 0 {
      assert !IsSpace(s[0]);
    }
  }

  /** Trimming ignores one more trailing whitespace character. */
  lemma {:induction false} TrimDropsTrailingSpace(s: string, c: char)
    requires IsSpace(c)
    ensures Trim(s + [c]) == Trim(s)
    decreases |s|
  {
    var t := s + [c];
    if s == [] {
      assert t[1..] == [];
    } else if IsSpace(s[0]) {
      assert t[1..] == s[1..] + [c];
      TrimDropsTrailingSpace(s[1..], c);
    } else {
      assert t[..|t| - 1] == s;
    }
  }

  /** The number of whitespace characters `s` starts with. */
  function LeadingSpaces(s: string): (n: nat)
    ensures n <= |s|
  {
    if |s| > 0 && IsSpace(s[0]) then 1 + LeadingSpaces(s[1..]) else 0
  }

  /** What `Trim` keeps neither starts nor ends with whitespace. */
  lemma {:induction false} TrimEnds(s: string)
    ensures var r := Trim(s);
      r == [] || (!IsSpace(r[0]) && !IsSpace(r[|r| - 1]))
    decreases |s|
  {
    if |s| > 0 && IsSpace(s[0]) {
      TrimEnds(s[1..]);
    } else if |s| > 0 && IsSpace(s[|s| - 1]) {
      TrimEnds(s[..|s| - 1]);
    }
  }

  /** What `Trim` keeps is `s` without its leading and its trailing
      whitespace: only whitespace lies before and after it. */
  lemma {:induction false} TrimIsMiddle(s: string)
    ensures var r := Trim(s);
      var i := LeadingSpaces(s);
      && i + |r| <= |s|
      && IsBlank(s[..i]) && s[i..i + |r|] == r && IsBlank(s[i + |r|..])
    decreases |s|
  {
    if |s| > 0 && IsSpace(s[0]) {
      TrimIsMiddle(s[1..]);
      BlankAroundCons(s, LeadingSpaces(s[1..]), Trim(s));
    } else if |s| > 0 && IsSpace(s[|s| - 1]) {
      var p := s[..|s| - 1];
      TrimIsMiddle(p);
      assert LeadingSpaces(p) == 0;
      BlankAroundSnoc(s, Trim(s));
    } else {
      assert Trim(s) == s && LeadingSpaces(s) == 0;
      assert s[..0] == [] && s[0..|s|] == s && s[|s|..] == [];
    }
  }

  lemma BlankAroundCons(s: string, i: nat, r: string)
    requires |s| > 0 && IsSpace(s[0])
    requires i + |r| <= |s| - 1
    requires var t := s[1..]; IsBlank(t[..i]) && t[i..i + |r|] == r && IsBlank(t[i + |r|..])
    ensures IsBlank(s[..1 + i]) && s[1 + i..1 + i + |r|] == r && IsBlank(s[1 + i + |r|..])
  {
    var t := s[1..];
    assert s[1 + i..1 + i + |r|] == t[i..i + |r|];
    assert s[1 + i + |r|..] == t[i + |r|..];
    forall k | 0 <= k < 1 + i ensures IsSpace(s[k]) {
      if k > 0 { assert s[k] == t[..i][k - 1]; }
    }
  }

  lemma BlankAroundSnoc(s: string, r: string)
    requires |s| > 0 && IsSpace(s[|s| - 1])
    requires var p := s[..|s| - 1]; |r| <= |p| && p[0..|r|] == r && IsBlank(p[|r|..])
    ensures s[0..|r|] == r && IsBlank(s[|r|..])
  {
    var p := s[..|s| - 1];
    assert s[0..|r|] == p[0..|r|];
    assert s[|r|..] == p[|r|..] + [s[|s| - 1]];
  }

  /** Leading whitespace does not change what `Trim` keeps. */
  lemma {:induction false} TrimBlankPrefix(ws: string, s: string)
    requires IsBlank(ws)
    ensures Trim(ws + s) == Trim(s)
    decreases |ws|
  {
    if ws != [] {
      assert (ws + s)[0] == ws[0] && (ws + s)[1..] == ws[1..] + s;
      TrimBlankPrefix(ws[1..], s);
    } else {
      assert ws + s == s;
    }
  }

  /** Trailing whitespace does not change what `Trim` keeps. */
  lemma {:induction false} TrimBlankSuffix(s: string, ws: string)
    requires IsBlank(ws)
    ensures Trim(s + ws) == Trim(s)
    decreases |ws|
  {
    if ws != [] {
      var p := ws[..|ws| - 1];
      assert s + ws == (s + p) + [ws[|ws| - 1]];
      TrimDropsTrailingSpace(s + p, ws[|ws| - 1]);
      TrimBlankSuffix(s, p);
    } else {
      assert s + ws == s;
    }
  }

  predicate StartsWith(s: string, prefix: string) {
    |prefix| <= |s| && s[..|prefix|] == prefix
  }

  predicate EndsWith(s: string, suffix: string) {
    |suffix| <= |s| && s[|s| - |suffix|..] == suffix
  }

  /** `haystack.includes(needle)`: `needle` occurs at some position. */
  predicate Contains(haystack: string, needle: string)
    decreases |haystack|
  {
    StartsWith(haystack, needle) || (|haystack| > 0 && Contains(haystack[1..], needle))
  }

  /** `needle` occurs in `haystack` starting at index `i`. */
  predicate OccursAt(haystack: string, needle: string, i: nat) {
    i + |needle| <= |haystack| && haystack[i..i + |needle|] == needle
  }

  lemma {:induction false} ContainsAt(haystack: string, needle: string)
    ensures Contains(haystack, needle) <==> exists i :: OccursAt(haystack, needle, i)
    decreases |haystack|
  {
    if StartsWith(haystack, needle) {
      assert OccursAt(haystack, needle, 0);
    } else if |haystack| > 0 {
      ContainsAt(haystack[1..], needle);
      if Contains(haystack[1..], needle) {
        var i: nat :| OccursAt(haystack[1..], needle, i);
        assert haystack[1..][i..i + |needle|] == haystack[i + 1..i + 1 + |needle|];
        assert OccursAt(haystack, needle, i + 1);
      }
      if i: nat :| OccursAt(haystack, needle, i) {
        assert i > 0;
        assert haystack[1..][i - 1..i - 1 + |needle|] == haystack[i..i + |needle|];
        assert OccursAt(haystack[1..], needle, i - 1);
      }
    }
  }

  /** `toLowerCase` restricted to ASCII letters. */
  function LowerChar(c: char): (r: char)
    ensures 'A' <= c <= 'Z' ==> r as int == c as int + 32
    ensures !('A' <= c <= 'Z') ==> r == c
  {
    if 'A' <= c <= 'Z' then (c as int + 32) as char else c
  }

  function ToLower(s: string): (r: string)
    ensures |r| == |s|
    ensures forall i :: 0 <= i < |s| ==> r[i] == LowerChar(s[i])
  {
    seq(|s|, i requires 0 <= i < |s| => LowerChar(s[i]))
  }

  /** `parts.join(sep)`. */
  function Join(parts: seq<string>, sep: string): (r: string)
    ensures parts == [] ==> r == []
    ensures |parts| == 1 ==> r == parts[0]
  {
    if parts == [] then []
    else if |parts| == 1 then parts[0]
    else parts[0] + sep + Join(parts[1..], sep)
  }

  lemma {:induction false} JoinAppend(parts: seq<string>, last: string, sep: string)
    requires parts != []
    ensures Join(parts + [last], sep) == Join(parts, sep) + sep + last
  {
    if |parts| == 1 {
      assert parts + [last] == [parts[0], last];
    } else {
      assert (parts + [last])[1..] == parts[1..] + [last];
      JoinAppend(parts[1..], last, sep);
    }
  }

  /** Index of the first occurrence of `c`, or `|s|` when there is none. */
  function IndexOf(s: string, c: char): (r: nat)
    ensures r <= |s|
    ensures c !in s[..r]
    ensures r < |s| <==> c in s
    ensures r < |s| ==> s[r] == c
  {
    if s == [] then 0 else if s[0] == c then 0 else 1 + IndexOf(s[1..], c)
  }

  /** `s.split(c)` for a one-character separator: the pieces between the
      separators, always at least one (the empty string splits into [""]). */
  function Split(s: string, c: char): (r: seq<string>)
    ensures |r| >= 1
    ensures forall k :: 0 <= k < |r| ==> c !in r[k]
    decreases |s|
  {
    var i := IndexOf(s, c);
    if i == |s| then [s] else [s[..i]] + Split(s[i + 1..], c)
  }

  /** Cutting at the first separator: a piece without `c`, the separator, the rest. */
  lemma {:induction false} SplitCons(head: string, c: char, rest: string)
    requires c !in head
    ensures Split(head + [c] + rest, c) == [head] + Split(rest, c)
  {
    var s := head + [c] + rest;
    assert s[..|head|] == head;
    assert s[|head|] == c;
    assert s[|head| + 1..] == rest;
    assert IndexOf(s, c) == |head| by {
      IndexOfFirst(s, c, |head|);
    }
  }

  lemma {:induction false} IndexOfFirst(s: string, c: char, k: nat)
    requires k < |s| && s[k] == c && c !in s[..k]
    ensures IndexOf(s, c) == k
  {
    if k > 0 {
      assert s[0] in s[..k];
      assert s[1..][..k - 1] == s[..k][1..];
      IndexOfFirst(s[1..], c, k - 1);
    }
  }

  lemma {:induction false} SplitNoSeparator(s: string, c: char)
    requires c !in s
    ensures Split(s, c) == [s]
  {
  }

  /** Decimal digits of a natural number, as template literals print it. */
  function NatToString(n: nat): (r: string)
    ensures |r| >= 1
    ensures forall i :: 0 <= i < |r| ==> '0' <= r[i] <= '9'
    ensures |r| > 1 ==> r[0] != '0'
    ensures DecimalValue(r) == n
  {
    var d := ['0' + (n % 10) as char];
    if n < 10 then d
    else
      var r := NatToString(n / 10) + d;
      assert r[..|r| - 1] == NatToString(n / 10);
      r
  }

  /** The number a string of decimal digits denotes. */
  function DecimalValue(s: string): int {
    if s == [] then 0 else 10 * DecimalValue(s[..|s| - 1]) + (s[|s| - 1] as int - '0' as int)
  }
}
