/** String helpers mirroring the JavaScript string operations the application uses.
    Characters are Dafny `char`s; JavaScript counts UTF-16 code units instead. */
module Text {
  import opened Wrappers
  import opened Lists

  // ---------------------------------------------------------------------------
  // JavaScript truthiness for the `x || default` idiom

  /** `x || d` for an optional string: undefined and "" are falsy. */
  function OrText(x: Option<string>, d: string): (r: string)
    ensures r == d || (x.Some? && r == x.value)
    ensures x.Some? && x.value != "" ==> r == x.value
    ensures (x.None? || x.value == "") ==> r == d
  {
    if x.Some? && x.value != "" then x.value else d
  }

  /** `x || d` for an optional number: undefined and 0 are falsy. */
  function OrNumber(x: Option<int>, d: int): (r: int)
    ensures x.Some? && x.value != 0 ==> r == x.value
    ensures (x.None? || x.value == 0) ==> r == d
  {
    if x.Some? && x.value != 0 then x.value else d
  }

  /** `x || []` for an optional array: every array, even an empty one, is truthy. */
  function OrEmpty<T>(x: Option<seq<T>>): (r: seq<T>)
    ensures x.Some? ==> r == x.value
    ensures x.None? ==> r == []
  {
    if x.Some? then x.value else []
  }

  /** A string is truthy when it is present and non-empty. */
  predicate Truthy(x: Option<string>) {
    x.Some? && x.value != ""
  }

  // ---------------------------------------------------------------------------
  // Whitespace, as `String.prototype.trim` understands it

  predicate IsWhitespace(c: char) {
    c == ' ' || c == '\t' || c == '\n' || c == '\r' || c == '\U{000B}' || c == '\U{000C}'
    || c == '\U{00A0}' || c == '\U{FEFF}' || c == '\U{1680}' || ('\U{2000}' <= c <= '\U{200A}')
    || c == '\U{2028}' || c == '\U{2029}' || c == '\U{202F}' || c == '\U{205F}' || c == '\U{3000}'
  }

  /** `!s.trim()`: trimming leaves nothing exactly when every character is whitespace. */
  predicate IsBlank(s: string) {
    forall i :: 0 <= i < |s| ==> IsWhitespace(s[i])
  }

  // ---------------------------------------------------------------------------
  // Case mapping (ASCII letters only)

  function LowerChar(c: char): char {
    if 'A' <= c <= 'Z' then (c as int + 32) as char else c
  }

  function UpperChar(c: char): char {
    if 'a' <= c <= 'z' then (c as int - 32) as char else c
  }

  /** `s.toLowerCase()`, restricted to ASCII letters. */
  function Lower(s: string): (r: string)
    ensures |r| == |s|
    ensures forall i :: 0 <= i < |s| ==> r[i] == LowerChar(s[i])
  {
    seq(|s|, i requires 0 <= i < |s| => LowerChar(s[i]))
  }

  /** `s.toUpperCase()`, restricted to ASCII letters. */
  function Upper(s: string): (r: string)
    ensures |r| == |s|
    ensures forall i :: 0 <= i < |s| ==> r[i] == UpperChar(s[i])
  {
    seq(|s|, i requires 0 <= i < |s| => UpperChar(s[i]))
  }

  /** `s.charAt(0).toUpperCase() + s.slice(1)`. */
  function Capitalize(s: string): (r: string)
    ensures |r| == |s|
    ensures |s| > 0 ==> r[0] == UpperChar(s[0]) && r[1..] == s[1..]
  {
    if |s| == 0 then "" else [UpperChar(s[0])] + s[1..]
  }

  // ---------------------------------------------------------------------------
  // Substrings

  /** `sub` occurs in `s` starting at position `i`. */
  predicate OccursAt(s: string, sub: string, i: nat) {
    i + |sub| <= |s| && s[i..i + |sub|] == sub
  }

  /** `s.includes(sub)`. */
  predicate Contains(s: string, sub: string) {
    exists i: nat | i <= |s| :: OccursAt(s, sub, i)
  }

  /** The first occurrence of `sub` in `s` at or after `from`. */
  function IndexFrom(s: string, sub: string, from: nat): (r: Option<nat>)
    ensures r.Some? ==> from <= r.value && OccursAt(s, sub, r.value)
    ensures r.Some? ==> forall j :: from <= j < r.value ==> !OccursAt(s, sub, j)
    ensures r.None? ==> forall j :: from <= j ==> !OccursAt(s, sub, j)
    decreases |s| - from
  {
    if from + |sub| > |s| then None
    else if s[from..from + |sub|] == sub then Some(from)
    else IndexFrom(s, sub, from + 1)
  }

  /** `s.indexOf(sub)`, with None for -1. */
  function IndexOf(s: string, sub: string): (r: Option<nat>)
    ensures r.Some? ==> OccursAt(s, sub, r.value)
    ensures r.Some? ==> forall j :: 0 <= j < r.value ==> !OccursAt(s, sub, j)
    ensures r.None? <==> !Contains(s, sub)
  {
    IndexFrom(s, sub, 0)
  }

  /** `s.replace(pat, rep)` with a string pattern: only the first occurrence is replaced. */
  function ReplaceFirst(s: string, pat: string, rep: string): (r: string)
    ensures !Contains(s, pat) ==> r == s
    ensures Contains(s, pat) ==> exists i: nat :: OccursAt(s, pat, i) && r == s[..i] + rep + s[i + |pat|..]
    ensures Contains(s, pat) ==>
              var i := IndexOf(s, pat).value; r == s[..i] + rep + s[i + |pat|..]
  {
    match IndexOf(s, pat)
    case None => s
    case Some(i) => s[..i] + rep + s[i + |pat|..]
  }

  // ---------------------------------------------------------------------------
  // Split and join

  /** `s.split(sep)` for a non-empty separator: the pieces between non-overlapping
      occurrences of `sep`, found from left to right. */
  function Split(s: string, sep: string): (parts: seq<string>)
    requires |sep| > 0
    ensures |parts| >= 1
    decreases |s|
  {
    match IndexOf(s, sep)
    case None => [s]
    case Some(i) => [s[..i]] + Split(s[i + |sep|..], sep)
  }

  /** `parts.join(sep)`. */
  function Join(parts: seq<string>, sep: string): string
    decreases |parts|
  {
    if |parts| == 0 then ""
    else if |parts| == 1 then parts[0]
    else parts[0] + sep + Join(parts[1..], sep)
  }

  /** Joining one more part adds the separator and that part at the end. */
  lemma {:induction false} JoinSnoc(parts: seq<string>, last: string, sep: string)
    requires |parts| > 0
    ensures Join(parts + [last], sep) == Join(parts, sep) + sep + last
    decreases |parts|
  {
    if |parts| == 1 {
      assert (parts + [last])[1..] == [last];
    } else {
      JoinSnoc(parts[1..], last, sep);
      assert (parts + [last])[1..] == parts[1..] + [last];
    }
  }

  /** Joining two non-empty lists of parts puts the separator between their joins. */
  lemma {:induction false} JoinAppend(a: seq<string>, b: seq<string>, sep: string)
    requires |a| > 0 && |b| > 0
    ensures Join(a + b, sep) == Join(a, sep) + sep + Join(b, sep)
    decreases |a|
  {
    if |a| == 1 {
      assert (a + b)[1..] == b;
    } else {
      JoinAppend(a[1..], b, sep);
      assert (a + b)[1..] == a[1..] + b;
    }
  }

  /** Joining the pieces of a split with the same separator gives back the string. */
  lemma {:induction false} JoinSplit(s: string, sep: string)
    requires |sep| > 0
    ensures Join(Split(s, sep), sep) == s
    decreases |s|
  {
    match IndexOf(s, sep)
    case None =>
    case Some(i) =>
      var rest := Split(s[i + |sep|..], sep);
      JoinSplit(s[i + |sep|..], sep);
      assert Split(s, sep) == [s[..i]] + rest;
      assert ([s[..i]] + rest)[1..] == rest;
      assert s[i..i + |sep|] == sep;
      calc {
        Join(Split(s, sep), sep);
        s[..i] + sep + Join(rest, sep);
        s[..i] + s[i..i + |sep|] + s[i + |sep|..];
        s;
      }
  }

  /** No piece of a split contains the separator: each piece ends at the first
      occurrence, and what follows is split again. */
  lemma {:induction false} SplitPiecesFree(s: string, sep: string)
    requires |sep| > 0
    ensures forall k :: 0 <= k < |Split(s, sep)| ==> !Contains(Split(s, sep)[k], sep)
    decreases |s|
  {
    match IndexOf(s, sep)
    case None =>
    case Some(i) =>
      var rest := Split(s[i + |sep|..], sep);
      SplitPiecesFree(s[i + |sep|..], sep);
      assert Split(s, sep) == [s[..i]] + rest;
      if Contains(s[..i], sep) {
        var j: nat :| j <= i && OccursAt(s[..i], sep, j);
        assert s[j..j + |sep|] == s[..i][j..j + |sep|];
        assert OccursAt(s, sep, j);
        assert false;
      }
  }

  /** With a one-character separator that no part contains, split undoes join. */
  lemma {:induction false} SplitJoinChar(parts: seq<string>, c: char)
    requires |parts| >= 1
    requires forall k :: 0 <= k < |parts| ==> c !in parts[k]
    ensures Split(Join(parts, [c]), [c]) == parts
    decreases |parts|
  {
    if |parts| == 1 {
      NoOccurrence(parts[0], c);
    } else {
      var p, tail := parts[0], Join(parts[1..], [c]);
      var s := p + [c] + tail;
      assert Join(parts, [c]) == s;
      FirstOccurrence(p, c, tail);
      assert s[|p| + 1..] == tail;
      SplitJoinChar(parts[1..], c);
      assert s[..|p|] == p;
      assert Split(s, [c]) == [p] + parts[1..];
    }
  }

  lemma NoOccurrence(p: string, c: char)
    requires c !in p
    ensures IndexOf(p, [c]) == None
  {
    forall i: nat | i <= |p| ensures !OccursAt(p, [c], i) {
      if i + 1 <= |p| {
        assert p[i..i + 1][0] == p[i];
      }
    }
  }

  lemma FirstOccurrence(p: string, c: char, tail: string)
    requires c !in p
    ensures IndexOf(p + [c] + tail, [c]) == Some(|p|)
  {
    var s := p + [c] + tail;
    assert OccursAt(s, [c], |p|);
    forall j | 0 <= j < |p| ensures !OccursAt(s, [c], j) {
      assert s[j] == p[j];
      assert s[j..j + 1][0] == s[j];
    }
  }

  /** No digit string contains a line break. */
  lemma DigitsHaveNoNewline(s: string)
    requires AllDigits(s)
    ensures '\n' !in s
  {
  }

  // ---------------------------------------------------------------------------
  // Order of strings

  /** `a.localeCompare(b) <= 0`, taken as code-point order: a prefix comes first. */
  predicate LexLe(a: string, b: string)
    decreases |a|
  {
    |a| == 0 || (|b| > 0 && (a[0] < b[0] || (a[0] == b[0] && LexLe(a[1..], b[1..]))))
  }

  lemma {:induction false} LexLeTotal(a: string, b: string)
    ensures LexLe(a, b) || LexLe(b, a)
    decreases |a|
  {
    if |a| > 0 && |b| > 0 && a[0] == b[0] {
      LexLeTotal(a[1..], b[1..]);
    }
  }

  lemma {:induction false} LexLeTransitive(a: string, b: string, c: string)
    requires LexLe(a, b) && LexLe(b, c)
    ensures LexLe(a, c)
    decreases |a|
  {
    if |a| > 0 && a[0] == b[0] && b[0] == c[0] {
      LexLeTransitive(a[1..], b[1..], c[1..]);
    }
  }

  /** Code-point order is a total preorder, so sorting by it is well defined. */
  lemma LexLeIsPreorder()
    ensures TotalPreorder(LexLe)
  {
    forall a, b ensures LexLe(a, b) || LexLe(b, a) {
      LexLeTotal(a, b);
    }
    forall a, b, c | LexLe(a, b) && LexLe(b, c) ensures LexLe(a, c) {
      LexLeTransitive(a, b, c);
    }
  }

  // ---------------------------------------------------------------------------
  // Decimal formatting, as template literals render integers

  function DigitChar(d: nat): char
    requires d < 10
  {
    "0123456789"[d]
  }

  predicate AllDigits(s: string) {
    forall i :: 0 <= i < |s| ==> '0' <= s[i] <= '9'
  }

  /** The decimal digits of `n`, without leading zeros. */
  function NatToString(n: nat): (s: string)
    ensures |s| >= 1 && AllDigits(s)
    ensures s[0] == '0' ==> n == 0 && s == "0"
    decreases n
  {
    if n < 10 then [DigitChar(n)] else NatToString(n / 10) + [DigitChar(n % 10)]
  }

  /** `${n}` for any integer. */
  function IntToString(n: int): (s: string)
    ensures |s| >= 1
  {
    if n < 0 then "-" + NatToString(-n) else NatToString(n)
  }

  /** The value of a string of decimal digits. */
  function ParseDigits(s: string): nat
    requires AllDigits(s)
    decreases |s|
  {
    if |s| == 0 then 0 else ParseDigits(s[..|s| - 1]) * 10 + (s[|s| - 1] as int - '0' as int)
  }

  /** Reading the digits back gives the number that was formatted. */
  lemma {:induction false} ParseNatToString(n: nat)
    ensures ParseDigits(NatToString(n)) == n
    decreases n
  {
    if n >= 10 {
      var s := NatToString(n);
      ParseNatToString(n / 10);
      assert s[..|s| - 1] == NatToString(n / 10);
    }
  }

  /** Different numbers never format to the same text. */
  lemma NatToStringInjective(m: nat, n: nat)
    requires NatToString(m) == NatToString(n)
    ensures m == n
  {
    ParseNatToString(m);
    ParseNatToString(n);
  }
}
