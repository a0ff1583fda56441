/** The JavaScript string operations the planner relies on, written out over
    `seq<char>`: `trim`, `indexOf`/`includes`, `split`/`join` with a literal
    separator, ASCII `toLowerCase`, decimal rendering of integers and
    `parseInt(…, 10)`. */
module Text {
  import opened Basics

  // ---------------------------------------------------------------------
  // Whitespace and trimming

  /** The WhiteSpace and LineTerminator code points of ECMAScript: what
      `String.prototype.trim` removes and what the regular-expression class
      `\s` matches. */
  predicate IsSpace(c: char) {
    c == '\t' || c == '\n' || c == '\U{B}' || c == '\U{C}' || c == '\r' || c == ' '
    || c == '\U{A0}' || c == '\U{1680}' || ('\U{2000}' <= c <= '\U{200A}')
    || c == '\U{2028}' || c == '\U{2029}' || c == '\U{202F}' || c == '\U{205F}'
    || c == '\U{3000}' || c == '\U{FEFF}'
  }

  predicate AllSpace(s: string) {
    forall i :: 0 <= i < |s| ==> IsSpace(s[i])
  }

  /** `trimStart`: drops the leading whitespace and nothing else. */
  function TrimStart(s: string): (r: string)
    ensures |r| <= |s| && r == s[|s| - |r|..]
    ensures r == [] || !IsSpace(r[0])
  {
    if |s| > 0 && IsSpace(s[0]) then TrimStart(s[1..]) else s
  }

  /** `trimEnd`: drops the trailing whitespace and nothing else. */
  function TrimEnd(s: string): (r: string)
    ensures |r| <= |s| && r == s[..|r|]
    ensures r == [] || !IsSpace(r[|r| - 1])
  {
    if |s| > 0 && IsSpace(s[|s| - 1]) then TrimEnd(s[..|s| - 1]) else s
  }

  /** `trim`: the part of `s` between its leading and trailing whitespace. */
  function Trim(s: string): (r: string)
    ensures |r| <= |s|
    ensures r == [] || (!IsSpace(r[0]) && !IsSpace(r[|r| - 1]))
  {
    TrimEnd(TrimStart(s))
  }

  /** Trimming twice is trimming once. */
  lemma {:induction false} TrimIdempotent(s: string)
    ensures Trim(Trim(s)) == Trim(s)
  {
    var r := Trim(s);
    assert TrimStart(r) == r;
    assert TrimEnd(r) == r;
  }

  /** Leading whitespace does not change what `trimStart` leaves. */
  lemma {:induction false} TrimStartAfterSpace(w: string, x: string)
    requires AllSpace(w)
    ensures TrimStart(w + x) == TrimStart(x)
  {
    if |w| > 0 {
      assert (w + x)[1..] == w[1..] + x;
      TrimStartAfterSpace(w[1..], x);
    } else {
      assert w + x == x;
    }
  }

  /** Leading whitespace does not change what `trim` leaves. */
  lemma {:induction false} TrimAfterSpace(w: string, x: string)
    requires AllSpace(w)
    ensures Trim(w + x) == Trim(x)
  {
    TrimStartAfterSpace(w, x);
  }

  /** One leading blank does not change what `trim` leaves. */
  lemma {:induction false} TrimAfterBlank(x: string)
    ensures Trim(" " + x) == Trim(x)
  {
    assert AllSpace(" ");
    TrimAfterSpace(" ", x);
  }

  /** A string whose last kept character is not whitespace keeps that
      prefix through `trimEnd`. */
  lemma {:induction false} TrimEndKeeps(s: string, k: nat)
    requires 0 < k <= |s| && !IsSpace(s[k - 1])
    ensures k <= |TrimEnd(s)| && TrimEnd(s)[..k] == s[..k]
    decreases |s|
  {
    if IsSpace(s[|s| - 1]) {
      var s' := s[..|s| - 1];
      TrimEndKeeps(s', k);
      assert s'[..k] == s[..k];
    }
  }

  /** A string without whitespace at either end is its own trim. */
  lemma {:induction false} TrimKeeps(s: string)
    requires s == [] || (!IsSpace(s[0]) && !IsSpace(s[|s| - 1]))
    ensures TrimStart(s) == s && Trim(s) == s
  {
  }

  /** A string that starts with a non-space character is its own `trimStart`. */
  lemma {:induction false} TrimStartKeeps(s: string)
    requires s == [] || !IsSpace(s[0])
    ensures TrimStart(s) == s
  {
  }

  /** Where the text kept by `trim` starts. */
  function TrimOffset(s: string): (a: nat)
    ensures a <= |s|
  {
    |s| - |TrimStart(s)|
  }

  /** What `trimStart` drops is whitespace. */
  lemma {:induction false} TrimOffsetSpaces(s: string)
    ensures AllSpace(s[..TrimOffset(s)])
    decreases |s|
  {
    if |s| > 0 && IsSpace(s[0]) {
      var t := s[1..];
      TrimOffsetSpaces(t);
      assert TrimOffset(s) == TrimOffset(t) + 1;
      forall i | 0 <= i < TrimOffset(s) ensures IsSpace(s[i]) {
        if i > 0 {
          assert s[i] == t[..TrimOffset(t)][i - 1];
        }
      }
    }
  }

  /** What `trim` leaves is a contiguous slice of the input. */
  lemma {:induction false} TrimSlice(s: string)
    ensures TrimOffset(s) + |Trim(s)| <= |s|
    ensures Trim(s) == s[TrimOffset(s)..TrimOffset(s) + |Trim(s)|]
  {
    var t := TrimStart(s);
    var r := TrimEnd(t);
    var a := |s| - |t|;
    assert TrimOffset(s) == a && Trim(s) == r;
    assert t == s[a..] && r == t[..|r|];
    SuffixPrefix(s, a, |r|);
  }

  /** Trimming adds no character. */
  lemma {:induction false} TrimKeepsChars(s: string, c: char)
    requires c !in s
    ensures c !in Trim(s)
  {
    TrimSlice(s);
    var a := TrimOffset(s);
    var t := Trim(s);
    forall k | 0 <= k < |t| ensures t[k] != c {
      assert t[k] == s[a + k];
    }
  }

  lemma {:induction false} SuffixPrefix(s: string, a: nat, k: nat)
    requires a + k <= |s|
    ensures s[a..][..k] == s[a..a + k]
  {
  }

  /** Cutting `a + b + c` after `a`, or `k` characters into `b`. */
  lemma {:induction false} SlicesOfThree(a: string, b: string, c: string, k: nat)
    requires k <= |b|
    ensures (a + b + c)[..|a|] == a
    ensures (a + b + c)[|a| + k..] == b[k..] + c
  {
    var s := a + b + c;
    var t := b[k..] + c;
    assert |s[|a| + k..]| == |t|;
    forall j | 0 <= j < |t| ensures s[|a| + k + j] == t[j] {
      if j < |b| - k {
        assert s[|a| + k + j] == b[k + j];
      } else {
        assert s[|a| + k + j] == c[j - (|b| - k)];
      }
    }
    assert s[|a| + k..] == t;
    assert s[..|a|] == a;
  }

  // ---------------------------------------------------------------------
  // Searching

  /** `pat` occurs in `s` starting at index `i`. */
  predicate OccursAt(s: string, pat: string, i: nat) {
    i + |pat| <= |s| && s[i..i + |pat|] == pat
  }

  /** The first index at or after `k` where `pat` occurs. */
  function IndexFrom(s: string, pat: string, k: nat): (r: Option<nat>)
    requires k <= |s|
    ensures r.Some? ==> k <= r.value && OccursAt(s, pat, r.value)
    ensures r.Some? ==> forall j: nat :: k <= j < r.value ==> !OccursAt(s, pat, j)
    ensures r.None? ==> forall j: nat :: k <= j ==> !OccursAt(s, pat, j)
    decreases |s| - k
  {
    if OccursAt(s, pat, k) then Some(k)
    else if k == |s| then None
    else IndexFrom(s, pat, k + 1)
  }

  /** `s.indexOf(pat)`, with `None` for JavaScript's -1. */
  function IndexOf(s: string, pat: string): (r: Option<nat>)
    ensures r.Some? ==> OccursAt(s, pat, r.value)
    ensures r.Some? ==> forall j: nat :: j < r.value ==> !OccursAt(s, pat, j)
    ensures r.None? <==> forall j: nat :: !OccursAt(s, pat, j)
  {
    IndexFrom(s, pat, 0)
  }

  /** `s.includes(pat)`. */
  predicate Contains(s: string, pat: string) {
    IndexOf(s, pat).Some?
  }

  /** `s.startsWith(p)`. */
  predicate StartsWith(s: string, p: string) {
    |p| <= |s| && s[..|p|] == p
  }

  /** `pat` does not occur at `j` when a slice of the text there differs from the same slice of `pat`. */
  lemma {:induction false} MismatchNoOccurrence(s: string, pat: string, j: nat, off: nat, len: nat)
    requires off + len <= |pat| && j + off + len <= |s|
    requires s[j + off..j + off + len] != pat[off..off + len]
    ensures !OccursAt(s, pat, j)
  {
    if j + |pat| <= |s| {
      var w := s[j..j + |pat|];
      var a, b := w[off..off + len], s[j + off..j + off + len];
      forall i | 0 <= i < len ensures a[i] == b[i] {
        assert w[off + i] == s[j + off + i];
      }
      assert a == b;
    }
  }

  /** The first occurrence is at `i` when `pat` occurs there and nowhere before. */
  lemma {:induction false} IndexOfIs(s: string, pat: string, i: nat)
    requires OccursAt(s, pat, i)
    requires forall j: nat :: j < i ==> !OccursAt(s, pat, j)
    ensures IndexOf(s, pat) == Some(i)
  {
  }

  /** A string without the character `c` does not contain the one-character pattern `[c]`. */
  lemma {:induction false} CharFreeNotContains(s: string, c: char)
    requires c !in s
    ensures !Contains(s, [c])
  {
    forall j: nat | j + 1 <= |s| ensures !OccursAt(s, [c], j) {
      assert s[j..j + 1][0] == s[j];
    }
  }

  /** The one-character pattern `[c]` occurs exactly when `c` does. */
  lemma {:induction false} ContainsChar(s: string, c: char)
    ensures Contains(s, [c]) <==> c in s
  {
    if c in s {
      var i :| 0 <= i < |s| && s[i] == c;
      assert s[i..i + 1] == [c];
      assert OccursAt(s, [c], i);
    } else {
      CharFreeNotContains(s, c);
    }
  }

  /** The text before the first occurrence of `pat`, or all of `s`. */
  function UpTo(s: string, pat: string): (r: string)
    ensures |r| <= |s| && r == s[..|r|]
  {
    match IndexOf(s, pat)
    case None => s
    case Some(i) => s[..i]
  }

  /** A slice of a string that does not contain `pat` does not contain it either. */
  lemma {:induction false} NotContainsSlice(s: string, pat: string, a: nat, b: nat)
    requires a <= b <= |s| && !Contains(s, pat)
    ensures !Contains(s[a..b], pat)
  {
    if Contains(s[a..b], pat) {
      var j := IndexOf(s[a..b], pat).value;
      SliceOfSlice(s, a, b, j, j + |pat|);
      assert OccursAt(s, pat, a + j);
    }
  }

  /** A slice of a slice is a slice of the whole. */
  lemma {:induction false} SliceOfSlice(s: string, a: nat, b: nat, i: nat, j: nat)
    requires a <= b <= |s| && i <= j <= b - a
    ensures s[a..b][i..j] == s[a + i..a + j]
  {
    var t := s[a..b][i..j];
    assert |t| == j - i;
    forall k | 0 <= k < j - i ensures t[k] == s[a + i + k] {
      assert t[k] == s[a..b][i + k];
    }
  }

  /** The text before the first occurrence of `pat` does not contain `pat`. */
  lemma {:induction false} NotContainsBeforeFirst(s: string, pat: string, i: nat)
    requires |pat| > 0 && IndexOf(s, pat) == Some(i)
    ensures !Contains(s[..i], pat)
  {
    if Contains(s[..i], pat) {
      var j := IndexOf(s[..i], pat).value;
      assert s[..i][j..j + |pat|] == s[j..j + |pat|];
      assert OccursAt(s, pat, j);
    }
  }

  /** Trimming cannot bring in a pattern the text lacks. */
  lemma {:induction false} TrimNotContains(s: string, pat: string)
    requires !Contains(s, pat)
    ensures !Contains(Trim(s), pat)
  {
    TrimSlice(s);
    NotContainsSlice(s, pat, TrimOffset(s), TrimOffset(s) + |Trim(s)|);
  }

  // ---------------------------------------------------------------------
  // Splitting and joining on a literal separator

  /** `s.split(sep)` for a non-empty literal separator: the pieces between
      successive non-overlapping occurrences, scanning left to right. */
  function Split(s: string, sep: string): (parts: seq<string>)
    requires |sep| > 0
    ensures |parts| >= 1
    decreases |s|
  {
    match IndexOf(s, sep)
    case None => [s]
    case Some(i) => [s[..i]] + Split(s[i + |sep|..], sep)
  }

  /** Without a separator the split is the whole text. */
  lemma {:induction false} SplitWhole(s: string, sep: string)
    requires |sep| > 0 && !Contains(s, sep)
    ensures Split(s, sep) == [s]
  {
  }

  /** `parts.join(sep)`. */
  function Join(parts: seq<string>, sep: string): string {
    if |parts| == 0 then ""
    else if |parts| == 1 then parts[0]
    else parts[0] + sep + Join(parts[1..], sep)
  }

  /** Joining the pieces of a split with the same separator gives the text back. */
  lemma {:induction false} SplitJoin(s: string, sep: string)
    requires |sep| > 0
    ensures Join(Split(s, sep), sep) == s
    decreases |s|
  {
    var idx := IndexOf(s, sep);
    if idx.Some? {
      var i := idx.value;
      var rest := s[i + |sep|..];
      var tail := Split(rest, sep);
      SplitStep(s, sep, i);
      SplitJoin(rest, sep);
      assert Join([s[..i]] + tail, sep) == s[..i] + sep + rest;
      SliceAround(s, i, |sep|);
    }
  }

  /** One step of `split`: the piece before the first separator, then the
      split of the rest. */
  lemma {:induction false} SplitStep(s: string, sep: string, i: nat)
    requires |sep| > 0 && IndexOf(s, sep) == Some(i)
    ensures Split(s, sep) == [s[..i]] + Split(s[i + |sep|..], sep)
  {
  }

  lemma {:induction false} SliceAround(s: string, i: nat, n: nat)
    requires i + n <= |s|
    ensures s == s[..i] + s[i..i + n] + s[i + n..]
  {
  }

  /** No piece of a split contains the separator. */
  lemma {:induction false} SplitPartsAvoidSeparator(s: string, sep: string)
    requires |sep| > 0
    ensures forall k :: 0 <= k < |Split(s, sep)| ==> !Contains(Split(s, sep)[k], sep)
    decreases |s|
  {
    var idx := IndexOf(s, sep);
    if idx.Some? {
      var i := idx.value;
      var rest := s[i + |sep|..];
      var tail := Split(rest, sep);
      SplitStep(s, sep, i);
      NotContainsBeforeFirst(s, sep, i);
      SplitPartsAvoidSeparator(rest, sep);
      var parts := [s[..i]] + tail;
      forall k | 0 <= k < |parts| ensures !Contains(parts[k], sep) {
        if k > 0 {
          assert parts[k] == tail[k - 1];
        }
      }
    }
  }

  /** The first piece of a split is the text before the first separator. */
  lemma {:induction false} SplitFirstPiece(s: string, sep: string)
    requires |sep| > 0
    ensures Split(s, sep)[0] == UpTo(s, sep)
  {
  }

  /** The first piece is the text before the first separator, and the other
      pieces joined back are the text after it. */
  lemma {:induction false} SplitAtFirst(s: string, sep: string, i: nat)
    requires |sep| > 0 && IndexOf(s, sep) == Some(i)
    ensures Split(s, sep)[0] == s[..i]
    ensures Join(Split(s, sep)[1..], sep) == s[i + |sep|..]
  {
    var rest := s[i + |sep|..];
    var tail := Split(rest, sep);
    SplitStep(s, sep, i);
    assert ([s[..i]] + tail)[1..] == tail;
    SplitJoin(rest, sep);
  }

  // ---------------------------------------------------------------------
  // Character classes and simple rewrites

  predicate IsDigit(c: char) { '0' <= c <= '9' }

  predicate AllDigits(s: string) {
    forall i :: 0 <= i < |s| ==> IsDigit(s[i])
  }

  /** ASCII `toLowerCase` of one character. */
  function LowerChar(c: char): (r: char)
    ensures 'A' <= c <= 'Z' ==> 'a' <= r <= 'z'
    ensures !('A' <= c <= 'Z') ==> r == c
  {
    if 'A' <= c <= 'Z' then (c as int + 32) as char else c
  }

  /** `toLowerCase`, restricted to the ASCII letters. */
  function Lower(s: string): (r: string)
    ensures |r| == |s|
    ensures forall i :: 0 <= i < |s| ==> r[i] == LowerChar(s[i])
  {
    seq(|s|, i requires 0 <= i < |s| => LowerChar(s[i]))
  }

  lemma {:induction false} LowerAppend(a: string, b: string)
    ensures Lower(a + b) == Lower(a) + Lower(b)
  {
  }

  /** `s.replace(/c/g, '')`: every occurrence of `c` removed, the rest kept in order. */
  function RemoveChar(s: string, c: char): (r: string)
    ensures c !in r
    ensures |r| <= |s|
    ensures c !in s ==> r == s
  {
    if s == [] then []
    else (if s[0] == c then [] else [s[0]]) + RemoveChar(s[1..], c)
  }

  lemma {:induction false} RemoveCharAppend(a: string, b: string, c: char)
    ensures RemoveChar(a + b, c) == RemoveChar(a, c) + RemoveChar(b, c)
  {
    if a != [] {
      assert (a + b)[1..] == a[1..] + b;
      RemoveCharAppend(a[1..], b, c);
    } else {
      assert a + b == b;
    }
  }

  /** The pieces that are not the empty string (`filter(Boolean)` on strings). */
  function NonEmpty(xs: seq<string>): (r: seq<string>)
    ensures forall k :: 0 <= k < |r| ==> r[k] != ""
    ensures forall x :: x in r <==> x in xs && x != ""
    ensures |r| <= |xs|
  {
    if xs == [] then []
    else (if xs[0] == "" then [] else [xs[0]]) + NonEmpty(xs[1..])
  }

  /** Every piece trimmed (`map((x) => x.trim())`). */
  function TrimAll(xs: seq<string>): (r: seq<string>)
    ensures |r| == |xs|
    ensures forall k :: 0 <= k < |xs| ==> r[k] == Trim(xs[k])
  {
    seq(|xs|, k requires 0 <= k < |xs| => Trim(xs[k]))
  }

  // ---------------------------------------------------------------------
  // Integers as text

  function DigitChar(d: nat): (c: char)
    requires d < 10
    ensures IsDigit(c)
  {
    ('0' as int + d) as char
  }

  function DigitValue(c: char): (d: nat)
    requires IsDigit(c)
    ensures d < 10 && DigitChar(d) == c
  {
    c as int - '0' as int
  }

  /** `n.toString()` for a non-negative integer. */
  function Decimal(n: nat): (r: string)
    ensures |r| >= 1 && AllDigits(r)
    decreases n
  {
    if n < 10 then [DigitChar(n)] else Decimal(n / 10) + [DigitChar(n % 10)]
  }

  /** `String(i)` for any integer. */
  function IntString(i: int): string {
    if i < 0 then "-" + Decimal(-i) else Decimal(i)
  }

  /** The value of a run of decimal digits. */
  function DigitsValue(s: string): nat
    requires AllDigits(s)
  {
    if s == [] then 0 else DigitsValue(s[..|s| - 1]) * 10 + DigitValue(s[|s| - 1])
  }

  /** Reading back the decimal rendering of `n` gives `n`. */
  lemma {:induction false} DecimalValue(n: nat)
    ensures DigitsValue(Decimal(n)) == n
    decreases n
  {
    if n >= 10 {
      DecimalValue(n / 10);
      var d := Decimal(n);
      assert d[..|d| - 1] == Decimal(n / 10);
    }
  }

  function Pow10(k: nat): (r: nat)
    ensures r >= 1
  {
    if k == 0 then 1 else 10 * Pow10(k - 1)
  }

  /** Digits written after `x` shift its value by their count. */
  lemma {:induction false} DigitsValueAppend(x: string, y: string)
    requires AllDigits(x) && AllDigits(y)
    ensures AllDigits(x + y)
    ensures DigitsValue(x + y) == DigitsValue(x) * Pow10(|y|) + DigitsValue(y)
    decreases |y|
  {
    var s := x + y;
    assert forall i :: 0 <= i < |s| ==> IsDigit(s[i]) by {
      forall i | 0 <= i < |s| ensures IsDigit(s[i]) {
        if i < |x| {
          assert s[i] == x[i];
        } else {
          assert s[i] == y[i - |x|];
        }
      }
    }
    if y == [] {
      assert s == x;
    } else {
      var y' := y[..|y| - 1];
      var d := DigitValue(y[|y| - 1]);
      assert AllDigits(y');
      DigitsValueAppend(x, y');
      assert s[..|s| - 1] == x + y';
      assert s[|s| - 1] == y[|y| - 1];
      assert y[..|y| - 1] == y';
      assert DigitsValue(s) == DigitsValue(x + y') * 10 + d;
      assert DigitsValue(y) == DigitsValue(y') * 10 + d;
      assert Pow10(|y|) == 10 * Pow10(|y'|);
      ShiftOneDigit(DigitsValue(x), Pow10(|y'|), DigitsValue(y'), d);
    }
  }

  lemma {:induction false} ShiftOneDigit(a: nat, p: nat, b: nat, d: nat)
    ensures (a * p + b) * 10 + d == a * (10 * p) + (b * 10 + d)
  {
  }

  /** The longest prefix of `s` made of digits. */
  function LeadingDigits(s: string): (r: string)
    ensures |r| <= |s| && r == s[..|r|] && AllDigits(r)
    ensures |r| == |s| || !IsDigit(s[|r|])
  {
    if s != [] && IsDigit(s[0]) then [s[0]] + LeadingDigits(s[1..]) else []
  }

  /** `parseInt(s, 10)`: optional leading whitespace, an optional sign, then the
      longest run of digits; `None` stands for `NaN` when there is no digit. */
  function ParseInt(s: string): Option<int> {
    if |s| > 0 && IsSpace(s[0]) then ParseInt(s[1..]) else ParseSigned(s)
  }

  /** The sign and digits part of `parseInt`, once the whitespace is gone. */
  function ParseSigned(t: string): Option<int> {
    var signed := |t| > 0 && (t[0] == '-' || t[0] == '+');
    var digits := LeadingDigits(if signed then t[1..] else t);
    var magnitude: int := if digits == [] then 0 else DigitsValue(digits);
    if digits == [] then None
    else if signed && t[0] == '-' then Some(-magnitude)
    else Some(magnitude)
  }

  /** `parseInt` skips exactly the leading whitespace. */
  lemma {:induction false} ParseIntSkipsSpace(s: string)
    ensures ParseInt(s) == ParseSigned(TrimStart(s))
  {
    if |s| > 0 && IsSpace(s[0]) {
      ParseIntSkipsSpace(s[1..]);
    }
  }

  /** `parseInt` reads back what `toString` wrote. */
  lemma {:induction false} ParseIntString(i: int)
    ensures ParseInt(IntString(i)) == Some(i)
  {
    var n: nat := if i < 0 then -i else i;
    var d := Decimal(n);
    DecimalValue(n);
    LeadingDigitsAll(d);
    DigitIsNotSpaceOrSign(d[0]);
    if i < 0 {
      var s := "-" + d;
      assert s[1..] == d;
      ParseIntNoSpace(s);
    } else {
      ParseIntNoSpace(d);
    }
  }

  /** Without leading whitespace `parseInt` reads the sign and digits at once. */
  lemma {:induction false} ParseIntNoSpace(s: string)
    requires s == [] || !IsSpace(s[0])
    ensures ParseInt(s) == ParseSigned(s)
  {
  }

  /** A two-digit zero-padded hour or minute reads back as its value. */
  lemma {:induction false} ParsePadded2(n: nat)
    requires n < 100
    ensures ParseInt(PadStart2(IntString(n))) == Some(n)
  {
    if n < 10 {
      var d := DigitChar(n);
      var t := "0" + [d];
      assert PadStart2(IntString(n)) == t;
      DigitIsNotSpaceOrSign('0');
      assert ParseInt(t) == ParseSigned(t);
      LeadingDigitsAll(t);
      assert t[..1] == "0";
      assert DigitsValue(t) == DigitsValue("0") * 10 + n;
    } else {
      ParseIntString(n);
    }
  }

  lemma {:induction false} DigitIsNotSpaceOrSign(c: char)
    requires IsDigit(c)
    ensures !IsSpace(c) && c != '-' && c != '+'
  {
  }

  lemma {:induction false} LeadingDigitsAll(s: string)
    requires AllDigits(s)
    ensures LeadingDigits(s) == s
  {
    if s != [] {
      LeadingDigitsAll(s[1..]);
    }
  }

  /** `padStart(2, '0')`. */
  function PadStart2(s: string): (r: string)
    ensures |r| == if |s| >= 2 then |s| else 2
    ensures r[|r| - |s|..] == s
  {
    if |s| >= 2 then s else if |s| == 1 then "0" + s else "00"
  }
}
