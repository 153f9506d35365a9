/** The string operations the pages use: `toLowerCase`, `includes`, `trim`, `join`,
    `String(n)` / `n.toString()` and `Number(s)` on decimal ids. Lower-casing is ASCII
    only; JavaScript's full Unicode case mapping is not modelled. */
module Text {
  import opened Wrappers

  function LowerChar(c: char): char {
    if 'A' <= c <= 'Z' then (c as int + 32) as char else c
  }

  /** `s.toLowerCase()` on ASCII letters. */
  function Lower(s: string): (r: string)
    ensures |r| == |s|
  {
    seq(|s|, i requires 0 <= i < |s| => LowerChar(s[i]))
  }

  predicate StartsWith(s: string, prefix: string) {
    |prefix| <= |s| && s[..|prefix|] == prefix
  }

  /** `hay.includes(needle)`: `needle` occurs somewhere in `hay` as a contiguous block. */
  predicate Includes(hay: string, needle: string) {
    exists i :: 0 <= i <= |hay| && StartsWith(hay[i..], needle)
  }

  /** `field.toLowerCase().includes(term.toLowerCase())`, the search test of every list page. */
  predicate ContainsIgnoringCase(field: string, term: string) {
    Includes(Lower(field), Lower(term))
  }

  /** An empty search term is found in every field. */
  lemma EmptyTermMatches(field: string)
    ensures ContainsIgnoringCase(field, "")
  {
    assert StartsWith(Lower(field)[0..], Lower(""));
  }

  /** A field matches its own text, whatever the letter case of the search. */
  lemma FieldMatchesItself(field: string)
    ensures ContainsIgnoringCase(field, field)
  {
    assert Lower(field)[0..] == Lower(field);
    assert StartsWith(Lower(field)[0..], Lower(field));
  }

  /** The characters `String.prototype.trim` removes (the common ones). */
  predicate IsSpace(c: char) {
    c == ' ' || c == '\t' || c == '\n' || c == '\r' || c == '\U{000B}' || c == '\U{000C}'
    || c == '\U{00A0}' || c == '\U{FEFF}'
  }

  function TrimStart(s: string): string {
    if s != [] && IsSpace(s[0]) then TrimStart(s[1..]) else s
  }

  function TrimEnd(s: string): string {
    if s != [] && IsSpace(s[|s| - 1]) then TrimEnd(s[..|s| - 1]) else s
  }

  /** `s.trim()`. */
  function Trim(s: string): string {
    TrimEnd(TrimStart(s))
  }

  predicate IsBlank(s: string) {
    forall i :: 0 <= i < |s| ==> IsSpace(s[i])
  }

  lemma {:induction false} TrimStartEmpty(s: string)
    ensures TrimStart(s) == [] <==> IsBlank(s)
    ensures TrimStart(s) != [] ==> !IsSpace(TrimStart(s)[0])
  {
    if s != [] && IsSpace(s[0]) {
      TrimStartEmpty(s[1..]);
      assert forall i :: 1 <= i < |s| ==> s[i] == s[1..][i - 1];
    }
  }

  lemma {:induction false} TrimEndKeepsNonSpaceHead(s: string)
    requires s != [] && !IsSpace(s[0])
    ensures TrimEnd(s) != []
  {
    if IsSpace(s[|s| - 1]) {
      TrimEndKeepsNonSpaceHead(s[..|s| - 1]);
    }
  }

  /** `!s.trim()` holds exactly for strings made only of white space (the empty one included). */
  lemma TrimEmptyIffBlank(s: string)
    ensures Trim(s) == [] <==> IsBlank(s)
  {
    TrimStartEmpty(s);
    if TrimStart(s) != [] {
      TrimEndKeepsNonSpaceHead(TrimStart(s));
    }
  }

  /** A stored string that JavaScript treats as true: present and not empty (the test every
      page applies to the stored access token). */
  predicate Present(s: Option<string>) {
    s.Some? && s.value != ""
  }

  /** `parts.join(sep)`. */
  function Join(parts: seq<string>, sep: string): string {
    if parts == [] then []
    else if |parts| == 1 then parts[0]
    else parts[0] + sep + Join(parts[1..], sep)
  }

  /** The index of the first `c` in `s`, if any. */
  function IndexOf(s: string, c: char): (r: Option<nat>)
    ensures r.None? <==> c !in s
    ensures r.Some? ==> r.value < |s| && s[r.value] == c && c !in s[..r.value]
  {
    if s == [] then None
    else if s[0] == c then Some(0)
    else
      match IndexOf(s[1..], c)
      case None => None
      case Some(i) =>
        assert s[..i + 1] == [s[0]] + s[1..][..i];
        Some(i + 1)
  }

  /** `s.split(c)`: the pieces between the occurrences of `c`; `""` splits into `[""]`. */
  function Split(s: string, c: char): (r: seq<string>)
    ensures |r| > 0
    decreases |s|
  {
    match IndexOf(s, c)
    case None => [s]
    case Some(i) => [s[..i]] + Split(s[i + 1..], c)
  }

  /** In `head + [c] + rest` with no `c` in `head`, the first `c` is the one after `head`. */
  lemma {:induction false} IndexOfAfter(head: string, c: char, rest: string)
    requires c !in head
    ensures IndexOf(head + [c] + rest, c) == Some(|head|)
  {
    if head != [] {
      assert (head + [c] + rest)[1..] == head[1..] + [c] + rest;
      IndexOfAfter(head[1..], c, rest);
    }
  }

  /** Joining pieces that do not contain the separator and splitting again gives the
      pieces back. */
  lemma {:induction false} SplitJoin(parts: seq<string>, c: char)
    requires |parts| > 0
    requires forall i :: 0 <= i < |parts| ==> c !in parts[i]
    ensures Split(Join(parts, [c]), c) == parts
  {
    if |parts| == 1 {
      assert IndexOf(parts[0], c).None?;
    } else {
      var head := parts[0];
      var rest := Join(parts[1..], [c]);
      var s := head + [c] + rest;
      assert Join(parts, [c]) == s;
      IndexOfAfter(head, c, rest);
      assert s[..|head|] == head;
      assert s[|head| + 1..] == rest;
      SplitJoin(parts[1..], c);
    }
  }

  predicate IsDigit(c: char) {
    '0' <= c <= '9'
  }

  predicate AllDigits(s: string) {
    forall i :: 0 <= i < |s| ==> IsDigit(s[i])
  }

  function DigitChar(d: nat): char
    requires d < 10
  {
    ('0' as int + d) as char
  }

  function DigitValue(c: char): nat
    requires IsDigit(c)
  {
    c as int - '0' as int
  }

  /** The number a string of decimal digits denotes (0 for the empty string). */
  function DigitsValue(s: string): nat
    requires AllDigits(s)
  {
    if s == [] then 0 else DigitsValue(s[..|s| - 1]) * 10 + DigitValue(s[|s| - 1])
  }

  /** `String(n)` / `n.toString()` for a non-negative integer id. */
  function DecimalString(n: nat): (r: string)
    ensures |r| > 0 && AllDigits(r)
  {
    if n < 10 then [DigitChar(n)] else DecimalString(n / 10) + [DigitChar(n % 10)]
  }

  lemma {:induction false} DecimalStringValue(n: nat)
    ensures DigitsValue(DecimalString(n)) == n
  {
    if n >= 10 {
      var s := DecimalString(n);
      assert s[..|s| - 1] == DecimalString(n / 10);
      DecimalStringValue(n / 10);
    }
  }

  /** `Number(s)` on the strings the pages hand it: the empty string is 0, a string of
      digits is its value and anything else is NaN (`None`). Signs, spaces, fractions and
      exponents are not modelled. */
  function NumberOf(s: string): (r: Option<nat>)
    ensures r.Some? <==> AllDigits(s)
  {
    if s == [] then Some(0)
    else if AllDigits(s) then Some(DigitsValue(s))
    else None
  }

  /** `Number(String(n)) === n`: an id turned into a form string and back is unchanged. */
  lemma NumberOfDecimalString(n: nat)
    ensures NumberOf(DecimalString(n)) == Some(n)
  {
    DecimalStringValue(n);
  }

  /** Distinct ids have distinct decimal strings. */
  lemma DecimalStringInjective(m: nat, n: nat)
    ensures DecimalString(m) == DecimalString(n) ==> m == n
  {
    DecimalStringValue(m);
    DecimalStringValue(n);
  }
}
