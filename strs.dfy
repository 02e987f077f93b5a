/** The pieces of Go's `strings`, `strconv` and `path/filepath` packages that the
    program relies on, on `string` = `seq<char>`, with the facts the other modules need. */
module Strs {
  import opened Wrappers

  predicate HasPrefix(s: string, p: string) {
    |p| <= |s| && s[..|p|] == p
  }

  predicate HasSuffix(s: string, p: string) {
    |p| <= |s| && s[|s| - |p|..] == p
  }

  /** `strings.Contains`: `sub` occurs at some position of `s`. */
  predicate Contains(s: string, sub: string)
    decreases |s|
  {
    HasPrefix(s, sub) || (s != [] && Contains(s[1..], sub))
  }

  lemma {:induction false} ContainsAt(s: string, sub: string, i: nat)
    requires i + |sub| <= |s| && s[i..i + |sub|] == sub
    ensures Contains(s, sub)
    decreases i
  {
    if i > 0 {
      assert s[1..][i - 1..i - 1 + |sub|] == s[i..i + |sub|];
      ContainsAt(s[1..], sub, i - 1);
    }
  }

  /** Position of the first `c` in `s` (`strings.IndexByte`). */
  function IndexOf(s: string, c: char): (r: Option<nat>)
    ensures r.None? <==> c !in s
    ensures r.Some? ==> r.value < |s| && s[r.value] == c && c !in s[..r.value]
    decreases |s|
  {
    if s == [] then None
    else if s[0] == c then Some(0)
    else match IndexOf(s[1..], c)
      case None => None
      case Some(i) => Some(i + 1)
  }

  /** `strings.Split(s, string(c))`: the pieces between the occurrences of `c`. */
  function Split(s: string, c: char): (r: seq<string>)
    ensures |r| >= 1
    ensures forall i :: 0 <= i < |r| ==> c !in r[i]
    decreases |s|
  {
    match IndexOf(s, c)
    case None => [s]
    case Some(i) => [s[..i]] + Split(s[i + 1..], c)
  }

  /** `strings.Join(parts, sep)`. */
  function Join(parts: seq<string>, sep: string): string
    decreases |parts|
  {
    if |parts| == 0 then ""
    else if |parts| == 1 then parts[0]
    else parts[0] + sep + Join(parts[1..], sep)
  }

  /** Joining the pieces of a split gives the string back. */
  lemma {:induction false} JoinSplit(s: string, c: char)
    ensures Join(Split(s, c), [c]) == s
    decreases |s|
  {
    match IndexOf(s, c)
    case None =>
    case Some(i) =>
      var rest := Split(s[i + 1..], c);
      assert Split(s, c) == [s[..i]] + rest;
      assert Join([s[..i]] + rest, [c]) == s[..i] + [c] + Join(rest, [c]);
      JoinSplit(s[i + 1..], c);
      assert s == s[..i] + [c] + s[i + 1..];
  }

  /** Splitting a join of pieces that do not contain the separator gives the pieces back. */
  lemma {:induction false} SplitJoin(parts: seq<string>, c: char)
    requires |parts| >= 1
    requires forall i :: 0 <= i < |parts| ==> c !in parts[i]
    ensures Split(Join(parts, [c]), c) == parts
    decreases |parts|
  {
    if |parts| > 1 {
      var s := Join(parts, [c]);
      var rest := Join(parts[1..], [c]);
      assert s == parts[0] + [c] + rest;
      assert s[|parts[0]|] == c;
      assert s[..|parts[0]|] == parts[0];
      assert IndexOf(s, c) == Some(|parts[0]|);
      assert s[|parts[0]| + 1..] == rest;
      SplitJoin(parts[1..], c);
    }
  }

  /** `l` ends `s`, and what precedes it (if anything) ends with `c`. */
  predicate EndsPiece(s: string, l: string, c: char) {
    HasSuffix(s, l) && (|l| == |s| || s[|s| - |l| - 1] == c)
  }

  /** A piece that ends the text after a separator also ends the whole text. */
  lemma EndsPieceAfter(s: string, i: nat, l: string, c: char)
    requires i < |s| && s[i] == c
    requires EndsPiece(s[i + 1..], l, c)
    ensures EndsPiece(s, l, c)
  {
    var t := s[i + 1..];
    assert s[|s| - |l|..] == t[|t| - |l|..];
  }

  /** The last piece of a split is a suffix of the string, and what precedes it
      (if anything) ends with the separator. */
  lemma {:induction false} SplitLast(s: string, c: char)
    ensures var r := Split(s, c); EndsPiece(s, r[|r| - 1], c)
    decreases |s|
  {
    match IndexOf(s, c)
    case None =>
    case Some(i) =>
      var r := Split(s[i + 1..], c);
      SplitLast(s[i + 1..], c);
      assert Split(s, c) == [s[..i]] + r;
      EndsPieceAfter(s, i, r[|r| - 1], c);
  }

  /** The first piece of a split is a prefix of the string, followed by the separator
      when there is more than one piece. */
  lemma SplitFirst(s: string, c: char)
    ensures var r := Split(s, c);
      HasPrefix(s, r[0]) && (|r| > 1 <==> c in s) && (c in s ==> s[|r[0]|] == c)
  {
  }

  predicate IsUpper(c: char) { 'A' <= c <= 'Z' }

  function LowerChar(c: char): char {
    if IsUpper(c) then (c as int + 32) as char else c
  }

  /** `strings.ToLower` restricted to ASCII letters (see README). */
  function ToLower(s: string): (r: string)
    ensures |r| == |s|
    ensures forall i :: 0 <= i < |s| ==> r[i] == LowerChar(s[i])
  {
    seq(|s|, i requires 0 <= i < |s| => LowerChar(s[i]))
  }

  lemma ToLowerIdempotent(s: string)
    ensures ToLower(ToLower(s)) == ToLower(s)
  {
  }

  /** A string with no upper-case letter is its own lower-case form. */
  lemma ToLowerOfLower(s: string)
    requires forall i :: 0 <= i < |s| ==> !IsUpper(s[i])
    ensures ToLower(s) == s
  {
  }

  /** `unicode.IsSpace`, which `strings.Fields` splits on. */
  predicate IsSpace(c: char) {
    c == ' ' || c == '\t' || c == '\n' || c == '\r' || c == '\U{000B}' || c == '\U{000C}'
    || c == '\U{0085}' || c == '\U{00A0}' || c == '\U{1680}' || ('\U{2000}' <= c <= '\U{200A}')
    || c == '\U{2028}' || c == '\U{2029}' || c == '\U{202F}' || c == '\U{205F}' || c == '\U{3000}'
  }

  predicate AllSpace(s: string) {
    forall i :: 0 <= i < |s| ==> IsSpace(s[i])
  }

  /** `strings.Fields(s)` is non-empty exactly when `s` has a non-space character. */
  predicate HasField(s: string) {
    exists i :: 0 <= i < |s| && !IsSpace(s[i])
  }

  /** The leading run of non-space characters of `s`. */
  function Word(s: string): (r: string)
    ensures HasPrefix(s, r) && forall i :: 0 <= i < |r| ==> !IsSpace(r[i])
    ensures |r| < |s| ==> IsSpace(s[|r|])
    decreases |s|
  {
    if s == [] || IsSpace(s[0]) then "" else [s[0]] + Word(s[1..])
  }

  /** `s` without its leading white space. */
  function TrimLeftSpace(s: string): (r: string)
    ensures HasSuffix(s, r) && AllSpace(s[..|s| - |r|])
    ensures r == [] || !IsSpace(r[0])
    decreases |s|
  {
    if s != [] && IsSpace(s[0]) then
      var r := TrimLeftSpace(s[1..]);
      assert s[..|s| - |r|] == [s[0]] + s[1..][..|s| - 1 - |r|];
      r
    else s
  }

  /** `strings.Fields(s)[0]`: the first whitespace-separated field, i.e. the
      word that follows the leading white space. */
  function FirstField(s: string): (r: string)
    requires HasField(s)
    ensures r != [] && forall i :: 0 <= i < |r| ==> !IsSpace(r[i])
    ensures HasPrefix(TrimLeftSpace(s), r)
    ensures |r| == |TrimLeftSpace(s)| || IsSpace(TrimLeftSpace(s)[|r|])
  {
    TrimLeftHasField(s);
    Word(TrimLeftSpace(s))
  }

  lemma {:induction false} TrimLeftHasField(s: string)
    requires HasField(s)
    ensures TrimLeftSpace(s) != []
    decreases |s|
  {
    if IsSpace(s[0]) {
      var i :| 0 <= i < |s| && !IsSpace(s[i]);
      assert s[1..][i - 1] == s[i];
      TrimLeftHasField(s[1..]);
    }
  }

  /** `strings.TrimRight(s, "\r\n")`. */
  function TrimRightCRLF(s: string): (r: string)
    ensures HasPrefix(s, r)
    ensures r == [] || (r[|r| - 1] != '\r' && r[|r| - 1] != '\n')
    ensures forall i :: |r| <= i < |s| ==> s[i] == '\r' || s[i] == '\n'
    decreases |s|
  {
    if s != [] && (s[|s| - 1] == '\r' || s[|s| - 1] == '\n') then TrimRightCRLF(s[..|s| - 1]) else s
  }

  predicate IsDigit(c: char) { '0' <= c <= '9' }

  function DigitChar(d: nat): (c: char)
    requires d < 10
    ensures IsDigit(c)
  {
    ('0' as int + d) as char
  }

  /** Decimal digits of `n`, as `strconv.Itoa` writes them. */
  function NatToString(n: nat): (r: string)
    ensures r != [] && forall i :: 0 <= i < |r| ==> IsDigit(r[i])
    decreases n
  {
    if n < 10 then [DigitChar(n)] else NatToString(n / 10) + [DigitChar(n % 10)]
  }

  /** `fmt`'s `%d` for an `int`. */
  function IntToString(i: int): string {
    if i < 0 then "-" + NatToString(-i) else NatToString(i)
  }

  /** The value of a string of decimal digits. */
  function ParseDigits(s: string): nat
    requires forall i :: 0 <= i < |s| ==> IsDigit(s[i])
    decreases |s|
  {
    if s == [] then 0
    else
      var d := s[|s| - 1] as int - '0' as int;
      assert IsDigit(s[|s| - 1]);
      ParseDigits(s[..|s| - 1]) * 10 + d
  }

  lemma {:induction false} ParseNatToString(n: nat)
    ensures ParseDigits(NatToString(n)) == n
    decreases n
  {
    if n >= 10 {
      ParseNatToString(n / 10);
      var s := NatToString(n);
      assert s[..|s| - 1] == NatToString(n / 10);
    }
  }

  /** `path/filepath.Base` with `/` as the separator: drop trailing slashes,
      keep what follows the last slash; "" gives ".", only slashes give "/". */
  function StripTrailingSlashes(p: string): (r: string)
    ensures HasPrefix(p, r) && (r == [] || r[|r| - 1] != '/')
    ensures forall i :: |r| <= i < |p| ==> p[i] == '/'
    decreases |p|
  {
    if p != [] && p[|p| - 1] == '/' then StripTrailingSlashes(p[..|p| - 1]) else p
  }

  function Base(path: string): (r: string)
  {
    if path == "" then "."
    else
      var p := StripTrailingSlashes(path);
      var pieces := Split(p, '/');
      var last := pieces[|pieces| - 1];
      if last == "" then "/" else last
  }

  /** `Base` never returns "", never contains a slash unless it is "/", and is
      the final element of the path. */
  lemma BaseShape(path: string)
    ensures Base(path) != ""
    ensures Base(path) == "/" || '/' !in Base(path)
    ensures path != "" && Base(path) != "/" ==> HasSuffix(StripTrailingSlashes(path), Base(path))
  {
    if path != "" {
      SplitLast(StripTrailingSlashes(path), '/');
    }
  }

  /** Length in bytes of the UTF-8 encoding, which Go's `len` measures. */
  function Utf8Len(s: string): (n: nat)
    ensures n >= |s|
    decreases |s|
  {
    if s == [] then 0
    else
      var c := s[0] as int;
      (if c < 0x80 then 1 else if c < 0x800 then 2 else if c < 0x10000 then 3 else 4) + Utf8Len(s[1..])
  }
}
