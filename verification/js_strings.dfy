/** The JavaScript string built-ins that the connection tests apply inline
    to environment values: `String.prototype.replace` with a string pattern,
    `String.prototype.split` with a one-character separator, and
    `parseInt(s, 10)`. Each is stated on `string` (a `seq<char>`) with its
    meaning as a contract, and with an inverse or round-trip lemma. */
module JsStrings {
  import opened Wrappers

  // ---------------------------------------------------------------------
  // Searching: indexOf
  // ---------------------------------------------------------------------

  /** `pat` occurs in `s` starting at index `i`. */
  predicate OccursAt(s: string, pat: string, i: nat) {
    i + |pat| <= |s| && s[i..i + |pat|] == pat
  }

  /** The first index at or after `from` where `pat` occurs, if any. */
  function IndexOfFrom(s: string, pat: string, from: nat): (r: Option<nat>)
    ensures r.Some? ==> from <= r.value && OccursAt(s, pat, r.value)
    ensures r.Some? ==> forall j :: from <= j < r.value ==> !OccursAt(s, pat, j)
    ensures r.None? ==> forall j :: from <= j ==> !OccursAt(s, pat, j)
    decreases |s| - from
  {
    if from + |pat| > |s| then None
    else if s[from..from + |pat|] == pat then Some(from)
    else IndexOfFrom(s, pat, from + 1)
  }

  /** `s.indexOf(pat)`: the first occurrence of `pat` in `s`. */
  function IndexOf(s: string, pat: string): (r: Option<nat>)
    ensures r.Some? ==> OccursAt(s, pat, r.value)
    ensures r.Some? ==> forall j: nat :: j < r.value ==> !OccursAt(s, pat, j)
    ensures r.None? ==> forall j: nat :: !OccursAt(s, pat, j)
  {
    IndexOfFrom(s, pat, 0)
  }

  // ---------------------------------------------------------------------
  // String.prototype.replace with a string pattern
  // ---------------------------------------------------------------------

  /** `s.replace(pat, replacement)`: only the FIRST occurrence of `pat` is replaced;
      a string without `pat` comes back unchanged. A replacement holding `$`
      would be read as a substitution pattern (`$&`, `$$`, `` $` ``, `$'`);
      without one it is inserted literally, as here. */
  function ReplaceFirst(s: string, pat: string, replacement: string): (r: string)
    requires '$' !in replacement
    ensures IndexOf(s, pat).None? ==> r == s
    ensures IndexOf(s, pat).Some? ==>
      var i := IndexOf(s, pat).value;
      && |r| == |s| - |pat| + |replacement|
      && r[..i] == s[..i]
      && r[i..i + |replacement|] == replacement
      && r[i + |replacement|..] == s[i + |pat|..]
  {
    match IndexOf(s, pat)
    case None => s
    case Some(i) => s[..i] + replacement + s[i + |pat|..]
  }

  /** Replacing a prefix by the empty string strips exactly that prefix:
      `(p + rest).replace(p, '') == rest`. */
  lemma StripPrefix(p: string, rest: string)
    ensures ReplaceFirst(p + rest, p, "") == rest
  {
    var s := p + rest;
    assert s[0..|p|] == p;
    assert OccursAt(s, p, 0);
    assert IndexOf(s, p) == Some(0);
  }

  // ---------------------------------------------------------------------
  // String.prototype.split and Array.prototype.join, one-character separator
  // ---------------------------------------------------------------------

  /** The index of the first `c` in `s` at or after `from`, if any: the
      one-character case of `indexOf`. */
  function CharIndexFrom(s: string, c: char, from: nat): (r: Option<nat>)
    ensures r.Some? ==> from <= r.value < |s| && s[r.value] == c
    ensures r.Some? ==> forall j :: from <= j < r.value ==> s[j] != c
    ensures r.None? ==> forall j :: from <= j < |s| ==> s[j] != c
    decreases |s| - from
  {
    if from >= |s| then None
    else if s[from] == c then Some(from)
    else CharIndexFrom(s, c, from + 1)
  }

  /** The index of the first `c` in `s`, if any. */
  function FirstIndexOf(s: string, c: char): (r: Option<nat>)
    ensures r.Some? ==> r.value < |s| && s[r.value] == c && c !in s[..r.value]
    ensures r.None? <==> c !in s
  {
    var r := CharIndexFrom(s, c, 0);
    assert r.Some? ==> c !in s[..r.value] by {
      if r.Some? {
        forall j | 0 <= j < r.value ensures s[..r.value][j] != c { }
      }
    }
    r
  }

  /** The one-character search agrees with `indexOf` on a one-character
      pattern. */
  lemma FirstIndexOfIsIndexOf(s: string, c: char)
    ensures FirstIndexOf(s, c) == IndexOf(s, [c])
  {
    var r := IndexOf(s, [c]);
    forall j | 0 <= j < |s| ensures OccursAt(s, [c], j) <==> s[j] == c {
      assert s[j..j + 1] == [s[j]];
    }
    match r
    case None =>
    case Some(i) =>
      assert s[i..i + 1] == [s[i]];
      assert forall j :: 0 <= j < i ==> !OccursAt(s, [c], j);
  }

  /** `parts.join(sep)`. */
  function Join(parts: seq<string>, sep: char): string
  {
    if |parts| == 0 then ""
    else if |parts| == 1 then parts[0]
    else parts[0] + [sep] + Join(parts[1..], sep)
  }

  /** Two or more pieces join as the first, the separator, the second,
      and then (if there are more) the separator and the rest. */
  lemma JoinFirstTwo(parts: seq<string>, sep: char)
    requires |parts| >= 2
    ensures var tail := if |parts| == 2 then "" else [sep] + Join(parts[2..], sep);
      Join(parts, sep) == parts[0] + [sep] + parts[1] + tail
  {
    if |parts| > 2 {
      assert parts[1..][1..] == parts[2..];
    }
  }

  /** `s.split(sep)`: the pieces between successive separators, always at
      least one (`''.split(':')` is `['']`), none holding the separator. */
  function Split(s: string, sep: char): (parts: seq<string>)
    ensures |parts| >= 1
    ensures forall k :: 0 <= k < |parts| ==> sep !in parts[k]
    ensures Join(parts, sep) == s
    decreases |s|
  {
    match FirstIndexOf(s, sep)
    case None => [s]
    case Some(i) =>
      var rest := Split(s[i + 1..], sep);
      assert s == s[..i] + [sep] + s[i + 1..];
      [s[..i]] + rest
  }

  /** Split is the inverse of Join over separator-free pieces: the pieces
      that were joined are exactly the pieces that come back. */
  lemma {:induction false} SplitJoin(parts: seq<string>, sep: char)
    requires |parts| >= 1
    requires forall k :: 0 <= k < |parts| ==> sep !in parts[k]
    ensures Split(Join(parts, sep), sep) == parts
    decreases |parts|
  {
    if |parts| == 1 {
      assert FirstIndexOf(parts[0], sep).None?;
    } else {
      var s := Join(parts, sep);
      var p := parts[0];
      assert s == p + [sep] + Join(parts[1..], sep);
      assert s[|p|] == sep && s[..|p|] == p;
      assert FirstIndexOf(s, sep) == Some(|p|);
      assert s[|p| + 1..] == Join(parts[1..], sep);
      SplitJoin(parts[1..], sep);
    }
  }

  /** `(host + ':' + port).split(':')` yields `[host, port]` when neither
      holds a colon, and a colon-free string splits into itself alone. */
  lemma SplitHostPort(host: string, port: string)
    requires ':' !in host && ':' !in port
    ensures Split(host + ":" + port, ':') == [host, port]
    ensures Split(host, ':') == [host]
  {
    assert Join([host, port], ':') == host + ":" + port by {
      assert Join([host, port][1..], ':') == port;
    }
    SplitJoin([host, port], ':');
    SplitJoin([host], ':');
  }

  // ---------------------------------------------------------------------
  // parseInt(s, 10)
  // ---------------------------------------------------------------------

  /** The characters that `parseInt` skips before the number: the
      ECMAScript WhiteSpace (TAB, VT, FF, ZWNBSP and every space separator)
      and LineTerminator characters. */
  predicate IsJsWhiteSpace(c: char) {
    c == '\t' || c == '\U{000B}' || c == '\U{000C}' || c == ' ' || c == '\U{00A0}'
    || c == '\U{FEFF}' || c == '\U{1680}' || ('\U{2000}' <= c <= '\U{200A}')
    || c == '\U{202F}' || c == '\U{205F}' || c == '\U{3000}'
    || c == '\n' || c == '\r' || c == '\U{2028}' || c == '\U{2029}'
  }

  predicate IsDigit(c: char) {
    '0' <= c <= '9'
  }

  predicate AllDigits(s: string) {
    forall k :: 0 <= k < |s| ==> IsDigit(s[k])
  }

  /** `s` with its leading white space removed. */
  function TrimStart(s: string): (r: string)
    ensures |r| <= |s| && r == s[|s| - |r|..]
    ensures r == [] || !IsJsWhiteSpace(r[0])
    ensures forall k :: 0 <= k < |s| - |r| ==> IsJsWhiteSpace(s[k])
  {
    if |s| > 0 && IsJsWhiteSpace(s[0]) then
      var r := TrimStart(s[1..]);
      assert s[|s| - |r|..] == s[1..][|s[1..]| - |r|..];
      assert forall k :: 1 <= k < |s| - |r| ==> s[k] == s[1..][k - 1];
      r
    else s
  }

  /** The longest prefix of `s` made of decimal digits. */
  function DigitPrefix(s: string): (r: string)
    ensures |r| <= |s| && r == s[..|r|]
    ensures AllDigits(r)
    ensures |r| == |s| || !IsDigit(s[|r|])
  {
    if |s| > 0 && IsDigit(s[0]) then [s[0]] + DigitPrefix(s[1..]) else []
  }

  /** The value of a string of decimal digits, most significant first. */
  function DecimalValue(ds: string): nat
    requires AllDigits(ds)
  {
    if |ds| == 0 then 0
    else DecimalValue(ds[..|ds| - 1]) * 10 + DigitValue(ds[|ds| - 1])
  }

  function DigitValue(c: char): nat
    requires IsDigit(c)
  {
    c as int - '0' as int
  }

  /** The value of a four-digit string, digit by digit. */
  lemma FourDigitValue(ds: string)
    requires |ds| == 4 && AllDigits(ds)
    ensures DecimalValue(ds) ==
      1000 * DigitValue(ds[0]) + 100 * DigitValue(ds[1]) + 10 * DigitValue(ds[2]) + DigitValue(ds[3])
  {
    var one, two, three := ds[..1], ds[..2], ds[..3];
    assert one[..0] == [] && one[0] == ds[0];
    assert DecimalValue(one) == DigitValue(ds[0]);
    assert two[..1] == one && two[1] == ds[1];
    assert DecimalValue(two) == DecimalValue(one) * 10 + DigitValue(ds[1]);
    assert three[..2] == two && three[2] == ds[2];
    assert DecimalValue(three) == DecimalValue(two) * 10 + DigitValue(ds[2]);
    assert ds[..3] == three;
    assert DecimalValue(ds) == DecimalValue(three) * 10 + DigitValue(ds[3]);
  }

  /** `parseInt(s, 10)`, with `None` for NaN: leading white space is
      skipped, one optional `+` or `-` is read, then the longest run of
      decimal digits; anything after that run is ignored. */
  function ParseInt(s: string): (r: Option<int>)
  {
    ParseSigned(TrimStart(s))
  }

  /** `parseInt` after the white space: an optional sign, then digits. */
  function ParseSigned(t: string): Option<int>
  {
    if |t| > 0 && t[0] == '-' then
      match ParseDigits(t[1..])
      case None => None
      case Some(n) => Some(-n)
    else if |t| > 0 && t[0] == '+' then ParseDigits(t[1..])
    else ParseDigits(t)
  }

  /** The value of the leading run of digits of `u`, or NaN without one. */
  function ParseDigits(u: string): Option<int>
  {
    var ds := DigitPrefix(u);
    if |ds| == 0 then None else Some(DecimalValue(ds))
  }

  /** The shortest decimal spelling of `n`, as `String(n)` gives it. */
  function ToDecimal(n: nat): (r: string)
    ensures |r| >= 1 && AllDigits(r)
    ensures DecimalValue(r) == n
    ensures |r| > 1 ==> r[0] != '0'
  {
    var last := ['0' + (n % 10) as char];
    if n < 10 then last
    else
      var front := ToDecimal(n / 10);
      assert (front + last)[..|front + last| - 1] == front;
      front + last
  }

  /** `parseInt` reads back what a digit string spells: a run of digits
      followed by anything that does not start with a digit. */
  lemma ParseDigitsThen(ds: string, rest: string)
    requires |ds| >= 1 && AllDigits(ds)
    requires |rest| == 0 || !IsDigit(rest[0])
    ensures ParseInt(ds + rest) == Some(DecimalValue(ds))
  {
    var s := ds + rest;
    assert s[0] == ds[0];
    DigitIsNotWhiteSpace(s[0]);
    assert TrimStart(s) == s;
    DigitPrefixOf(ds, rest);
    assert DigitPrefix(s) == ds;
  }

  lemma DigitIsNotWhiteSpace(c: char)
    requires IsDigit(c)
    ensures !IsJsWhiteSpace(c)
  {
  }

  lemma {:induction false} DigitPrefixOf(ds: string, rest: string)
    requires AllDigits(ds)
    requires |rest| == 0 || !IsDigit(rest[0])
    ensures DigitPrefix(ds + rest) == ds
    decreases |ds|
  {
    if |ds| > 0 {
      assert (ds + rest)[1..] == ds[1..] + rest;
      DigitPrefixOf(ds[1..], rest);
    } else {
      assert ds + rest == rest;
    }
  }

  /** `s` with its leading white space removed is what remains after a
      run of white space is removed first: `parseInt` skips the whole run. */
  lemma {:induction false} TrimStartWhiteSpace(ws: string, s: string)
    requires forall k :: 0 <= k < |ws| ==> IsJsWhiteSpace(ws[k])
    ensures TrimStart(ws + s) == TrimStart(s)
    decreases |ws|
  {
    if |ws| == 0 {
      assert ws + s == s;
    } else {
      assert (ws + s)[0] == ws[0];
      assert (ws + s)[1..] == ws[1..] + s;
      TrimStartWhiteSpace(ws[1..], s);
    }
  }

  /** Leading white space does not change what `parseInt` reads. */
  lemma {:induction false} ParseIntSkipsWhiteSpace(ws: string, s: string)
    requires forall k :: 0 <= k < |ws| ==> IsJsWhiteSpace(ws[k])
    ensures ParseInt(ws + s) == ParseInt(s)
  {
    TrimStartWhiteSpace(ws, s);
  }

  /** A sign character is not white space, so `parseInt` starts at it. */
  lemma TrimStartAtSign(c: char, u: string)
    requires c == '+' || c == '-'
    ensures TrimStart([c] + u) == [c] + u
  {
    assert ([c] + u)[0] == c;
  }

  /** A `+` or `-`, then a run of digits, then anything that does not
      start with a digit: the run's value, negated after `-`. Without a
      sign, ParseDigitsThen gives the run's value. */
  lemma {:induction false} ParseIntAfterSign(c: char, ds: string, rest: string)
    requires c == '+' || c == '-'
    requires |ds| >= 1 && AllDigits(ds)
    requires |rest| == 0 || !IsDigit(rest[0])
    ensures ParseInt([c] + (ds + rest))
         == Some(if c == '-' then -(DecimalValue(ds) as int) else DecimalValue(ds) as int)
  {
    var u := ds + rest;
    TrimStartAtSign(c, u);
    assert ParseInt([c] + u) == ParseSigned([c] + u);
    ParseDigitsRun(ds, rest);
    ParseSignedAt(c, u);
    var n: int := DecimalValue(ds);
    assert ParseDigits(u) == Some(n);
    if c == '-' {
      assert ParseSigned([c] + u) == Some(-n);
    } else {
      assert ParseSigned([c] + u) == Some(n);
    }
  }

  /** The digit run at the start of `ds + rest` is `ds`. */
  lemma ParseDigitsRun(ds: string, rest: string)
    requires |ds| >= 1 && AllDigits(ds)
    requires |rest| == 0 || !IsDigit(rest[0])
    ensures ParseDigits(ds + rest) == Some(DecimalValue(ds) as int)
  {
    DigitPrefixOf(ds, rest);
  }

  /** After a sign character come the digits, negated after `-`. */
  lemma ParseSignedAt(c: char, u: string)
    requires c == '+' || c == '-'
    ensures ParseDigits(u).None? ==> ParseSigned([c] + u) == None
    ensures ParseDigits(u).Some? && c == '-' ==> ParseSigned([c] + u) == Some(-ParseDigits(u).value)
    ensures ParseDigits(u).Some? && c == '+' ==> ParseSigned([c] + u) == ParseDigits(u)
  {
    var s := [c] + u;
    assert s[0] == c && s[1..] == u;
  }

  /** NaN: no digit follows the optional sign (the text ends, or its next
      character is not a digit). */
  lemma {:induction false} ParseIntNoDigits(sign: string, rest: string)
    requires sign in {"", "+", "-"}
    requires |rest| == 0 || !IsDigit(rest[0])
    requires sign == "" && |rest| > 0 ==>
      !IsJsWhiteSpace(rest[0]) && rest[0] != '+' && rest[0] != '-'
    ensures ParseInt(sign + rest) == None
  {
    assert DigitPrefix(rest) == [];
    if sign == "" {
      assert sign + rest == rest;
      assert TrimStart(rest) == rest;
    } else {
      var s := [sign[0]] + rest;
      assert sign + rest == s;
      TrimStartAtSign(sign[0], rest);
      assert s[1..] == rest;
    }
  }

  /** A whole digit string parses to its decimal value `n`. */
  lemma ParseDigitString(ds: string, n: nat)
    requires |ds| >= 1 && AllDigits(ds) && DecimalValue(ds) == n
    ensures ParseInt(ds) == Some(n)
  {
    ParseDigitsThen(ds, "");
    assert ds + "" == ds;
  }

  /** Round trip: `parseInt(String(n), 10) == n` for every natural `n`. */
  lemma ParseIntToDecimal(n: nat)
    ensures ParseInt(ToDecimal(n)) == Some(n)
  {
    ParseDigitsThen(ToDecimal(n), "");
    assert ToDecimal(n) + "" == ToDecimal(n);
  }
}
