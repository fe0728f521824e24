/** The JavaScript string operations the bot relies on (`trim`, `toLowerCase`,
    `includes`, `startsWith`, `split`, `parseInt`) and the three small regular
    expressions it matches messages against, stated over `seq<char>`. */
module Text {
  import opened Wrappers

  /** The white-space set of `String.prototype.trim`: WhiteSpace and LineTerminator. */
  predicate IsSpace(c: char) {
    c == ' ' || c == '\t' || c == '\n' || c == '\r' || c == '\U{000B}' || c == '\U{000C}'
    || c == '\U{00A0}' || c == '\U{1680}' || ('\U{2000}' <= c <= '\U{200A}')
    || c == '\U{2028}' || c == '\U{2029}' || c == '\U{202F}' || c == '\U{205F}'
    || c == '\U{3000}' || c == '\U{FEFF}'
  }

  predicate AllSpace(s: string) {
    forall i | 0 <= i < |s| :: IsSpace(s[i])
  }

  /** Drops leading white space; the result is a suffix of `s`. */
  function TrimStart(s: string): (r: string)
    ensures |r| <= |s| && r == s[|s| - |r|..]
    ensures AllSpace(s[..|s| - |r|])
    ensures r != [] ==> !IsSpace(r[0])
  {
    if s != [] && IsSpace(s[0]) then
      var r := TrimStart(s[1..]);
      assert s[..|s| - |r|] == [s[0]] + s[1..][..|s| - 1 - |r|];
      r
    else s
  }

  /** Drops trailing white space; the result is a prefix of `s`. */
  function TrimEnd(s: string): (r: string)
    ensures |r| <= |s| && r == s[..|r|]
    ensures AllSpace(s[|r|..])
    ensures r != [] ==> !IsSpace(r[|r| - 1])
  {
    if s != [] && IsSpace(s[|s| - 1]) then
      var r := TrimEnd(s[..|s| - 1]);
      assert s[|r|..] == s[..|s| - 1][|r|..] + [s[|s| - 1]];
      r
    else s
  }

  /** `String.prototype.trim`: empty exactly when `s` is all white space,
      otherwise it starts and ends with a non-space character. */
  function Trim(s: string): (r: string)
    ensures |r| <= |s|
    ensures r == [] <==> AllSpace(s)
    ensures r != [] ==> !IsSpace(r[0]) && !IsSpace(r[|r| - 1])
  {
    var t := TrimStart(s);
    var r := TrimEnd(t);
    assert |r| == 0 ==> t[|r|..] == t;
    assert t == [] ==> s[..|s|] == s;
    r
  }

  /** Trimming twice is trimming once. */
  lemma TrimIdempotent(s: string)
    ensures Trim(Trim(s)) == Trim(s)
  {
    var r := Trim(s);
    TrimOfTrimmed(r);
  }

  /** A string that neither starts nor ends with white space is its own trim. */
  lemma TrimOfTrimmed(r: string)
    requires r != [] ==> !IsSpace(r[0]) && !IsSpace(r[|r| - 1])
    ensures Trim(r) == r
  {
    assert TrimStart(r) == r;
  }

  /** `toLowerCase` of one character: the model lower-cases the ASCII
      letters and leaves every other character alone. */
  function LowerChar(c: char): char {
    if 'A' <= c <= 'Z' then (c as int + 32) as char else c
  }

  function UpperChar(c: char): char {
    if 'a' <= c <= 'z' then (c as int - 32) as char else c
  }

  function ToLower(s: string): (r: string)
    ensures |r| == |s|
    ensures forall i | 0 <= i < |s| :: r[i] == LowerChar(s[i])
  {
    seq(|s|, i requires 0 <= i < |s| => LowerChar(s[i]))
  }

  /** Lower-casing is idempotent and distributes over concatenation. */
  lemma ToLowerIdempotent(s: string)
    ensures ToLower(ToLower(s)) == ToLower(s)
  {
  }

  lemma ToLowerConcat(a: string, b: string)
    ensures ToLower(a + b) == ToLower(a) + ToLower(b)
  {
  }

  predicate IsLowerAscii(s: string) {
    forall i | 0 <= i < |s| :: !('A' <= s[i] <= 'Z')
  }

  /** A string with no upper-case ASCII letter is unchanged by `ToLower`. */
  lemma ToLowerOfLower(s: string)
    requires IsLowerAscii(s)
    ensures ToLower(s) == s
  {
  }

  /** `s.includes(sub)`: `sub` occurs at some position of `s`. */
  predicate OccursAt(s: string, sub: string, i: nat) {
    i + |sub| <= |s| && s[i..i + |sub|] == sub
  }

  predicate Contains(s: string, sub: string) {
    exists i: nat | i <= |s| :: OccursAt(s, sub, i)
  }

  /** `s.startsWith(p)` */
  predicate StartsWith(s: string, p: string) {
    |p| <= |s| && s[..|p|] == p
  }

  /** `words.some(w => s.includes(w))`, written out as a chain of `||` in the source. */
  predicate MentionsAny(s: string, words: seq<string>) {
    exists i | 0 <= i < |words| :: Contains(s, words[i])
  }

  lemma StartsWithContains(s: string, p: string)
    requires StartsWith(s, p)
    ensures Contains(s, p)
  {
    assert OccursAt(s, p, 0);
  }

  /** The middle part of a concatenation is contained in it. */
  lemma ContainsInfix(a: string, b: string, c: string)
    ensures Contains(a + b + c, b)
  {
    assert (a + b + c)[|a|..|a| + |b|] == b;
    assert OccursAt(a + b + c, b, |a|);
  }

  /** Each of the three values filled into a template of four fixed parts
      is contained in the result. */
  lemma ContainsFields(a: string, x: string, b: string, y: string, c: string, z: string, e: string)
    ensures Contains(a + x + b + y + c + z + e, x)
    ensures Contains(a + x + b + y + c + z + e, y)
    ensures Contains(a + x + b + y + c + z + e, z)
  {
    assert a + x + b + y + c + z + e == a + x + (b + y + c + z + e);
    ContainsInfix(a, x, b + y + c + z + e);
    assert a + x + b + y + c + z + e == (a + x + b) + y + (c + z + e);
    ContainsInfix(a + x + b, y, c + z + e);
    ContainsInfix(a + x + b + y + c, z, e);
  }

  /** Each of the two values filled into a template of three fixed parts is
      contained in the result. */
  lemma ContainsTwoFields(a: string, x: string, b: string, y: string, c: string)
    ensures Contains(a + x + b + y + c, x)
    ensures Contains(a + x + b + y + c, y)
  {
    assert a + x + b + y + c == a + x + (b + y + c);
    ContainsInfix(a, x, b + y + c);
    ContainsInfix(a + x + b, y, c);
  }

  /** Concatenation is associative. */
  lemma AppendAssoc<T>(a: seq<T>, b: seq<T>, c: seq<T>)
    ensures (a + b) + c == a + (b + c)
  {
  }

  /** Containment is transitive. */
  lemma ContainsTransitive(s: string, a: string, b: string)
    requires Contains(s, a) && Contains(a, b)
    ensures Contains(s, b)
  {
    var i: nat :| i <= |s| && OccursAt(s, a, i);
    var j: nat :| j <= |a| && OccursAt(a, b, j);
    forall k | 0 <= k < |b| ensures s[i + j + k] == b[k] {
      assert b[k] == a[j + k] == s[i + j + k];
    }
    assert s[i + j..i + j + |b|] == b;
    assert OccursAt(s, b, i + j);
  }

  /** `"x".includes("")` is true for every string. */
  lemma ContainsEmpty(s: string)
    ensures Contains(s, "")
  {
    assert OccursAt(s, "", 0);
  }

  /** Nothing longer than `s` occurs in it. */
  lemma ContainsShorter(s: string, sub: string)
    requires Contains(s, sub)
    ensures |sub| <= |s|
  {
  }

  /** `s.indexOf(c)`, -1 when absent. */
  function IndexOfChar(s: string, c: char): (r: int)
    ensures r == -1 <==> c !in s
    ensures r >= 0 ==> r < |s| && s[r] == c && c !in s[..r]
  {
    if s == [] then -1
    else if s[0] == c then 0
    else
      var k := IndexOfChar(s[1..], c);
      if k < 0 then -1
      else
        assert s[..k + 1] == [s[0]] + s[1..][..k];
        k + 1
  }

  /** The inverse of `Split`. */
  function Join(parts: seq<string>, sep: char): string
    requires |parts| >= 1
  {
    if |parts| == 1 then parts[0] else parts[0] + [sep] + Join(parts[1..], sep)
  }

  /** `s.split(sep)` with a one-character separator: the pieces contain no
      separator and joining them back gives `s`. */
  function Split(s: string, sep: char): (r: seq<string>)
    ensures |r| >= 1
    ensures forall i | 0 <= i < |r| :: sep !in r[i]
    ensures Join(r, sep) == s
    decreases |s|
  {
    var k := IndexOfChar(s, sep);
    if k < 0 then [s]
    else
      var rest := Split(s[k + 1..], sep);
      var r := [s[..k]] + rest;
      assert r[1..] == rest;
      assert s == s[..k] + [sep] + s[k + 1..];
      r
  }

  /** `s.split(' ')[0]`: everything before the first space. */
  function FirstWord(s: string): (r: string)
    ensures StartsWith(s, r) && ' ' !in r
    ensures |r| < |s| ==> s[|r|] == ' '
  {
    var k := IndexOfChar(s, ' ');
    if k < 0 then s else s[..k]
  }

  predicate IsDigit(c: char) {
    '0' <= c <= '9'
  }

  predicate DigitsAt(s: string, i: nat, n: nat) {
    i + n <= |s| && forall j | i <= j < i + n :: IsDigit(s[j])
  }

  /** A match of `/\d{4}-\d{2}-\d{2}/` starts at `i`. */
  predicate DateAt(s: string, i: nat) {
    i + 10 <= |s| && DigitsAt(s, i, 4) && s[i + 4] == '-' && DigitsAt(s, i + 5, 2)
    && s[i + 7] == '-' && DigitsAt(s, i + 8, 2)
  }

  /** The leftmost position at or after `k` where `DateAt` holds. */
  function FirstDateAt(s: string, k: nat): (r: Option<nat>)
    ensures r.Some? ==> k <= r.value && DateAt(s, r.value)
    ensures r.Some? ==> forall j: nat | k <= j < r.value :: !DateAt(s, j)
    ensures r.None? ==> forall j: nat | k <= j :: !DateAt(s, j)
    decreases |s| - k
  {
    if k + 10 > |s| then None
    else if DateAt(s, k) then Some(k)
    else FirstDateAt(s, k + 1)
  }

  /** `s.match(/\d{4}-\d{2}-\d{2}/)?.[0]` */
  function MatchDate(s: string): (r: Option<string>)
    ensures r.None? <==> FirstDateAt(s, 0).None?
    ensures r.Some? ==> var i := FirstDateAt(s, 0).value; r.value == s[i..i + 10]
  {
    match FirstDateAt(s, 0)
    case Some(i) => Some(s[i..i + 10])
    case None => None
  }

  /** Length of the match of `/\d{1,2}:\d{2}/` that starts at `i` (0 when
      none): the greedy quantifier tries two hour digits before one. */
  function TimeLenAt(s: string, i: nat): (n: nat)
    ensures n == 0 || n == 4 || n == 5
    ensures n > 0 ==> i + n <= |s|
  {
    if i + 5 <= |s| && IsDigit(s[i]) && IsDigit(s[i + 1]) && s[i + 2] == ':'
       && IsDigit(s[i + 3]) && IsDigit(s[i + 4]) then 5
    else if i + 4 <= |s| && IsDigit(s[i]) && s[i + 1] == ':'
       && IsDigit(s[i + 2]) && IsDigit(s[i + 3]) then 4
    else 0
  }

  function FirstTimeAt(s: string, k: nat): (r: Option<nat>)
    ensures r.Some? ==> k <= r.value && TimeLenAt(s, r.value) > 0
    ensures r.Some? ==> forall j: nat | k <= j < r.value :: TimeLenAt(s, j) == 0
    ensures r.None? ==> forall j: nat | k <= j :: TimeLenAt(s, j) == 0
    decreases |s| - k
  {
    if k + 4 > |s| then None
    else if TimeLenAt(s, k) > 0 then Some(k)
    else FirstTimeAt(s, k + 1)
  }

  /** `s.match(/\d{1,2}:\d{2}/)?.[0]` */
  function MatchTime(s: string): (r: Option<string>)
    ensures r.Some? ==> (|r.value| == 4 || |r.value| == 5) && ':' in r.value
    ensures r.None? <==> FirstTimeAt(s, 0).None?
    ensures r.Some? ==> var i := FirstTimeAt(s, 0).value; r.value == s[i..i + TimeLenAt(s, i)]
  {
    match FirstTimeAt(s, 0)
    case Some(i) =>
      var n := TimeLenAt(s, i);
      assert s[i..i + n][n - 3] == ':';
      Some(s[i..i + n])
    case None => None
  }

  /** The maximal run of digits starting at `i`. */
  function DigitRun(s: string, i: nat): (r: string)
    requires i <= |s|
    ensures i + |r| <= |s| && r == s[i..i + |r|]
    ensures forall j | 0 <= j < |r| :: IsDigit(r[j])
    ensures i + |r| == |s| || !IsDigit(s[i + |r|])
    decreases |s| - i
  {
    if i < |s| && IsDigit(s[i]) then
      var rest := DigitRun(s, i + 1);
      assert s[i..i + 1 + |rest|] == [s[i]] + rest;
      [s[i]] + rest
    else []
  }

  /** The decimal value of a string of digits. */
  function DigitsValue(ds: string): nat
    requires forall j | 0 <= j < |ds| :: IsDigit(ds[j])
  {
    if ds == [] then 0
    else
      assert IsDigit(ds[|ds| - 1]);
      DigitsValue(ds[..|ds| - 1]) * 10 + (ds[|ds| - 1] as int - '0' as int)
  }

  /** `parseInt(w)` for a word without leading white space or sign: the value
      of its leading digits, `None` (NaN) when it does not start with one. */
  function ParseLeadingInt(w: string): (r: Option<nat>)
    ensures r.None? <==> (w == [] || !IsDigit(w[0]))
  {
    var ds := DigitRun(w, 0);
    if ds == [] then None else Some(DigitsValue(ds))
  }

  function FirstDigitAt(s: string, k: nat): (r: Option<nat>)
    ensures r.Some? ==> k <= r.value < |s| && IsDigit(s[r.value])
    ensures r.Some? ==> forall j: nat | k <= j < r.value :: !IsDigit(s[j])
    ensures r.None? ==> forall j: nat | k <= j < |s| :: !IsDigit(s[j])
    decreases |s| - k
  {
    if k >= |s| then None
    else if IsDigit(s[k]) then Some(k)
    else FirstDigitAt(s, k + 1)
  }

  /** `parseInt(s.match(/#?(\d+)/)[1])`: the value of the first run of digits. */
  function MatchNumber(s: string): (r: Option<nat>)
    ensures r.None? <==> forall j | 0 <= j < |s| :: !IsDigit(s[j])
  {
    match FirstDigitAt(s, 0)
    case Some(i) => Some(DigitsValue(DigitRun(s, i)))
    case None => None
  }

  /** Decimal rendering of a natural number (`String(n)`). */
  function NatToString(n: nat): (r: string)
    ensures |r| >= 1
    ensures forall j | 0 <= j < |r| :: IsDigit(r[j])
  {
    var d := ['0' + (n % 10) as char];
    if n < 10 then d else NatToString(n / 10) + d
  }

  /** The rendering reads back as the number. */
  lemma {:induction false} NatToStringValue(n: nat)
    ensures DigitsValue(NatToString(n)) == n
  {
    var d := ['0' + (n % 10) as char];
    if n >= 10 {
      NatToStringValue(n / 10);
      var s := NatToString(n / 10) + d;
      assert s[..|s| - 1] == NatToString(n / 10);
    } else {
      assert d[..0] == [];
    }
  }

  /** `String(i)` for an integer. */
  function IntToString(i: int): (r: string)
    ensures |r| >= 1
  {
    if i < 0 then "-" + NatToString(-i) else NatToString(i)
  }

  /** `s.padStart(n, c)` for a one-character `c`. */
  function PadStart(s: string, n: nat, c: char): (r: string)
    ensures |s| >= n ==> r == s
    ensures |s| < n ==> |r| == n && r[n - |s|..] == s && forall j | 0 <= j < n - |s| :: r[j] == c
  {
    if |s| >= n then s else seq(n - |s|, _ => c) + s
  }

  /** `n.toString().padStart(2, '0')` for a value below 100 is two digits
      that read back as `n`. */
  lemma TwoDigits(n: nat)
    requires n < 100
    ensures var r := PadStart(NatToString(n), 2, '0');
            |r| == 2 && IsDigit(r[0]) && IsDigit(r[1]) && DigitsValue(r) == n
  {
    var r := PadStart(NatToString(n), 2, '0');
    if n < 10 {
      assert NatToString(n) == ['0' + n as char];
      assert r == ['0', '0' + n as char];
      assert r[..1] == ['0'];
      assert DigitsValue(r[..1]) == 0 by {
        assert r[..1][..0] == [];
      }
    } else {
      assert NatToString(n / 10) == ['0' + (n / 10) as char];
      assert r == ['0' + (n / 10) as char, '0' + (n % 10) as char];
      assert r[..1] == ['0' + (n / 10) as char];
      assert DigitsValue(r[..1]) == n / 10 by {
        assert r[..1][..0] == [];
      }
    }
  }

  /** JavaScript's `a || b` on a string field, with `null`/`undefined` modelled as "". */
  function Or(a: string, b: string): string {
    if a != "" then a else b
  }
}
