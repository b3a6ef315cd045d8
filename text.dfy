/**
 * The JavaScript string operations the CV builder relies on, on `seq<char>`:
 * `String.prototype.trim`, `parseInt(s, 10)`, `String(n)` for integers,
 * `split` on a set of separator characters and `padStart(2, '0')`.
 */
module Text {
  import opened Wrappers

  /** ECMAScript WhiteSpace and LineTerminator code points: what `trim` and `parseInt` skip. */
  predicate IsWhitespace(c: char) {
    ('\t' <= c <= '\r') || c == ' ' || c == '\U{00A0}' || c == '\U{1680}' ||
    ('\U{2000}' <= c <= '\U{200A}') || c == '\U{2028}' || c == '\U{2029}' || c == '\U{202F}' ||
    c == '\U{205F}' || c == '\U{3000}' || c == '\U{FEFF}'
  }

  /** Every character of `s` is whitespace (this includes the empty string). */
  predicate IsBlank(s: string) {
    forall k :: 0 <= k < |s| ==> IsWhitespace(s[k])
  }

  /** Neither end of `s` is whitespace: `s.trim()` would leave it alone. */
  predicate IsTrimmed(s: string) {
    s == [] || (!IsWhitespace(s[0]) && !IsWhitespace(s[|s| - 1]))
  }

  /** Removes the longest whitespace prefix. */
  function TrimStart(s: string): (r: string)
    ensures |r| <= |s|
    ensures r == [] || !IsWhitespace(r[0])
    decreases |s|
  {
    if s != [] && IsWhitespace(s[0]) then TrimStart(s[1..]) else s
  }

  /** What `TrimStart` keeps is a suffix, and what it cuts off is whitespace. */
  lemma {:induction false} TrimStartIsSuffix(s: string)
    ensures TrimStart(s) == s[|s| - |TrimStart(s)|..]
    ensures IsBlank(s[..|s| - |TrimStart(s)|])
    decreases |s|
  {
    if s != [] && IsWhitespace(s[0]) {
      TrimStartIsSuffix(s[1..]);
      var n := |s| - |TrimStart(s)|;
      assert s[1..][n - 1..] == s[n..];
      forall k | 0 <= k < n ensures IsWhitespace(s[k]) {
        if k > 0 { assert s[k] == s[1..][..n - 1][k - 1]; }
      }
    }
  }

  /** Removes the longest whitespace suffix. */
  function TrimEnd(s: string): (r: string)
    ensures |r| <= |s|
    ensures r == [] || !IsWhitespace(r[|r| - 1])
    decreases |s|
  {
    if s != [] && IsWhitespace(s[|s| - 1]) then TrimEnd(s[..|s| - 1]) else s
  }

  /** What `TrimEnd` keeps is a prefix, and what it cuts off is whitespace. */
  lemma {:induction false} TrimEndIsPrefix(s: string)
    ensures TrimEnd(s) == s[..|TrimEnd(s)|]
    ensures IsBlank(s[|TrimEnd(s)|..])
    decreases |s|
  {
    if s != [] && IsWhitespace(s[|s| - 1]) {
      var init := s[..|s| - 1];
      TrimEndIsPrefix(init);
      var n := |TrimEnd(s)|;
      assert init[..n] == s[..n];
      forall k | n <= k < |s| ensures IsWhitespace(s[k]) {
        if k < |s| - 1 { assert s[k] == init[n..][k - n]; }
      }
    }
  }

  /** `s.trim()`: cuts whitespace off both ends. */
  function Trim(s: string): (r: string)
    ensures IsTrimmed(r)
    ensures |r| <= |s|
  {
    var t := TrimStart(s);
    TrimEndIsPrefix(t);
    TrimEnd(t)
  }

  /** What `trim` cuts off is whitespace, and what it keeps is an infix of the input. */
  lemma TrimIsInfix(s: string)
    ensures var i := |s| - |TrimStart(s)|;
            i + |Trim(s)| <= |s| && Trim(s) == s[i..i + |Trim(s)|] &&
            IsBlank(s[..i]) && IsBlank(s[i + |Trim(s)|..])
  {
    var t := TrimStart(s);
    TrimStartIsSuffix(s);
    TrimEndIsPrefix(t);
    PrefixOfSuffix(s, t, TrimEnd(t), |s| - |t|);
  }

  /** A prefix `r` of the suffix `t` of `s` from `i` sits in `s` at `i`, followed by the rest of `t`. */
  lemma PrefixOfSuffix(s: string, t: string, r: string, i: nat)
    requires i <= |s| && t == s[i..] && |r| <= |t| && r == t[..|r|]
    ensures i + |r| <= |s| && r == s[i..i + |r|] && s[i + |r|..] == t[|r|..]
  {
  }

  lemma TrimOfTrimmed(s: string)
    requires IsTrimmed(s)
    ensures Trim(s) == s
  {
  }

  /** `trim` is idempotent. */
  lemma TrimIdempotent(s: string)
    ensures Trim(Trim(s)) == Trim(s)
  {
    TrimOfTrimmed(Trim(s));
  }

  /** `s.trim()` is empty exactly when `s` is all whitespace, i.e. when `s.trim()` is falsy. */
  lemma {:induction false} TrimEmptyIff(s: string)
    ensures Trim(s) == [] <==> IsBlank(s)
    decreases |s|
  {
    if s != [] && IsWhitespace(s[0]) {
      TrimEmptyIff(s[1..]);
      assert IsBlank(s) <==> IsBlank(s[1..]) by {
        if IsBlank(s[1..]) {
          forall k | 0 <= k < |s| ensures IsWhitespace(s[k]) {
            if k > 0 { assert s[k] == s[1..][k - 1]; }
          }
        }
        if IsBlank(s) {
          forall k | 0 <= k < |s| - 1 ensures IsWhitespace(s[1..][k]) { assert s[1..][k] == s[k + 1]; }
        }
      }
    } else if s != [] {
      assert TrimStart(s) == s;
      TrimEndIsPrefix(s);
    }
  }

  // ---- array helpers shared by the normalisers: `.map(v => v.trim()).filter(Boolean)` ----

  /** `ss.map(v => v.trim())` */
  function TrimAll(ss: seq<string>): (r: seq<string>)
    ensures |r| == |ss|
  {
    seq(|ss|, i requires 0 <= i < |ss| => Trim(ss[i]))
  }

  /** `ss.filter(Boolean)`: keeps the non-empty strings, in order. */
  function DropEmpty(ss: seq<string>): (r: seq<string>)
    ensures |r| <= |ss|
    ensures forall i :: 0 <= i < |r| ==> r[i] != []
    decreases |ss|
  {
    if ss == [] then []
    else if ss[0] == [] then DropEmpty(ss[1..])
    else [ss[0]] + DropEmpty(ss[1..])
  }

  /** Filtering keeps only entries of its input, so it keeps them trimmed. */
  lemma {:induction false} DropEmptyOfTrimmed(ss: seq<string>)
    requires forall i :: 0 <= i < |ss| ==> IsTrimmed(ss[i])
    ensures forall i :: 0 <= i < |DropEmpty(ss)| ==> IsTrimmed(DropEmpty(ss)[i])
    decreases |ss|
  {
    if ss != [] {
      DropEmptyOfTrimmed(ss[1..]);
    }
  }

  /** The filter keeps exactly the non-empty entries. */
  lemma {:induction false} DropEmptyMembers(ss: seq<string>, x: string)
    ensures x in DropEmpty(ss) <==> x in ss && x != []
    decreases |ss|
  {
    if ss != [] {
      DropEmptyMembers(ss[1..], x);
      assert ss == [ss[0]] + ss[1..];
    }
  }

  /** The list every normaliser writes: each entry trimmed, empty entries dropped. */
  function Clean(ss: seq<string>): (r: seq<string>)
    ensures IsClean(r)
    ensures |r| <= |ss|
  {
    DropEmptyOfTrimmed(TrimAll(ss));
    DropEmpty(TrimAll(ss))
  }

  /** No entry is empty and none is padded with whitespace. */
  predicate IsClean(ss: seq<string>) {
    forall i :: 0 <= i < |ss| ==> ss[i] != [] && IsTrimmed(ss[i])
  }

  /** An entry survives cleaning exactly when it is the trimmed form of some entry and is not empty. */
  lemma CleanMembers(ss: seq<string>, x: string)
    ensures x in Clean(ss) <==> x != [] && exists i :: 0 <= i < |ss| && x == Trim(ss[i])
  {
    DropEmptyMembers(TrimAll(ss), x);
    var ts := TrimAll(ss);
    assert x in ts <==> exists i :: 0 <= i < |ss| && x == Trim(ss[i]) by {
      if x in ts {
        var i :| 0 <= i < |ts| && ts[i] == x;
      }
      if exists i :: 0 <= i < |ss| && x == Trim(ss[i]) {
        var i :| 0 <= i < |ss| && x == Trim(ss[i]);
        assert ts[i] == x;
      }
    }
  }

  lemma {:induction false} DropEmptyAppend(a: seq<string>, b: seq<string>)
    ensures DropEmpty(a + b) == DropEmpty(a) + DropEmpty(b)
    decreases |a|
  {
    if a != [] {
      assert (a + b)[1..] == a[1..] + b;
      DropEmptyAppend(a[1..], b);
    } else {
      assert a + b == b;
    }
  }

  /** Cleaning works entry by entry and keeps relative order: it distributes over `+`. */
  lemma CleanAppend(a: seq<string>, b: seq<string>)
    ensures Clean(a + b) == Clean(a) + Clean(b)
  {
    TrimAllAppend(a, b);
    DropEmptyAppend(TrimAll(a), TrimAll(b));
  }

  lemma TrimAllAppend(a: seq<string>, b: seq<string>)
    ensures TrimAll(a + b) == TrimAll(a) + TrimAll(b)
  {
    var l, r := TrimAll(a + b), TrimAll(a) + TrimAll(b);
    forall i | 0 <= i < |a| + |b| ensures l[i] == r[i] {
      if i < |a| {
        assert (a + b)[i] == a[i];
      } else {
        assert (a + b)[i] == b[i - |a|];
      }
    }
  }

  /** A single entry survives, trimmed, exactly when it is not all whitespace. */
  lemma CleanSingle(s: string)
    ensures Clean([s]) == if IsBlank(s) then [] else [Trim(s)]
  {
    TrimEmptyIff(s);
    assert TrimAll([s]) == [Trim(s)];
    assert DropEmpty([Trim(s)])== if Trim(s) == [] then [] else [Trim(s)] by {
      assert [Trim(s)][1..] == [];
    }
  }

  /** The whole list is cleaned away exactly when every entry is blank. */
  lemma {:induction false} CleanEmptyIff(ss: seq<string>)
    ensures Clean(ss) == [] <==> forall i :: 0 <= i < |ss| ==> IsBlank(ss[i])
    decreases |ss|
  {
    if ss != [] {
      assert ss == [ss[0]] + ss[1..];
      CleanAppend([ss[0]], ss[1..]);
      CleanSingle(ss[0]);
      CleanEmptyIff(ss[1..]);
      assert (forall i :: 0 <= i < |ss| ==> IsBlank(ss[i])) <==>
             IsBlank(ss[0]) && (forall i :: 0 <= i < |ss| - 1 ==> IsBlank(ss[1..][i])) by {
        if forall i :: 0 <= i < |ss| - 1 ==> IsBlank(ss[1..][i]) {
          forall i | 1 <= i < |ss| ensures IsBlank(ss[i]) { assert ss[i] == ss[1..][i - 1]; }
        }
      }
    }
  }

  /** An already clean list is a fixed point. */
  lemma {:induction false} CleanOfClean(ss: seq<string>)
    requires IsClean(ss)
    ensures Clean(ss) == ss
    decreases |ss|
  {
    if ss != [] {
      assert ss == [ss[0]] + ss[1..];
      CleanAppend([ss[0]], ss[1..]);
      CleanSingle(ss[0]);
      TrimOfTrimmed(ss[0]);
      TrimEmptyIff(ss[0]);
      CleanOfClean(ss[1..]);
    }
  }

  /** Cleaning twice is cleaning once. */
  lemma CleanIdempotent(ss: seq<string>)
    ensures Clean(Clean(ss)) == Clean(ss)
  {
    CleanOfClean(Clean(ss));
  }

  // ---- digits and integers ----

  predicate IsDigit(c: char) { '0' <= c <= '9' }

  predicate AllDigits(s: string) { forall k :: 0 <= k < |s| ==> IsDigit(s[k]) }

  function DigitValue(c: char): (d: nat)
    requires IsDigit(c)
    ensures d < 10
  {
    (c as int) - ('0' as int)
  }

  function DigitChar(d: nat): (c: char)
    requires d < 10
    ensures IsDigit(c) && DigitValue(c) == d
  {
    (('0' as int) + d) as char
  }

  /** The number a run of decimal digits denotes. */
  function DigitsValue(s: string): (n: nat)
    requires AllDigits(s)
    decreases |s|
  {
    if s == [] then 0 else DigitsValue(s[..|s| - 1]) * 10 + DigitValue(s[|s| - 1])
  }

  /** `String(n)` for a natural number: its shortest decimal representation. */
  function NatToString(n: nat): (s: string)
    ensures s != [] && AllDigits(s)
    ensures |s| > 1 ==> s[0] != '0'
    decreases n
  {
    if n < 10 then [DigitChar(n)] else NatToString(n / 10) + [DigitChar(n % 10)]
  }

  /** `String(n)` / `${n}` for an integer (JavaScript only switches to exponent notation past 1e21). */
  function IntToString(n: int): (s: string)
    ensures s != []
  {
    if n < 0 then "-" + NatToString(-n) else NatToString(n)
  }

  lemma {:induction false} DigitsOfNatToString(n: nat)
    ensures DigitsValue(NatToString(n)) == n
    decreases n
  {
    if n >= 10 {
      DigitsOfNatToString(n / 10);
      var s := NatToString(n);
      assert s[..|s| - 1] == NatToString(n / 10);
    }
  }

  lemma DigitCharOfValue(c: char)
    requires IsDigit(c)
    ensures DigitChar(DigitValue(c)) == c
  {
  }

  /** A run of digits without a leading zero is exactly what `String` writes for its value. */
  lemma {:induction false} NatToStringOfDigits(t: string)
    requires t != [] && AllDigits(t) && (|t| > 1 ==> t[0] != '0')
    ensures NatToString(DigitsValue(t)) == t
    decreases |t|
  {
    var n := DigitsValue(t);
    var last := t[|t| - 1];
    DigitCharOfValue(last);
    if |t| > 1 {
      var init := t[..|t| - 1];
      assert AllDigits(init);
      assert |init| > 1 ==> init[0] != '0';
      NatToStringOfDigits(init);
      assert DigitsValue(init) >= 1;
      assert n / 10 == DigitsValue(init) && n % 10 == DigitValue(last);
      assert t == init + [last];
    }
  }

  /** `String(m).padStart(2, '0')` is two digits that read back as `m`, for a month number. */
  lemma PaddedMonthDigits(m: int)
    requires 1 <= m <= 12
    ensures |PadStart2(IntToString(m))| == 2 && AllDigits(PadStart2(IntToString(m)))
    ensures DigitsValue(PadStart2(IntToString(m))) == m
  {
    var s := NatToString(m);
    DigitsOfNatToString(m);
    if m < 10 {
      var p := PadStart2(s);
      assert p == "0" + s;
      assert p[..1] == "0";
    }
  }

  /** Two digits worth at least one are `String(value).padStart(2, '0')`. */
  lemma PaddedOfTwoDigits(t: string)
    requires |t| == 2 && AllDigits(t) && DigitsValue(t) >= 1
    ensures PadStart2(NatToString(DigitsValue(t))) == t
  {
    if t[0] == '0' {
      assert t[..1] == "0" && t[..1][..0] == [];
      assert DigitsValue(t[..1]) == 0;
      assert DigitsValue(t) == DigitValue(t[1]);
      DigitCharOfValue(t[1]);
      assert NatToString(DigitsValue(t)) == [t[1]];
      assert t == "0" + [t[1]];
    } else {
      NatToStringOfDigits(t);
    }
  }

  /** Four digits: `String(n)` has four characters exactly for 1000 <= n <= 9999. */
  lemma FourDigitYear(n: nat)
    ensures |NatToString(n)| == 4 <==> 1000 <= n <= 9999
  {
    NatToStringLength(n, 4);
    assert Pow10(3) == 1000 && Pow10(4) == 10000;
  }

  /** The number of decimal digits of `String(n)` pins `n` to a range. */
  lemma {:induction false} NatToStringLength(n: nat, len: nat)
    requires len >= 1
    ensures |NatToString(n)| == len <==> (len == 1 && n < 10) || (len > 1 && Pow10(len - 1) <= n < Pow10(len))
    decreases n
  {
    if n >= 10 {
      if len > 1 {
        NatToStringLength(n / 10, len - 1);
        Pow10Step(len - 1);
        if len == 2 { assert Pow10(1) == 10; }
      } else {
        NatToStringLength(n / 10, 1);
      }
    } else if len > 1 {
      Pow10Step(len - 2);
    }
  }

  function Pow10(k: nat): (p: nat)
    ensures p >= 1
  {
    if k == 0 then 1 else 10 * Pow10(k - 1)
  }

  lemma Pow10Step(k: nat)
    ensures Pow10(k + 1) == 10 * Pow10(k)
  {
  }

  /** A run of `k` digits denotes less than `10^k`. */
  lemma {:induction false} DigitsValueBound(s: string)
    requires AllDigits(s)
    ensures DigitsValue(s) < Pow10(|s|)
    decreases |s|
  {
    if s != [] {
      DigitsValueBound(s[..|s| - 1]);
      Pow10Step(|s| - 1);
    }
  }

  /** The longest prefix of `s` made of decimal digits. */
  function DigitPrefix(s: string): (r: string)
    ensures AllDigits(r) && |r| <= |s| && r == s[..|r|]
    ensures |r| < |s| ==> !IsDigit(s[|r|])
    decreases |s|
  {
    if s != [] && IsDigit(s[0]) then [s[0]] + DigitPrefix(s[1..]) else []
  }

  lemma {:induction false} DigitPrefixOfDigits(s: string)
    requires AllDigits(s)
    ensures DigitPrefix(s) == s
    decreases |s|
  {
    if s != [] {
      assert IsDigit(s[0]);
      DigitPrefixOfDigits(s[1..]);
    }
  }

  /**
   * `parseInt(s, 10)`: skip leading whitespace, read an optional sign and then
   * the longest run of decimal digits; `None` stands for NaN (no digit at all).
   */
  function ParseInt(s: string): (r: Option<int>)
    ensures TrimStart(s) == [] ==> r.None?
    ensures TrimStart(s) != [] && !IsDigit(TrimStart(s)[0]) && TrimStart(s)[0] != '-' && TrimStart(s)[0] != '+' ==> r.None?
  {
    var t := TrimStart(s);
    var negative := t != [] && t[0] == '-';
    var body := if t != [] && (t[0] == '-' || t[0] == '+') then t[1..] else t;
    var digits := DigitPrefix(body);
    if digits == [] then None
    else if negative then Some(-(DigitsValue(digits) as int))
    else Some(DigitsValue(digits))
  }

  /** `parseInt` skips any leading whitespace. */
  lemma ParseIntSkipsWhitespace(w: string, s: string)
    requires IsBlank(w)
    ensures ParseInt(w + s) == ParseInt(s)
  {
    TrimStartOfBlank(w, s);
  }

  lemma {:induction false} TrimStartOfBlank(w: string, s: string)
    requires IsBlank(w)
    ensures TrimStart(w + s) == TrimStart(s)
    decreases |w|
  {
    if w != [] {
      assert (w + s)[0] == w[0];
      assert (w + s)[1..] == w[1..] + s;
      assert IsBlank(w[1..]) by {
        forall k | 0 <= k < |w| - 1 ensures IsWhitespace(w[1..][k]) { assert w[1..][k] == w[k + 1]; }
      }
      TrimStartOfBlank(w[1..], s);
    } else {
      assert w + s == s;
    }
  }

  /** `parseInt` stops at the first non-digit: whatever follows the digits is ignored. */
  lemma ParseIntIgnoresRest(digits: string, rest: string)
    requires digits != [] && AllDigits(digits)
    requires rest == [] || !IsDigit(rest[0])
    ensures ParseInt(digits + rest) == Some(DigitsValue(digits))
  {
    var s := digits + rest;
    assert s[0] == digits[0];
    DigitIsNotWhitespace(s[0]);
    TrimStartKeeps(s);
    DigitPrefixStops(digits, rest);
  }

  lemma {:induction false} DigitPrefixStops(digits: string, rest: string)
    requires AllDigits(digits)
    requires rest == [] || !IsDigit(rest[0])
    ensures DigitPrefix(digits + rest) == digits
    decreases |digits|
  {
    if digits == [] {
      assert digits + rest == rest;
    } else {
      var s := digits + rest;
      assert s[0] == digits[0] && IsDigit(s[0]);
      assert s[1..] == digits[1..] + rest;
      assert AllDigits(digits[1..]) by {
        forall k | 0 <= k < |digits| - 1 ensures IsDigit(digits[1..][k]) { assert digits[1..][k] == digits[k + 1]; }
      }
      DigitPrefixStops(digits[1..], rest);
    }
  }

  lemma TrimStartKeeps(s: string)
    requires s != [] && !IsWhitespace(s[0])
    ensures TrimStart(s) == s
  {
  }

  lemma DigitIsNotWhitespace(c: char)
    requires IsDigit(c) || c == '-'
    ensures !IsWhitespace(c)
  {
  }

  /** `parseInt` of a run of digits is the number the digits denote. */
  lemma ParseIntOfDigits(s: string)
    requires s != [] && AllDigits(s)
    ensures ParseInt(s) == Some(DigitsValue(s))
  {
    DigitIsNotWhitespace(s[0]);
    TrimStartKeeps(s);
    DigitPrefixOfDigits(s);
  }

  /** `parseInt` reads back what `String(n)` writes. */
  lemma ParseIntOfIntToString(n: int)
    ensures ParseInt(IntToString(n)) == Some(n)
  {
    if n < 0 {
      var s := IntToString(n);
      var digits := NatToString(-n);
      assert s == "-" + digits;
      DigitIsNotWhitespace('-');
      TrimStartKeeps(s);
      assert s[1..] == digits;
      DigitPrefixOfDigits(digits);
      DigitsOfNatToString(-n);
    } else {
      DigitsOfNatToString(n);
      ParseIntOfDigits(NatToString(n));
    }
  }

  // ---- split and padStart ----

  /** Index of the first character in `seps`, or `|s|` when there is none. */
  function FirstIndexOf(s: string, seps: set<char>): (i: nat)
    ensures i <= |s|
    decreases |s|
  {
    if s == [] then 0 else if s[0] in seps then 0 else 1 + FirstIndexOf(s[1..], seps)
  }

  /** The first separator of `a + [c] + b` is that `c` when `a` holds none. */
  lemma {:induction false} FirstIndexOfAt(a: string, c: char, b: string, seps: set<char>)
    requires forall k :: 0 <= k < |a| ==> a[k] !in seps
    requires c in seps
    ensures FirstIndexOf(a + [c] + b, seps) == |a|
    decreases |a|
  {
    var s := a + [c] + b;
    if a == [] {
      assert s[0] == c;
    } else {
      assert s[0] == a[0];
      assert s[1..] == a[1..] + [c] + b;
      FirstIndexOfAt(a[1..], c, b, seps);
    }
  }

  /** A string with no separator has none to find. */
  lemma {:induction false} FirstIndexOfNone(s: string, seps: set<char>)
    requires forall k :: 0 <= k < |s| ==> s[k] !in seps
    ensures FirstIndexOf(s, seps) == |s|
    decreases |s|
  {
    if s != [] {
      assert s[0] !in seps;
      FirstIndexOfNone(s[1..], seps);
    }
  }

  /** `s.split(sep)` for a one-character separator or a regular expression character class. */
  function Split(s: string, seps: set<char>): (parts: seq<string>)
    ensures |parts| >= 1
    decreases |s|
  {
    var i := FirstIndexOf(s, seps);
    if i == |s| then [s] else [s[..i]] + Split(s[i + 1..], seps)
  }

  /** Splitting `a + sep + b`, where `a` holds no separator, puts `a` first. */
  lemma SplitAt(a: string, c: char, b: string, seps: set<char>)
    requires forall k :: 0 <= k < |a| ==> a[k] !in seps
    requires c in seps
    ensures Split(a + [c] + b, seps) == [a] + Split(b, seps)
  {
    var s := a + [c] + b;
    FirstIndexOfAt(a, c, b, seps);
    assert s[..|a|] == a;
    assert s[|a| + 1..] == b;
  }

  /** A string with no separator splits into itself alone. */
  lemma SplitWithout(s: string, seps: set<char>)
    requires forall k :: 0 <= k < |s| ==> s[k] !in seps
    ensures Split(s, seps) == [s]
  {
    FirstIndexOfNone(s, seps);
  }

  /** `s.padStart(2, '0')` */
  function PadStart2(s: string): (r: string)
    ensures |r| == if |s| >= 2 then |s| else 2
    ensures r[|r| - |s|..] == s
    ensures forall k :: 0 <= k < |r| - |s| ==> r[k] == '0'
  {
    if |s| >= 2 then s else if |s| == 1 then "0" + s else "00"
  }
}
