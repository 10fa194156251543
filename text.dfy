/** The few Go standard-library string operations the core relies on, stated on `seq<char>`:
    decimal formatting (`%d`, `%v` on an int), `strconv.Atoi`, `strings.Trim(s, " ")`,
    ASCII `strings.ToUpper` and `strings.ToLower`, `filepath.Ext` and `strings.TrimPrefix(s, ".")`. */
module Text {
  import opened Wrappers

  const Int64Min: int := -0x8000_0000_0000_0000
  const Int64Max: int := 0x7FFF_FFFF_FFFF_FFFF

  predicate IsDigit(c: char) { '0' <= c <= '9' }

  predicate AllDigits(s: string) { forall i :: 0 <= i < |s| ==> IsDigit(s[i]) }

  function DigitChar(d: nat): (c: char)
    requires d < 10
    ensures IsDigit(c)
  {
    ['0', '1', '2', '3', '4', '5', '6', '7', '8', '9'][d]
  }

  function DigitValue(c: char): (d: nat)
    requires IsDigit(c)
    ensures d < 10
  {
    (c as int - '0' as int) as nat
  }

  /** Decimal text of a natural number, most significant digit first, no leading zeros. */
  function NatToDecimal(n: nat): (s: string)
    ensures |s| > 0 && AllDigits(s)
  {
    if n < 10 then [DigitChar(n)] else NatToDecimal(n / 10) + [DigitChar(n % 10)]
  }

  /** Go's `%d` / `%v` on an int: a minus sign for negative values. */
  function IntToDecimal(i: int): (s: string)
    ensures |s| > 0
    ensures i >= 0 <==> IsDigit(s[0])
  {
    if i < 0 then "-" + NatToDecimal(-i) else NatToDecimal(i)
  }

  /** Value of a string of decimal digits, read most significant digit first. */
  function DigitsValue(s: string): nat
    requires AllDigits(s)
  {
    if s == [] then 0 else DigitsValue(s[..|s| - 1]) * 10 + DigitValue(s[|s| - 1])
  }

  /** `strconv.Atoi` on a 64-bit platform: an optional sign, then at least one decimal digit,
      and the value must fit in an int64. */
  function Atoi(s: string): (r: Option<int>)
    ensures r.Some? ==> Int64Min <= r.value <= Int64Max
    ensures r.Some? ==> |s| > 0 && (IsDigit(s[0]) || s[0] == '+' || s[0] == '-')
  {
    if s == [] then None
    else
      var negative := s[0] == '-';
      var digits := if s[0] == '+' || s[0] == '-' then s[1..] else s;
      if digits == [] || !AllDigits(digits) then None
      else
        var n: int := DigitsValue(digits);
        var v := if negative then -n else n;
        if Int64Min <= v <= Int64Max then Some(v) else None
  }

  lemma {:induction false} DigitsOfNat(n: nat)
    ensures DigitsValue(NatToDecimal(n)) == n
  {
    var s := NatToDecimal(n);
    if n < 10 {
      assert s[..|s| - 1] == [];
    } else {
      var prefix := NatToDecimal(n / 10);
      assert s[..|s| - 1] == prefix;
      DigitsOfNat(n / 10);
    }
  }

  /** `strconv.Atoi` reads back every int64 that `%d` prints. */
  lemma AtoiFormatsRoundTrip(i: int)
    requires Int64Min <= i <= Int64Max
    ensures Atoi(IntToDecimal(i)) == Some(i)
  {
    var s := IntToDecimal(i);
    if i < 0 {
      assert s[1..] == NatToDecimal(-i);
      DigitsOfNat(-i);
    } else {
      DigitsOfNat(i);
    }
  }

  // ---------------------------------------------------------------- strings.Trim(s, " ")

  function TrimLeftSpaces(s: string): (r: string)
    ensures |r| <= |s| && r == s[|s| - |r|..]
    ensures r == [] || r[0] != ' '
    ensures forall i :: 0 <= i < |s| - |r| ==> s[i] == ' '
  {
    if s != [] && s[0] == ' ' then TrimLeftSpaces(s[1..]) else s
  }

  function TrimRightSpaces(s: string): (r: string)
    ensures |r| <= |s| && r == s[..|r|]
    ensures r == [] || r[|r| - 1] != ' '
    ensures forall i :: |r| <= i < |s| ==> s[i] == ' '
  {
    if s != [] && s[|s| - 1] == ' ' then TrimRightSpaces(s[..|s| - 1]) else s
  }

  /** `strings.Trim(s, " ")`: drops every leading and trailing space, nothing else. */
  function TrimSpaces(s: string): (r: string)
    ensures r == [] || (r[0] != ' ' && r[|r| - 1] != ' ')
    ensures exists k :: 0 <= k <= |s| - |r| && r == s[k..][..|r|]
    ensures forall c :: c in s && c != ' ' ==> c in r
  {
    var l := TrimLeftSpaces(s);
    var r := TrimRightSpaces(l);
    assert r == s[|s| - |l|..][..|r|];
    forall c | c in s && c != ' ' ensures c in r {
      var i :| 0 <= i < |s| && s[i] == c;
      assert l[i - (|s| - |l|)] == c;
    }
    r
  }

  // ---------------------------------------------------------------- strings.ToUpper (ASCII)

  function UpperChar(c: char): char {
    if 'a' <= c <= 'z' then (c as int - 'a' as int + 'A' as int) as char else c
  }

  /** `strings.ToUpper`, restricted to the ASCII letters that occur in the model's inputs. */
  function ToUpper(s: string): (r: string)
    ensures |r| == |s|
  {
    if s == [] then [] else [UpperChar(s[0])] + ToUpper(s[1..])
  }

  /** Every character is upper-cased in place. */
  lemma {:induction false} ToUpperChars(s: string)
    ensures forall i :: 0 <= i < |s| ==> ToUpper(s)[i] == UpperChar(s[i])
  {
    if s != [] {
      ToUpperChars(s[1..]);
      assert forall i :: 1 <= i < |s| ==> ToUpper(s)[i] == ToUpper(s[1..])[i - 1];
    }
  }

  function LowerChar(c: char): char {
    if 'A' <= c <= 'Z' then (c as int - 'A' as int + 'a' as int) as char else c
  }

  /** `strings.ToLower`, restricted to ASCII letters like `ToUpper`. */
  function ToLower(s: string): (r: string)
    ensures |r| == |s|
  {
    if s == [] then [] else [LowerChar(s[0])] + ToLower(s[1..])
  }

  /** Every character is lower-cased in place. */
  lemma {:induction false} ToLowerChars(s: string)
    ensures forall i :: 0 <= i < |s| ==> ToLower(s)[i] == LowerChar(s[i])
  {
    if s != [] {
      ToLowerChars(s[1..]);
      assert forall i :: 1 <= i < |s| ==> ToLower(s)[i] == ToLower(s[1..])[i - 1];
    }
  }

  // ---------------------------------------------------------------- filepath.Ext, TrimPrefix

  /** `filepath.Ext`: the suffix from the last '.' of the final path element on, or "" when
      that element has no '.'. */
  function Ext(path: string): string {
    if path == [] then ""
    else
      var c := path[|path| - 1];
      if c == '/' then ""
      else if c == '.' then "."
      else
        var e := Ext(path[..|path| - 1]);
        if e == [] then "" else e + [c]
  }

  /** An extension is empty, or a suffix of the path that starts with its only '.' and holds no
      '/'. */
  lemma {:induction false} ExtShape(path: string)
    ensures var r := Ext(path);
      r == [] || (r[0] == '.' && |r| <= |path| && r == path[|path| - |r|..])
    ensures forall i :: 0 < i < |Ext(path)| ==> Ext(path)[i] != '.' && Ext(path)[i] != '/'
  {
    if path != [] && path[|path| - 1] != '/' && path[|path| - 1] != '.' {
      var init := path[..|path| - 1];
      ExtShape(init);
      var e := Ext(init);
      if e != [] {
        assert path[|path| - |e| - 1..] == init[|init| - |e|..] + [path[|path| - 1]];
      }
    }
  }

  /** `strings.TrimPrefix(s, ".")`. */
  function TrimDot(s: string): (r: string)
    ensures if |s| > 0 && s[0] == '.' then r == s[1..] else r == s
  {
    if |s| > 0 && s[0] == '.' then s[1..] else s
  }

  predicate EndsWith(s: string, suffix: string) {
    |suffix| <= |s| && s[|s| - |suffix|..] == suffix
  }

  /** A name that ends in '.' followed by a text without '.' or '/' has exactly that text as its
      extension. */
  lemma {:induction false} ExtOfDottedSuffix(name: string, e: string)
    requires EndsWith(name, "." + e)
    requires forall i :: 0 <= i < |e| ==> e[i] != '.' && e[i] != '/'
    ensures Ext(name) == "." + e
    decreases |e|
  {
    if e == [] {
      assert name[|name| - 1] == '.';
    } else {
      var c := e[|e| - 1];
      var init := name[..|name| - 1];
      assert name[|name| - 1] == c;
      assert EndsWith(init, "." + e[..|e| - 1]) by {
        assert init[|init| - (|e|)..] == ("." + e)[..|e|] == "." + e[..|e| - 1];
      }
      ExtOfDottedSuffix(init, e[..|e| - 1]);
      assert "." + e[..|e| - 1] + [c] == "." + e;
    }
  }

  /** The extension that `strings.TrimPrefix(filepath.Ext(name), ".")` yields is `e` exactly
      when the name ends with "." + e (for an `e` that has no '.' or '/' and is not empty). */
  lemma ExtensionIsDottedSuffix(name: string, e: string)
    requires |e| > 0 && forall i :: 0 <= i < |e| ==> e[i] != '.' && e[i] != '/'
    ensures TrimDot(Ext(name)) == e <==> EndsWith(name, "." + e)
  {
    if EndsWith(name, "." + e) {
      ExtOfDottedSuffix(name, e);
    }
    if TrimDot(Ext(name)) == e {
      ExtShape(name);
      var x := Ext(name);
      assert x == "." + e;
    }
  }
}
