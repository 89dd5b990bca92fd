/**
 * parseTreeInput (treeUtils.ts:85-120) on its grammar path: strip all whitespace, check the
 * bracketed list grammar, split on commas, read each item as `null` or a decimal number.
 */
module ParseInput {
  import opened Types

  /** The only failure: the stripped text is outside the grammar (reported as a parse failure). */
  datatype ParseError = BadFormat

  /** The characters of the regular-expression class `\s`. */
  predicate IsSpace(c: char)
  {
    c == ' ' || c == '\t' || c == '\n' || c == '\r' || c == '\U{0B}' || c == '\U{0C}'
    || c == '\U{A0}' || c == '\U{1680}' || ('\U{2000}' <= c <= '\U{200A}')
    || c == '\U{2028}' || c == '\U{2029}' || c == '\U{202F}' || c == '\U{205F}'
    || c == '\U{3000}' || c == '\U{FEFF}'
  }

  /** The text with every whitespace character removed, the rest kept in order. */
  function StripSpaces(s: string): (r: string)
    ensures forall i :: 0 <= i < |r| ==> !IsSpace(r[i])
    ensures |r| <= |s|
  {
    if s == [] then []
    else if IsSpace(s[0]) then StripSpaces(s[1..])
    else [s[0]] + StripSpaces(s[1..])
  }

  predicate IsDigit(c: char)
  {
    '0' <= c <= '9'
  }

  predicate AllDigits(s: string)
  {
    forall i :: 0 <= i < |s| ==> IsDigit(s[i])
  }

  /** One list element of the grammar: `\d+` or `null`. */
  predicate IsItem(s: string)
  {
    s == "null" || (|s| > 0 && AllDigits(s))
  }

  /** String.prototype.split with a one-character separator. */
  function Split(s: string, sep: char): (parts: seq<string>)
    ensures |parts| >= 1
    decreases |s|
  {
    if s == [] then [""]
    else
      var rest := Split(s[1..], sep);
      if s[0] == sep then [""] + rest else [[s[0]] + rest[0]] + rest[1..]
  }

  /** `^\[((\d+|null)(,(\d+|null))*)?\]$` */
  predicate MatchesGrammar(s: string)
  {
    |s| >= 2 && s[0] == '[' && s[|s| - 1] == ']'
    && var inner := s[1..|s| - 1];
       (inner == "" || forall part <- Split(inner, ',') :: IsItem(part))
  }

  function DigitValue(c: char): nat
    requires IsDigit(c)
  {
    (c as int - '0' as int) as nat
  }

  /** parseInt(s, 10) of a run of decimal digits, exactly (leading zeros allowed). */
  function DigitsValue(s: string): nat
    requires AllDigits(s)
    decreases |s|
  {
    if s == [] then 0 else 10 * DigitsValue(s[..|s| - 1]) + DigitValue(s[|s| - 1])
  }

  function ParseItem(s: string): Option<int>
    requires IsItem(s)
  {
    if s == "null" then None else Some(DigitsValue(s))
  }

  function ParseTreeInput(input: string): (r: Result<seq<Option<int>>, ParseError>)
    ensures r.Ok? <==> MatchesGrammar(StripSpaces(input))
    ensures r.Ok? ==> forall i :: 0 <= i < |r.value| && r.value[i] != None ==> r.value[i].value >= 0
  {
    var s := StripSpaces(input);
    if !MatchesGrammar(s) then Err(BadFormat)
    else
      var inner := s[1..|s| - 1];
      if inner == "" then Ok([])
      else
        var parts := Split(inner, ',');
        Ok(seq(|parts|, i requires 0 <= i < |parts| => ParseItem(parts[i])))
  }

  // ---------------------------------------------------------------------------------------
  // The partner: printing a level-order array in the grammar

  function DigitChar(d: nat): char
    requires d < 10
  {
    ('0' as int + d) as char
  }

  /** The decimal text of `n`, without leading zeros. */
  function ShowNat(n: nat): (s: string)
    ensures |s| >= 1 && AllDigits(s)
  {
    if n < 10 then [DigitChar(n)] else ShowNat(n / 10) + [DigitChar(n % 10)]
  }

  function ShowItem(x: Option<nat>): string
  {
    match x
    case None => "null"
    case Some(n) => ShowNat(n)
  }

  function JoinItems(xs: seq<Option<nat>>): string
    requires |xs| >= 1
  {
    if |xs| == 1 then ShowItem(xs[0]) else ShowItem(xs[0]) + "," + JoinItems(xs[1..])
  }

  /** The array written as `[a,b,...]` with `null` for holes. */
  function Format(xs: seq<Option<nat>>): string
  {
    if xs == [] then "[]" else "[" + JoinItems(xs) + "]"
  }

  function Widen(xs: seq<Option<nat>>): seq<Option<int>>
  {
    seq(|xs|, i requires 0 <= i < |xs| => match xs[i] case None => None case Some(n) => Some(n as int))
  }

  lemma {:induction false} ShowNatValue(n: nat)
    ensures DigitsValue(ShowNat(n)) == n
  {
    if n >= 10 {
      ShowNatValue(n / 10);
      var s := ShowNat(n);
      assert s[..|s| - 1] == ShowNat(n / 10);
    }
  }

  lemma ShowItemIsItem(x: Option<nat>)
    ensures IsItem(ShowItem(x)) && ',' !in ShowItem(x)
    ensures ParseItem(ShowItem(x)) == match x case None => None case Some(n) => Some(n as int)
  {
    if x.Some? {
      var s := ShowNat(x.value);
      assert s != "null" by { assert IsDigit(s[0]); }
      ShowNatValue(x.value);
      assert ',' !in s by {
        forall i | 0 <= i < |s| ensures s[i] != ',' { assert IsDigit(s[i]); }
      }
    }
  }

  lemma {:induction false} SplitNoSep(a: string, sep: char, b: string)
    requires sep !in a
    ensures Split(a + b, sep) == [a + Split(b, sep)[0]] + Split(b, sep)[1..]
    decreases |a|
  {
    var sb := Split(b, sep);
    if a == [] {
      assert a + b == b;
      assert a + sb[0] == sb[0];
      assert [sb[0]] + sb[1..] == sb;
    } else {
      assert (a + b)[1..] == a[1..] + b;
      assert (a + b)[0] == a[0];
      SplitNoSep(a[1..], sep, b);
      assert [a[0]] + (a[1..] + sb[0]) == a + sb[0];
    }
  }

  lemma {:induction false} SplitJoin(xs: seq<Option<nat>>)
    requires |xs| >= 1
    ensures Split(JoinItems(xs), ',') == seq(|xs|, i requires 0 <= i < |xs| => ShowItem(xs[i]))
    decreases |xs|
  {
    var a := ShowItem(xs[0]);
    ShowItemIsItem(xs[0]);
    if |xs| == 1 {
      SplitNoSep(a, ',', "");
      assert a + "" == a;
    } else {
      var rest := JoinItems(xs[1..]);
      SplitJoin(xs[1..]);
      var tail := Split(rest, ',');
      assert JoinItems(xs) == a + ("," + rest);
      assert ("," + rest)[1..] == rest;
      assert Split("," + rest, ',') == [""] + tail;
      SplitNoSep(a, ',', "," + rest);
      assert a + "" == a;
      assert Split(JoinItems(xs), ',') == [a] + tail;
      ShownCons(xs);
    }
  }

  /** The shown items of `xs` are the first one's text followed by those of the rest. */
  lemma ShownCons(xs: seq<Option<nat>>)
    requires |xs| >= 2
    ensures seq(|xs|, i requires 0 <= i < |xs| => ShowItem(xs[i]))
            == [ShowItem(xs[0])] + seq(|xs| - 1, i requires 0 <= i < |xs| - 1 => ShowItem(xs[1..][i]))
  {
  }

  /** Parsing what `Format` prints gives back the array. */
  lemma ParseFormat(xs: seq<Option<nat>>)
    ensures ParseTreeInput(Format(xs)) == Ok(Widen(xs))
  {
    var s := Format(xs);
    if xs == [] {
      assert StripSpaces(s) == s;
      assert Widen(xs) == [];
    } else {
      var j := JoinItems(xs);
      JoinHasNoSpace(xs);
      assert s == "[" + j + "]";
      assert forall i :: 0 <= i < |s| ==> !IsSpace(s[i]) by {
        forall i | 0 <= i < |s| ensures !IsSpace(s[i]) {
          if 0 < i < |s| - 1 {
            assert s[i] == j[i - 1];
          }
        }
      }
      StripSpacesNoSpace(s);
      var inner := s[1..|s| - 1];
      assert inner == j;
      SplitJoin(xs);
      forall i | 0 <= i < |xs| ensures IsItem(ShowItem(xs[i])) { ShowItemIsItem(xs[i]); }
      var parts := Split(inner, ',');
      assert |parts| == |xs|;
      ShowNonEmpty(xs);
      assert MatchesGrammar(s);
      var r := seq(|parts|, i requires 0 <= i < |parts| => ParseItem(parts[i]));
      assert ParseTreeInput(Format(xs)) == Ok(r);
      forall i | 0 <= i < |xs| ensures r[i] == Widen(xs)[i] { ShowItemIsItem(xs[i]); }
      assert r == Widen(xs);
    }
  }

  lemma ShowNonEmpty(xs: seq<Option<nat>>)
    requires |xs| >= 1
    ensures |JoinItems(xs)| >= 1
  {
    if xs[0].Some? {
      assert |ShowNat(xs[0].value)| >= 1;
    }
  }

  lemma {:induction false} JoinHasNoSpace(xs: seq<Option<nat>>)
    requires |xs| >= 1
    ensures forall i :: 0 <= i < |JoinItems(xs)| ==> !IsSpace(JoinItems(xs)[i])
    decreases |xs|
  {
    var a := ShowItem(xs[0]);
    assert forall i :: 0 <= i < |a| ==> !IsSpace(a[i]) by {
      if xs[0].Some? {
        assert AllDigits(a);
      }
    }
    if |xs| > 1 {
      JoinHasNoSpace(xs[1..]);
    }
  }

  lemma {:induction false} StripSpacesNoSpace(s: string)
    requires forall i :: 0 <= i < |s| ==> !IsSpace(s[i])
    ensures StripSpaces(s) == s
    decreases |s|
  {
    if s != [] {
      StripSpacesNoSpace(s[1..]);
    }
  }

  /** Stripping is idempotent, so re-parsing stripped text gives the same answer. */
  lemma StripSpacesIdempotent(s: string)
    ensures StripSpaces(StripSpaces(s)) == StripSpaces(s)
    ensures ParseTreeInput(StripSpaces(s)) == ParseTreeInput(s)
  {
    StripSpacesNoSpace(StripSpaces(s));
  }

  lemma {:induction false} StripSpacesAppend(a: string, b: string)
    ensures StripSpaces(a + b) == StripSpaces(a) + StripSpaces(b)
    decreases |a|
  {
    if a == [] {
      assert a + b == b;
    } else {
      assert (a + b)[0] == a[0];
      assert (a + b)[1..] == a[1..] + b;
      StripSpacesAppend(a[1..], b);
    }
  }

  lemma {:induction false} StripAllSpaces(w: string)
    requires forall i :: 0 <= i < |w| ==> IsSpace(w[i])
    ensures StripSpaces(w) == ""
    decreases |w|
  {
    if w != [] {
      StripAllSpaces(w[1..]);
    }
  }

  /**
   * Whitespace inserted anywhere is ignored, so `"[1, 3, 2, 5]"` reads as `"[1,3,2,5]"`.
   */
  lemma SpacesIgnored(a: string, w: string, b: string)
    requires forall i :: 0 <= i < |w| ==> IsSpace(w[i])
    ensures ParseTreeInput(a + w + b) == ParseTreeInput(a + b)
  {
    StripSpacesAppend(a + w, b);
    StripSpacesAppend(a, w);
    StripSpacesAppend(a, b);
    StripAllSpaces(w);
    assert StripSpaces(a) + "" == StripSpaces(a);
  }

  lemma CompactSample()
    ensures ParseTreeInput("[1,3,2,5]") == Ok([Some(1), Some(3), Some(2), Some(5)])
    ensures ParseTreeInput("[]") == Ok([])
  {
    var xs: seq<Option<nat>> := [Some(1), Some(3), Some(2), Some(5)];
    assert ShowNat(1) == "1" && ShowNat(3) == "3" && ShowNat(2) == "2" && ShowNat(5) == "5";
    assert JoinItems(xs[3..]) == "5";
    assert JoinItems(xs[2..]) == "2,5";
    assert JoinItems(xs[1..]) == "3,2,5";
    assert Format(xs) == "[1,3,2,5]";
    ParseFormat(xs);
    assert Widen(xs) == [Some(1), Some(3), Some(2), Some(5)];
    ParseFormat([]);
    assert Format([]) == "[]";
  }
}
