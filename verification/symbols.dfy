/**
 The command-line symbol list. With no argument the portfolio is the
 default leveraged pair; otherwise the first argument is split on commas
 and each field is stripped of surrounding whitespace and upper-cased.
 Characters are treated as ASCII: whitespace is what Python's `str.isspace`
 accepts below 128, and only `a`-`z` have an upper-case form.
 */
module Symbols {

  const DefaultSymbols: seq<string> := ["UPRO", "TMF"]

  /** ASCII whitespace as Python's `str.strip` sees it: space, \t \n \v \f \r and \x1c-\x1f. */
  predicate IsSpace(c: char)
  {
    c == ' ' || 9 <= c as int <= 13 || 28 <= c as int <= 31
  }

  predicate IsLower(c: char)
  {
    'a' <= c <= 'z'
  }

  /** The upper-case form of an ASCII lower-case letter; every other character is its own. */
  function ToUpper(c: char): (u: char)
    ensures !IsLower(u)
    ensures IsSpace(u) <==> IsSpace(c)
    ensures !IsLower(c) ==> u == c
    ensures IsLower(c) ==> 'A' <= u <= 'Z' && u as int - 'A' as int == c as int - 'a' as int
  {
    if IsLower(c) then (c as int - 32) as char else c
  }

  /** Python's `str.upper` over ASCII. */
  function Upper(s: string): (r: string)
    ensures |r| == |s|
    ensures forall i :: 0 <= i < |r| ==> !IsLower(r[i])
    ensures forall i :: 0 <= i < |r| ==> (IsSpace(r[i]) <==> IsSpace(s[i]))
    ensures forall i :: 0 <= i < |s| ==> !IsLower(s[i]) ==> r[i] == s[i]
    ensures forall i :: 0 <= i < |s| ==> IsLower(s[i]) ==>
      'A' <= r[i] <= 'Z' && r[i] as int - 'A' as int == s[i] as int - 'a' as int
  {
    seq(|s|, i requires 0 <= i < |s| => ToUpper(s[i]))
  }

  /** Upper-casing a string without lower-case letters leaves it unchanged. */
  lemma UpperIdentity(s: string)
    requires forall i :: 0 <= i < |s| ==> !IsLower(s[i])
    ensures Upper(s) == s
  {
  }

  /** Neither the first nor the last character is whitespace. */
  predicate NoEdgeSpace(s: string)
  {
    |s| > 0 ==> !IsSpace(s[0]) && !IsSpace(s[|s| - 1])
  }

  /** Every character is whitespace. */
  predicate AllSpace(s: string)
  {
    forall i :: 0 <= i < |s| ==> IsSpace(s[i])
  }

  /** The index of the first non-whitespace character at or after `i`, or `|s|` if there is none. */
  function SkipSpace(s: string, i: nat): (k: nat)
    requires i <= |s|
    ensures i <= k <= |s|
    ensures forall j :: i <= j < k ==> IsSpace(s[j])
    ensures k < |s| ==> !IsSpace(s[k])
    decreases |s| - i
  {
    if i < |s| && IsSpace(s[i]) then SkipSpace(s, i + 1) else i
  }

  /**
   Scanning back from `j` to no further than `lo`: the index just after
   the last non-whitespace character, or `lo` if there is none.
   */
  function SkipSpaceBack(s: string, lo: nat, j: nat): (k: nat)
    requires lo <= j <= |s|
    ensures lo <= k <= j
    ensures forall m :: k <= m < j ==> IsSpace(s[m])
    ensures k > lo ==> !IsSpace(s[k - 1])
  {
    if j > lo && IsSpace(s[j - 1]) then SkipSpaceBack(s, lo, j - 1) else j
  }

  /** Python's `str.strip()`: the result neither starts nor ends with whitespace. */
  function Strip(s: string): (r: string)
    ensures NoEdgeSpace(r)
    ensures |r| <= |s|
  {
    var lo := SkipSpace(s, 0);
    s[lo..SkipSpaceBack(s, lo, |s|)]
  }

  /** Stripping removes whitespace only: `s` is the result with whitespace before and after it. */
  lemma StripRemovesOnlySpace(s: string)
    ensures exists pre, post :: s == pre + Strip(s) + post && AllSpace(pre) && AllSpace(post)
  {
    var lo := SkipSpace(s, 0);
    var hi := SkipSpaceBack(s, lo, |s|);
    assert s == s[..lo] + s[lo..hi] + s[hi..];
    assert AllSpace(s[..lo]) && AllSpace(s[hi..]);
  }

  /**
   That decomposition is unique: whenever `s` is a string without edge
   whitespace surrounded by whitespace only, stripping yields that string.
   */
  lemma StripUnique(s: string, pre: string, r: string, post: string)
    requires s == pre + r + post
    requires AllSpace(pre) && AllSpace(post) && NoEdgeSpace(r)
    ensures Strip(s) == r
  {
    var lo := SkipSpace(s, 0);
    var hi := SkipSpaceBack(s, lo, |s|);
    if |r| == 0 {
      assert AllSpace(s);
      assert lo == |s|;
    } else {
      assert s[|pre|] == r[0];
      assert lo == |pre|;
      assert s[|pre| + |r| - 1] == r[|r| - 1];
      assert hi == |pre| + |r|;
      assert s[lo..hi] == r;
    }
  }

  /** Stripping a string with no whitespace at either end leaves it unchanged. */
  lemma StripIdentity(s: string)
    requires NoEdgeSpace(s)
    ensures Strip(s) == s
  {
  }

  /** A symbol as the script leaves it: no surrounding whitespace and no lower-case letter. */
  predicate IsNormalised(s: string)
  {
    NoEdgeSpace(s) && forall i :: 0 <= i < |s| ==> !IsLower(s[i])
  }

  /**
   `field.strip().upper()`: the stripped field with every lower-case letter
   replaced by its capital and every other character kept.
   */
  function NormaliseField(field: string): (r: string)
    ensures IsNormalised(r)
    ensures |r| == |Strip(field)| <= |field|
    ensures forall i :: 0 <= i < |r| ==> !IsLower(Strip(field)[i]) ==> r[i] == Strip(field)[i]
    ensures forall i :: 0 <= i < |r| ==> IsLower(Strip(field)[i]) ==>
      'A' <= r[i] <= 'Z' && r[i] as int - 'A' as int == Strip(field)[i] as int - 'a' as int
  {
    Upper(Strip(field))
  }

  /** Normalising an already normalised symbol leaves it unchanged. */
  lemma NormaliseFixesNormalised(s: string)
    requires IsNormalised(s)
    ensures NormaliseField(s) == s
  {
    StripIdentity(s);
    UpperIdentity(s);
  }

  /** Normalisation is idempotent. */
  lemma NormaliseIdempotent(field: string)
    ensures NormaliseField(NormaliseField(field)) == NormaliseField(field)
  {
    NormaliseFixesNormalised(NormaliseField(field));
  }

  /** The number of commas in `s`. */
  function CommaCount(s: string): nat
  {
    if |s| == 0 then 0 else (if s[0] == ',' then 1 else 0) + CommaCount(s[1..])
  }

  /** Python's `s.split(',')`: the fields between commas, empty ones included. */
  function Split(s: string): (fields: seq<string>)
    ensures |fields| > 0
    ensures forall k :: 0 <= k < |fields| ==> ',' !in fields[k]
  {
    if |s| == 0 then [""]
    else
      var rest := Split(s[1..]);
      if s[0] == ',' then [""] + rest
      else
        assert forall k :: 1 <= k < |rest| ==> ',' !in rest[k];
        [[s[0]] + rest[0]] + rest[1..]
  }

  /** Python's `','.join(fields)`. */
  function Join(fields: seq<string>): string
  {
    if |fields| == 0 then ""
    else if |fields| == 1 then fields[0]
    else fields[0] + "," + Join(fields[1..])
  }

  /** Splitting yields one field more than there are commas. */
  lemma {:induction false} SplitCount(s: string)
    ensures |Split(s)| == CommaCount(s) + 1
  {
    if |s| > 0 {
      SplitCount(s[1..]);
    }
  }

  /** Joining the fields with commas gives back the argument. */
  lemma {:induction false} JoinSplit(s: string)
    ensures Join(Split(s)) == s
  {
    if |s| > 0 {
      JoinSplit(s[1..]);
      var rest := Split(s[1..]);
      if s[0] == ',' {
        assert Join([""] + rest) == "" + "," + Join(rest);
      } else {
        var fields := [[s[0]] + rest[0]] + rest[1..];
        if |rest| == 1 {
          assert Join(fields) == [s[0]] + rest[0];
        } else {
          assert fields[1..] == rest[1..];
          assert Join(rest) == rest[0] + "," + Join(rest[1..]);
          assert Join(fields) == [s[0]] + rest[0] + "," + Join(rest[1..]);
        }
        assert s == [s[0]] + s[1..];
      }
    }
  }

  /** A string without commas is a single field. */
  lemma {:induction false} SplitNoComma(a: string)
    requires ',' !in a
    ensures Split(a) == [a]
  {
    if |a| > 0 {
      assert ',' !in a[1..];
      SplitNoComma(a[1..]);
      assert a == [a[0]] + a[1..];
    }
  }

  /** A comma-free field followed by a comma splits off as the first field. */
  lemma {:induction false} SplitFirstField(a: string, b: string)
    requires ',' !in a
    ensures Split(a + "," + b) == [a] + Split(b)
  {
    if |a| == 0 {
      assert a + "," + b == "," + b;
      assert ("," + b)[1..] == b;
    } else {
      assert ',' !in a[1..];
      SplitFirstField(a[1..], b);
      assert (a + "," + b)[1..] == a[1..] + "," + b;
      assert a == [a[0]] + a[1..];
    }
  }

  /** Splitting comma-free fields joined with commas gives back the fields. */
  lemma {:induction false} SplitJoin(fields: seq<string>)
    requires |fields| > 0
    requires forall k :: 0 <= k < |fields| ==> ',' !in fields[k]
    ensures Split(Join(fields)) == fields
  {
    if |fields| == 1 {
      SplitNoComma(fields[0]);
    } else {
      SplitJoin(fields[1..]);
      SplitFirstField(fields[0], Join(fields[1..]));
      assert fields == [fields[0]] + fields[1..];
    }
  }

  /**
   The symbols the script works on: the default pair when no argument is
   given, otherwise one normalised symbol per comma-separated field of the
   first argument, in order.
   */
  function ParseSymbols(args: seq<string>): (symbols: seq<string>)
    ensures |args| == 0 ==> symbols == ["UPRO", "TMF"]
    ensures |args| > 0 ==> |symbols| == CommaCount(args[0]) + 1
    ensures |args| > 0 ==>
      && |symbols| == |Split(args[0])|
      && forall k :: 0 <= k < |symbols| ==> symbols[k] == NormaliseField(Split(args[0])[k])
    ensures forall k :: 0 <= k < |symbols| ==> IsNormalised(symbols[k])
  {
    if |args| == 0 then DefaultSymbols
    else
      var fields := Split(args[0]);
      SplitCount(args[0]);
      seq(|fields|, k requires 0 <= k < |fields| => NormaliseField(fields[k]))
  }

  /** Normalising the parsed symbols again changes nothing. */
  lemma ParseSymbolsStable(args: seq<string>)
    ensures var symbols := ParseSymbols(args);
      forall k :: 0 <= k < |symbols| ==> NormaliseField(symbols[k]) == symbols[k]
  {
    var symbols := ParseSymbols(args);
    forall k | 0 <= k < |symbols|
      ensures NormaliseField(symbols[k]) == symbols[k]
    {
      NormaliseFixesNormalised(symbols[k]);
    }
  }
}
