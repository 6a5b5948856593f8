/** Parsed JSON values, Python's truthiness and str(), and the string helpers
    the two Localizer import scripts rely on. */
module Values {

  /** A JSON scalar as json.load hands it to the import scripts. */
  datatype Value = Null | Bool(b: bool) | Int(i: int) | Str(s: string)

  /** A parsed JSON object (subject.json, behavioural.json). */
  type Record = map<string, Value>

  datatype Option<T> = None | Some(value: T)

  /** The Python exceptions the mappers can raise on malformed input. */
  datatype Error =
    | KeyError(key: string)   // a required field is absent
    | TypeError               // `str + x` with a non-string x
    | ValueError              // int(s) on a string that is not a number
    | IndexError(row: nat)    // a FAM row with fewer than two columns

  datatype Result<T> = Ok(value: T) | Err(error: Error) {
    predicate IsFailure() { Err? }
    function PropagateFailure<U>(): Result<U>
      requires Err?
    {
      Err(error)
    }
    function Extract(): T
      requires Ok?
    {
      value
    }
  }

  /** Python's `bool(v)`: None, False, 0 and "" are falsy. */
  predicate Truthy(v: Value) {
    match v
    case Null => false
    case Bool(b) => b
    case Int(i) => i != 0
    case Str(s) => s != ""
  }

  /** Python's dictionary-key equality: True == 1 and False == 0 hash alike. */
  function DictKey(v: Value): (k: Value)
    ensures !k.Bool?
    ensures v.Bool? ==> k == Int(if v.b then 1 else 0)
    ensures !v.Bool? ==> k == v
  {
    match v
    case Bool(b) => Int(if b then 1 else 0)
    case _ => v
  }

  /** a == b on two JSON scalars used as dictionary keys in Python: equal
      values, or a boolean and the integer it counts as. */
  predicate KeyEq(a: Value, b: Value) {
    || a == b
    || (a.Bool? && b == Int(if a.b then 1 else 0))
    || (b.Bool? && a == Int(if b.b then 1 else 0))
  }

  /** Two values land on one dictionary entry exactly when Python's key
      equality holds between them. */
  lemma DictKeySameEntry(a: Value, b: Value)
    ensures DictKey(a) == DictKey(b) <==> KeyEq(a, b)
  {
    if a.Bool? && b.Bool? && DictKey(a) == DictKey(b) {
      assert a.b == b.b;
    }
  }

  /** d.get(k): None (JSON null) when the key is absent. */
  function Get(d: Record, k: string): (v: Value)
    ensures k !in d ==> v == Null
    ensures k in d ==> v == d[k]
  {
    if k in d then d[k] else Null
  }

  /** The first key of `order` that `d` lacks. */
  function FirstMissing(order: seq<string>, d: Record): (k: string)
    requires exists i :: 0 <= i < |order| && order[i] !in d
    ensures k in order && k !in d
  {
    if order[0] !in d then order[0] else FirstMissing(order[1..], d)
  }

  /** The first missing key is the one at index n when all keys before n are
      present. */
  lemma {:induction false} FirstMissingAt(order: seq<string>, d: Record, n: nat)
    requires n < |order| && order[n] !in d
    requires forall j :: 0 <= j < n ==> order[j] in d
    ensures FirstMissing(order, d) == order[n]
    decreases n
  {
    if n > 0 {
      FirstMissingAt(order[1..], d, n - 1);
    }
  }

  /** Keys all present in a first part do not change the first missing key. */
  lemma {:induction false} FirstMissingAfter(pre: seq<string>, post: seq<string>, d: Record)
    requires forall k :: k in pre ==> k in d
    requires exists i :: 0 <= i < |post| && post[i] !in d
    ensures exists i :: 0 <= i < |pre + post| && (pre + post)[i] !in d
    ensures FirstMissing(pre + post, d) == FirstMissing(post, d)
    decreases |pre|
  {
    var i :| 0 <= i < |post| && post[i] !in d;
    assert (pre + post)[|pre| + i] == post[i];
    if pre != [] {
      assert (pre + post)[0] == pre[0];
      assert (pre + post)[1..] == pre[1..] + post;
      FirstMissingAfter(pre[1..], post, d);
    } else {
      assert pre + post == post;
    }
  }

  predicate IsDigit(c: char) { '0' <= c <= '9' }

  function DigitChar(d: nat): (c: char)
    requires d < 10
    ensures IsDigit(c)
  {
    "0123456789"[d]
  }

  function DigitValue(c: char): (d: nat)
    requires IsDigit(c)
    ensures d < 10
  {
    (c as int) - ('0' as int)
  }

  /** Decimal digits of n, most significant first, no leading zeros. */
  function NatToString(n: nat): (s: string)
    ensures |s| > 0
    ensures forall i :: 0 <= i < |s| ==> IsDigit(s[i])
    decreases n
  {
    if n < 10 then [DigitChar(n)] else NatToString(n / 10) + [DigitChar(n % 10)]
  }

  /** Python's str() of an int. */
  function IntToString(n: int): string {
    if n < 0 then "-" + NatToString(-n) else NatToString(n)
  }

  /** The value of a string of decimal digits. */
  function DigitsValue(s: string): nat
    requires forall i :: 0 <= i < |s| ==> IsDigit(s[i])
  {
    if s == [] then 0 else DigitsValue(s[..|s| - 1]) * 10 + DigitValue(s[|s| - 1])
  }

  predicate AllDigits(s: string) {
    |s| > 0 && forall i :: 0 <= i < |s| ==> IsDigit(s[i])
  }

  /** Python's int(s) on a string, restricted to an optional sign and decimal
      digits; anything else raises ValueError. */
  function ParseInt(s: string): (r: Result<int>)
    ensures r.Ok? <==> AllDigits(s) || (|s| > 0 && (s[0] == '-' || s[0] == '+') && AllDigits(s[1..]))
  {
    if AllDigits(s) then Ok(DigitsValue(s))
    else if |s| > 0 && s[0] == '-' && AllDigits(s[1..]) then Ok(0 - DigitsValue(s[1..]) as int)
    else if |s| > 0 && s[0] == '+' && AllDigits(s[1..]) then Ok(DigitsValue(s[1..]))
    else Err(ValueError)
  }

  lemma {:induction false} DigitsValueOfNatToString(n: nat)
    ensures DigitsValue(NatToString(n)) == n
    decreases n
  {
    var s := NatToString(n);
    if n >= 10 {
      DigitsValueOfNatToString(n / 10);
      assert s[..|s| - 1] == NatToString(n / 10);
    }
  }

  /** int(str(n)) == n: reading back a printed integer gives the integer. */
  lemma ParseIntOfIntToString(n: int)
    ensures ParseInt(IntToString(n)) == Ok(n)
  {
    var m: nat := if n < 0 then -n else n;
    var digits := NatToString(m);
    DigitsValueOfNatToString(m);
    if n < 0 {
      assert IntToString(n) == "-" + digits;
      ParseIntNegative(digits);
    } else {
      assert IntToString(n) == digits;
      assert AllDigits(digits);
    }
  }

  lemma ParseIntNegative(digits: string)
    requires AllDigits(digits)
    ensures ParseInt("-" + digits) == Ok(0 - DigitsValue(digits))
  {
    var s := "-" + digits;
    assert s[1..] == digits;
    assert !IsDigit(s[0]);
  }

  /** Python's str(v) (and "%s" % v) of a JSON scalar. */
  function PyStr(v: Value): (s: string)
    ensures v.Str? ==> s == v.s
    ensures v == Null ==> s == "None"
    ensures v.Bool? ==> s == (if v.b then "True" else "False")
  {
    match v
    case Null => "None"
    case Bool(b) => if b then "True" else "False"
    case Int(i) => IntToString(i)
    case Str(s) => s
  }

  predicate StartsWith(s: string, prefix: string) {
    |prefix| <= |s| && s[..|prefix|] == prefix
  }

  predicate EndsWith(s: string, suffix: string) {
    |suffix| <= |s| && s[|s| - |suffix|..] == suffix
  }

  /** True when pat occurs in s starting at index i. */
  predicate OccursAt(s: string, pat: string, i: int) {
    0 <= i && i + |pat| <= |s| && s[i..i + |pat|] == pat
  }

  /** s.replace(a, b) for single characters a and b. */
  function ReplaceChar(s: string, a: char, b: char): (r: string)
    ensures |r| == |s|
    ensures forall i :: 0 <= i < |s| ==> r[i] == (if s[i] == a then b else s[i])
    ensures a != b ==> forall i :: 0 <= i < |r| ==> r[i] != a
  {
    if s == [] then [] else [if s[0] == a then b else s[0]] + ReplaceChar(s[1..], a, b)
  }

  /** s.replace(pat, ''): every non-overlapping occurrence of pat, scanned from
      the left, is removed. */
  function RemoveAll(s: string, pat: string): (r: string)
    requires |pat| > 0
    ensures |r| <= |s|
    ensures (forall i :: !OccursAt(s, pat, i)) ==> r == s
    decreases |s|
  {
    if |s| < |pat| then s
    else if s[..|pat|] == pat then
      assert OccursAt(s, pat, 0);
      RemoveAll(s[|pat|..], pat)
    else
      OccursShift(s, pat);
      assert forall j :: OccursAt(s[1..], pat, j) ==> OccursAt(s, pat, j + 1);
      [s[0]] + RemoveAll(s[1..], pat)
  }

  /** 'name.nii.gz'.replace('.nii.gz', '') is 'name' when the suffix occurs
      only at the end. */
  lemma {:induction false} RemoveAllSuffix(s: string, pat: string)
    requires 0 < |pat| <= |s| && OccursAt(s, pat, |s| - |pat|)
    requires forall i :: OccursAt(s, pat, i) ==> i == |s| - |pat|
    ensures RemoveAll(s, pat) == s[..|s| - |pat|]
    decreases |s|
  {
    if |s| == |pat| {
      assert s[|pat|..] == [];
    } else {
      SuffixOnlyTail(s, pat);
      RemoveAllSuffix(s[1..], pat);
      RemoveAllSuffixStep(s, pat);
    }
  }

  /** The step of RemoveAllSuffix: the first character is kept in front of
      the tail's result. */
  lemma RemoveAllSuffixStep(s: string, pat: string)
    requires 0 < |pat| < |s| && !OccursAt(s, pat, 0)
    requires RemoveAll(s[1..], pat) == s[1..][..|s| - 1 - |pat|]
    ensures RemoveAll(s, pat) == s[..|s| - |pat|]
  {
    RemoveAllSkip(s, pat);
    assert s[..|s| - |pat|] == [s[0]] + s[1..][..|s| - 1 - |pat|];
  }

  /** RemoveAllSuffix for a name written as x + pat. */
  lemma RemoveAllAppended(x: string, pat: string)
    requires |pat| > 0
    requires forall i :: OccursAt(x + pat, pat, i) ==> i == |x|
    ensures RemoveAll(x + pat, pat) == x
  {
    var s := x + pat;
    assert s[|x|..|x| + |pat|] == pat;
    RemoveAllSuffix(s, pat);
    assert s[..|x|] == x;
  }

  /** Without a match at the front, replace keeps the first character. */
  lemma RemoveAllSkip(s: string, pat: string)
    requires |pat| > 0 && |s| >= |pat| && !OccursAt(s, pat, 0)
    ensures RemoveAll(s, pat) == [s[0]] + RemoveAll(s[1..], pat)
  {
  }

  /** The only occurrence, at the end, stays the only one once the first
      character goes. */
  lemma SuffixOnlyTail(s: string, pat: string)
    requires 0 < |pat| < |s| && OccursAt(s, pat, |s| - |pat|)
    requires forall i :: OccursAt(s, pat, i) ==> i == |s| - |pat|
    ensures OccursAt(s[1..], pat, |s| - 1 - |pat|)
    ensures forall i :: OccursAt(s[1..], pat, i) ==> i == |s| - 1 - |pat|
  {
    OccursShift(s, pat);
    forall i | OccursAt(s[1..], pat, i) ensures i == |s| - 1 - |pat| {
      assert OccursAt(s, pat, i + 1);
    }
  }

  /** s.split(sep)[0]: the part of s before the first occurrence of sep. */
  function Before(s: string, sep: string): (r: string)
    requires |sep| > 0
    ensures StartsWith(s, r)
    ensures forall i :: 0 <= i < |r| ==> !OccursAt(s, sep, i)
    ensures r != s ==> OccursAt(s, sep, |r|)
    decreases |s|
  {
    if |s| < |sep| then s
    else if s[..|sep|] == sep then []
    else
      var rest := Before(s[1..], sep);
      OccursShift(s, sep);
      [s[0]] + rest
  }

  lemma OccursShift(s: string, pat: string)
    requires |s| > 0
    ensures forall i :: 1 <= i ==> (OccursAt(s, pat, i) <==> OccursAt(s[1..], pat, i - 1))
  {
    forall i | 1 <= i
      ensures OccursAt(s, pat, i) <==> OccursAt(s[1..], pat, i - 1)
    {
      if i + |pat| <= |s| {
        assert s[1..][i - 1..i - 1 + |pat|] == s[i..i + |pat|];
      }
    }
  }

  /** sep.join(ts). */
  function Join(ts: seq<string>, sep: string): string
    decreases |ts|
  {
    if |ts| == 0 then ""
    else if |ts| == 1 then ts[0]
    else Join(ts[..|ts| - 1], sep) + sep + ts[|ts| - 1]
  }

  lemma {:induction false} JoinNonEmpty(ts: seq<string>, sep: string)
    requires |ts| > 0 && ts[0] != ""
    ensures Join(ts, sep) != ""
    decreases |ts|
  {
    if |ts| > 1 {
      JoinNonEmpty(ts[..|ts| - 1], sep);
    }
  }
}
