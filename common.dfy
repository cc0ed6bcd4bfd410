/** Value-level helpers shared by every module: optional request fields with
    JavaScript truthiness, and the character classes and string operations the
    scripts rely on (`trim`, `\s`, `\d`, `replace(/\D/g, '')`). */
module Common {

  datatype Option<+T> = None | Some(value: T)

  /** A request-body or storage field that may be missing (undefined or null). */
  type Field = Option<string>

  /** JavaScript truthiness of an optional string: `!x` is false exactly when
      the value is present and non-empty. */
  predicate Truthy(f: Field) {
    f.Some? && f.value != ""
  }

  /** `f || d` on an optional string. */
  function OrElse(f: Field, d: string): (r: string)
    ensures Truthy(f) ==> r == f.value
    ensures !Truthy(f) ==> r == d
  {
    if Truthy(f) then f.value else d
  }

  /** The class `\d` of a JavaScript regular expression without the `u` flag. */
  predicate IsDigit(c: char) {
    '0' <= c <= '9'
  }

  predicate AllDigits(s: string) {
    forall i :: 0 <= i < |s| ==> IsDigit(s[i])
  }

  /** The characters ECMAScript counts as WhiteSpace or LineTerminator: the set
      that `\s` matches and that `String.prototype.trim` removes. */
  predicate IsJsWhitespace(c: char) {
    var n := c as int;
    n == 0x09 || n == 0x0A || n == 0x0B || n == 0x0C || n == 0x0D || n == 0x20 ||
    n == 0xA0 || n == 0x1680 || (0x2000 <= n <= 0x200A) || n == 0x2028 ||
    n == 0x2029 || n == 0x202F || n == 0x205F || n == 0x3000 || n == 0xFEFF
  }

  predicate NoWhitespace(s: string) {
    forall i :: 0 <= i < |s| ==> !IsJsWhitespace(s[i])
  }

  predicate AllWhitespace(s: string) {
    forall i :: 0 <= i < |s| ==> IsJsWhitespace(s[i])
  }

  /** Drops leading whitespace. */
  function TrimStart(s: string): (r: string)
    ensures |r| <= |s| && r == s[|s| - |r|..]
    ensures r == [] || !IsJsWhitespace(r[0])
  {
    if s != [] && IsJsWhitespace(s[0]) then TrimStart(s[1..]) else s
  }

  /** What `TrimStart` drops is whitespace. */
  lemma {:induction false} TrimStartDropsWhitespace(s: string)
    ensures AllWhitespace(s[..|s| - |TrimStart(s)|])
  {
    if s != [] && IsJsWhitespace(s[0]) {
      TrimStartDropsWhitespace(s[1..]);
      var k := |s| - |TrimStart(s)|;
      forall i | 0 <= i < k ensures IsJsWhitespace(s[..k][i]) {
        if i > 0 { assert s[..k][i] == s[1..][..k - 1][i - 1]; }
      }
    }
  }

  /** Drops trailing whitespace. */
  function TrimEnd(s: string): (r: string)
    ensures |r| <= |s| && r == s[..|r|]
    ensures r == [] || !IsJsWhitespace(r[|r| - 1])
  {
    if s != [] && IsJsWhitespace(s[|s| - 1]) then TrimEnd(s[..|s| - 1]) else s
  }

  /** What `TrimEnd` drops is whitespace. */
  lemma {:induction false} TrimEndDropsWhitespace(s: string)
    ensures AllWhitespace(s[|TrimEnd(s)|..])
  {
    if s != [] && IsJsWhitespace(s[|s| - 1]) {
      var front := s[..|s| - 1];
      TrimEndDropsWhitespace(front);
      var k := |TrimEnd(s)|;
      forall i | 0 <= i < |s| - k ensures IsJsWhitespace(s[k..][i]) {
        if k + i < |s| - 1 { assert s[k..][i] == front[k..][i]; }
      }
    }
  }

  /** `String.prototype.trim`. */
  function Trim(s: string): string {
    TrimEnd(TrimStart(s))
  }

  /** `!s.trim()`: nothing but whitespace, so that trimming leaves nothing
      (`BlankIffTrimEmpty`). */
  predicate Blank(s: string) {
    AllWhitespace(s)
  }

  /** Trimming a string of whitespace leaves nothing at its start. */
  lemma {:induction false} TrimStartOfWhitespace(s: string)
    requires AllWhitespace(s)
    ensures TrimStart(s) == []
  {
    if s != [] {
      assert AllWhitespace(s[1..]) by {
        forall i | 0 <= i < |s| - 1 ensures IsJsWhitespace(s[1..][i]) { assert s[1..][i] == s[i + 1]; }
      }
      TrimStartOfWhitespace(s[1..]);
    }
  }

  /** Trimming leaves the empty string exactly when every character is whitespace. */
  lemma BlankIffTrimEmpty(s: string)
    ensures Blank(s) <==> Trim(s) == ""
  {
    var t := TrimStart(s);
    if AllWhitespace(s) {
      TrimStartOfWhitespace(s);
    }
    if Trim(s) == "" {
      TrimEndDropsWhitespace(t);
      TrimStartDropsWhitespace(s);
      assert t[|TrimEnd(t)|..] == t;
      assert t == [];
      assert s[..|s| - |t|] == s;
    }
  }

  /** `s.replace(/\D/g, '')`: the digits of `s`, in order. */
  function StripNonDigits(s: string): (r: string)
    ensures AllDigits(r)
    ensures |r| <= |s|
  {
    if s == [] then []
    else if IsDigit(s[0]) then [s[0]] + StripNonDigits(s[1..])
    else StripNonDigits(s[1..])
  }

  /** Stripping changes nothing in a string of digits, and removes everything
      from a string with no digits. */
  lemma {:induction false} StripNonDigitsFixesDigits(s: string)
    ensures AllDigits(s) ==> StripNonDigits(s) == s
    ensures (forall i :: 0 <= i < |s| ==> !IsDigit(s[i])) ==> StripNonDigits(s) == []
  {
    if s != [] {
      StripNonDigitsFixesDigits(s[1..]);
      if AllDigits(s) { assert AllDigits(s[1..]) by { forall i | 0 <= i < |s| - 1 ensures IsDigit(s[1..][i]) { assert s[1..][i] == s[i + 1]; } } }
      if forall i :: 0 <= i < |s| ==> !IsDigit(s[i]) {
        assert forall i :: 0 <= i < |s| - 1 ==> !IsDigit(s[1..][i]) by {
          forall i | 0 <= i < |s| - 1 ensures !IsDigit(s[1..][i]) { assert s[1..][i] == s[i + 1]; }
        }
      }
    }
  }

  /** Stripping distributes over concatenation. */
  lemma {:induction false} StripNonDigitsAppend(a: string, b: string)
    ensures StripNonDigits(a + b) == StripNonDigits(a) + StripNonDigits(b)
  {
    if a != [] {
      assert (a + b)[1..] == a[1..] + b;
      StripNonDigitsAppend(a[1..], b);
    } else {
      assert a + b == b;
    }
  }

  /** The index of the first element satisfying `p`, as `Array.prototype.find`
      and `findIndex` report it. */
  function FirstIndex<T>(s: seq<T>, p: T -> bool): (r: Option<nat>)
    ensures r.Some? ==> r.value < |s| && p(s[r.value]) &&
                        forall j :: 0 <= j < r.value ==> !p(s[j])
    ensures r.None? ==> forall j :: 0 <= j < |s| ==> !p(s[j])
  {
    if s == [] then None
    else if p(s[0]) then Some(0)
    else match FirstIndex(s[1..], p)
      case None => None
      case Some(k) => Some(k + 1)
  }

  /** Keys strictly increase along `s`: later insertions carry larger keys. */
  predicate KeyIncreasing<T>(s: seq<T>, key: T -> int) {
    forall i, j :: 0 <= i < j < |s| ==> key(s[i]) < key(s[j])
  }

  /** The elements of `s` that satisfy `keep`, latest first: a table read
      with `ORDER BY created_at DESC`, rows being created in sequence order. */
  function NewestFirst<T(!new)>(s: seq<T>, keep: T -> bool, key: T -> int): (r: seq<T>)
    decreases |s|
    ensures forall x :: x in r <==> x in s && keep(x)
    ensures KeyIncreasing(s, key) ==> forall i, j :: 0 <= i < j < |r| ==> key(r[i]) > key(r[j])
  {
    if s == [] then []
    else
      var last := s[|s| - 1];
      var rest := NewestFirst(s[..|s| - 1], keep, key);
      LastKeyExceedsEarlier(s, key);
      (if keep(last) then [last] else []) + rest
  }

  /** Under increasing keys the last element's key exceeds every earlier one. */
  lemma LastKeyExceedsEarlier<T>(s: seq<T>, key: T -> int)
    requires s != []
    ensures KeyIncreasing(s, key) ==> forall x :: x in s[..|s| - 1] ==> key(x) < key(s[|s| - 1])
  {
    if KeyIncreasing(s, key) {
      forall x | x in s[..|s| - 1] ensures key(x) < key(s[|s| - 1]) {
        var j :| 0 <= j < |s| - 1 && s[..|s| - 1][j] == x;
        assert s[j] == x;
      }
    }
  }

  /** A price times a quantity, exactly: JavaScript's `price * quantity` without
      floating-point rounding. */
  function LineTotal(price: real, quantity: int): real {
    price * quantity as real
  }

  /** Line totals are additive in the quantity. */
  lemma LineTotalAdd(price: real, q: int, d: int)
    ensures LineTotal(price, q + d) == LineTotal(price, q) + LineTotal(price, d)
  {
    assert (q + d) as real == q as real + d as real;
  }
}
