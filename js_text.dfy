/**
 * The JavaScript string primitives the dashboard relies on, over `seq<char>`:
 * `toLowerCase` (ASCII letters only), `includes`, `lastIndexOf` for a single
 * character, `substring(start)` and `trim`.
 */
module JsText {

  // ---------------------------------------------------------------------------
  // toLowerCase
  // ---------------------------------------------------------------------------

  predicate IsAsciiUpper(c: char) {
    'A' <= c <= 'Z'
  }

  /** Lower-cases one character; only 'A'..'Z' are affected. */
  function LowerChar(c: char): (d: char)
    ensures !IsAsciiUpper(d)
    ensures IsAsciiUpper(c) ==> d as int == c as int + 32
    ensures !IsAsciiUpper(c) ==> d == c
  {
    if IsAsciiUpper(c) then (c as int + 32) as char else c
  }

  /** `s.toLowerCase()`: every character lowered, length and positions kept. */
  function ToLower(s: string): (r: string)
    ensures |r| == |s|
    ensures forall i :: 0 <= i < |s| ==> r[i] == LowerChar(s[i])
  {
    if s == [] then [] else [LowerChar(s[0])] + ToLower(s[1..])
  }

  /** Lowering commutes with taking a slice. */
  lemma ToLowerSlice(s: string, i: nat, j: nat)
    requires i <= j <= |s|
    ensures ToLower(s[i..j]) == ToLower(s)[i..j]
  {
    var a, b := ToLower(s[i..j]), ToLower(s)[i..j];
    assert |a| == |b|;
    forall k | 0 <= k < |a| ensures a[k] == b[k] {
      assert s[i..j][k] == s[i + k];
    }
  }

  /** Lowering twice is lowering once. */
  lemma ToLowerIdempotent(s: string)
    ensures ToLower(ToLower(s)) == ToLower(s)
  {
    var a, b := ToLower(ToLower(s)), ToLower(s);
    forall k | 0 <= k < |a| ensures a[k] == b[k] {
      assert a[k] == LowerChar(b[k]);
    }
  }

  // ---------------------------------------------------------------------------
  // includes
  // ---------------------------------------------------------------------------

  predicate IsPrefix(p: string, s: string) {
    |p| <= |s| && s[..|p|] == p
  }

  /** `sub` occurs in `s` starting at index `i`. */
  ghost predicate OccursAt(s: string, sub: string, i: int) {
    0 <= i && i + |sub| <= |s| && s[i..i + |sub|] == sub
  }

  lemma OccursAtShift(s: string, sub: string, i: int)
    requires s != [] && 0 <= i
    ensures OccursAt(s[1..], sub, i) <==> OccursAt(s, sub, i + 1)
  {
    if 0 <= i && i + |sub| <= |s[1..]| {
      assert s[1..][i..i + |sub|] == s[i + 1..i + 1 + |sub|];
    }
  }

  /**
   * `s.includes(sub)`: `sub` is a prefix of `s` or of one of its suffixes. The
   * empty needle is found in every text, and a needle longer than the text in
   * none, so the empty text includes only the empty needle.
   */
  function Contains(s: string, sub: string): (r: bool)
    ensures sub == [] ==> r
    ensures r ==> |sub| <= |s|
    decreases |s|
  {
    IsPrefix(sub, s) || (s != [] && Contains(s[1..], sub))
  }

  /** `s.includes(sub)` holds exactly when `sub` occurs in `s` at some index. */
  lemma {:induction false} ContainsIffOccurs(s: string, sub: string)
    ensures Contains(s, sub) <==> exists i :: OccursAt(s, sub, i)
    decreases |s|
  {
    if IsPrefix(sub, s) {
      assert OccursAt(s, sub, 0);
    } else if s == [] {
      assert forall i :: !OccursAt(s, sub, i);
    } else {
      ContainsIffOccurs(s[1..], sub);
      assert !OccursAt(s, sub, 0);
      forall i | 0 <= i ensures OccursAt(s[1..], sub, i) <==> OccursAt(s, sub, i + 1) {
        OccursAtShift(s, sub, i);
      }
      if exists i :: OccursAt(s, sub, i) {
        var i :| OccursAt(s, sub, i);
        assert OccursAt(s[1..], sub, i - 1);
      }
    }
  }

  /** An occurrence at a known index makes `includes` true. */
  lemma ContainsAt(s: string, sub: string, i: nat)
    requires OccursAt(s, sub, i)
    ensures Contains(s, sub)
  {
    ContainsIffOccurs(s, sub);
  }

  // ---------------------------------------------------------------------------
  // lastIndexOf and substring
  // ---------------------------------------------------------------------------

  /** `s.lastIndexOf(c)` for a one-character needle: -1 when `c` does not occur. */
  function LastIndexOf(s: string, c: char): (r: int)
    ensures -1 <= r < |s|
    ensures r >= 0 ==> s[r] == c
    ensures forall j :: r < j < |s| ==> s[j] != c
  {
    if s == [] then -1
    else if s[|s| - 1] == c then |s| - 1
    else LastIndexOf(s[..|s| - 1], c)
  }

  /** `s.substring(start)`: the start offset is clamped into 0..|s|. */
  function Substring(s: string, start: int): (r: string)
    ensures |r| <= |s| && r == s[|s| - |r|..]
    ensures 0 <= start <= |s| ==> r == s[start..]
    ensures start <= 0 ==> r == s
    ensures |s| <= start ==> r == []
  {
    if start <= 0 then s else if |s| <= start then [] else s[start..]
  }

  // ---------------------------------------------------------------------------
  // trim
  // ---------------------------------------------------------------------------

  /**
   * The characters `String.prototype.trim` removes: the ECMAScript WhiteSpace
   * code points (TAB, VT, FF, SP, NBSP, ZWNBSP and the Zs category) and the
   * LineTerminator code points (LF, CR, LS, PS).
   */
  function IsJsWhitespace(c: char): (r: bool)
    ensures c as int < 0x80 ==> (r <==> c == ' ' || '\t' <= c <= '\r')
  {
    var n := c as int;
    n == 0x09 || n == 0x0A || n == 0x0B || n == 0x0C || n == 0x0D || n == 0x20
    || n == 0xA0 || n == 0x1680 || (0x2000 <= n <= 0x200A) || n == 0x2028
    || n == 0x2029 || n == 0x202F || n == 0x205F || n == 0x3000 || n == 0xFEFF
  }

  predicate AllWhitespace(s: string) {
    forall i :: 0 <= i < |s| ==> IsJsWhitespace(s[i])
  }

  /** Leading whitespace removed: `r` is a suffix of `s` behind only whitespace. */
  function TrimStart(s: string): (r: string)
    ensures |r| <= |s| && r == s[|s| - |r|..]
    ensures AllWhitespace(s[..|s| - |r|])
    ensures r == [] || !IsJsWhitespace(r[0])
  {
    if s != [] && IsJsWhitespace(s[0]) then
      var r := TrimStart(s[1..]);
      assert s[..|s| - |r|] == [s[0]] + s[1..][..|s[1..]| - |r|];
      r
    else
      s
  }

  /** Trailing whitespace removed: `r` is a prefix of `s` followed only by whitespace. */
  function TrimEnd(s: string): (r: string)
    ensures |r| <= |s| && r == s[..|r|]
    ensures AllWhitespace(s[|r|..])
    ensures r == [] || !IsJsWhitespace(r[|r| - 1])
  {
    if s != [] && IsJsWhitespace(s[|s| - 1]) then
      var r := TrimEnd(s[..|s| - 1]);
      assert s[|r|..] == s[..|s| - 1][|r|..] + [s[|s| - 1]];
      r
    else
      s
  }

  /** `r` sits in `s` at offset `k` with only whitespace on either side. */
  ghost predicate TrimmedAt(s: string, r: string, k: int) {
    0 <= k && k + |r| <= |s| && s[k..k + |r|] == r
    && AllWhitespace(s[..k]) && AllWhitespace(s[k + |r|..])
  }

  /** `s.trim()`: the slice of `s` left after dropping whitespace at both ends. */
  function Trim(s: string): (r: string)
    ensures exists k :: TrimmedAt(s, r, k)
    ensures r == [] || (!IsJsWhitespace(r[0]) && !IsJsWhitespace(r[|r| - 1]))
  {
    var t := TrimStart(s);
    var r := TrimEnd(t);
    var k := |s| - |t|;
    assert s[k..k + |r|] == r;
    assert s[k + |r|..] == t[|r|..];
    assert TrimmedAt(s, r, k);
    r
  }

  /** `s.trim()` is empty exactly when `s` is blank. */
  lemma TrimEmptyIffBlank(s: string)
    ensures Trim(s) == [] <==> AllWhitespace(s)
  {
    var r := Trim(s);
    var k :| TrimmedAt(s, r, k);
    if r == [] {
      assert s == s[..k] + s[k..];
      forall i | 0 <= i < |s| ensures IsJsWhitespace(s[i]) {
        if i < k { assert s[..k][i] == s[i]; } else { assert s[k..][i - k] == s[i]; }
      }
    } else {
      assert s[k] == r[0];
    }
  }

  /** Every character of `s.trim()` comes from `s`. */
  lemma TrimKeepsOnly(s: string, c: char)
    requires c in Trim(s)
    ensures c in s
  {
    var r := Trim(s);
    var k :| TrimmedAt(s, r, k);
    var i :| 0 <= i < |r| && r[i] == c;
    assert s[k + i] == c;
  }

  /** Text with no whitespace at either end is its own trim. */
  lemma TrimOfTrimmed(s: string)
    requires s == [] || (!IsJsWhitespace(s[0]) && !IsJsWhitespace(s[|s| - 1]))
    ensures Trim(s) == s
  {
  }

  /** Leading whitespace does not change the trim. */
  lemma TrimSkipsLeading(s: string)
    requires s != [] && IsJsWhitespace(s[0])
    ensures Trim(s) == Trim(s[1..])
  {
  }

  /** Trimming text that is already trimmed leaves it as it is. */
  lemma TrimIdempotent(s: string)
    ensures Trim(Trim(s)) == Trim(s)
  {
    TrimOfTrimmed(Trim(s));
  }
}
