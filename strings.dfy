/** The subset of Go's `strings`, `strconv` and `path/filepath` packages that the
    card pipeline relies on, written as total functions over `seq<char>`, with the
    lemmas that the rest of the model uses about them. */
module StringUtil {

  import opened Wrappers

  // ---------------------------------------------------------------------------
  // Whitespace and trimming (strings.TrimSpace, strings.Fields)
  // ---------------------------------------------------------------------------

  /** Go's unicode.IsSpace: the ASCII spaces, NEL, NBSP and the Unicode
      White_Space characters above U+00FF. */
  predicate IsSpace(c: char)
  {
    c == ' ' || c == '\t' || c == '\n' || c == '\r' || c == '\U{000B}' || c == '\U{000C}'
    || c == '\U{0085}' || c == '\U{00A0}' || c == '\U{1680}'
    || ('\U{2000}' <= c <= '\U{200A}')
    || c == '\U{2028}' || c == '\U{2029}' || c == '\U{202F}' || c == '\U{205F}' || c == '\U{3000}'
  }

  predicate IsBlank(s: string)
  {
    forall i :: 0 <= i < |s| ==> IsSpace(s[i])
  }

  function TrimLeft(s: string): string
    decreases |s|
  {
    if |s| > 0 && IsSpace(s[0]) then TrimLeft(s[1..]) else s
  }

  function TrimRight(s: string): string
    decreases |s|
  {
    if |s| > 0 && IsSpace(s[|s| - 1]) then TrimRight(s[..|s| - 1]) else s
  }

  /** TrimLeft removes a blank prefix and stops at the first non-space. */
  lemma {:induction false} TrimLeftShape(s: string)
    ensures |TrimLeft(s)| <= |s| && TrimLeft(s) == s[|s| - |TrimLeft(s)|..]
    ensures |TrimLeft(s)| > 0 ==> !IsSpace(TrimLeft(s)[0])
    ensures IsBlank(s[..|s| - |TrimLeft(s)|])
    decreases |s|
  {
    if |s| > 0 && IsSpace(s[0]) {
      TrimLeftShape(s[1..]);
      var k := |s| - |TrimLeft(s)|;
      assert s[..k] == [s[0]] + s[1..][..k - 1];
    }
  }

  /** TrimRight removes a blank suffix and stops at the last non-space. */
  lemma {:induction false} TrimRightShape(s: string)
    ensures |TrimRight(s)| <= |s| && TrimRight(s) == s[..|TrimRight(s)|]
    ensures |TrimRight(s)| > 0 ==> !IsSpace(TrimRight(s)[|TrimRight(s)| - 1])
    ensures IsBlank(s[|TrimRight(s)|..])
    decreases |s|
  {
    if |s| > 0 && IsSpace(s[|s| - 1]) {
      TrimRightShape(s[..|s| - 1]);
      var k := |TrimRight(s)|;
      assert s[k..] == s[..|s| - 1][k..] + [s[|s| - 1]];
    }
  }

  /** strings.TrimSpace */
  function TrimSpace(s: string): string
  {
    TrimRight(TrimLeft(s))
  }

  lemma TrimLeftNoop(s: string)
    requires |s| == 0 || !IsSpace(s[0])
    ensures TrimLeft(s) == s
  {
  }

  lemma TrimRightNoop(s: string)
    requires |s| == 0 || !IsSpace(s[|s| - 1])
    ensures TrimRight(s) == s
  {
  }

  /** The trimmed string is no longer than the input and neither starts nor
      ends with a space. */
  lemma TrimSpaceEnds(s: string)
    ensures |TrimSpace(s)| <= |s|
    ensures |TrimSpace(s)| > 0 ==> !IsSpace(TrimSpace(s)[0]) && !IsSpace(TrimSpace(s)[|TrimSpace(s)| - 1])
  {
    var l := TrimLeft(s);
    var r := TrimRight(l);
    TrimLeftShape(s);
    TrimRightShape(l);
    if |r| > 0 {
      assert r[0] == l[0];
    }
  }

  /** Trimming twice is trimming once. */
  lemma TrimSpaceIdempotent(s: string)
    ensures TrimSpace(TrimSpace(s)) == TrimSpace(s)
  {
    var r := TrimSpace(s);
    TrimSpaceEnds(s);
    TrimLeftNoop(r);
    TrimRightNoop(r);
  }

  /** A string trims to "" exactly when it is blank. */
  lemma TrimSpaceEmptyIffBlank(s: string)
    ensures TrimSpace(s) == "" <==> IsBlank(s)
  {
    var l := TrimLeft(s);
    TrimLeftShape(s);
    TrimRightShape(l);
    if !IsBlank(s) {
      var i :| 0 <= i < |s| && !IsSpace(s[i]);
      assert i >= |s| - |l|;
      assert l[i - (|s| - |l|)] == s[i];
    }
  }

  // ---------------------------------------------------------------------------
  // Prefixes and searching (strings.HasPrefix, strings.Index, strings.Contains)
  // ---------------------------------------------------------------------------

  predicate HasPrefix(s: string, prefix: string)
  {
    |prefix| <= |s| && s[..|prefix|] == prefix
  }

  /** `sub` occurs in `s` starting at index `i`. */
  predicate OccursAt(s: string, sub: string, i: int)
  {
    0 <= i && i + |sub| <= |s| && s[i..i + |sub|] == sub
  }

  /** strings.Index: the first occurrence of `sub` in `s`, or -1. */
  function Index(s: string, sub: string): (r: int)
    ensures -1 <= r <= |s|
    ensures r >= 0 ==> OccursAt(s, sub, r)
    ensures r >= 0 ==> forall j :: 0 <= j < r ==> !OccursAt(s, sub, j)
    ensures r == -1 ==> forall j :: !OccursAt(s, sub, j)
    decreases |s|
  {
    if |s| < |sub| then -1
    else if s[..|sub|] == sub then 0
    else
      var k := Index(s[1..], sub);
      OccursShift(s, sub);
      assert !OccursAt(s, sub, 0);
      if k < 0 then -1 else k + 1
  }

  /** An occurrence in `s[1..]` is an occurrence in `s`, one place further. */
  lemma OccursShift(s: string, sub: string)
    requires |s| > 0
    ensures forall j {:trigger OccursAt(s, sub, j)} :: 1 <= j ==> (OccursAt(s, sub, j) <==> OccursAt(s[1..], sub, j - 1))
  {
    forall j | 1 <= j
      ensures OccursAt(s, sub, j) <==> OccursAt(s[1..], sub, j - 1)
    {
      if j + |sub| <= |s| {
        assert s[1..][j - 1..j - 1 + |sub|] == s[j..j + |sub|];
      }
    }
  }

  /** strings.Contains */
  predicate Contains(s: string, sub: string)
  {
    Index(s, sub) >= 0
  }

  lemma NotContains(s: string, sub: string)
    requires !Contains(s, sub)
    ensures forall j :: !OccursAt(s, sub, j)
  {
  }

  /** Any occurrence makes `Contains` true. */
  lemma OccursContains(s: string, sub: string, j: int)
    requires OccursAt(s, sub, j)
    ensures Contains(s, sub)
  {
  }

  /** The first occurrence is at `i` when `sub` occurs there and its first
      character does not appear before it. */
  lemma IndexAt(s: string, sub: string, i: int)
    requires |sub| > 0 && OccursAt(s, sub, i) && sub[0] !in s[..i]
    ensures Index(s, sub) == i
  {
    forall j | 0 <= j < i
      ensures !OccursAt(s, sub, j)
    {
      assert s[..i][j] == s[j];
      assert s[j] != sub[0];
      assert j + |sub| <= |s| ==> s[j..j + |sub|][0] == s[j];
    }
  }

  /** A string without the first character of `sub` does not hold `sub`. */
  lemma IndexNone(s: string, sub: string)
    requires |sub| > 0 && sub[0] !in s
    ensures Index(s, sub) == -1
  {
    forall j | 0 <= j && j + |sub| <= |s|
      ensures !OccursAt(s, sub, j)
    {
      assert s[j..j + |sub|][0] == s[j];
      assert s[j] in s;
    }
  }

  /** A prefix of a string that does not hold `sub` does not hold it either. */
  lemma NotContainsPrefix(s: string, sub: string, k: nat)
    requires k <= |s| && !Contains(s, sub)
    ensures !Contains(s[..k], sub)
  {
    NotContains(s, sub);
    if Contains(s[..k], sub) {
      var j := Index(s[..k], sub);
      assert s[..k][j..j + |sub|] == s[j..j + |sub|];
      assert OccursAt(s, sub, j);
    }
  }

  // ---------------------------------------------------------------------------
  // strings.Split and strings.Join
  // ---------------------------------------------------------------------------

  /** strings.Split for a non-empty separator: cut at every occurrence, from the
      left; the result always has at least one part and no part holds `sep`. */
  function Split(s: string, sep: string): (parts: seq<string>)
    requires |sep| > 0
    ensures |parts| >= 1
    ensures forall k :: 0 <= k < |parts| ==> !Contains(parts[k], sep)
    decreases |s|
  {
    var i := Index(s, sep);
    if i < 0 then [s]
    else
      assert !Contains(s[..i], sep) by {
        if Contains(s[..i], sep) {
          var j := Index(s[..i], sep);
          assert s[..i][j..j + |sep|] == s[j..j + |sep|];
          assert OccursAt(s, sep, j);
        }
      }
      [s[..i]] + Split(s[i + |sep|..], sep)
  }

  /** strings.Join */
  function Join(parts: seq<string>, sep: string): string
  {
    if |parts| == 0 then ""
    else if |parts| == 1 then parts[0]
    else parts[0] + sep + Join(parts[1..], sep)
  }

  lemma JoinCons(p: string, parts: seq<string>, sep: string)
    requires |parts| >= 1
    ensures Join([p] + parts, sep) == p + sep + Join(parts, sep)
  {
    assert ([p] + parts)[1..] == parts;
  }

  /** A string is its three pieces cut at `i` and `j`. */
  lemma ThreePieces(s: string, i: nat, j: nat)
    requires i <= j <= |s|
    ensures s == s[..i] + s[i..j] + s[j..]
  {
    assert s[..j] == s[..i] + s[i..j];
    assert s == s[..j] + s[j..];
  }

  /** Joining the parts of a split with the same separator gives back the input. */
  lemma {:induction false} JoinSplit(s: string, sep: string)
    requires |sep| > 0
    ensures Join(Split(s, sep), sep) == s
    decreases |s|
  {
    var i := Index(s, sep);
    if i >= 0 {
      var rest := s[i + |sep|..];
      assert Split(s, sep) == [s[..i]] + Split(rest, sep);
      JoinSplit(rest, sep);
      JoinCons(s[..i], Split(rest, sep), sep);
      assert s[i..i + |sep|] == sep;
      ThreePieces(s, i, i + |sep|);
    }
  }

  /** Every character of a part of a split is a character of the input. */
  lemma {:induction false} SplitPartChars(s: string, sep: string, k: nat)
    requires |sep| > 0 && k < |Split(s, sep)|
    ensures forall c :: c in Split(s, sep)[k] ==> c in s
    decreases |s|
  {
    var i := Index(s, sep);
    if i >= 0 {
      var rest := s[i + |sep|..];
      if k > 0 {
        SplitPartChars(rest, sep, k - 1);
        forall c | c in rest ensures c in s {
          var j :| 0 <= j < |rest| && rest[j] == c;
          assert s[i + |sep| + j] == c;
        }
      } else {
        forall c | c in s[..i] ensures c in s {
          var j :| 0 <= j < i && s[..i][j] == c;
          assert s[j] == c;
        }
      }
    }
  }

  /** The last part of a split is empty only when the input is empty or ends
      with the separator. */
  lemma {:induction false} SplitLastEmpty(s: string, sep: string)
    requires |sep| > 0
    ensures var parts := Split(s, sep);
      parts[|parts| - 1] == "" ==> s == "" || (|sep| <= |s| && s[|s| - |sep|..] == sep)
    decreases |s|
  {
    var i := Index(s, sep);
    if i >= 0 {
      var rest := s[i + |sep|..];
      SplitLastEmpty(rest, sep);
      var parts := Split(s, sep);
      assert parts[|parts| - 1] == Split(rest, sep)[|Split(rest, sep)| - 1];
      if rest == "" {
        assert s[|s| - |sep|..] == s[i..i + |sep|];
      } else if |sep| <= |rest| && rest[|rest| - |sep|..] == sep {
        assert s[|s| - |sep|..] == rest[|rest| - |sep|..];
      }
    }
  }

  /** With a one-character separator that none of the parts holds, splitting
      the join gives back the parts. */
  lemma {:induction false} SplitJoin(parts: seq<string>, sep: string)
    requires |sep| == 1 && |parts| >= 1
    requires forall k :: 0 <= k < |parts| ==> !Contains(parts[k], sep)
    ensures Split(Join(parts, sep), sep) == parts
    decreases |parts|
  {
    if |parts| > 1 {
      var p := parts[0];
      var rest := Join(parts[1..], sep);
      var j := p + sep + rest;
      assert OccursAt(j, sep, |p|) by {
        assert j[|p|..|p| + 1] == sep;
      }
      forall k | 0 <= k < |p|
        ensures !OccursAt(j, sep, k)
      {
        NotContains(p, sep);
        assert !OccursAt(p, sep, k);
        assert j[k..k + 1] == p[k..k + 1];
      }
      var i := Index(j, sep);
      assert i == |p|;
      assert j[..i] == p;
      assert j[i + 1..] == rest;
      SplitJoin(parts[1..], sep);
    } else {
      NotContains(parts[0], sep);
    }
  }

  // ---------------------------------------------------------------------------
  // strings.ReplaceAll
  // ---------------------------------------------------------------------------

  /** strings.ReplaceAll for a non-empty `pat`: scan left to right, replacing
      each non-overlapping occurrence of `pat` by `rep`. */
  function ReplaceAll(s: string, pat: string, rep: string): string
    requires |pat| > 0
    decreases |s|
  {
    if |s| < |pat| then s
    else if s[..|pat|] == pat then rep + ReplaceAll(s[|pat|..], pat, rep)
    else [s[0]] + ReplaceAll(s[1..], pat, rep)
  }

  /** A prefix in which no occurrence starts is copied unchanged. */
  lemma {:induction false} ReplaceAllSkip(s: string, pat: string, rep: string, k: nat)
    requires |pat| > 0 && k <= |s|
    requires forall j :: 0 <= j < k ==> !OccursAt(s, pat, j)
    ensures ReplaceAll(s, pat, rep) == s[..k] + ReplaceAll(s[k..], pat, rep)
    decreases k
  {
    if k > 0 {
      if |s| < |pat| {
        assert ReplaceAll(s[k..], pat, rep) == s[k..];
        assert s[..k] + s[k..] == s;
      } else {
        assert !OccursAt(s, pat, 0);
        assert ReplaceAll(s, pat, rep) == [s[0]] + ReplaceAll(s[1..], pat, rep);
        OccursShift(s, pat);
        forall j | 0 <= j < k - 1
          ensures !OccursAt(s[1..], pat, j)
        {
          assert !OccursAt(s, pat, j + 1);
        }
        ReplaceAllSkip(s[1..], pat, rep, k - 1);
        assert s[1..][k - 1..] == s[k..];
        assert s[..k] == [s[0]] + s[1..][..k - 1];
      }
    } else {
      assert s[..0] + s[0..] == s;
    }
  }

  /** Replacing a string that does not occur changes nothing. */
  lemma ReplaceAllAbsent(s: string, pat: string, rep: string)
    requires |pat| > 0 && !Contains(s, pat)
    ensures ReplaceAll(s, pat, rep) == s
  {
    NotContains(s, pat);
    ReplaceAllSkip(s, pat, rep, |s|);
    assert s[..|s|] == s;
  }

  /** ReplaceAll agrees with the reference definition "split at `pat`, join with
      `rep`", which is how Go's strings.Replace walks the input. */
  lemma {:induction false} ReplaceAllIsJoinSplit(s: string, pat: string, rep: string)
    requires |pat| > 0
    ensures ReplaceAll(s, pat, rep) == Join(Split(s, pat), rep)
    decreases |s|
  {
    var i := Index(s, pat);
    if i < 0 {
      ReplaceAllAbsent(s, pat, rep);
    } else {
      var rest := s[i + |pat|..];
      ReplaceAllSkip(s, pat, rep, i);
      assert s[i..][..|pat|] == pat;
      assert s[i..][|pat|..] == rest;
      ReplaceAllIsJoinSplit(rest, pat, rep);
      JoinCons(s[..i], Split(rest, pat), rep);
    }
  }

  /** Replacing one character by another rewrites exactly the positions that
      held it and keeps the length. */
  lemma {:induction false} ReplaceChar(s: string, c: char, d: char)
    ensures |ReplaceAll(s, [c], [d])| == |s|
    ensures forall i :: 0 <= i < |s| ==> ReplaceAll(s, [c], [d])[i] == (if s[i] == c then d else s[i])
    decreases |s|
  {
    if |s| > 0 {
      ReplaceChar(s[1..], c, d);
      var r := ReplaceAll(s, [c], [d]);
      var t := ReplaceAll(s[1..], [c], [d]);
      if s[..1] == [c] {
        assert r == [d] + t;
      } else {
        assert s[0] != c;
        assert r == [s[0]] + t;
      }
      forall i | 0 <= i < |s|
        ensures r[i] == (if s[i] == c then d else s[i])
      {
        if i > 0 {
          assert r[i] == t[i - 1] && s[1..][i - 1] == s[i];
        }
      }
    }
  }

  /** Replacing a string by itself is the identity. */
  lemma ReplaceAllSelf(s: string, pat: string)
    requires |pat| > 0
    ensures ReplaceAll(s, pat, pat) == s
  {
    ReplaceAllIsJoinSplit(s, pat, pat);
    JoinSplit(s, pat);
  }

  // ---------------------------------------------------------------------------
  // strings.Fields
  // ---------------------------------------------------------------------------

  predicate NoSpace(w: string)
  {
    forall i :: 0 <= i < |w| ==> !IsSpace(w[i])
  }

  /** Length of the leading run of non-space characters. */
  function NonSpaceRun(s: string): (n: nat)
    ensures n <= |s|
    ensures NoSpace(s[..n])
    ensures n < |s| ==> IsSpace(s[n])
    decreases |s|
  {
    if |s| == 0 || IsSpace(s[0]) then 0
    else
      var k := NonSpaceRun(s[1..]);
      assert s[..k + 1] == [s[0]] + s[1..][..k];
      k + 1
  }

  /** strings.Fields: the maximal runs of non-space characters, in order. */
  function Fields(s: string): (words: seq<string>)
    ensures forall k :: 0 <= k < |words| ==> |words[k]| > 0 && NoSpace(words[k])
    decreases |s|
  {
    if |s| == 0 then []
    else if IsSpace(s[0]) then Fields(s[1..])
    else
      var n := NonSpaceRun(s);
      [s[..n]] + Fields(s[n..])
  }

  // ---------------------------------------------------------------------------
  // strings.ToLower (ASCII letters)
  // ---------------------------------------------------------------------------

  function LowerChar(c: char): char
  {
    if 'A' <= c <= 'Z' then (c as int + 32) as char else c
  }

  function ToLower(s: string): (r: string)
    ensures |r| == |s|
    ensures forall i :: 0 <= i < |s| ==> r[i] == LowerChar(s[i])
  {
    seq(|s|, i requires 0 <= i < |s| => LowerChar(s[i]))
  }

  // ---------------------------------------------------------------------------
  // strconv.Itoa and its inverse
  // ---------------------------------------------------------------------------

  predicate IsDigit(c: char)
  {
    '0' <= c <= '9'
  }

  predicate AllDigits(s: string)
  {
    forall i :: 0 <= i < |s| ==> IsDigit(s[i])
  }

  function DigitChar(d: nat): (c: char)
    requires d < 10
    ensures IsDigit(c) && c as int - '0' as int == d
  {
    ('0' as int + d) as char
  }

  /** Base-10 digits of a natural number, most significant first. */
  function NatToDecimal(n: nat): (s: string)
    ensures |s| >= 1 && AllDigits(s)
    decreases n
  {
    if n < 10 then [DigitChar(n)] else NatToDecimal(n / 10) + [DigitChar(n % 10)]
  }

  /** strconv.Itoa */
  function Itoa(n: int): string
  {
    if n < 0 then "-" + NatToDecimal(-n) else NatToDecimal(n)
  }

  function DecimalValue(s: string): nat
    requires AllDigits(s)
    decreases |s|
  {
    if |s| == 0 then 0
    else DecimalValue(s[..|s| - 1]) * 10 + (s[|s| - 1] as int - '0' as int)
  }

  /** Reading back a decimal string written by Itoa (the inverse, strconv.Atoi). */
  function Atoi(s: string): Option<int>
  {
    if |s| > 0 && s[0] == '-' && |s| > 1 && AllDigits(s[1..]) then Some(0 - DecimalValue(s[1..]) as int)
    else if |s| > 0 && AllDigits(s) then Some(DecimalValue(s))
    else None
  }

  lemma {:induction false} DecimalRoundTrip(n: nat)
    ensures DecimalValue(NatToDecimal(n)) == n
    decreases n
  {
    if n >= 10 {
      DecimalRoundTrip(n / 10);
      var s := NatToDecimal(n);
      assert s[..|s| - 1] == NatToDecimal(n / 10);
    }
  }

  /** Itoa writes every integer so that Atoi reads it back. */
  lemma ItoaRoundTrip(n: int)
    ensures Atoi(Itoa(n)) == Some(n)
  {
    if n < 0 {
      var d := NatToDecimal(-n);
      DecimalRoundTrip(-n);
      assert Itoa(n) == "-" + d;
      assert ("-" + d)[0] == '-' && ("-" + d)[1..] == d;
    } else {
      var d := NatToDecimal(n);
      DecimalRoundTrip(n);
      assert Itoa(n) == d;
      assert d[0] != '-';
    }
  }

  // ---------------------------------------------------------------------------
  // path/filepath on "/" paths (Join without Clean, Dir, Base, Ext, IsAbs)
  // ---------------------------------------------------------------------------

  /** filepath.Join of two elements: empty elements are dropped. */
  function JoinPath(a: string, b: string): (r: string)
    ensures a == "" ==> r == b
    ensures b == "" ==> r == a
    ensures a != "" && b != "" ==> r == a + "/" + b
  {
    if a == "" then b else if b == "" then a else a + "/" + b
  }

  function IsAbs(p: string): bool
  {
    HasPrefix(p, "/")
  }

  /** Index of the last occurrence of `c` in `s`, or -1. */
  function LastIndexOf(s: string, c: char): (r: int)
    ensures -1 <= r < |s|
    ensures r >= 0 ==> s[r] == c
    ensures forall j :: r < j < |s| ==> s[j] != c
    decreases |s|
  {
    if |s| == 0 then -1
    else if s[|s| - 1] == c then |s| - 1
    else LastIndexOf(s[..|s| - 1], c)
  }

  /** filepath.Dir: everything before the last '/', "." when there is none. */
  function Dir(p: string): string
  {
    var i := LastIndexOf(p, '/');
    if i < 0 then "." else if i == 0 then "/" else p[..i]
  }

  function TrimTrailingSlashes(p: string): (r: string)
    ensures |r| <= |p| && r == p[..|r|]
    decreases |p|
  {
    if |p| > 0 && p[|p| - 1] == '/' then TrimTrailingSlashes(p[..|p| - 1]) else p
  }

  /** filepath.Base: the last element, with trailing slashes removed. */
  function Base(p: string): string
  {
    if p == "" then "."
    else
      var q := TrimTrailingSlashes(p);
      if q == "" then "/" else q[LastIndexOf(q, '/') + 1..]
  }

  /** filepath.Ext: the suffix from the last '.' of the last element, or "". */
  function Ext(p: string): (r: string)
    ensures |r| <= |p| && r == p[|p| - |r|..]
    decreases |p|
  {
    if |p| == 0 || p[|p| - 1] == '/' then ""
    else if p[|p| - 1] == '.' then "."
    else
      var e := Ext(p[..|p| - 1]);
      if e == "" then "" else e + [p[|p| - 1]]
  }
}
