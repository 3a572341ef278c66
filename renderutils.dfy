/** The renderer's small string utilities (internal/renderer/utils.go):
    `{{key}}` substitution, layer conditions and hex colours. */
module RenderUtils {

  import opened Wrappers
  import opened StringUtil

  // ---------------------------------------------------------------------------
  // Substitution
  // ---------------------------------------------------------------------------

  /** The placeholder text for a key. */
  function Placeholder(key: string): string
  {
    "{{" + key + "}}"
  }

  /** `order` lists every key of `keys` exactly once: one possible iteration
      order of a map with those keys. */
  predicate IsKeyOrder(order: seq<string>, keys: set<string>)
  {
    && (forall i :: 0 <= i < |order| ==> order[i] in keys)
    && (forall k :: k in keys ==> k in order)
    && (forall i, j :: 0 <= i < j < |order| ==> order[i] != order[j])
    && |order| == |keys|
  }

  /** Partway through a walk over the keys of a map: `order` lists the keys
      visited so far, each once, and `remaining` those still to visit. */
  ghost predicate Walking(order: seq<string>, remaining: set<string>, keys: set<string>)
  {
    && remaining <= keys
    && (forall i :: 0 <= i < |order| ==> order[i] in keys && order[i] !in remaining)
    && (forall k :: k in keys ==> k in remaining || k in order)
    && (forall i, j :: 0 <= i < j < |order| ==> order[i] != order[j])
    && |order| + |remaining| == |keys|
  }

  lemma WalkStep(order: seq<string>, remaining: set<string>, keys: set<string>, key: string)
    requires Walking(order, remaining, keys) && key in remaining
    ensures Walking(order + [key], remaining - {key}, keys)
    ensures key in keys && key !in order
  {
  }

  /** A finished walk visited every key once. */
  lemma WalkEnd(order: seq<string>, keys: set<string>)
    requires Walking(order, {}, keys)
    ensures IsKeyOrder(order, keys)
  {
  }

  /** Each placeholder key paired with its replacement, first to last. */
  function ReplaceKeys(s: string, pairs: seq<(string, string)>): string
  {
    if |pairs| == 0 then s
    else
      var (key, value) := pairs[|pairs| - 1];
      ReplaceAll(ReplaceKeys(s, pairs[..|pairs| - 1]), Placeholder(key), value)
  }

  /** The keys of `vars` in `order`, each with its value. */
  function ValuePairs(vars: map<string, string>, order: seq<string>): (pairs: seq<(string, string)>)
    requires forall i :: 0 <= i < |order| ==> order[i] in vars
    ensures |pairs| == |order|
    ensures forall i :: 0 <= i < |order| ==> pairs[i] == (order[i], vars[order[i]])
  {
    seq(|order|, i requires 0 <= i < |order| => (order[i], vars[order[i]]))
  }

  lemma ReplaceKeysSnoc(s: string, pairs: seq<(string, string)>, p: (string, string))
    ensures ReplaceKeys(s, pairs + [p]) == ReplaceAll(ReplaceKeys(s, pairs), Placeholder(p.0), p.1)
  {
    assert (pairs + [p])[..|pairs|] == pairs;
  }

  /** SubstituteVariables: every `{{key}}` replaced by the key's value, one key
      after the other in the map's iteration order, which is returned. */
  method SubstituteVariables(template: string, vars: map<string, string>)
    returns (result: string, ghost order: seq<string>)
    ensures IsKeyOrder(order, vars.Keys)
    ensures result == ReplaceKeys(template, ValuePairs(vars, order))
    ensures PlaceholderFree(template, vars.Keys) ==> result == template
  {
    result := template;
    order := [];
    var remaining := vars.Keys;
    while remaining != {}
      invariant Walking(order, remaining, vars.Keys)
      invariant result == ReplaceKeys(template, ValuePairs(vars, order))
      decreases remaining
    {
      var key :| key in remaining;
      WalkStep(order, remaining, vars.Keys, key);
      var placeholder := "{{" + key + "}}";
      result := ReplaceAll(result, placeholder, vars[key]);
      assert ValuePairs(vars, order + [key]) == ValuePairs(vars, order) + [(key, vars[key])];
      ReplaceKeysSnoc(template, ValuePairs(vars, order), (key, vars[key]));
      order := order + [key];
      remaining := remaining - {key};
    }
    WalkEnd(order, vars.Keys);
    if PlaceholderFree(template, vars.Keys) {
      SubstituteAbsent(template, vars, order);
    }
  }

  /** No `{{key}}` of the given keys occurs in the text. */
  predicate PlaceholderFree(s: string, keys: set<string>)
  {
    forall k :: k in keys ==> !Contains(s, Placeholder(k))
  }

  /** Text holding no placeholder of any key comes back unchanged. */
  lemma {:induction false} ReplaceKeysAbsent(s: string, pairs: seq<(string, string)>)
    requires forall i :: 0 <= i < |pairs| ==> !Contains(s, Placeholder(pairs[i].0))
    ensures ReplaceKeys(s, pairs) == s
    decreases |pairs|
  {
    if |pairs| > 0 {
      ReplaceKeysAbsent(s, pairs[..|pairs| - 1]);
      ReplaceAllAbsent(s, Placeholder(pairs[|pairs| - 1].0), pairs[|pairs| - 1].1);
    }
  }

  /** Text holding no placeholder of any variable comes back unchanged from
      the substitution, whatever the iteration order. */
  lemma SubstituteAbsent(s: string, vars: map<string, string>, order: seq<string>)
    requires IsKeyOrder(order, vars.Keys)
    requires PlaceholderFree(s, vars.Keys)
    ensures ReplaceKeys(s, ValuePairs(vars, order)) == s
  {
    ReplaceKeysAbsent(s, ValuePairs(vars, order));
  }

  /** With a single variable, the text is cut at every `{{key}}` and rejoined
      with the value: every occurrence is replaced, in one left-to-right pass. */
  lemma SubstituteSingle(s: string, key: string, value: string, order: seq<string>)
    requires IsKeyOrder(order, {key})
    ensures ReplaceKeys(s, ValuePairs(map[key := value], order)) == Join(Split(s, Placeholder(key)), value)
  {
    assert order == [key];
    assert ValuePairs(map[key := value], order)[..0] == [];
    ReplaceAllIsJoinSplit(s, Placeholder(key), value);
  }

  // ---------------------------------------------------------------------------
  // Conditions
  // ---------------------------------------------------------------------------

  /** A variable counts as set when it is present, non-empty and not "null". */
  predicate Truthy(vars: map<string, string>, key: string)
  {
    key in vars && vars[key] != "" && vars[key] != "null"
  }

  /** The condition trimmed, with every "{{" and then every "}}" removed. */
  function Cleaned(condition: string): string
  {
    ReplaceAll(ReplaceAll(TrimSpace(condition), "{{", ""), "}}", "")
  }

  /** Every "&&"-separated operand, trimmed, names a set variable. */
  predicate ConditionHolds(condition: string, vars: map<string, string>)
  {
    var parts := Split(Cleaned(condition), "&&");
    forall i :: 0 <= i < |parts| ==> Truthy(vars, TrimSpace(parts[i]))
  }

  method EvaluateCondition(condition: string, vars: map<string, string>) returns (holds: bool)
    ensures holds <==> ConditionHolds(condition, vars)
  {
    var c := TrimSpace(condition);
    c := ReplaceAll(c, "{{", "");
    c := ReplaceAll(c, "}}", "");
    var parts := Split(c, "&&");
    var i := 0;
    while i < |parts|
      invariant 0 <= i <= |parts|
      invariant forall j :: 0 <= j < i ==> Truthy(vars, TrimSpace(parts[j]))
    {
      var part := TrimSpace(parts[i]);
      if part !in vars || vars[part] == "" || vars[part] == "null" {
        return false;
      }
      i := i + 1;
    }
    return true;
  }

  /** A blank condition is one empty operand: it holds only when the variable
      named "" is set. */
  lemma BlankCondition(condition: string, vars: map<string, string>)
    requires IsBlank(condition)
    ensures ConditionHolds(condition, vars) <==> Truthy(vars, "")
  {
    TrimSpaceEmptyIffBlank(condition);
    assert Cleaned(condition) == "";
    var parts := Split("", "&&");
    assert parts == [""];
    TrimSpaceEmptyIffBlank("");
    assert ConditionHolds(condition, vars) <==> Truthy(vars, TrimSpace(parts[0]));
  }

  /** A condition that is a bare variable name holds exactly when that
      variable is set. */
  lemma PlainKeyCondition(key: string, vars: map<string, string>)
    requires TrimSpace(key) == key
    requires !Contains(key, "{{") && !Contains(key, "}}") && !Contains(key, "&&")
    ensures ConditionHolds(key, vars) <==> Truthy(vars, key)
  {
    ReplaceAllAbsent(key, "{{", "");
    ReplaceAllAbsent(key, "}}", "");
    assert Cleaned(key) == key;
    var parts := Split(key, "&&");
    assert parts == [key];
    assert ConditionHolds(key, vars) <==> Truthy(vars, TrimSpace(parts[0]));
  }

  /** A condition written as a placeholder, "{{key}}", reads as the bare key:
      it holds exactly when that variable is set. */
  lemma PlaceholderCondition(key: string, vars: map<string, string>)
    requires TrimSpace(key) == key && '{' !in key && '}' !in key && !Contains(key, "&&")
    ensures ConditionHolds(Placeholder(key), vars) <==> Truthy(vars, key)
  {
    var p := Placeholder(key);
    TrimSpaceNoop(p);
    OpenBracesRemoved(key);
    CloseBracesRemoved(key);
    assert Cleaned(p) == key;
    var parts := Split(key, "&&");
    assert parts == [key];
    assert ConditionHolds(p, vars) <==> Truthy(vars, TrimSpace(parts[0]));
  }

  lemma OpenBracesRemoved(key: string)
    requires '{' !in key
    ensures ReplaceAll(Placeholder(key), "{{", "") == key + "}}"
  {
    var p := Placeholder(key);
    var rest := key + "}}";
    assert p[..2] == "{{" && p[2..] == rest;
    assert '{' !in rest;
    IndexNone(rest, "{{");
    ReplaceAllAbsent(rest, "{{", "");
  }

  lemma CloseBracesRemoved(key: string)
    requires '}' !in key
    ensures ReplaceAll(key + "}}", "}}", "") == key
  {
    var rest := key + "}}";
    forall j | 0 <= j < |key|
      ensures !OccursAt(rest, "}}", j)
    {
      assert rest[j] == key[j];
      assert rest[j..j + 2][0] == rest[j];
    }
    ReplaceAllSkip(rest, "}}", "", |key|);
    assert rest[..|key|] == key && rest[|key|..] == "}}";
    assert ReplaceAll("}}", "}}", "") == "";
  }

  lemma TrimSpaceNoop(s: string)
    requires |s| > 0 && !IsSpace(s[0]) && !IsSpace(s[|s| - 1])
    ensures TrimSpace(s) == s
  {
    TrimLeftNoop(s);
    TrimRightNoop(s);
  }

  // ---------------------------------------------------------------------------
  // Colours
  // ---------------------------------------------------------------------------

  datatype Rgba = Rgba(r: int, g: int, b: int, a: int)

  const Black := Rgba(0, 0, 0, 255)

  /** The value of a hexadecimal digit, or -1. */
  function HexDigitValue(c: char): (v: int)
    ensures -1 <= v < 16
  {
    if '0' <= c <= '9' then c as int - '0' as int
    else if 'a' <= c <= 'f' then c as int - 'a' as int + 10
    else if 'A' <= c <= 'F' then c as int - 'A' as int + 10
    else -1
  }

  /** strconv.ParseUint(pair, 16, 8) with the error dropped: the value of two
      hex digits, or 0 when either is not a hex digit. */
  function ParseHexByte(pair: string): (v: int)
    requires |pair| == 2
    ensures 0 <= v <= 255
    ensures HexDigitValue(pair[0]) < 0 || HexDigitValue(pair[1]) < 0 ==> v == 0
  {
    var hi := HexDigitValue(pair[0]);
    var lo := HexDigitValue(pair[1]);
    if hi < 0 || lo < 0 then 0 else 16 * hi + lo
  }

  /** ParseColor: a colour and, when the text is not "#" and six more
      characters, an error message (the colour is then black). */
  function ParseColor(colorStr: string): (Rgba, Option<string>)
  {
    if !HasPrefix(colorStr, "#") then (Black, Some("invalid color format: " + colorStr))
    else
      var hex := colorStr[1..];
      if |hex| == 6 then
        (Rgba(ParseHexByte(hex[0..2]), ParseHexByte(hex[2..4]), ParseHexByte(hex[4..6]), 255), None)
      else (Black, Some("unsupported color format: " + hex))
  }

  /** Errors come exactly with colours that are not "#" and six characters,
      and always with black. */
  lemma ParseColorErrors(colorStr: string)
    ensures ParseColor(colorStr).1.Some? <==> !(HasPrefix(colorStr, "#") && |colorStr| == 7)
    ensures ParseColor(colorStr).1.Some? ==> ParseColor(colorStr).0 == Black
    ensures ParseColor(colorStr).1.None? ==> ParseColor(colorStr).0.a == 255
  {
  }

  /** A pair that is not hexadecimal gives channel 0, and no error. */
  lemma BadPairIsZero()
    ensures ParseColor("#zz8000") == (Rgba(0, 128, 0, 255), None)
  {
    var hex := "#zz8000"[1..];
    assert hex[0..2] == "zz" && hex[2..4] == "80" && hex[4..6] == "00";
  }

  function HexDigitChar(n: int): (c: char)
    requires 0 <= n < 16
  {
    if n < 10 then ('0' as int + n) as char else ('a' as int + n - 10) as char
  }

  /** "#rrggbb" for channels 0..255, lower-case. */
  function FormatHex(r: int, g: int, b: int): (s: string)
    requires 0 <= r <= 255 && 0 <= g <= 255 && 0 <= b <= 255
    ensures |s| == 7 && s[0] == '#'
  {
    ['#', HexDigitChar(r / 16), HexDigitChar(r % 16), HexDigitChar(g / 16), HexDigitChar(g % 16),
     HexDigitChar(b / 16), HexDigitChar(b % 16)]
  }

  lemma HexDigitRoundTrip(n: int)
    requires 0 <= n < 16
    ensures HexDigitValue(HexDigitChar(n)) == n
  {
  }

  lemma HexByteRoundTrip(n: int)
    requires 0 <= n <= 255
    ensures ParseHexByte([HexDigitChar(n / 16), HexDigitChar(n % 16)]) == n
  {
    HexDigitRoundTrip(n / 16);
    HexDigitRoundTrip(n % 16);
  }

  /** Parsing a formatted colour gives its channels back, fully opaque. */
  lemma ColorRoundTrip(r: int, g: int, b: int)
    requires 0 <= r <= 255 && 0 <= g <= 255 && 0 <= b <= 255
    ensures ParseColor(FormatHex(r, g, b)) == (Rgba(r, g, b, 255), None)
  {
    var s := FormatHex(r, g, b);
    var hex := s[1..];
    assert HasPrefix(s, "#");
    assert hex[0..2] == [HexDigitChar(r / 16), HexDigitChar(r % 16)];
    assert hex[2..4] == [HexDigitChar(g / 16), HexDigitChar(g % 16)];
    assert hex[4..6] == [HexDigitChar(b / 16), HexDigitChar(b % 16)];
    HexByteRoundTrip(r);
    HexByteRoundTrip(g);
    HexByteRoundTrip(b);
  }
}
