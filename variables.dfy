/** The template variables of a card (internal/renderer/variables.go and the
    older copy in internal/renderer/renderer.go): a flat string map built by a
    fixed sequence of writes, later writes replacing earlier ones. The map
    iteration orders of Go are ghost parameters: every result is stated for
    every possible order. */
module Variables {

  import opened Wrappers
  import opened StringUtil
  import opened Values
  import opened TextFormat
  import opened RenderUtils
  import opened Templates
  import Metadata

  /** One assignment `vars[key] = value`. */
  type Write = (string, string)

  /** The map after performing `writes` in order on `m`. */
  function Apply(m: map<string, string>, writes: seq<Write>): map<string, string>
  {
    if |writes| == 0 then m
    else Apply(m, writes[..|writes| - 1])[writes[|writes| - 1].0 := writes[|writes| - 1].1]
  }

  /** The value of the last write to `key` in `writes`, if any. */
  function LastWriteOf(writes: seq<Write>, key: string): Option<string>
  {
    if |writes| == 0 then None
    else if writes[|writes| - 1].0 == key then Some(writes[|writes| - 1].1)
    else LastWriteOf(writes[..|writes| - 1], key)
  }

  /** A key holds the last value written to it, or its old value when it was
      never written. */
  lemma {:induction false} ApplyLookup(m: map<string, string>, writes: seq<Write>, key: string)
    ensures key in Apply(m, writes) <==> LastWriteOf(writes, key).Some? || key in m
    ensures key in Apply(m, writes) ==>
      Apply(m, writes)[key] == (if LastWriteOf(writes, key).Some? then LastWriteOf(writes, key).value else m[key])
    decreases |writes|
  {
    if |writes| > 0 {
      ApplyLookup(m, writes[..|writes| - 1], key);
    }
  }

  /** Performing two lists of writes is performing their concatenation. */
  lemma {:induction false} ApplyConcat(m: map<string, string>, a: seq<Write>, b: seq<Write>)
    ensures Apply(m, a + b) == Apply(Apply(m, a), b)
    decreases |b|
  {
    if |b| == 0 {
      assert a + b == a;
    } else {
      assert (a + b)[..|a + b| - 1] == a + b[..|b| - 1];
      ApplyConcat(m, a, b[..|b| - 1]);
    }
  }

  lemma ApplyConcat3(m: map<string, string>, a: seq<Write>, b: seq<Write>, c: seq<Write>)
    ensures Apply(m, a + b + c) == Apply(Apply(Apply(m, a), b), c)
  {
    ApplyConcat(m, a, b);
    ApplyConcat(m, a + b, c);
  }

  lemma ApplyConcat4(m: map<string, string>, a: seq<Write>, b: seq<Write>, c: seq<Write>, d: seq<Write>)
    ensures Apply(m, a + b + c + d) == Apply(Apply(Apply(Apply(m, a), b), c), d)
  {
    ApplyConcat3(m, a, b, c);
    ApplyConcat(m, a + b + c, d);
  }

  /** The last write of a concatenation is in its second half when there is one. */
  lemma {:induction false} LastWriteConcat(a: seq<Write>, b: seq<Write>, key: string)
    ensures LastWriteOf(a + b, key) ==
      (if LastWriteOf(b, key).Some? then LastWriteOf(b, key) else LastWriteOf(a, key))
    decreases |b|
  {
    if |b| == 0 {
      assert a + b == a;
    } else {
      assert (a + b)[..|a + b| - 1] == a + b[..|b| - 1];
      LastWriteConcat(a, b[..|b| - 1], key);
    }
  }

  // ---------------------------------------------------------------------------
  // Formatting a metadata value
  // ---------------------------------------------------------------------------

  /** The two formatters the model leaves abstract: shortest decimal form of a
      float, and the generic "%v" form of a list or map. */
  datatype Formatters = Formatters(float: real -> string, generic: Value -> string)

  /** The string stored for a decoded value: strings as they are, integers in
      decimal, floats and other values through the formatters; nil stores
      nothing. */
  function FormatValue(fmt: Formatters, v: Value): (r: Option<string>)
    ensures r.None? <==> v.VNull?
    ensures v.VString? ==> r == Some(v.s)
    ensures v.VInt? ==> r == Some(Itoa(v.i))
  {
    match v
    case VNull => None
    case VString(s) => Some(s)
    case VInt(i) => Some(Itoa(i))
    case VFloat(f) => Some(fmt.float(f))
    case VBool(b) => Some(if b then "true" else "false")
    case _ => Some(fmt.generic(v))
  }

  /** The write of one formatted value, none for nil. */
  function FormattedWrite(key: string, v: Value, fmt: Formatters): seq<Write>
  {
    match FormatValue(fmt, v)
    case None => []
    case Some(s) => [(key, s)]
  }

  lemma FormattedLast(key: string, v: Value, fmt: Formatters, k: string)
    ensures LastWriteOf(FormattedWrite(key, v, fmt), k) == (if key == k then FormatValue(fmt, v) else None)
  {
  }

  // ---------------------------------------------------------------------------
  // The phases
  // ---------------------------------------------------------------------------

  /** The text of the body before the footer is split off: the parsed rules
      text, or the whole body when there is none. */
  function BodySource(card: Metadata.Card): string
  {
    if card.rulesText == "" then card.body else card.rulesText
  }

  /** The body and footer stored, given the body and footer separated from
      the body source: the flavor text replaces an empty footer. */
  function BodyAndFooter(card: Metadata.Card, split: (string, string)): (string, string)
  {
    (split.0, if card.flavorText != "" && split.1 == "" then card.flavorText else split.1)
  }

  /** The twelve typed card fields, written first. */
  function FixedVars(card: Metadata.Card, split: (string, string)): map<string, string>
  {
    map[]
      ["card.title" := card.title]
      ["card.type" := card.cardType]
      ["card.rarity" := card.rarity]
      ["card.set" := card.cardSet]
      ["card.artist" := card.artist]
      ["card.body" := BodyAndFooter(card, split).0]
      ["card.footer" := BodyAndFooter(card, split).1]
      ["card.rules_text" := card.rulesText]
      ["card.flavor_text" := card.flavorText]
      ["card.mana_cost" := card.manaCost]
      ["card.print_this" := Itoa(card.printThis)]
      ["card.print_total" := Itoa(card.printTotal)]
  }

  /** Every fixed key holds a '.'. */
  lemma FixedKeysDotted(card: Metadata.Card, split: (string, string), k: string)
    requires '.' !in k
    ensures k !in FixedVars(card, split)
  {
    assert |k| <= 4 || k[4] != '.';
  }

  /** The write of `entries[field]` under `key` when it is a string. */
  function StringFieldWrite(key: string, entries: map<string, Value>, field: string): seq<Write>
  {
    if field in entries && entries[field].VString? then [(key, entries[field].s)] else []
  }

  lemma StringFieldLast(key: string, entries: map<string, Value>, field: string, k: string)
    ensures LastWriteOf(StringFieldWrite(key, entries, field), k)
         == (if k == key && field in entries && entries[field].VString? then Some(entries[field].s) else None)
  {
  }

  /** The artwork of the nested card map: a string is the artwork itself; a
      map gives its "url" and its "fit" when they are strings. */
  function ArtworkWrites(meta: map<string, Value>): seq<Write>
  {
    match Nested(meta, "card", "artwork")
    case None => []
    case Some(art) =>
      if art.VString? then [("card.artwork", art.s)]
      else if art.VMap? then
        StringFieldWrite("card.artwork", art.entries, "url") + StringFieldWrite("card.artwork.fit", art.entries, "fit")
      else []
  }

  /** The artwork phase writes nothing but the two artwork keys. */
  lemma ArtworkOther(meta: map<string, Value>, k: string)
    requires k != "card.artwork" && k != "card.artwork.fit"
    ensures LastWriteOf(ArtworkWrites(meta), k) == None
  {
    match Nested(meta, "card", "artwork")
    case None =>
    case Some(art) =>
      if art.VMap? {
        var url := StringFieldWrite("card.artwork", art.entries, "url");
        var fit := StringFieldWrite("card.artwork.fit", art.entries, "fit");
        LastWriteConcat(url, fit, k);
        StringFieldLast("card.artwork", art.entries, "url", k);
        StringFieldLast("card.artwork.fit", art.entries, "fit", k);
      }
  }

  /** A string artwork, or the "url" and "fit" strings of a map artwork. */
  lemma ArtworkValues(meta: map<string, Value>)
    ensures Nested(meta, "card", "artwork").Some? && Nested(meta, "card", "artwork").value.VString? ==>
      LastWriteOf(ArtworkWrites(meta), "card.artwork") == Some(Nested(meta, "card", "artwork").value.s)
    ensures Nested(meta, "card", "artwork").Some? && Nested(meta, "card", "artwork").value.VMap? ==>
      var art := Nested(meta, "card", "artwork").value.entries;
      && LastWriteOf(ArtworkWrites(meta), "card.artwork")
         == (if "url" in art && art["url"].VString? then Some(art["url"].s) else None)
      && LastWriteOf(ArtworkWrites(meta), "card.artwork.fit")
         == (if "fit" in art && art["fit"].VString? then Some(art["fit"].s) else None)
    ensures Nested(meta, "card", "artwork").None? ==> ArtworkWrites(meta) == []
  {
    match Nested(meta, "card", "artwork")
    case None =>
    case Some(art) =>
      if art.VMap? {
        var url := StringFieldWrite("card.artwork", art.entries, "url");
        var fit := StringFieldWrite("card.artwork.fit", art.entries, "fit");
        LastWriteConcat(url, fit, "card.artwork");
        LastWriteConcat(url, fit, "card.artwork.fit");
        StringFieldLast("card.artwork", art.entries, "url", "card.artwork");
        StringFieldLast("card.artwork.fit", art.entries, "fit", "card.artwork");
        StringFieldLast("card.artwork", art.entries, "url", "card.artwork.fit");
        StringFieldLast("card.artwork.fit", art.entries, "fit", "card.artwork.fit");
      }
  }

  /** The writes of a map-valued entry `section`, one per inner key in
      `order`, skipping the artwork of the card map. */
  function NestedWrites(section: string, entries: map<string, Value>, order: seq<string>, fmt: Formatters): seq<Write>
    requires forall i :: 0 <= i < |order| ==> order[i] in entries
  {
    if |order| == 0 then []
    else
      var key := order[|order| - 1];
      NestedWrites(section, entries, order[..|order| - 1], fmt)
      + (if section == "card" && key == "artwork" then [] else FormattedWrite(section + "." + key, entries[key], fmt))
  }

  lemma NestedSnoc(section: string, entries: map<string, Value>, order: seq<string>, fmt: Formatters, key: string)
    requires forall i :: 0 <= i < |order| ==> order[i] in entries
    requires key in entries
    ensures NestedWrites(section, entries, order + [key], fmt) == NestedWrites(section, entries, order, fmt) + (if section == "card" && key == "artwork" then [] else FormattedWrite(section + "." + key, entries[key], fmt))
  {
    assert (order + [key])[..|order|] == order;
  }

  /** The inner iteration order recorded for a key, or none. */
  function InnerOf(inner: map<string, seq<string>>, key: string): seq<string>
  {
    if key in inner then inner[key] else []
  }

  /** `inner` holds an iteration order for entry `k` when it is a map. */
  predicate FitsAt(meta: map<string, Value>, inner: map<string, seq<string>>, k: string)
  {
    k in meta && (meta[k].VMap? ==> k in inner && IsKeyOrder(inner[k], meta[k].entries.Keys))
  }

  /** One metadata entry: a map is flattened one level under "key.", any
      other value is written under its key. */
  function EntryWrites(key: string, v: Value, innerOrder: seq<string>, fmt: Formatters): seq<Write>
    requires v.VMap? ==> forall i :: 0 <= i < |innerOrder| ==> innerOrder[i] in v.entries
  {
    if v.VMap? then NestedWrites(key, v.entries, innerOrder, fmt) else FormattedWrite(key, v, fmt)
  }

  /** The metadata phase, entry by entry in `order`. */
  function MetadataWrites(meta: map<string, Value>, order: seq<string>, inner: map<string, seq<string>>, fmt: Formatters): seq<Write>
    requires forall i :: 0 <= i < |order| ==> FitsAt(meta, inner, order[i])
  {
    if |order| == 0 then []
    else
      var key := order[|order| - 1];
      assert FitsAt(meta, inner, key);
      MetadataWrites(meta, order[..|order| - 1], inner, fmt) + EntryWrites(key, meta[key], InnerOf(inner, key), fmt)
  }

  /** Recording the inner order of an entry not yet walked changes nothing
      written so far. */
  lemma {:induction false} MetadataWritesFrame(meta: map<string, Value>, order: seq<string>, inner: map<string, seq<string>>,
                                               fmt: Formatters, key: string, innerOrder: seq<string>)
    requires forall i :: 0 <= i < |order| ==> FitsAt(meta, inner, order[i])
    requires key !in order
    ensures forall i :: 0 <= i < |order| ==> FitsAt(meta, inner[key := innerOrder], order[i])
    ensures MetadataWrites(meta, order, inner[key := innerOrder], fmt) == MetadataWrites(meta, order, inner, fmt)
    decreases |order|
  {
    if |order| > 0 {
      MetadataWritesFrame(meta, order[..|order| - 1], inner, fmt, key, innerOrder);
    }
  }

  /** Walking one more entry appends its writes. */
  lemma MetadataSnoc(meta: map<string, Value>, order: seq<string>, inner: map<string, seq<string>>,
                     fmt: Formatters, key: string, innerOrder: seq<string>)
    requires forall i :: 0 <= i < |order| ==> FitsAt(meta, inner, order[i])
    requires key !in order && key in meta
    requires meta[key].VMap? ==> IsKeyOrder(innerOrder, meta[key].entries.Keys)
    ensures forall i :: 0 <= i < |order + [key]| ==> FitsAt(meta, inner[key := innerOrder], (order + [key])[i])
    ensures MetadataWrites(meta, order + [key], inner[key := innerOrder], fmt)
      == MetadataWrites(meta, order, inner, fmt) + EntryWrites(key, meta[key], innerOrder, fmt)
  {
    MetadataWritesFrame(meta, order, inner, fmt, key, innerOrder);
    assert (order + [key])[..|order|] == order;
  }

  /** The metadata phase of the older renderer: every entry under its own
      key, a map in its generic form. */
  function LegacyMetadataWrites(meta: map<string, Value>, order: seq<string>, fmt: Formatters): seq<Write>
    requires forall i :: 0 <= i < |order| ==> order[i] in meta
  {
    if |order| == 0 then []
    else
      var key := order[|order| - 1];
      LegacyMetadataWrites(meta, order[..|order| - 1], fmt) + FormattedWrite(key, meta[key], fmt)
  }

  lemma LegacyMetadataSnoc(meta: map<string, Value>, order: seq<string>, fmt: Formatters, key: string)
    requires forall i :: 0 <= i < |order| ==> order[i] in meta
    requires key in meta
    ensures LegacyMetadataWrites(meta, order + [key], fmt) == LegacyMetadataWrites(meta, order, fmt) + FormattedWrite(key, meta[key], fmt)
  {
    assert (order + [key])[..|order|] == order;
  }

  const TokenPrefix := "style_tokens."

  /** Every style token under "style_tokens.". */
  function TokenWrites(tokens: map<string, string>, order: seq<string>): seq<Write>
    requires forall i :: 0 <= i < |order| ==> order[i] in tokens
  {
    if |order| == 0 then []
    else
      var key := order[|order| - 1];
      TokenWrites(tokens, order[..|order| - 1]) + [(TokenPrefix + key, tokens[key])]
  }

  lemma TokenSnoc(tokens: map<string, string>, order: seq<string>, key: string)
    requires forall i :: 0 <= i < |order| ==> order[i] in tokens
    requires key in tokens
    ensures TokenWrites(tokens, order + [key]) == TokenWrites(tokens, order) + [(TokenPrefix + key, tokens[key])]
  {
    assert (order + [key])[..|order|] == order;
  }

  /** Every optional template value under its own key. */
  function OptionalWrites(optional: map<string, Value>, order: seq<string>, fmt: Formatters): seq<Write>
    requires forall i :: 0 <= i < |order| ==> order[i] in optional
  {
    if |order| == 0 then []
    else
      var key := order[|order| - 1];
      OptionalWrites(optional, order[..|order| - 1], fmt) + FormattedWrite(key, optional[key], fmt)
  }

  lemma OptionalSnoc(optional: map<string, Value>, order: seq<string>, fmt: Formatters, key: string)
    requires forall i :: 0 <= i < |order| ==> order[i] in optional
    requires key in optional
    ensures OptionalWrites(optional, order + [key], fmt) == OptionalWrites(optional, order, fmt) + FormattedWrite(key, optional[key], fmt)
  {
    assert (order + [key])[..|order|] == order;
  }

  /** The iteration orders of the maps the build walks. */
  datatype Orders = Orders(
    meta: seq<string>,
    inner: map<string, seq<string>>,
    tokens: seq<string>,
    optional: seq<string>)

  /** The orders of the metadata, the style tokens and the optional values. */
  ghost predicate OuterOrdersFit(card: Metadata.Card, t: Template, o: Orders)
  {
    && IsKeyOrder(o.meta, card.metadata.Keys)
    && IsKeyOrder(o.tokens, t.styleTokens.Keys)
    && IsKeyOrder(o.optional, t.optional.Keys)
  }

  /** ... and of every map-valued metadata entry. */
  ghost predicate OrdersFit(card: Metadata.Card, t: Template, o: Orders)
  {
    && OuterOrdersFit(card, t, o)
    && (forall i :: 0 <= i < |o.meta| ==> FitsAt(card.metadata, o.inner, o.meta[i]))
  }

  /** The writes after the fixed fields and before the two directories. */
  ghost function LaterWrites(card: Metadata.Card, t: Template, fmt: Formatters, o: Orders): seq<Write>
    requires OrdersFit(card, t, o)
  {
    ArtworkWrites(card.metadata)
    + MetadataWrites(card.metadata, o.meta, o.inner, fmt)
    + TokenWrites(t.styleTokens, o.tokens)
    + OptionalWrites(t.optional, o.optional, fmt)
  }

  ghost function LegacyLaterWrites(card: Metadata.Card, t: Template, fmt: Formatters, o: Orders): seq<Write>
    requires OuterOrdersFit(card, t, o)
  {
    LegacyMetadataWrites(card.metadata, o.meta, fmt)
    + TokenWrites(t.styleTokens, o.tokens)
    + OptionalWrites(t.optional, o.optional, fmt)
  }

  /** The fixed fields, then `later`, then the template and icon directories. */
  function WithDirs(m: map<string, string>, templateDir: string): map<string, string>
  {
    m["template_dir" := templateDir]["icon_dir" := JoinPath(templateDir, "icons")]
  }

  ghost function Vars(card: Metadata.Card, t: Template, fmt: Formatters, o: Orders, split: (string, string)): map<string, string>
    requires OrdersFit(card, t, o)
  {
    WithDirs(Apply(FixedVars(card, split), LaterWrites(card, t, fmt, o)), t.templateDir)
  }

  ghost function LegacyVars(card: Metadata.Card, t: Template, fmt: Formatters, o: Orders, split: (string, string)): map<string, string>
    requires OuterOrdersFit(card, t, o)
  {
    WithDirs(Apply(FixedVars(card, split), LegacyLaterWrites(card, t, fmt, o)), t.templateDir)
  }

  // ---------------------------------------------------------------------------
  // Which write wins, phase by phase
  // ---------------------------------------------------------------------------

  /** The only '.' of `x + "." + y` for dot-free `x` and `y`. */
  lemma OnlyDot(x: string, y: string, i: int)
    requires '.' !in x && '.' !in y
    requires 0 <= i < |x + "." + y| && (x + "." + y)[i] == '.'
    ensures i == |x|
  {
    assert forall j :: 0 <= j < |x| ==> (x + "." + y)[j] == x[j];
    assert forall j :: |x| < j < |x + "." + y| ==> (x + "." + y)[j] == y[j - |x| - 1];
  }

  /** A dotted key `x + "." + y` starts with `section + "."` only for section `x`. */
  lemma PrefixOfDotted(x: string, y: string, section: string)
    requires '.' !in x && '.' !in y
    requires HasPrefix(x + "." + y, section + ".")
    ensures section == x
  {
    var k := x + "." + y;
    assert k[|section|] == (section + ".")[|section|] == '.';
    OnlyDot(x, y, |section|);
    assert k[..|x|] == x;
    assert (section + ".")[..|section|] == section;
  }

  /** A key starts with no prefix whose first character differs. */
  lemma FirstCharNoPrefix(k: string, p: string)
    requires |k| > 0 && |p| > 0 && k[0] != p[0]
    ensures !HasPrefix(k, p)
  {
    if |p| <= |k| {
      assert k[..|p|][0] == k[0];
    }
  }

  /** A dot-free key starts with no `section + "."`. */
  lemma NoDotNoPrefix(k: string, section: string)
    requires '.' !in k
    ensures !HasPrefix(k, section + ".")
  {
    if |section + "."| <= |k| {
      assert k[..|section| + 1][|section|] == k[|section|];
      assert (section + ".")[|section|] == '.';
    }
  }

  /** No key written under `section + "."` is `k` when `k` does not start so. */
  lemma NestedOther(section: string, entries: map<string, Value>, order: seq<string>, fmt: Formatters, k: string)
    requires forall i :: 0 <= i < |order| ==> order[i] in entries
    requires !HasPrefix(k, section + ".")
    ensures LastWriteOf(NestedWrites(section, entries, order, fmt), k) == None
  {
    if |order| > 0 {
      var key := order[|order| - 1];
      NestedOther(section, entries, order[..|order| - 1], fmt, k);
      assert (section + "." + key)[..|section + "."|] == section + ".";
      FormattedLast(section + "." + key, entries[key], fmt, k);
      LastWriteConcat(NestedWrites(section, entries, order[..|order| - 1], fmt),
        if section == "card" && key == "artwork" then [] else FormattedWrite(section + "." + key, entries[key], fmt), k);
    }
  }

  /** An inner key `y` of `section` is written from its own value, except the
      card's artwork. */
  lemma {:induction false} NestedOwn(section: string, entries: map<string, Value>, order: seq<string>, fmt: Formatters, y: string)
    requires forall i :: 0 <= i < |order| ==> order[i] in entries
    requires forall i, j :: 0 <= i < j < |order| ==> order[i] != order[j]
    ensures LastWriteOf(NestedWrites(section, entries, order, fmt), section + "." + y)
      == (if y in order && !(section == "card" && y == "artwork") then FormatValue(fmt, entries[y]) else None)
    decreases |order|
  {
    if |order| > 0 {
      var key := order[|order| - 1];
      var prefix := order[..|order| - 1];
      NestedOwn(section, entries, prefix, fmt, y);
      var own := if section == "card" && key == "artwork" then [] else FormattedWrite(section + "." + key, entries[key], fmt);
      LastWriteConcat(NestedWrites(section, entries, prefix, fmt), own, section + "." + y);
      FormattedLast(section + "." + key, entries[key], fmt, section + "." + y);
      if section + "." + key == section + "." + y {
        assert key == (section + "." + key)[|section| + 1..];
      }
      assert y in order <==> y in prefix || y == key;
      if y == key {
        assert y !in prefix;
      }
    }
  }

  /** A dot-free key is written by the metadata phase only by the entry of
      that key, and only when it is not a map. */
  lemma {:induction false} MetadataFlat(meta: map<string, Value>, order: seq<string>, inner: map<string, seq<string>>, fmt: Formatters, k: string)
    requires forall i :: 0 <= i < |order| ==> FitsAt(meta, inner, order[i])
    requires forall i, j :: 0 <= i < j < |order| ==> order[i] != order[j]
    requires '.' !in k
    ensures LastWriteOf(MetadataWrites(meta, order, inner, fmt), k)
      == (if k in order && !meta[k].VMap? then FormatValue(fmt, meta[k]) else None)
    decreases |order|
  {
    if |order| > 0 {
      var key := order[|order| - 1];
      var prefix := order[..|order| - 1];
      MetadataFlat(meta, prefix, inner, fmt, k);
      var v := meta[key];
      LastWriteConcat(MetadataWrites(meta, prefix, inner, fmt), EntryWrites(key, v, InnerOf(inner, key), fmt), k);
      if v.VMap? {
        NoDotNoPrefix(k, key);
        NestedOther(key, v.entries, InnerOf(inner, key), fmt, k);
      } else {
        FormattedLast(key, v, fmt, k);
      }
      assert k in order <==> k in prefix || k == key;
      if k == key {
        assert k !in prefix;
      }
    }
  }

  /** `x.y`, for dot-free `x` and `y` and no flat entry of that name, is
      written by the metadata phase only from entry `y` of map entry `x`,
      never from the card's artwork. */
  lemma {:induction false} MetadataDotted(meta: map<string, Value>, order: seq<string>, inner: map<string, seq<string>>, fmt: Formatters, x: string, y: string)
    requires forall i :: 0 <= i < |order| ==> FitsAt(meta, inner, order[i])
    requires forall i, j :: 0 <= i < j < |order| ==> order[i] != order[j]
    requires '.' !in x && '.' !in y && x + "." + y !in meta
    ensures LastWriteOf(MetadataWrites(meta, order, inner, fmt), x + "." + y)
      == (if x in order && meta[x].VMap? && y in meta[x].entries && !(x == "card" && y == "artwork")
          then FormatValue(fmt, meta[x].entries[y]) else None)
    decreases |order|
  {
    if |order| > 0 {
      var key := order[|order| - 1];
      var prefix := order[..|order| - 1];
      MetadataDotted(meta, prefix, inner, fmt, x, y);
      var v := meta[key];
      LastWriteConcat(MetadataWrites(meta, prefix, inner, fmt), EntryWrites(key, v, InnerOf(inner, key), fmt), x + "." + y);
      if v.VMap? {
        if key == x {
          NestedOwn(x, v.entries, inner[x], fmt, y);
        } else {
          if HasPrefix(x + "." + y, key + ".") {
            PrefixOfDotted(x, y, key);
          }
          NestedOther(key, v.entries, InnerOf(inner, key), fmt, x + "." + y);
        }
      } else {
        FormattedLast(key, v, fmt, x + "." + y);
      }
      assert x in order <==> x in prefix || x == key;
      if x == key {
        assert x !in prefix;
      }
    }
  }

  /** The older metadata phase writes a map entry whole under its key. */
  lemma {:induction false} LegacyOwn(meta: map<string, Value>, order: seq<string>, fmt: Formatters, k: string)
    requires forall i :: 0 <= i < |order| ==> order[i] in meta
    requires forall i, j :: 0 <= i < j < |order| ==> order[i] != order[j]
    ensures LastWriteOf(LegacyMetadataWrites(meta, order, fmt), k) == (if k in order then FormatValue(fmt, meta[k]) else None)
    decreases |order|
  {
    if |order| > 0 {
      var key := order[|order| - 1];
      var prefix := order[..|order| - 1];
      LegacyOwn(meta, prefix, fmt, k);
      LastWriteConcat(LegacyMetadataWrites(meta, prefix, fmt), FormattedWrite(key, meta[key], fmt), k);
      FormattedLast(key, meta[key], fmt, k);
      assert k in order <==> k in prefix || k == key;
      if k == key {
        assert k !in prefix;
      }
    }
  }

  /** Every token is written under its prefixed key. */
  lemma {:induction false} TokenOwn(tokens: map<string, string>, order: seq<string>, k: string)
    requires forall i :: 0 <= i < |order| ==> order[i] in tokens
    requires forall i, j :: 0 <= i < j < |order| ==> order[i] != order[j]
    ensures LastWriteOf(TokenWrites(tokens, order), TokenPrefix + k) == (if k in order then Some(tokens[k]) else None)
    decreases |order|
  {
    if |order| > 0 {
      var key := order[|order| - 1];
      var prefix := order[..|order| - 1];
      TokenOwn(tokens, prefix, k);
      LastWriteConcat(TokenWrites(tokens, prefix), [(TokenPrefix + key, tokens[key])], TokenPrefix + k);
      if TokenPrefix + key == TokenPrefix + k {
        assert key == (TokenPrefix + key)[|TokenPrefix|..];
      }
      assert k in order <==> k in prefix || k == key;
      if k == key {
        assert k !in prefix;
      }
    }
  }

  /** The token phase writes nothing outside "style_tokens.". */
  lemma {:induction false} TokenOther(tokens: map<string, string>, order: seq<string>, k: string)
    requires forall i :: 0 <= i < |order| ==> order[i] in tokens
    requires !HasPrefix(k, TokenPrefix)
    ensures LastWriteOf(TokenWrites(tokens, order), k) == None
    decreases |order|
  {
    if |order| > 0 {
      var key := order[|order| - 1];
      TokenOther(tokens, order[..|order| - 1], k);
      assert (TokenPrefix + key)[..|TokenPrefix|] == TokenPrefix;
      LastWriteConcat(TokenWrites(tokens, order[..|order| - 1]), [(TokenPrefix + key, tokens[key])], k);
    }
  }

  /** Every optional value is written under its own key. */
  lemma {:induction false} OptionalOwn(optional: map<string, Value>, order: seq<string>, fmt: Formatters, k: string)
    requires forall i :: 0 <= i < |order| ==> order[i] in optional
    requires forall i, j :: 0 <= i < j < |order| ==> order[i] != order[j]
    ensures LastWriteOf(OptionalWrites(optional, order, fmt), k) == (if k in order then FormatValue(fmt, optional[k]) else None)
    decreases |order|
  {
    if |order| > 0 {
      var key := order[|order| - 1];
      var prefix := order[..|order| - 1];
      OptionalOwn(optional, prefix, fmt, k);
      LastWriteConcat(OptionalWrites(optional, prefix, fmt), FormattedWrite(key, optional[key], fmt), k);
      FormattedLast(key, optional[key], fmt, k);
      assert k in order <==> k in prefix || k == key;
      if k == key {
        assert k !in prefix;
      }
    }
  }

  // ---------------------------------------------------------------------------
  // The finished map
  // ---------------------------------------------------------------------------

  /** The value of a key other than the two directories: the last later write
      to it, else the fixed field. */
  lemma VarsLookup(card: Metadata.Card, t: Template, fmt: Formatters, o: Orders, split: (string, string), k: string)
    requires OrdersFit(card, t, o)
    requires k != "template_dir" && k != "icon_dir"
    ensures var last := LastWriteOf(LaterWrites(card, t, fmt, o), k);
      && (k in Vars(card, t, fmt, o, split) <==> last.Some? || k in FixedVars(card, split))
      && (k in Vars(card, t, fmt, o, split) ==>
           Vars(card, t, fmt, o, split)[k] == if last.Some? then last.value else FixedVars(card, split)[k])
  {
    AssembledLookup(FixedVars(card, split), LaterWrites(card, t, fmt, o), t.templateDir, k);
  }

  lemma AssembledLookup(fixed: map<string, string>, later: seq<Write>, templateDir: string, k: string)
    requires k != "template_dir" && k != "icon_dir"
    ensures k in WithDirs(Apply(fixed, later), templateDir) <==> LastWriteOf(later, k).Some? || k in fixed
    ensures k in WithDirs(Apply(fixed, later), templateDir) ==>
      WithDirs(Apply(fixed, later), templateDir)[k]
        == if LastWriteOf(later, k).Some? then LastWriteOf(later, k).value else fixed[k]
  {
    ApplyLookup(fixed, later, k);
  }

  /** The last later write to `k`, phase by phase. */
  lemma LaterLast(card: Metadata.Card, t: Template, fmt: Formatters, o: Orders, k: string)
    requires OrdersFit(card, t, o)
    ensures var art := LastWriteOf(ArtworkWrites(card.metadata), k);
      var md := LastWriteOf(MetadataWrites(card.metadata, o.meta, o.inner, fmt), k);
      var tok := LastWriteOf(TokenWrites(t.styleTokens, o.tokens), k);
      var opt := LastWriteOf(OptionalWrites(t.optional, o.optional, fmt), k);
      LastWriteOf(LaterWrites(card, t, fmt, o), k)
        == if opt.Some? then opt else if tok.Some? then tok else if md.Some? then md else art
  {
    var a := ArtworkWrites(card.metadata);
    var m := MetadataWrites(card.metadata, o.meta, o.inner, fmt);
    var tk := TokenWrites(t.styleTokens, o.tokens);
    var op := OptionalWrites(t.optional, o.optional, fmt);
    LastWriteConcat(a, m, k);
    LastWriteConcat(a + m, tk, k);
    LastWriteConcat(a + m + tk, op, k);
  }

  /** The template directory and its icons directory are always set, last. */
  lemma DirsSet(card: Metadata.Card, t: Template, fmt: Formatters, o: Orders, split: (string, string))
    requires OrdersFit(card, t, o)
    ensures Vars(card, t, fmt, o, split)["template_dir"] == t.templateDir
    ensures Vars(card, t, fmt, o, split)["icon_dir"] == JoinPath(t.templateDir, "icons")
    ensures LegacyVars(card, t, fmt, o, split)["template_dir"] == t.templateDir
    ensures LegacyVars(card, t, fmt, o, split)["icon_dir"] == JoinPath(t.templateDir, "icons")
  {
  }

  /** An optional template value wins over everything but the directories. */
  lemma OptionalWins(card: Metadata.Card, t: Template, fmt: Formatters, o: Orders, split: (string, string), k: string)
    requires OrdersFit(card, t, o)
    requires k != "template_dir" && k != "icon_dir"
    requires k in t.optional && !t.optional[k].VNull?
    ensures k in Vars(card, t, fmt, o, split) && Some(Vars(card, t, fmt, o, split)[k]) == FormatValue(fmt, t.optional[k])
  {
    OptionalOwn(t.optional, o.optional, fmt, k);
    LaterLast(card, t, fmt, o, k);
    VarsLookup(card, t, fmt, o, split, k);
  }

  /** Every style token is stored under "style_tokens." unless an optional
      value of that name replaces it. */
  lemma TokenStored(card: Metadata.Card, t: Template, fmt: Formatters, o: Orders, split: (string, string), k: string)
    requires OrdersFit(card, t, o)
    requires k in t.styleTokens && TokenPrefix + k !in t.optional
    ensures TokenPrefix + k in Vars(card, t, fmt, o, split)
    ensures Vars(card, t, fmt, o, split)[TokenPrefix + k] == t.styleTokens[k]
  {
    var key := TokenPrefix + k;
    assert key[..|TokenPrefix|] == TokenPrefix;
    assert key != "template_dir" && key != "icon_dir" by {
      assert key[0] == 's';
    }
    OptionalOwn(t.optional, o.optional, fmt, key);
    TokenOwn(t.styleTokens, o.tokens, k);
    LaterLast(card, t, fmt, o, key);
    VarsLookup(card, t, fmt, o, split, key);
  }

  /** `x.y` of a map entry `x` is stored, flattened one level: it replaces
      the typed card field of that name (for `x` = "card") and is replaced
      only by an optional value. The card's artwork is never copied this way. */
  lemma NestedStored(card: Metadata.Card, t: Template, fmt: Formatters, o: Orders, split: (string, string), x: string, y: string)
    requires OrdersFit(card, t, o)
    requires '.' !in x && '.' !in y && x + "." + y !in card.metadata && x + "." + y !in t.optional
    requires x != "style_tokens"
    requires Nested(card.metadata, x, y).Some? && !Nested(card.metadata, x, y).value.VNull?
    requires !(x == "card" && y == "artwork")
    ensures x + "." + y in Vars(card, t, fmt, o, split)
    ensures Some(Vars(card, t, fmt, o, split)[x + "." + y]) == FormatValue(fmt, Nested(card.metadata, x, y).value)
  {
    var key := x + "." + y;
    assert key[|x|] == '.';
    assert key != "template_dir" && key != "icon_dir" by {
      assert '.' !in "template_dir" && '.' !in "icon_dir";
    }
    if HasPrefix(key, TokenPrefix) {
      PrefixOfDotted(x, y, "style_tokens");
    }
    TokenOther(t.styleTokens, o.tokens, key);
    OptionalOwn(t.optional, o.optional, fmt, key);
    MetadataDotted(card.metadata, o.meta, o.inner, fmt, x, y);
    LaterLast(card, t, fmt, o, key);
    VarsLookup(card, t, fmt, o, split, key);
  }

  /** A flat, dot-free metadata entry is stored under its key; nil stores
      nothing and a map stores nothing under its own key. */
  lemma FlatStored(card: Metadata.Card, t: Template, fmt: Formatters, o: Orders, split: (string, string), k: string)
    requires OrdersFit(card, t, o)
    requires '.' !in k && k in card.metadata && k !in t.optional
    requires k != "template_dir" && k != "icon_dir"
    ensures card.metadata[k].VNull? || card.metadata[k].VMap? ==> k !in Vars(card, t, fmt, o, split)
    ensures !card.metadata[k].VNull? && !card.metadata[k].VMap? ==>
      k in Vars(card, t, fmt, o, split) && Some(Vars(card, t, fmt, o, split)[k]) == FormatValue(fmt, card.metadata[k])
  {
    NoDotNoPrefix(k, "style_tokens");
    assert "style_tokens" + "." == TokenPrefix;
    ArtworkOther(card.metadata, k);
    MetadataFlat(card.metadata, o.meta, o.inner, fmt, k);
    TokenOther(t.styleTokens, o.tokens, k);
    OptionalOwn(t.optional, o.optional, fmt, k);
    LaterLast(card, t, fmt, o, k);
    FixedKeysDotted(card, split, k);
    VarsLookup(card, t, fmt, o, split, k);
  }

  /** The body and footer separated from the rules text (or body) are
      stored, the flavor text standing in for an empty footer, unless
      metadata or an optional value names them. */
  lemma BodyAndFooterStored(card: Metadata.Card, t: Template, fmt: Formatters, o: Orders, split: (string, string))
    requires OrdersFit(card, t, o)
    requires "card.body" !in card.metadata && "card.footer" !in card.metadata
    requires "card.body" !in t.optional && "card.footer" !in t.optional
    requires Nested(card.metadata, "card", "body").None? && Nested(card.metadata, "card", "footer").None?
    ensures "card.body" in Vars(card, t, fmt, o, split) && Vars(card, t, fmt, o, split)["card.body"] == split.0
    ensures "card.footer" in Vars(card, t, fmt, o, split)
    ensures Vars(card, t, fmt, o, split)["card.footer"]
      == if card.flavorText != "" && split.1 == "" then card.flavorText else split.1
  {
    assert "card" + "." + "body" == "card.body";
    assert "card" + "." + "footer" == "card.footer";
    StoredFromFixed(card, t, fmt, o, split, "card.body", "body");
    StoredFromFixed(card, t, fmt, o, split, "card.footer", "footer");
  }

  /** A typed card field nothing later names keeps its typed value. */
  lemma StoredFromFixed(card: Metadata.Card, t: Template, fmt: Formatters, o: Orders, split: (string, string), key: string, y: string)
    requires OrdersFit(card, t, o)
    requires key == "card" + "." + y && '.' !in y && key in FixedVars(card, split)
    requires key !in card.metadata && key !in t.optional
    requires Nested(card.metadata, "card", y).None?
    requires key != "card.artwork" && key != "card.artwork.fit"
    ensures key in Vars(card, t, fmt, o, split)
    ensures Vars(card, t, fmt, o, split)[key] == FixedVars(card, split)[key]
  {
    FirstCharNoPrefix(key, TokenPrefix);
    assert key != "template_dir" && key != "icon_dir" by {
      assert key[0] == 'c';
    }
    ArtworkOther(card.metadata, key);
    MetadataDotted(card.metadata, o.meta, o.inner, fmt, "card", y);
    TokenOther(t.styleTokens, o.tokens, key);
    OptionalOwn(t.optional, o.optional, fmt, key);
    LaterLast(card, t, fmt, o, key);
    VarsLookup(card, t, fmt, o, split, key);
  }

  /** A string artwork, or the url of a map artwork, is stored as
      "card.artwork" unless a flat entry or optional value of that name
      replaces it. */
  lemma ArtworkStored(card: Metadata.Card, t: Template, fmt: Formatters, o: Orders, split: (string, string))
    requires OrdersFit(card, t, o)
    requires "card.artwork" !in card.metadata && "card.artwork" !in t.optional
    ensures var art := Nested(card.metadata, "card", "artwork");
      art.Some? && art.value.VString? ==>
        "card.artwork" in Vars(card, t, fmt, o, split) && Vars(card, t, fmt, o, split)["card.artwork"] == art.value.s
    ensures var art := Nested(card.metadata, "card", "artwork");
      art.Some? && art.value.VMap? && "url" in art.value.entries && art.value.entries["url"].VString? ==>
        "card.artwork" in Vars(card, t, fmt, o, split) && Vars(card, t, fmt, o, split)["card.artwork"] == art.value.entries["url"].s
  {
    var key := "card.artwork";
    assert "card" + "." + "artwork" == key;
    FirstCharNoPrefix(key, TokenPrefix);
    ArtworkValues(card.metadata);
    MetadataDotted(card.metadata, o.meta, o.inner, fmt, "card", "artwork");
    TokenOther(t.styleTokens, o.tokens, key);
    OptionalOwn(t.optional, o.optional, fmt, key);
    LaterLast(card, t, fmt, o, key);
    VarsLookup(card, t, fmt, o, split, key);
  }

  /** The older build stores a map entry whole, in its generic form, and
      never flattens it. */
  lemma LegacyMapStored(card: Metadata.Card, t: Template, fmt: Formatters, o: Orders, split: (string, string), k: string)
    requires OuterOrdersFit(card, t, o)
    requires k in card.metadata && card.metadata[k].VMap? && k !in t.optional
    requires k != "template_dir" && k != "icon_dir" && !HasPrefix(k, TokenPrefix)
    ensures k in LegacyVars(card, t, fmt, o, split)
    ensures LegacyVars(card, t, fmt, o, split)[k] == fmt.generic(card.metadata[k])
  {
    LegacyOwn(card.metadata, o.meta, fmt, k);
    TokenOther(t.styleTokens, o.tokens, k);
    OptionalOwn(t.optional, o.optional, fmt, k);
    LegacyLaterLast(card, t, fmt, o, k);
    AssembledLookup(FixedVars(card, split), LegacyLaterWrites(card, t, fmt, o), t.templateDir, k);
  }

  /** The last later write to `k` in the older builder, phase by phase. */
  lemma LegacyLaterLast(card: Metadata.Card, t: Template, fmt: Formatters, o: Orders, k: string)
    requires OuterOrdersFit(card, t, o)
    ensures var md := LastWriteOf(LegacyMetadataWrites(card.metadata, o.meta, fmt), k);
      var tok := LastWriteOf(TokenWrites(t.styleTokens, o.tokens), k);
      var opt := LastWriteOf(OptionalWrites(t.optional, o.optional, fmt), k);
      LastWriteOf(LegacyLaterWrites(card, t, fmt, o), k)
        == if opt.Some? then opt else if tok.Some? then tok else md
  {
    var m := LegacyMetadataWrites(card.metadata, o.meta, fmt);
    var tk := TokenWrites(t.styleTokens, o.tokens);
    var op := OptionalWrites(t.optional, o.optional, fmt);
    LastWriteConcat(m, tk, k);
    LastWriteConcat(m + tk, op, k);
  }

  // ---------------------------------------------------------------------------
  // Building the map
  // ---------------------------------------------------------------------------

  method WriteArtwork(vars0: map<string, string>, meta: map<string, Value>) returns (vars: map<string, string>)
    ensures vars == Apply(vars0, ArtworkWrites(meta))
  {
    vars := vars0;
    if "card" in meta && meta["card"].VMap? {
      var cardMap := meta["card"].entries;
      if "artwork" in cardMap {
        var artwork := cardMap["artwork"];
        if artwork.VString? {
          vars := vars["card.artwork" := artwork.s];
        } else if artwork.VMap? {
          ghost var url := StringFieldWrite("card.artwork", artwork.entries, "url");
          ghost var fit := StringFieldWrite("card.artwork.fit", artwork.entries, "fit");
          if "url" in artwork.entries && artwork.entries["url"].VString? {
            vars := vars["card.artwork" := artwork.entries["url"].s];
          }
          assert vars == Apply(vars0, url);
          if "fit" in artwork.entries && artwork.entries["fit"].VString? {
            vars := vars["card.artwork.fit" := artwork.entries["fit"].s];
          }
          assert vars == Apply(Apply(vars0, url), fit);
          ApplyConcat(vars0, url, fit);
        }
      }
    }
  }

  /** Stores one value unless it is nil. */
  method WriteValue(vars0: map<string, string>, key: string, v: Value, fmt: Formatters) returns (vars: map<string, string>)
    ensures vars == Apply(vars0, FormattedWrite(key, v, fmt))
  {
    vars := vars0;
    match v {
      case VNull =>
      case VString(s) => vars := vars[key := s];
      case VInt(i) => vars := vars[key := Itoa(i)];
      case VFloat(f) => vars := vars[key := fmt.float(f)];
      case VBool(b) => vars := vars[key := if b then "true" else "false"];
      case _ => vars := vars[key := fmt.generic(v)];
    }
  }

  method WriteNested(vars0: map<string, string>, section: string, entries: map<string, Value>, fmt: Formatters)
    returns (vars: map<string, string>, ghost order: seq<string>)
    ensures IsKeyOrder(order, entries.Keys)
    ensures vars == Apply(vars0, NestedWrites(section, entries, order, fmt))
  {
    vars := vars0;
    order := [];
    var remaining := entries.Keys;
    while remaining != {}
      invariant Walking(order, remaining, entries.Keys)
      invariant vars == Apply(vars0, NestedWrites(section, entries, order, fmt))
      decreases |remaining|
    {
      var nestedKey :| nestedKey in remaining;
      WalkStep(order, remaining, entries.Keys, nestedKey);
      ghost var before := NestedWrites(section, entries, order, fmt);
      if !(section == "card" && nestedKey == "artwork") {
        vars := WriteValue(vars, section + "." + nestedKey, entries[nestedKey], fmt);
      }
      ApplyConcat(vars0, before,
        if section == "card" && nestedKey == "artwork" then [] else FormattedWrite(section + "." + nestedKey, entries[nestedKey], fmt));
      NestedSnoc(section, entries, order, fmt, nestedKey);
      order := order + [nestedKey];
      remaining := remaining - {nestedKey};
    }
    WalkEnd(order, entries.Keys);
  }

  /** One metadata entry: a map flattened one level, any other value stored
      under its key. */
  method WriteEntry(vars0: map<string, string>, key: string, value: Value, fmt: Formatters)
    returns (vars: map<string, string>, ghost innerOrder: seq<string>)
    ensures value.VMap? ==> IsKeyOrder(innerOrder, value.entries.Keys)
    ensures !value.VMap? ==> innerOrder == []
    ensures vars == Apply(vars0, EntryWrites(key, value, innerOrder, fmt))
  {
    innerOrder := [];
    if value.VMap? {
      vars, innerOrder := WriteNested(vars0, key, value.entries, fmt);
    } else {
      vars := WriteValue(vars0, key, value, fmt);
    }
  }

  method WriteMetadata(vars0: map<string, string>, meta: map<string, Value>, fmt: Formatters)
    returns (vars: map<string, string>, ghost order: seq<string>, ghost inner: map<string, seq<string>>)
    ensures IsKeyOrder(order, meta.Keys)
    ensures forall i :: 0 <= i < |order| ==> FitsAt(meta, inner, order[i])
    ensures vars == Apply(vars0, MetadataWrites(meta, order, inner, fmt))
  {
    vars := vars0;
    order := [];
    inner := map[];
    var remaining := meta.Keys;
    while remaining != {}
      invariant Walking(order, remaining, meta.Keys)
      invariant forall i :: 0 <= i < |order| ==> FitsAt(meta, inner, order[i])
      invariant vars == Apply(vars0, MetadataWrites(meta, order, inner, fmt))
      decreases |remaining|
    {
      var key :| key in remaining;
      WalkStep(order, remaining, meta.Keys, key);
      ghost var before := MetadataWrites(meta, order, inner, fmt);
      ghost var innerOrder;
      vars, innerOrder := WriteEntry(vars, key, meta[key], fmt);
      MetadataSnoc(meta, order, inner, fmt, key, innerOrder);
      ApplyConcat(vars0, before, EntryWrites(key, meta[key], innerOrder, fmt));
      inner := inner[key := innerOrder];
      order := order + [key];
      remaining := remaining - {key};
    }
    WalkEnd(order, meta.Keys);
  }

  method WriteLegacyMetadata(vars0: map<string, string>, meta: map<string, Value>, fmt: Formatters)
    returns (vars: map<string, string>, ghost order: seq<string>)
    ensures IsKeyOrder(order, meta.Keys)
    ensures vars == Apply(vars0, LegacyMetadataWrites(meta, order, fmt))
  {
    vars := vars0;
    order := [];
    var remaining := meta.Keys;
    while remaining != {}
      invariant Walking(order, remaining, meta.Keys)
      invariant vars == Apply(vars0, LegacyMetadataWrites(meta, order, fmt))
      decreases |remaining|
    {
      var key :| key in remaining;
      WalkStep(order, remaining, meta.Keys, key);
      ghost var before := LegacyMetadataWrites(meta, order, fmt);
      vars := WriteValue(vars, key, meta[key], fmt);
      ApplyConcat(vars0, before, FormattedWrite(key, meta[key], fmt));
      LegacyMetadataSnoc(meta, order, fmt, key);
      order := order + [key];
      remaining := remaining - {key};
    }
    WalkEnd(order, meta.Keys);
  }

  method WriteTokens(vars0: map<string, string>, tokens: map<string, string>)
    returns (vars: map<string, string>, ghost order: seq<string>)
    ensures IsKeyOrder(order, tokens.Keys)
    ensures vars == Apply(vars0, TokenWrites(tokens, order))
  {
    vars := vars0;
    order := [];
    var remaining := tokens.Keys;
    while remaining != {}
      invariant Walking(order, remaining, tokens.Keys)
      invariant vars == Apply(vars0, TokenWrites(tokens, order))
      decreases |remaining|
    {
      var key :| key in remaining;
      WalkStep(order, remaining, tokens.Keys, key);
      ghost var before := TokenWrites(tokens, order);
      vars := vars[TokenPrefix + key := tokens[key]];
      ApplyConcat(vars0, before, [(TokenPrefix + key, tokens[key])]);
      TokenSnoc(tokens, order, key);
      order := order + [key];
      remaining := remaining - {key};
    }
    WalkEnd(order, tokens.Keys);
  }

  method WriteOptional(vars0: map<string, string>, optional: map<string, Value>, fmt: Formatters)
    returns (vars: map<string, string>, ghost order: seq<string>)
    ensures IsKeyOrder(order, optional.Keys)
    ensures vars == Apply(vars0, OptionalWrites(optional, order, fmt))
  {
    vars := vars0;
    order := [];
    var remaining := optional.Keys;
    while remaining != {}
      invariant Walking(order, remaining, optional.Keys)
      invariant vars == Apply(vars0, OptionalWrites(optional, order, fmt))
      decreases |remaining|
    {
      var key :| key in remaining;
      WalkStep(order, remaining, optional.Keys, key);
      ghost var before := OptionalWrites(optional, order, fmt);
      vars := WriteValue(vars, key, optional[key], fmt);
      ApplyConcat(vars0, before, FormattedWrite(key, optional[key], fmt));
      OptionalSnoc(optional, order, fmt, key);
      order := order + [key];
      remaining := remaining - {key};
    }
    WalkEnd(order, optional.Keys);
  }

  /** The twelve typed card fields, from the body source with its footer
      separated and the flavor text standing in for an empty footer. */
  method WriteCardFields(card: Metadata.Card) returns (vars: map<string, string>, ghost split: (string, string))
    ensures split == FooterSplit(BodySource(card))
    ensures vars == FixedVars(card, split)
  {
    var body := card.rulesText;
    if body == "" {
      body := card.body;
    }
    var bodyContent, footer := SeparateFooter(body);
    split := (bodyContent, footer);
    if card.flavorText != "" && footer == "" {
      footer := card.flavorText;
    }
    vars := map[];
    vars := vars["card.title" := card.title];
    vars := vars["card.type" := card.cardType];
    vars := vars["card.rarity" := card.rarity];
    vars := vars["card.set" := card.cardSet];
    vars := vars["card.artist" := card.artist];
    vars := vars["card.body" := bodyContent];
    vars := vars["card.footer" := footer];
    vars := vars["card.rules_text" := card.rulesText];
    vars := vars["card.flavor_text" := card.flavorText];
    vars := vars["card.mana_cost" := card.manaCost];
    vars := vars["card.print_this" := Itoa(card.printThis)];
    vars := vars["card.print_total" := Itoa(card.printTotal)];
  }

  /** The artwork, metadata, style-token and optional-value phases. */
  method WriteLater(vars0: map<string, string>, card: Metadata.Card, t: Template, fmt: Formatters)
    returns (vars: map<string, string>, ghost o: Orders)
    ensures OrdersFit(card, t, o)
    ensures vars == Apply(vars0, LaterWrites(card, t, fmt, o))
  {
    vars := WriteArtwork(vars0, card.metadata);
    ghost var metaOrder, inner, tokenOrder, optionalOrder;
    vars, metaOrder, inner := WriteMetadata(vars, card.metadata, fmt);
    vars, tokenOrder := WriteTokens(vars, t.styleTokens);
    vars, optionalOrder := WriteOptional(vars, t.optional, fmt);
    o := Orders(metaOrder, inner, tokenOrder, optionalOrder);
    ApplyConcat4(vars0, ArtworkWrites(card.metadata), MetadataWrites(card.metadata, metaOrder, inner, fmt),
      TokenWrites(t.styleTokens, tokenOrder), OptionalWrites(t.optional, optionalOrder, fmt));
  }

  /** The variables of a card under a template: the typed fields, the
      artwork, the metadata flattened one level, the style tokens, the
      optional values and the two directories, in that order. */
  method BuildTemplateVariables(card: Metadata.Card, t: Template, fmt: Formatters)
    returns (vars: map<string, string>, ghost o: Orders, ghost split: (string, string))
    ensures OrdersFit(card, t, o)
    ensures split == FooterSplit(BodySource(card))
    ensures vars == Vars(card, t, fmt, o, split)
    ensures "template_dir" in vars && vars["template_dir"] == t.templateDir
    ensures "icon_dir" in vars && vars["icon_dir"] == JoinPath(t.templateDir, "icons")
    ensures forall k :: k in t.optional && !t.optional[k].VNull? && k != "template_dir" && k != "icon_dir" ==>
      k in vars && Some(vars[k]) == FormatValue(fmt, t.optional[k])
    ensures forall k :: k in t.styleTokens && TokenPrefix + k !in t.optional ==>
      TokenPrefix + k in vars && vars[TokenPrefix + k] == t.styleTokens[k]
  {
    vars, split := WriteCardFields(card);
    vars, o := WriteLater(vars, card, t, fmt);
    vars := vars["template_dir" := t.templateDir];
    vars := vars["icon_dir" := JoinPath(t.templateDir, "icons")];
    forall k | k in t.optional && !t.optional[k].VNull? && k != "template_dir" && k != "icon_dir"
      ensures k in vars && Some(vars[k]) == FormatValue(fmt, t.optional[k])
    {
      OptionalWins(card, t, fmt, o, split, k);
    }
    forall k | k in t.styleTokens && TokenPrefix + k !in t.optional
      ensures TokenPrefix + k in vars && vars[TokenPrefix + k] == t.styleTokens[k]
    {
      TokenStored(card, t, fmt, o, split, k);
    }
  }

  /** The older renderer's metadata, style-token and optional-value phases. */
  method WriteLegacyLater(vars0: map<string, string>, card: Metadata.Card, t: Template, fmt: Formatters)
    returns (vars: map<string, string>, ghost o: Orders)
    ensures OuterOrdersFit(card, t, o)
    ensures vars == Apply(vars0, LegacyLaterWrites(card, t, fmt, o))
  {
    ghost var metaOrder, tokenOrder, optionalOrder;
    vars, metaOrder := WriteLegacyMetadata(vars0, card.metadata, fmt);
    vars, tokenOrder := WriteTokens(vars, t.styleTokens);
    vars, optionalOrder := WriteOptional(vars, t.optional, fmt);
    o := Orders(metaOrder, map[], tokenOrder, optionalOrder);
    ApplyConcat3(vars0, LegacyMetadataWrites(card.metadata, metaOrder, fmt),
      TokenWrites(t.styleTokens, tokenOrder), OptionalWrites(t.optional, optionalOrder, fmt));
  }

  /** The variables as the older renderer builds them: no artwork phase and
      no flattening of map-valued metadata. */
  method BuildLegacyVariables(card: Metadata.Card, t: Template, fmt: Formatters)
    returns (vars: map<string, string>, ghost o: Orders, ghost split: (string, string))
    ensures OuterOrdersFit(card, t, o)
    ensures split == FooterSplit(BodySource(card))
    ensures vars == LegacyVars(card, t, fmt, o, split)
    ensures "template_dir" in vars && vars["template_dir"] == t.templateDir
    ensures "icon_dir" in vars && vars["icon_dir"] == JoinPath(t.templateDir, "icons")
  {
    vars, split := WriteCardFields(card);
    vars, o := WriteLegacyLater(vars, card, t, fmt);
    vars := vars["template_dir" := t.templateDir];
    vars := vars["icon_dir" := JoinPath(t.templateDir, "icons")];
  }

  // ---------------------------------------------------------------------------
  // Icons
  // ---------------------------------------------------------------------------

  /** The text an icon placeholder becomes: the icon's key in brackets. */
  function IconText(key: string): string
  {
    "[" + key + "]"
  }

  function IconPairs(order: seq<string>): (pairs: seq<(string, string)>)
    ensures |pairs| == |order|
    ensures forall i :: 0 <= i < |order| ==> pairs[i] == (order[i], IconText(order[i]))
  {
    seq(|order|, i requires 0 <= i < |order| => (order[i], IconText(order[i])))
  }

  /** Every `{{key}}` of an icon key replaced by "[key]", one icon at a time;
      the icon's file is not used. */
  method ProcessIconReplacements(content: string, icons: map<string, string>)
    returns (result: string, ghost order: seq<string>)
    ensures IsKeyOrder(order, icons.Keys)
    ensures result == ReplaceKeys(content, IconPairs(order))
    ensures PlaceholderFree(content, icons.Keys) ==> result == content
  {
    result := content;
    order := [];
    var remaining := icons.Keys;
    while remaining != {}
      invariant Walking(order, remaining, icons.Keys)
      invariant result == ReplaceKeys(content, IconPairs(order))
      decreases |remaining|
    {
      var iconKey :| iconKey in remaining;
      WalkStep(order, remaining, icons.Keys, iconKey);
      var placeholder := "{{" + iconKey + "}}";
      var replacement := "[" + iconKey + "]";
      result := ReplaceAll(result, placeholder, replacement);
      assert IconPairs(order + [iconKey]) == IconPairs(order) + [(iconKey, IconText(iconKey))];
      ReplaceKeysSnoc(content, IconPairs(order), (iconKey, IconText(iconKey)));
      order := order + [iconKey];
      remaining := remaining - {iconKey};
    }
    WalkEnd(order, icons.Keys);
    if PlaceholderFree(content, icons.Keys) {
      IconsAbsent(content, icons, order);
    }
  }

  /** Text holding no icon placeholder comes back unchanged. */
  lemma IconsAbsent(content: string, icons: map<string, string>, order: seq<string>)
    requires IsKeyOrder(order, icons.Keys)
    requires PlaceholderFree(content, icons.Keys)
    ensures ReplaceKeys(content, IconPairs(order)) == content
  {
    ReplaceKeysAbsent(content, IconPairs(order));
  }

  /** With one icon, every occurrence of its placeholder becomes its
      bracketed key. */
  lemma SingleIcon(content: string, key: string, file: string, order: seq<string>)
    requires IsKeyOrder(order, map[key := file].Keys)
    ensures ReplaceKeys(content, IconPairs(order)) == Join(Split(content, Placeholder(key)), IconText(key))
  {
    assert order == [key];
    ReplaceKeysSnoc(content, [], (key, IconText(key)));
    assert IconPairs(order) == [] + [(key, IconText(key))];
    ReplaceAllIsJoinSplit(content, Placeholder(key), IconText(key));
  }
}
