/** Card templates (internal/templates/template.go): the template and layer
    records, the `extends` merge, layer overrides and card validation. */
module Templates {

  import opened Wrappers
  import opened StringUtil
  import opened Values
  import Metadata

  // ---------------------------------------------------------------------------
  // Data model
  // ---------------------------------------------------------------------------

  datatype Dimensions = Dimensions(width: int, height: int, dpi: int)

  datatype Region = Region(x: int, y: int, width: int, height: int)

  /** A font; `size` is a number or a `{{...}}` string in the template file. */
  datatype Font = Font(family: string, size: Value, weight: string, style: string, color: string)

  datatype Layer = Layer(
    name: string,
    role: string,
    layerType: string,
    source: string,
    content: string,
    region: Region,
    font: Option<Font>,
    fitMode: string,
    iconReplace: bool,
    stripHeaders: bool,
    condition: string,
    align: string,
    fallback: string)

  /** Changes to the base layer called `layer`. */
  datatype LayerOverride = LayerOverride(layer: string, updates: map<string, Value>)

  datatype Condition = Condition(ifExpr: string, includePath: string)

  datatype Template = Template(
    name: string,
    tcg: string,
    version: string,
    description: string,
    extendsPath: string,
    dimensions: Dimensions,
    layers: seq<Layer>,
    required: seq<string>,
    optional: map<string, Value>,
    icons: map<string, string>,
    styleTokens: map<string, string>,
    overrides: seq<LayerOverride>,
    addLayers: seq<Layer>,
    conditions: seq<Condition>,
    templateDir: string,
    baseTemplate: Option<Template>)

  // ---------------------------------------------------------------------------
  // Layer overrides
  // ---------------------------------------------------------------------------

  /** The string stored under `key`, or `current` when there is none. */
  function StringUpdate(updates: map<string, Value>, key: string, current: string): string
  {
    if key in updates && updates[key].VString? then updates[key].s else current
  }

  /** The layer after an override: source, content, condition and fit mode take
      the string given for them; every other field is kept. */
  function Overridden(layer: Layer, updates: map<string, Value>): (r: Layer)
    ensures r.source == StringUpdate(updates, "source", layer.source)
    ensures r.content == StringUpdate(updates, "content", layer.content)
    ensures r.condition == StringUpdate(updates, "condition", layer.condition)
    ensures r.fitMode == StringUpdate(updates, "fit_mode", layer.fitMode)
    ensures r == layer.(source := r.source, content := r.content, condition := r.condition, fitMode := r.fitMode)
  {
    layer.(source := StringUpdate(updates, "source", layer.source),
           content := StringUpdate(updates, "content", layer.content),
           condition := StringUpdate(updates, "condition", layer.condition),
           fitMode := StringUpdate(updates, "fit_mode", layer.fitMode))
  }

  /** The four overridable fields after the keys not in `remaining` were seen. */
  function PartlyOverridden(layer: Layer, updates: map<string, Value>, remaining: set<string>): Layer
  {
    var seen := map k | k in updates && k !in remaining :: updates[k];
    Overridden(layer, seen)
  }

  method ApplyLayerOverride(layer: Layer, over: LayerOverride) returns (modified: Layer)
    ensures modified == Overridden(layer, over.updates)
  {
    modified := layer;
    var remaining := over.updates.Keys;
    assert PartlyOverridden(layer, over.updates, remaining) == layer;
    while remaining != {}
      invariant remaining <= over.updates.Keys
      invariant modified == PartlyOverridden(layer, over.updates, remaining)
      decreases remaining
    {
      var key :| key in remaining;
      var value := over.updates[key];
      if key == "source" {
        if value.VString? {
          modified := modified.(source := value.s);
        }
      } else if key == "content" {
        if value.VString? {
          modified := modified.(content := value.s);
        }
      } else if key == "condition" {
        if value.VString? {
          modified := modified.(condition := value.s);
        }
      } else if key == "fit_mode" {
        if value.VString? {
          modified := modified.(fitMode := value.s);
        }
      }
      remaining := remaining - {key};
    }
    assert (map k | k in over.updates && k !in remaining :: over.updates[k]) == over.updates;
  }

  /** Applying the same override twice is the same as applying it once. */
  lemma OverrideIdempotent(layer: Layer, updates: map<string, Value>)
    ensures Overridden(Overridden(layer, updates), updates) == Overridden(layer, updates)
  {
  }

  /** Updates that give no string for the four fields leave the layer as it is. */
  lemma OverrideNeedsStrings(layer: Layer, updates: map<string, Value>)
    requires forall k :: k in updates && k in {"source", "content", "condition", "fit_mode"} ==> !updates[k].VString?
    ensures Overridden(layer, updates) == layer
  {
    assert !("source" in updates && updates["source"].VString?);
    assert !("content" in updates && updates["content"].VString?);
    assert !("condition" in updates && updates["condition"].VString?);
    assert !("fit_mode" in updates && updates["fit_mode"].VString?);
  }

  // ---------------------------------------------------------------------------
  // Merging maps and the required list
  // ---------------------------------------------------------------------------

  /** A map of the extending template completed by the base's: extending keys
      keep their value, base-only keys take the base value, no other key. */
  function WithDefaults<V>(ext: map<string, V>, base: map<string, V>): (r: map<string, V>)
    ensures r.Keys == ext.Keys + base.Keys
    ensures forall k :: k in ext ==> r[k] == ext[k]
    ensures forall k :: k in base && k !in ext ==> r[k] == base[k]
  {
    map k | k in ext.Keys + base.Keys :: if k in ext then ext[k] else base[k]
  }

  /** Fills the base's keys into a copy of the extending map, one key at a time
      in the base map's iteration order. */
  method MergeDefaults<V>(ext: map<string, V>, base: map<string, V>) returns (r: map<string, V>)
    ensures r == WithDefaults(ext, base)
  {
    r := ext;
    var remaining := base.Keys;
    while remaining != {}
      invariant remaining <= base.Keys
      invariant r.Keys == ext.Keys + (base.Keys - remaining)
      invariant forall k :: k in ext ==> r[k] == ext[k]
      invariant forall k :: k in r && k !in ext ==> r[k] == base[k]
      decreases remaining
    {
      var key :| key in remaining;
      if key !in r {
        r := r[key := base[key]];
      }
      remaining := remaining - {key};
    }
  }

  /** Merging along a chain of `extends` does not depend on grouping. */
  lemma WithDefaultsChain<V>(ext: map<string, V>, mid: map<string, V>, base: map<string, V>)
    ensures WithDefaults(ext, WithDefaults(mid, base)) == WithDefaults(WithDefaults(ext, mid), base)
  {
  }

  /** Merging in the same base twice changes nothing more. */
  lemma WithDefaultsIdempotent<V>(ext: map<string, V>, base: map<string, V>)
    ensures WithDefaults(WithDefaults(ext, base), base) == WithDefaults(ext, base)
  {
  }

  predicate NoDuplicates(s: seq<string>)
  {
    forall i, j :: 0 <= i < j < |s| ==> s[i] != s[j]
  }

  /** The elements of `s`, each once, at its first occurrence. */
  function Dedup(s: seq<string>): (r: seq<string>)
    ensures forall x :: x in r <==> x in s
    ensures NoDuplicates(r)
  {
    if |s| == 0 then []
    else
      var d := Dedup(s[..|s| - 1]);
      var last := s[|s| - 1];
      assert forall x :: x in s <==> x in s[..|s| - 1] || x == last by {
        assert s == s[..|s| - 1] + [last];
      }
      if last in d then d else d + [last]
  }

  function Elements<T>(s: seq<T>): set<T>
  {
    set i | 0 <= i < |s| :: s[i]
  }

  /** The union of both required lists, each field once, in the order the map
      of fields is iterated. */
  method MergeRequired(base: seq<string>, ext: seq<string>) returns (req: seq<string>)
    ensures forall f :: f in req <==> f in base || f in ext
    ensures NoDuplicates(req)
  {
    var requiredMap: set<string> := {};
    for i := 0 to |base|
      invariant requiredMap == Elements(base[..i])
    {
      assert base[..i + 1] == base[..i] + [base[i]];
      requiredMap := requiredMap + {base[i]};
    }
    for i := 0 to |ext|
      invariant requiredMap == Elements(base) + Elements(ext[..i])
    {
      assert ext[..i + 1] == ext[..i] + [ext[i]];
      requiredMap := requiredMap + {ext[i]};
    }
    assert base[..|base|] == base && ext[..|ext|] == ext;
    req := [];
    var remaining := requiredMap;
    while remaining != {}
      invariant remaining <= requiredMap
      invariant forall f :: f in req <==> f in requiredMap && f !in remaining
      invariant NoDuplicates(req)
      decreases remaining
    {
      var field :| field in remaining;
      req := req + [field];
      remaining := remaining - {field};
    }
  }

  // ---------------------------------------------------------------------------
  // Merging layers
  // ---------------------------------------------------------------------------

  function Names(layers: seq<Layer>): set<string>
  {
    set i | 0 <= i < |layers| :: layers[i].name
  }

  /** Base layers by name; a later layer replaces an earlier one of that name. */
  function ByName(layers: seq<Layer>): (m: map<string, Layer>)
    ensures m.Keys == Names(layers)
  {
    if |layers| == 0 then map[]
    else
      var init := layers[..|layers| - 1];
      var last := layers[|layers| - 1];
      assert Names(layers) == Names(init) + {last.name} by {
        assert forall i :: 0 <= i < |init| ==> layers[i] == init[i];
      }
      ByName(init)[last.name := last]
  }

  /** The overrides applied in order to the layers they name; an override
      naming no layer is skipped. */
  function WithOverrides(layers: map<string, Layer>, overrides: seq<LayerOverride>): (m: map<string, Layer>)
    ensures m.Keys == layers.Keys
  {
    if |overrides| == 0 then layers
    else
      var m := WithOverrides(layers, overrides[..|overrides| - 1]);
      var o := overrides[|overrides| - 1];
      if o.layer in m then m[o.layer := Overridden(m[o.layer], o.updates)] else m
  }

  /** The layers whose name is not in `names`, in order. */
  function Unnamed(layers: seq<Layer>, names: set<string>): (r: seq<Layer>)
    ensures forall l :: l in r <==> l in layers && l.name !in names
    ensures |r| <= |layers|
  {
    if |layers| == 0 then []
    else
      var init := layers[..|layers| - 1];
      var last := layers[|layers| - 1];
      assert forall l :: l in layers <==> l in init || l == last by {
        assert layers == init + [last];
      }
      Unnamed(init, names) + (if last.name in names then [] else [last])
  }

  /** Each base layer, replaced by the (overridden) last base layer of its
      name; then the extending layers that do not share a base name; then the
      additional layers. */
  function MergedLayers(base: seq<Layer>, ext: seq<Layer>, overrides: seq<LayerOverride>, add: seq<Layer>): seq<Layer>
  {
    Resolved(base, WithOverrides(ByName(base), overrides)) + Unnamed(ext, Names(base)) + add
  }

  method IndexByName(layers: seq<Layer>) returns (m: map<string, Layer>)
    ensures m == ByName(layers)
  {
    m := map[];
    for i := 0 to |layers|
      invariant m == ByName(layers[..i])
    {
      assert layers[..i + 1][..i] == layers[..i];
      m := m[layers[i].name := layers[i]];
    }
    assert layers[..|layers|] == layers;
  }

  method ApplyOverrides(layers: map<string, Layer>, overrides: seq<LayerOverride>) returns (m: map<string, Layer>)
    ensures m == WithOverrides(layers, overrides)
  {
    m := layers;
    for i := 0 to |overrides|
      invariant m == WithOverrides(layers, overrides[..i])
    {
      assert overrides[..i + 1][..i] == overrides[..i];
      var o := overrides[i];
      if o.layer in m {
        var modifiedLayer := ApplyLayerOverride(m[o.layer], o);
        m := m[o.layer := modifiedLayer];
      }
    }
    assert overrides[..|overrides|] == overrides;
  }

  /** Each base layer in order, replaced by the resolved layer of its name. */
  function Resolved(base: seq<Layer>, resolved: map<string, Layer>): (r: seq<Layer>)
    requires Names(base) <= resolved.Keys
    ensures |r| == |base|
    ensures forall i :: 0 <= i < |base| ==> r[i] == resolved[base[i].name]
  {
    seq(|base|, i requires 0 <= i < |base| => resolved[base[i].name])
  }

  method ResolveBaseLayers(base: seq<Layer>, baseLayers: map<string, Layer>)
    returns (finalLayers: seq<Layer>, layerNames: set<string>)
    requires Names(base) <= baseLayers.Keys
    ensures finalLayers == Resolved(base, baseLayers)
    ensures layerNames == Names(base)
  {
    finalLayers := [];
    layerNames := {};
    for i := 0 to |base|
      invariant layerNames == Names(base[..i])
      invariant finalLayers == Resolved(base[..i], baseLayers)
    {
      assert base[..i + 1] == base[..i] + [base[i]];
      if base[i].name in baseLayers {
        finalLayers := finalLayers + [baseLayers[base[i].name]];
        layerNames := layerNames + {base[i].name};
      }
    }
    assert base[..|base|] == base;
  }

  method AppendUnnamed(head: seq<Layer>, ext: seq<Layer>, layerNames: set<string>) returns (finalLayers: seq<Layer>)
    ensures finalLayers == head + Unnamed(ext, layerNames)
  {
    finalLayers := head;
    for i := 0 to |ext|
      invariant finalLayers == head + Unnamed(ext[..i], layerNames)
    {
      assert ext[..i + 1][..i] == ext[..i];
      if ext[i].name !in layerNames {
        finalLayers := finalLayers + [ext[i]];
      }
    }
    assert ext[..|ext|] == ext;
  }

  method MergeLayers(base: seq<Layer>, ext: seq<Layer>, overrides: seq<LayerOverride>, add: seq<Layer>)
    returns (finalLayers: seq<Layer>)
    ensures finalLayers == MergedLayers(base, ext, overrides, add)
  {
    var baseLayers := IndexByName(base);
    baseLayers := ApplyOverrides(baseLayers, overrides);
    var layerNames;
    finalLayers, layerNames := ResolveBaseLayers(base, baseLayers);
    finalLayers := AppendUnnamed(finalLayers, ext, layerNames);
    finalLayers := finalLayers + add;
  }

  /** An override naming no base layer has no effect on the merged layers. */
  lemma OverrideOfUnknownLayer(base: seq<Layer>, ext: seq<Layer>, overrides: seq<LayerOverride>, o: LayerOverride, add: seq<Layer>)
    requires o.layer !in Names(base)
    ensures MergedLayers(base, ext, overrides + [o], add) == MergedLayers(base, ext, overrides, add)
  {
    assert (overrides + [o])[..|overrides|] == overrides;
    assert WithOverrides(ByName(base), overrides + [o]) == WithOverrides(ByName(base), overrides);
  }

  /** Without overrides, base layers with distinct names come first unchanged. */
  lemma BaseLayersFirst(base: seq<Layer>, ext: seq<Layer>, add: seq<Layer>)
    requires forall i, j :: 0 <= i < j < |base| ==> base[i].name != base[j].name
    ensures MergedLayers(base, ext, [], add)[..|base|] == base
  {
    forall i | 0 <= i < |base|
      ensures ByName(base)[base[i].name] == base[i]
    {
      ByNameDistinct(base, i);
    }
  }

  lemma {:induction false} ByNameDistinct(layers: seq<Layer>, i: int)
    requires forall a, b :: 0 <= a < b < |layers| ==> layers[a].name != layers[b].name
    requires 0 <= i < |layers|
    ensures ByName(layers)[layers[i].name] == layers[i]
    decreases |layers|
  {
    if i < |layers| - 1 {
      var init := layers[..|layers| - 1];
      ByNameDistinct(init, i);
      assert init[i] == layers[i];
    }
  }

  /** Every layer of the merge is a base layer with overrides applied, a
      non-colliding extending layer, or an additional layer; and every
      extending layer whose name no base layer has is kept. */
  lemma MergedLayersFrom(base: seq<Layer>, ext: seq<Layer>, overrides: seq<LayerOverride>, add: seq<Layer>)
    ensures var r := MergedLayers(base, ext, overrides, add);
      && |r| == |base| + |Unnamed(ext, Names(base))| + |add|
      && r[|r| - |add|..] == add
      && forall l :: l in ext && l.name !in Names(base) ==> l in r
  {
    var r := MergedLayers(base, ext, overrides, add);
    forall l | l in ext && l.name !in Names(base)
      ensures l in r
    {
      assert l in Unnamed(ext, Names(base));
      var k :| 0 <= k < |Unnamed(ext, Names(base))| && Unnamed(ext, Names(base))[k] == l;
      assert r[|base| + k] == l;
    }
  }

  // ---------------------------------------------------------------------------
  // The merge
  // ---------------------------------------------------------------------------

  /** The merged template, with the required fields listed in first-occurrence
      order (base first). */
  function Merged(base: Template, ext: Template): Template
  {
    ext.(
      baseTemplate := Some(base),
      dimensions := if ext.dimensions.width == 0 then base.dimensions else ext.dimensions,
      required := Dedup(base.required + ext.required),
      optional := WithDefaults(ext.optional, base.optional),
      styleTokens := WithDefaults(ext.styleTokens, base.styleTokens),
      icons := WithDefaults(ext.icons, base.icons),
      layers := MergedLayers(base.layers, ext.layers, ext.overrides, ext.addLayers))
  }

  /** mergeTemplates: the extending template completed by its base. The
      required fields come out in map order, so they are pinned down as the
      set union without duplicates. */
  method MergeTemplates(base: Template, ext: Template) returns (result: Template)
    ensures result == Merged(base, ext).(required := result.required)
    ensures forall f :: f in result.required <==> f in base.required || f in ext.required
    ensures NoDuplicates(result.required)
  {
    result := ext;
    result := result.(baseTemplate := Some(base));
    if result.dimensions.width == 0 {
      result := result.(dimensions := base.dimensions);
    }
    var req := MergeRequired(base.required, ext.required);
    result := result.(required := req);
    var optional := MergeDefaults(result.optional, base.optional);
    var tokens := MergeDefaults(result.styleTokens, base.styleTokens);
    var icons := MergeDefaults(result.icons, base.icons);
    result := result.(optional := optional, styleTokens := tokens, icons := icons);
    var layers := MergeLayers(base.layers, ext.layers, result.overrides, result.addLayers);
    result := result.(layers := layers);
  }

  /** The merged template inherits the base's dimensions exactly when the
      extending template's width is 0. */
  lemma MergedDimensions(base: Template, ext: Template)
    ensures ext.dimensions.width == 0 ==> Merged(base, ext).dimensions == base.dimensions
    ensures ext.dimensions.width != 0 ==> Merged(base, ext).dimensions == ext.dimensions
  {
  }

  /** Required fields, optional fields, style tokens and icons of the merge
      are unions in which the extending template wins. */
  lemma MergedCollections(base: Template, ext: Template)
    ensures var m := Merged(base, ext);
      && (forall f :: f in m.required <==> f in base.required || f in ext.required)
      && NoDuplicates(m.required)
      && CompletedBy(m.optional, ext.optional, base.optional)
      && CompletedBy(m.styleTokens, ext.styleTokens, base.styleTokens)
      && CompletedBy(m.icons, ext.icons, base.icons)
  {
  }

  /** `r` holds the keys of both maps, the values of `ext` where it has them
      and those of `base` elsewhere. */
  ghost predicate CompletedBy<V>(r: map<string, V>, ext: map<string, V>, base: map<string, V>)
  {
    && r.Keys == ext.Keys + base.Keys
    && (forall k :: k in ext ==> r[k] == ext[k])
    && (forall k :: k in base && k !in ext ==> r[k] == base[k])
  }

  /** Merging into an empty base keeps the extending template's own parts. */
  lemma MergeWithEmptyBase(base: Template, ext: Template)
    requires base.layers == [] && base.required == [] && base.optional == map[]
    requires base.styleTokens == map[] && base.icons == map[]
    requires ext.dimensions.width != 0 && NoDuplicates(ext.required)
    ensures Merged(base, ext) == ext.(baseTemplate := Some(base), layers := ext.layers + ext.addLayers)
  {
    DedupNoDuplicates(ext.required);
    assert base.required + ext.required == ext.required;
    WithEmptyDefaults(ext.optional);
    WithEmptyDefaults(ext.styleTokens);
    WithEmptyDefaults(ext.icons);
    MergedLayersEmptyBase(ext.layers, ext.overrides, ext.addLayers);
  }

  lemma WithEmptyDefaults<V>(ext: map<string, V>)
    ensures WithDefaults(ext, map[]) == ext
  {
  }

  lemma MergedLayersEmptyBase(ext: seq<Layer>, overrides: seq<LayerOverride>, add: seq<Layer>)
    ensures MergedLayers([], ext, overrides, add) == ext + add
  {
    assert Names([]) == {};
    UnnamedNone(ext, {});
    assert Resolved([], WithOverrides(ByName([]), overrides)) == [];
  }

  lemma {:induction false} DedupNoDuplicates(s: seq<string>)
    requires NoDuplicates(s)
    ensures Dedup(s) == s
    decreases |s|
  {
    if |s| > 0 {
      var init := s[..|s| - 1];
      DedupNoDuplicates(init);
      assert s[|s| - 1] !in init;
      assert init + [s[|s| - 1]] == s;
    }
  }

  lemma {:induction false} UnnamedNone(layers: seq<Layer>, names: set<string>)
    requires names == {}
    ensures Unnamed(layers, names) == layers
    decreases |layers|
  {
    if |layers| > 0 {
      UnnamedNone(layers[..|layers| - 1], names);
      assert layers[..|layers| - 1] + [layers[|layers| - 1]] == layers;
    }
  }

  // ---------------------------------------------------------------------------
  // Validation
  // ---------------------------------------------------------------------------

  /** The nested metadata value `section.field` is set: a non-empty string, or
      any other non-null value. */
  predicate HasNestedField(card: Metadata.Card, section: string, field: string)
  {
    match Nested(card.metadata, section, field)
    case None => false
    case Some(v) => if v.VString? then v.s != "" else v != VNull
  }

  /** The card has a value for a required field. */
  predicate HasField(card: Metadata.Card, field: string)
  {
    if field == "card.tcg" then card.tcg != "" || HasNestedField(card, "card", "tcg")
    else if field == "card.cardstyle" then card.cardStyle != "" || HasNestedField(card, "card", "cardstyle")
    else if field == "card.title" then card.title != "" || HasNestedField(card, "card", "title")
    else if field == "card.type" then card.cardType != "" || HasNestedField(card, "card", "type")
    else if field == "card.rarity" then card.rarity != "" || HasNestedField(card, "card", "rarity")
    else if field == "card.set" then card.cardSet != "" || HasNestedField(card, "card", "set")
    else if field == "card.artist" then card.artist != "" || HasNestedField(card, "card", "artist")
    else if field in card.metadata then true
    else
      var parts := Split(field, ".");
      |parts| == 2 && HasNestedField(card, parts[0], parts[1])
  }

  predicate IsFixedPath(field: string)
  {
    field in {"card.tcg", "card.cardstyle", "card.title", "card.type", "card.rarity", "card.set", "card.artist"}
  }

  /** A two-part path outside the fixed ones, without a flat metadata key,
      is looked up one level deep. */
  lemma NestedPath(card: Metadata.Card, section: string, field: string)
    requires '.' !in section && '.' !in field
    requires !IsFixedPath(section + "." + field) && section + "." + field !in card.metadata
    ensures HasField(card, section + "." + field) <==> HasNestedField(card, section, field)
  {
    DotFree(section);
    DotFree(field);
    SplitJoin([section, field], ".");
    assert Join([section, field], ".") == section + "." + Join([field], ".");
  }

  /** A flat metadata key satisfies any path outside the fixed ones, whatever
      its value. */
  lemma FlatKeyPresent(card: Metadata.Card, field: string)
    requires !IsFixedPath(field) && field in card.metadata
    ensures HasField(card, field)
  {
  }

  /** The fixed `card.*` paths consult only the typed field and the `card`
      section: a flat metadata key of the same name does not count. */
  lemma FixedPathIgnoresFlatKey(card: Metadata.Card)
    requires card.title == "" && card.metadata == map["card.title" := VString("x")]
    ensures !HasField(card, "card.title")
  {
  }

  /** A path of three parts is never found in the nested metadata. */
  lemma ThreePartPath(card: Metadata.Card, a: string, b: string, c: string)
    requires '.' !in a && '.' !in b && '.' !in c
    requires !IsFixedPath(a + "." + b + "." + c) && a + "." + b + "." + c !in card.metadata
    ensures !HasField(card, a + "." + b + "." + c)
  {
    DotFree(a);
    DotFree(b);
    DotFree(c);
    SplitJoin([a, b, c], ".");
    JoinThreeDots(a, b, c);
  }

  lemma JoinThreeDots(a: string, b: string, c: string)
    ensures Join([a, b, c], ".") == a + "." + b + "." + c
  {
    assert [a, b, c][1..] == [b, c];
    assert Join([b, c], ".") == b + "." + Join([c], ".");
  }

  lemma DotFree(s: string)
    requires '.' !in s
    ensures !Contains(s, ".")
  {
    IndexNone(s, ".");
  }

  function MismatchMessage(card: Metadata.Card, t: Template): string
  {
    "card TCG '" + card.tcg + "' doesn't match template TCG '" + t.tcg + "'"
  }

  function MissingMessage(field: string): string
  {
    "required field '" + field + "' is missing"
  }

  function LateMismatchMessage(card: Metadata.Card, t: Template): string
  {
    MismatchMessage(card, t) + " - use a " + card.tcg + " cardstyle for " + card.tcg + " cards"
  }

  /** The first field of `fields` the card lacks. */
  function FirstMissing(card: Metadata.Card, fields: seq<string>): (r: Option<string>)
    ensures r.Some? ==> r.value in fields && !HasField(card, r.value)
    ensures r.None? <==> forall i :: 0 <= i < |fields| ==> HasField(card, fields[i])
  {
    if |fields| == 0 then None
    else if !HasField(card, fields[0]) then Some(fields[0])
    else
      var r := FirstMissing(card, fields[1..]);
      assert forall i :: 1 <= i < |fields| ==> fields[i] == fields[1..][i - 1];
      r
  }

  /** ValidateCard's outcome, `None` when the card is accepted. */
  function Validation(t: Template, card: Metadata.Card): Option<string>
  {
    if card.tcg != t.tcg then Some(MismatchMessage(card, t))
    else
      match FirstMissing(card, t.required)
      case Some(field) => Some(MissingMessage(field))
      case None =>
        if "card.tcg" in t.required && card.tcg != t.tcg then Some(LateMismatchMessage(card, t))
        else None
  }

  method ValidateCard(t: Template, card: Metadata.Card) returns (err: Option<string>)
    ensures err == Validation(t, card)
  {
    if card.tcg != t.tcg {
      return Some("card TCG '" + card.tcg + "' doesn't match template TCG '" + t.tcg + "'");
    }
    for i := 0 to |t.required|
      invariant FirstMissing(card, t.required) == FirstMissing(card, t.required[i..])
    {
      var field := t.required[i];
      assert t.required[i..][1..] == t.required[i + 1..];
      if !HasField(card, field) {
        return Some("required field '" + field + "' is missing");
      }
    }
    var field := "card.tcg";
    var hasRequired := HasRequiredField(t, field);
    if hasRequired && card.tcg != t.tcg {
      return Some(LateMismatchMessage(card, t));
    }
    return None;
  }

  /** hasRequiredField: a linear search of the required list. */
  method HasRequiredField(t: Template, field: string) returns (found: bool)
    ensures found <==> field in t.required
  {
    for i := 0 to |t.required|
      invariant field !in t.required[..i]
    {
      if t.required[i] == field {
        return true;
      }
      assert t.required[..i + 1] == t.required[..i] + [t.required[i]];
    }
    assert t.required[..|t.required|] == t.required;
    return false;
  }

  /** A TCG mismatch is reported before any required field is looked at. */
  lemma MismatchFirst(t: Template, card: Metadata.Card)
    requires card.tcg != t.tcg
    ensures Validation(t, card) == Some(MismatchMessage(card, t))
  {
  }

  /** With matching TCGs, the first required field (in list order) that the
      card lacks is reported. */
  lemma FirstMissingReported(t: Template, card: Metadata.Card, i: int)
    requires card.tcg == t.tcg && 0 <= i < |t.required| && !HasField(card, t.required[i])
    requires forall j :: 0 <= j < i ==> HasField(card, t.required[j])
    ensures Validation(t, card) == Some(MissingMessage(t.required[i]))
  {
    FirstMissingAt(card, t.required, i);
  }

  lemma {:induction false} FirstMissingAt(card: Metadata.Card, fields: seq<string>, i: int)
    requires 0 <= i < |fields| && !HasField(card, fields[i])
    requires forall j :: 0 <= j < i ==> HasField(card, fields[j])
    ensures FirstMissing(card, fields) == Some(fields[i])
    decreases i
  {
    if i > 0 {
      FirstMissingAt(card, fields[1..], i - 1);
    }
  }

  /** A card is accepted exactly when its TCG matches and it has every
      required field; the second TCG check can never fire. */
  lemma AcceptedIff(t: Template, card: Metadata.Card)
    ensures Validation(t, card).None? <==> card.tcg == t.tcg && forall f :: f in t.required ==> HasField(card, f)
    ensures card.tcg == t.tcg && FirstMissing(card, t.required).None? ==> Validation(t, card).None?
  {
    assert (forall f :: f in t.required ==> HasField(card, f))
      <==> (forall i :: 0 <= i < |t.required| ==> HasField(card, t.required[i]));
  }
}
