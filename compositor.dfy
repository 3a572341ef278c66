/** Drawing a card: the layer loop of RenderCard and the decisions of
    renderLayer, renderImageLayer and renderTextLayer, in the current
    revision (pkg/renderer/renderer.go) and the older one
    (internal/renderer/renderer.go). The canvas is the list of drawing
    actions performed on it; rasterising, fonts, image decoding and the
    file system are left to oracles. */
module Compositor {

  import opened Wrappers
  import opened StringUtil
  import opened Values
  import opened TextFormat
  import opened RenderUtils
  import opened Templates
  import opened Variables
  import Metadata

  /** The two revisions of the renderer: the older one draws images at their
      own size, the current one fits them to the layer region. */
  datatype Revision = Legacy | Current

  // ---------------------------------------------------------------------------
  // Fit modes
  // ---------------------------------------------------------------------------

  datatype FitMode = Fill | Fit | Stretch | Center

  function FitName(m: FitMode): string
  {
    match m
    case Fill => "fill"
    case Fit => "fit"
    case Stretch => "stretch"
    case Center => "center"
  }

  /** The fitting an image gets: the four named modes, and fill for any
      other name. */
  function ParseFitMode(name: string): (m: FitMode)
    ensures name != "fit" && name != "stretch" && name != "center" ==> m == Fill
  {
    if name == "fit" then Fit
    else if name == "stretch" then Stretch
    else if name == "center" then Center
    else Fill
  }

  /** Every mode is read back from its own name. */
  lemma FitNameRoundTrip(m: FitMode)
    ensures ParseFitMode(FitName(m)) == m
  {
  }

  /** The fit mode named for an image layer: the card's artwork fit when it
      is set and non-empty, else the layer's own, else "fill". */
  function EffectiveFit(vars: map<string, string>, layerFit: string): (mode: string)
    ensures mode != ""
  {
    var fit := if "card.artwork.fit" in vars && vars["card.artwork.fit"] != "" then vars["card.artwork.fit"] else layerFit;
    if fit == "" then "fill" else fit
  }

  /** The card's fit wins over the layer's, the layer's over the default. */
  lemma FitPrecedence(vars: map<string, string>, layerFit: string)
    ensures "card.artwork.fit" in vars && vars["card.artwork.fit"] != "" ==>
      EffectiveFit(vars, layerFit) == vars["card.artwork.fit"]
    ensures ("card.artwork.fit" !in vars || vars["card.artwork.fit"] == "") && layerFit != "" ==>
      EffectiveFit(vars, layerFit) == layerFit
    ensures ("card.artwork.fit" !in vars || vars["card.artwork.fit"] == "") && layerFit == "" ==>
      ParseFitMode(EffectiveFit(vars, layerFit)) == Fill
  {
  }

  // ---------------------------------------------------------------------------
  // Drawing actions and layer outcomes
  // ---------------------------------------------------------------------------

  /** What a layer draws. An image without a fit mode is drawn at its own
      size, centred on the region. */
  datatype Action =
    | DrawImage(path: string, region: Region, fit: Option<FitMode>)
    | DrawPlaceholder(message: string, region: Region)
    | DrawText(lines: seq<FormattedLine>, region: Region, font: Font, align: string)

  /** The text of `s` after substituting `vars` in key order `order`. */
  function Substituted(s: string, vars: map<string, string>, order: seq<string>): string
    requires IsKeyOrder(order, vars.Keys)
  {
    ReplaceKeys(s, ValuePairs(vars, order))
  }

  /** The markdown lines of a text, one per "\n"-separated line. */
  function Markdown(content: string): (lines: seq<FormattedLine>)
    ensures |lines| == |Split(content, "\n")|
    ensures forall i :: 0 <= i < |lines| ==> lines[i] == ClassifyLine(Split(content, "\n")[i])
  {
    var raw := Split(content, "\n");
    seq(|raw|, i requires 0 <= i < |raw| => ClassifyLine(raw[i]))
  }

  /** The path an image layer loads first: its substituted source, else its
      substituted fallback when the layer names one. */
  function ImagePath(layer: Layer, source: string, fallback: string): (p: Option<string>)
    ensures p.Some? ==> p.value != ""
    ensures p.None? <==> source == "" && (layer.fallback == "" || fallback == "")
  {
    if source != "" then Some(source)
    else if layer.fallback != "" && fallback != "" then Some(fallback)
    else None
  }

  /** The fitting of a drawn image: none in the older revision. */
  function ImageFit(vars: map<string, string>, layer: Layer, revision: Revision): Option<FitMode>
  {
    if revision == Current then Some(ParseFitMode(EffectiveFit(vars, layer.fitMode))) else None
  }

  /** An image layer, given its substituted source and which paths load: no
      path is an error; a path that fails is retried with the fallback when
      that is set and different; a second failure draws a placeholder naming
      the first path, without error. The fallback is substituted afresh each
      time it is used, so `fallback` is the text tried when the source is
      empty, `compared` the text the failed path is compared with, and
      `retry` the text loaded on the retry; each comes from its own walk
      over the variables and they can differ. */
  function ImageOutcome(layer: Layer, source: string, fallback: string, compared: string, retry: string,
                        vars: map<string, string>, loads: string -> bool, revision: Revision): Result<seq<Action>, string>
  {
    match ImagePath(layer, source, fallback)
    case None => Err("no image source for layer " + layer.name)
    case Some(path) =>
      var fit := ImageFit(vars, layer, revision);
      if loads(path) then Ok([DrawImage(path, layer.region, fit)])
      else if layer.fallback != "" && path != compared && loads(retry) then Ok([DrawImage(retry, layer.region, fit)])
      else Ok([DrawPlaceholder("Missing: " + Base(path), layer.region)])
  }

  /** The font text is drawn in: the layer's, else 12 point black. */
  function BaseFont(layer: Layer): (f: Font)
    ensures layer.font.Some? ==> f == layer.font.value
    ensures layer.font.None? ==> f.size == VFloat(12.0) && f.color == "#000000"
  {
    match layer.font
    case Some(f) => f
    case None => Font("", VFloat(12.0), "", "", "#000000")
  }

  /** A text layer, given its substituted content and the icon order: empty
      content draws nothing; otherwise headers are stripped (when set), then
      icons replaced (when set), then the markdown lines drawn. */
  function TextOutcome(layer: Layer, content: string, iconOrder: seq<string>): Result<seq<Action>, string>
  {
    if content == "" then Ok([])
    else
      var stripped := if layer.stripHeaders then StrippedText(content) else content;
      var iconized := if layer.iconReplace then ReplaceKeys(stripped, IconPairs(iconOrder)) else stripped;
      Ok([DrawText(Markdown(iconized), layer.region, BaseFont(layer), layer.align)])
  }

  /** The key orders one layer's substitutions and icon replacement use: one
      for the source, one for each of the three substitutions of the
      fallback, one for the content and one for the icons. */
  datatype Walk = Walk(source: seq<string>, fallback: seq<string>, compared: seq<string>, retry: seq<string>,
                       content: seq<string>, icons: seq<string>)

  ghost predicate WalkFits(vars: map<string, string>, icons: map<string, string>, w: Walk)
  {
    && IsKeyOrder(w.source, vars.Keys)
    && IsKeyOrder(w.fallback, vars.Keys)
    && IsKeyOrder(w.compared, vars.Keys)
    && IsKeyOrder(w.retry, vars.Keys)
    && IsKeyOrder(w.content, vars.Keys)
    && IsKeyOrder(w.icons, icons.Keys)
  }

  /** An image layer, its source and fallback substituted in the walk's
      orders. */
  ghost function WalkedImage(layer: Layer, vars: map<string, string>, loads: string -> bool,
                             revision: Revision, w: Walk): Result<seq<Action>, string>
    requires WalkFits(vars, map[], w)
  {
    ImageOutcome(layer, Substituted(layer.source, vars, w.source), Substituted(layer.fallback, vars, w.fallback),
                 Substituted(layer.fallback, vars, w.compared), Substituted(layer.fallback, vars, w.retry),
                 vars, loads, revision)
  }

  /** Once the first path is known: it is drawn when it loads, else the
      retried fallback when the comparison lets it through and it loads, else
      a placeholder naming the first path. */
  lemma ImageRetried(layer: Layer, source: string, fallback: string, compared: string, retry: string,
                     vars: map<string, string>, loads: string -> bool, revision: Revision, path: string)
    requires ImagePath(layer, source, fallback) == Some(path)
    ensures ImageOutcome(layer, source, fallback, compared, retry, vars, loads, revision) ==
      if loads(path) then Ok([DrawImage(path, layer.region, ImageFit(vars, layer, revision))])
      else if layer.fallback != "" && path != compared && loads(retry) then
        Ok([DrawImage(retry, layer.region, ImageFit(vars, layer, revision))])
      else Ok([DrawPlaceholder("Missing: " + Base(path), layer.region)])
  {
  }

  /** A layer drawn by its type; any type but "image" and "text" is an error. */
  ghost function Dispatched(layer: Layer, vars: map<string, string>, icons: map<string, string>,
                            loads: string -> bool, revision: Revision, w: Walk): Result<seq<Action>, string>
    requires WalkFits(vars, icons, w)
  {
    if layer.layerType == "image" then
      ImageOutcome(layer, Substituted(layer.source, vars, w.source), Substituted(layer.fallback, vars, w.fallback),
                   Substituted(layer.fallback, vars, w.compared), Substituted(layer.fallback, vars, w.retry),
                   vars, loads, revision)
    else if layer.layerType == "text" then
      TextOutcome(layer, Substituted(layer.content, vars, w.content), w.icons)
    else Err("unknown layer type: " + layer.layerType)
  }

  /** One layer: skipped, without error, when it has a non-empty condition
      that fails; drawn by its type otherwise. */
  ghost function LayerOutcome(layer: Layer, vars: map<string, string>, icons: map<string, string>,
                              loads: string -> bool, revision: Revision, w: Walk): Result<seq<Action>, string>
    requires WalkFits(vars, icons, w)
  {
    if layer.condition != "" && !ConditionHolds(layer.condition, vars) then Ok([])
    else Dispatched(layer, vars, icons, loads, revision, w)
  }

  /** The error a failed layer aborts the card with. */
  function LayerError(layer: Layer, e: string): string
  {
    "error rendering layer '" + layer.name + "': " + e
  }

  ghost predicate WalksFit(vars: map<string, string>, icons: map<string, string>, walks: seq<Walk>)
  {
    forall i :: 0 <= i < |walks| ==> WalkFits(vars, icons, walks[i])
  }

  /** The layers in order, given each layer's outcome: the actions drawn,
      and the error of the first layer that fails, after which nothing more
      is drawn. */
  function Collect(layers: seq<Layer>, results: seq<Result<seq<Action>, string>>): (seq<Action>, Option<string>)
    requires |results| == |layers|
  {
    if |layers| == 0 then ([], None)
    else
      var n := |layers| - 1;
      var prefix := Collect(layers[..n], results[..n]);
      if prefix.1.Some? then prefix
      else match results[n]
        case Err(e) => (prefix.0, Some(LayerError(layers[n], e)))
        case Ok(actions) => (prefix.0 + actions, None)
  }

  /** Each layer's outcome on the card's variables. */
  ghost function Outcomes(layers: seq<Layer>, vars: map<string, string>, icons: map<string, string>,
                          loads: string -> bool, revision: Revision, walks: seq<Walk>): (r: seq<Result<seq<Action>, string>>)
    requires |walks| == |layers| && WalksFit(vars, icons, walks)
    ensures |r| == |layers|
    ensures forall i :: 0 <= i < |layers| ==> r[i] == LayerOutcome(layers[i], vars, icons, loads, revision, walks[i])
  {
    seq(|layers|, i requires 0 <= i < |layers| => LayerOutcome(layers[i], vars, icons, loads, revision, walks[i]))
  }

  /** The error RenderCard reports when saving fails. */
  function SaveError(path: string, saved: Option<string>): (err: Option<string>)
    ensures err.None? <==> saved.None?
  {
    match saved
    case None => None
    case Some(e) => Some("error saving image to " + path + ": " + e)
  }

  /** A fixed order of a set of keys, for walks whose substitutions never
      happen. */
  ghost function SomeOrder(keys: set<string>): (order: seq<string>)
    ensures IsKeyOrder(order, keys)
    decreases |keys|
  {
    if keys == {} then []
    else
      var k :| k in keys;
      SomeOrder(keys - {k}) + [k]
  }

  ghost function IdleWalk(vars: map<string, string>, icons: map<string, string>): (w: Walk)
    ensures WalkFits(vars, icons, w)
  {
    var o := SomeOrder(vars.Keys);
    Walk(o, o, o, o, o, SomeOrder(icons.Keys))
  }

  // ---------------------------------------------------------------------------
  // Properties of one layer
  // ---------------------------------------------------------------------------

  /** A layer whose non-empty condition fails draws nothing and is no error; a
      layer whose condition holds is drawn by its type; an empty condition is
      never evaluated, so the layer is drawn even though the blank condition
      itself fails when no variable "" is set. */
  lemma ConditionSkips(layer: Layer, vars: map<string, string>, icons: map<string, string>,
                       loads: string -> bool, revision: Revision, w: Walk)
    requires WalkFits(vars, icons, w)
    ensures layer.condition != "" && !ConditionHolds(layer.condition, vars) ==>
      LayerOutcome(layer, vars, icons, loads, revision, w) == Ok([])
    ensures ConditionHolds(layer.condition, vars) ==>
      LayerOutcome(layer, vars, icons, loads, revision, w) == Dispatched(layer, vars, icons, loads, revision, w)
    ensures layer.condition == "" ==>
      LayerOutcome(layer, vars, icons, loads, revision, w) == Dispatched(layer, vars, icons, loads, revision, w)
  {
  }

  /** The blank condition fails on variables without "", yet a layer with no
      condition is still drawn. */
  lemma EmptyConditionNotEvaluated(layer: Layer, vars: map<string, string>, icons: map<string, string>,
                                   loads: string -> bool, revision: Revision, w: Walk)
    requires WalkFits(vars, icons, w)
    requires layer.condition == "" && "" !in vars
    ensures !ConditionHolds(layer.condition, vars)
    ensures LayerOutcome(layer, vars, icons, loads, revision, w) == Dispatched(layer, vars, icons, loads, revision, w)
  {
    BlankCondition(layer.condition, vars);
  }

  /** Any type but "image" and "text" is an error naming it, and only such a
      type is. */
  lemma UnknownType(layer: Layer, vars: map<string, string>, icons: map<string, string>,
                    loads: string -> bool, revision: Revision, w: Walk)
    requires WalkFits(vars, icons, w)
    ensures layer.layerType != "image" && layer.layerType != "text" <==>
      Dispatched(layer, vars, icons, loads, revision, w) == Err("unknown layer type: " + layer.layerType)
  {
    if layer.layerType == "image" {
      assert Dispatched(layer, vars, icons, loads, revision, w)
        == ImageOutcome(layer, Substituted(layer.source, vars, w.source), Substituted(layer.fallback, vars, w.fallback),
                        Substituted(layer.fallback, vars, w.compared), Substituted(layer.fallback, vars, w.retry),
                        vars, loads, revision);
    }
  }

  /** An image layer fails only for want of a path: exactly when the source
      and the fallback (when it is named) both come out empty. */
  lemma NoImageSource(layer: Layer, source: string, fallback: string, compared: string, retry: string,
                      vars: map<string, string>, loads: string -> bool, revision: Revision)
    ensures ImageOutcome(layer, source, fallback, compared, retry, vars, loads, revision).Err? <==>
      source == "" && (layer.fallback == "" || fallback == "")
    ensures ImageOutcome(layer, source, fallback, compared, retry, vars, loads, revision).Err? ==>
      ImageOutcome(layer, source, fallback, compared, retry, vars, loads, revision).error == "no image source for layer " + layer.name
  {
  }

  /** A successful image layer draws exactly one thing, in its region: an
      image that loaded, or a placeholder naming the path that was tried
      first. */
  lemma ImageDrawsOne(layer: Layer, source: string, fallback: string, compared: string, retry: string,
                      vars: map<string, string>, loads: string -> bool, revision: Revision)
    requires ImageOutcome(layer, source, fallback, compared, retry, vars, loads, revision).Ok?
    ensures var acts := ImageOutcome(layer, source, fallback, compared, retry, vars, loads, revision).value;
      && |acts| == 1
      && (acts[0].DrawImage? || acts[0].DrawPlaceholder?)
      && acts[0].region == layer.region
      && (acts[0].DrawImage? ==> loads(acts[0].path) && acts[0].fit == ImageFit(vars, layer, revision))
      && (acts[0].DrawPlaceholder? ==> exists p :: ImagePath(layer, source, fallback) == Some(p) && acts[0].message == "Missing: " + Base(p))
  {
    var p := ImagePath(layer, source, fallback).value;
    assert ImagePath(layer, source, fallback) == Some(p);
  }

  /** When the source is set but does not load, the retried fallback is
      drawn exactly when the fallback is named, its compared text differs
      from the source and its retried text loads; otherwise a placeholder
      naming the source is drawn, and no error arises. */
  lemma FallbackRetry(layer: Layer, source: string, fallback: string, compared: string, retry: string,
                      vars: map<string, string>, loads: string -> bool, revision: Revision)
    requires source != "" && !loads(source)
    ensures layer.fallback != "" && compared != source && loads(retry) ==>
      ImageOutcome(layer, source, fallback, compared, retry, vars, loads, revision)
        == Ok([DrawImage(retry, layer.region, ImageFit(vars, layer, revision))])
    ensures !(layer.fallback != "" && compared != source && loads(retry)) ==>
      ImageOutcome(layer, source, fallback, compared, retry, vars, loads, revision)
        == Ok([DrawPlaceholder("Missing: " + Base(source), layer.region)])
  {
  }

  /** Two walks over the same variables substitute "{{a}}" differently when
      the value of a holds the placeholder of b, so the three substitutions
      of one fallback need not agree. */
  lemma FallbackTextsMayDiffer()
    ensures IsKeyOrder(["a", "b"], map["a" := "{{b}}", "b" := "x"].Keys)
    ensures IsKeyOrder(["b", "a"], map["a" := "{{b}}", "b" := "x"].Keys)
    ensures Substituted("{{a}}", map["a" := "{{b}}", "b" := "x"], ["a", "b"]) == "x"
    ensures Substituted("{{a}}", map["a" := "{{b}}", "b" := "x"], ["b", "a"]) == "{{b}}"
  {
    var vars := map["a" := "{{b}}", "b" := "x"];
    assert vars.Keys == {"a", "b"};
    assert Placeholder("a") == "{{a}}" && Placeholder("b") == "{{b}}";
    assert ReplaceAll("{{a}}", "{{a}}", "{{b}}") == "{{b}}" by {
      assert "{{a}}"[..5] == "{{a}}";
      assert ReplaceAll("{{a}}"[5..], "{{a}}", "{{b}}") == "";
    }
    assert ReplaceAll("{{b}}", "{{b}}", "x") == "x" by {
      assert "{{b}}"[..5] == "{{b}}";
      assert ReplaceAll("{{b}}"[5..], "{{b}}", "x") == "";
    }
    assert ReplaceAll("{{a}}", "{{b}}", "x") == "{{a}}" by {
      assert "{{a}}"[..5] != "{{b}}" by { assert "{{a}}"[2] != "{{b}}"[2]; }
      assert ReplaceAll("{{a}}"[1..], "{{b}}", "x") == "{a}}";
    }
    var ab := ValuePairs(vars, ["a", "b"]);
    assert ab[..1] == [("a", "{{b}}")] && ab[..1][..0] == [];
    assert ReplaceKeys("{{a}}", ab[..1]) == "{{b}}";
    assert ReplaceKeys("{{a}}", ab) == "x";
    var ba := ValuePairs(vars, ["b", "a"]);
    assert ba[..1] == [("b", "x")] && ba[..1][..0] == [];
    assert ReplaceKeys("{{a}}", ba[..1]) == "{{a}}";
    assert ReplaceKeys("{{a}}", ba) == "{{b}}";
  }

  /** The current revision fits the image by the card's artwork fit, else the
      layer's, else by filling; the older one draws it unfitted. */
  lemma ImageFitPrecedence(vars: map<string, string>, layer: Layer, revision: Revision)
    ensures revision == Legacy <==> ImageFit(vars, layer, revision).None?
    ensures revision == Current && "card.artwork.fit" in vars && vars["card.artwork.fit"] != "" ==>
      ImageFit(vars, layer, revision) == Some(ParseFitMode(vars["card.artwork.fit"]))
    ensures revision == Current && ("card.artwork.fit" !in vars || vars["card.artwork.fit"] == "") ==>
      ImageFit(vars, layer, revision) == Some(if layer.fitMode == "" then Fill else ParseFitMode(layer.fitMode))
  {
  }

  /** Empty content draws nothing, and any other content draws one block of
      text in the layer's region. */
  lemma TextEmpty(layer: Layer, content: string, iconOrder: seq<string>)
    ensures TextOutcome(layer, content, iconOrder) == Ok([]) <==> content == ""
    ensures content != "" ==>
      var acts := TextOutcome(layer, content, iconOrder).value;
      |acts| == 1 && acts[0].DrawText? && acts[0].region == layer.region && acts[0].align == layer.align
  {
  }

  /** With header stripping on and icons off, no drawn line is a header:
      headers go before the markdown is read. */
  lemma StrippedDrawsNoHeader(layer: Layer, content: string, iconOrder: seq<string>)
    requires layer.stripHeaders && !layer.iconReplace && content != ""
    ensures var acts := TextOutcome(layer, content, iconOrder).value;
      forall i :: 0 <= i < |acts[0].lines| ==> acts[0].lines[i].kind != Header
  {
    var kept := NonHeaderLines(Split(content, "\n"));
    var text := StrippedText(content);
    var lines := Split(text, "\n");
    if |kept| == 0 {
      assert text == "";
      assert lines == [""];
    } else {
      forall k | 0 <= k < |kept|
        ensures !Contains(kept[k], "\n")
      {
        assert kept[k] in Split(content, "\n");
      }
      SplitJoin(kept, "\n");
    }
    forall i | 0 <= i < |lines|
      ensures ClassifyLine(lines[i]).kind != Header
    {
      assert !IsHeaderLine(lines[i]);
    }
  }

  // ---------------------------------------------------------------------------
  // Properties of the layer loop
  // ---------------------------------------------------------------------------

  /** Once a prefix of the layers has failed, the later layers change
      nothing: neither the drawing nor the error. */
  lemma {:induction false} ErrorSticks(layers: seq<Layer>, results: seq<Result<seq<Action>, string>>, k: nat)
    requires |results| == |layers| && k <= |layers|
    requires Collect(layers[..k], results[..k]).1.Some?
    ensures Collect(layers, results) == Collect(layers[..k], results[..k])
    decreases |layers|
  {
    if k == |layers| {
      assert layers[..k] == layers && results[..k] == results;
    } else {
      var n := |layers| - 1;
      assert layers[..n][..k] == layers[..k] && results[..n][..k] == results[..k];
      ErrorSticks(layers[..n], results[..n], k);
    }
  }

  /** Every layer's actions, in order, when no layer failed. */
  function AllActions(results: seq<Result<seq<Action>, string>>): seq<Action>
    requires forall j :: 0 <= j < |results| ==> results[j].Ok?
  {
    if |results| == 0 then []
    else AllActions(results[..|results| - 1]) + results[|results| - 1].value
  }

  /** When no layer fails, the card has no error and draws every layer's
      actions, in order. */
  lemma {:induction false} AllLayersDrawn(layers: seq<Layer>, results: seq<Result<seq<Action>, string>>)
    requires |results| == |layers|
    requires forall j :: 0 <= j < |results| ==> results[j].Ok?
    ensures Collect(layers, results) == (AllActions(results), None)
    decreases |layers|
  {
    if |layers| > 0 {
      var n := |layers| - 1;
      AllLayersDrawn(layers[..n], results[..n]);
    }
  }

  /** The card has no layer error exactly when no layer fails. */
  lemma {:induction false} NoLayerError(layers: seq<Layer>, results: seq<Result<seq<Action>, string>>)
    requires |results| == |layers|
    ensures Collect(layers, results).1.None? <==> forall j :: 0 <= j < |results| ==> results[j].Ok?
    decreases |layers|
  {
    if |layers| > 0 {
      var n := |layers| - 1;
      NoLayerError(layers[..n], results[..n]);
      assert forall j :: 0 <= j < n ==> results[..n][j] == results[j];
    }
  }

  /** The first failing layer decides the error, which names it, and the
      drawing stops with the layers before it. */
  lemma FirstLayerError(layers: seq<Layer>, results: seq<Result<seq<Action>, string>>, i: nat)
    requires |results| == |layers| && i < |layers|
    requires forall j :: 0 <= j < i ==> results[j].Ok?
    requires results[i].Err?
    ensures Collect(layers, results) == (Collect(layers[..i], results[..i]).0, Some(LayerError(layers[i], results[i].error)))
  {
    NoLayerError(layers[..i], results[..i]);
    assert forall j :: 0 <= j < i ==> results[..i][j] == results[j];
    assert layers[..i + 1][..i] == layers[..i] && results[..i + 1][..i] == results[..i];
    ErrorSticks(layers, results, i + 1);
  }

  /** The variables a renderer of revision `revision` builds for a card. */
  ghost predicate BuiltVars(revision: Revision, card: Metadata.Card, t: Template, fmt: Formatters,
                            o: Orders, split: (string, string), vars: map<string, string>)
  {
    && split == FooterSplit(BodySource(card))
    && match revision
       case Current => OrdersFit(card, t, o) && vars == Vars(card, t, fmt, o, split)
       case Legacy => OuterOrdersFit(card, t, o) && vars == LegacyVars(card, t, fmt, o, split)
  }

  // ---------------------------------------------------------------------------
  // The drawing context and the renderer
  // ---------------------------------------------------------------------------

  /** A drawing context: its size and what has been drawn on its white
      background, in order. */
  class Canvas {
    const width: int
    const height: int
    var actions: seq<Action>

    constructor(width: int, height: int)
      ensures this.width == width && this.height == height
      ensures actions == []
    {
      this.width := width;
      this.height := height;
      actions := [];
    }

    method Draw(a: Action)
      modifies this
      ensures actions == old(actions) + [a]
    {
      actions := actions + [a];
    }
  }

  /** A renderer and its image cache. Which paths load (a file that exists
      and decodes, or a URL that downloads) and whether a PNG can be written
      to a path are held fixed for the renderer's lifetime. */
  class Renderer {
    const revision: Revision
    const loads: string -> bool
    const saves: string -> Option<string>
    const fmt: Formatters
    var imageCache: set<string>

    /** Only images that loaded are cached. */
    ghost predicate Valid()
      reads this
    {
      forall p :: p in imageCache ==> loads(p)
    }

    constructor(revision: Revision, loads: string -> bool, saves: string -> Option<string>, fmt: Formatters)
      ensures Valid()
      ensures this.revision == revision && this.loads == loads && this.saves == saves && this.fmt == fmt
      ensures imageCache == {}
    {
      this.revision := revision;
      this.loads := loads;
      this.saves := saves;
      this.fmt := fmt;
      imageCache := {};
    }

    /** Loading with the cache: a cached path is served from it, any other is
        loaded and cached when that succeeds. */
    method LoadImage(path: string) returns (ok: bool)
      requires Valid()
      modifies this`imageCache
      ensures Valid()
      ensures ok == loads(path)
      ensures imageCache == if ok then old(imageCache) + {path} else old(imageCache)
    {
      if path in imageCache {
        return true;
      }
      ok := loads(path);
      if ok {
        imageCache := imageCache + {path};
      }
    }

    /** The fitting of an image: by the card's artwork fit, else the layer's,
        else filling; none in the older revision. */
    method FitFor(layer: Layer, vars: map<string, string>) returns (fit: Option<FitMode>)
      ensures fit == ImageFit(vars, layer, revision)
    {
      fit := None;
      if revision == Current {
        var fitMode := layer.fitMode;
        if "card.artwork.fit" in vars && vars["card.artwork.fit"] != "" {
          fitMode := vars["card.artwork.fit"];
        }
        if fitMode == "" {
          fitMode := "fill";
        }
        fit := Some(ParseFitMode(fitMode));
      }
    }

    /** Loading the first path, and after a failure the retry: the fallback,
        when the layer names one, is substituted for the comparison with the
        failed path and, when it differs, substituted again and loaded. */
    method LoadWithRetry(layer: Layer, vars: map<string, string>, path: string)
      returns (ok: bool, drawn: string, ghost compared: seq<string>, ghost retried: seq<string>)
      requires Valid()
      modifies this`imageCache
      ensures Valid()
      ensures IsKeyOrder(compared, vars.Keys) && IsKeyOrder(retried, vars.Keys)
      ensures ok <==> loads(path) || (layer.fallback != "" && path != Substituted(layer.fallback, vars, compared)
                                      && loads(Substituted(layer.fallback, vars, retried)))
      ensures ok ==> drawn == if loads(path) then path else Substituted(layer.fallback, vars, retried)
    {
      compared := SomeOrder(vars.Keys);
      retried := compared;
      ok := LoadImage(path);
      drawn := path;
      if !ok && layer.fallback != "" {
        var text;
        text, compared := SubstituteVariables(layer.fallback, vars);
        if path != text {
          drawn, retried := SubstituteVariables(layer.fallback, vars);
          ok := LoadImage(drawn);
        }
      }
    }

    /** The path an image layer loads first: its substituted source, else,
        when the layer names a fallback, the substituted fallback. */
    method FirstPath(layer: Layer, vars: map<string, string>)
      returns (path: Option<string>, ghost sourceOrder: seq<string>, ghost fallbackOrder: seq<string>)
      ensures IsKeyOrder(sourceOrder, vars.Keys) && IsKeyOrder(fallbackOrder, vars.Keys)
      ensures path == ImagePath(layer, Substituted(layer.source, vars, sourceOrder),
                                Substituted(layer.fallback, vars, fallbackOrder))
    {
      var source;
      source, sourceOrder := SubstituteVariables(layer.source, vars);
      fallbackOrder := sourceOrder;
      if source != "" {
        return Some(source), sourceOrder, fallbackOrder;
      }
      if layer.fallback != "" {
        var fallback;
        fallback, fallbackOrder := SubstituteVariables(layer.fallback, vars);
        if fallback != "" {
          return Some(fallback), sourceOrder, fallbackOrder;
        }
      }
      path := None;
    }

    method RenderImageLayer(canvas: Canvas, layer: Layer, vars: map<string, string>)
      returns (err: Option<string>, ghost w: Walk)
      requires Valid()
      modifies this`imageCache, canvas
      ensures Valid()
      ensures WalkFits(vars, map[], w)
      ensures Performed(WalkedImage(layer, vars, loads, revision, w), err, old(canvas.actions), canvas.actions)
    {
      var first;
      ghost var sourceOrder, fallbackOrder;
      first, sourceOrder, fallbackOrder := FirstPath(layer, vars);
      if first.None? {
        w := Walk(sourceOrder, fallbackOrder, sourceOrder, sourceOrder, sourceOrder, []);
        return Some("no image source for layer " + layer.name), w;
      }
      var path := first.value;
      var ok, drawn;
      ghost var compared, retried;
      ok, drawn, compared, retried := LoadWithRetry(layer, vars, path);
      w := Walk(sourceOrder, fallbackOrder, compared, retried, sourceOrder, []);
      ImageRetried(layer, Substituted(layer.source, vars, sourceOrder), Substituted(layer.fallback, vars, fallbackOrder),
                   Substituted(layer.fallback, vars, compared), Substituted(layer.fallback, vars, retried),
                   vars, loads, revision, path);
      if !ok {
        canvas.Draw(DrawPlaceholder("Missing: " + Base(path), layer.region));
        return None, w;
      }
      var fit := FitFor(layer, vars);
      canvas.Draw(DrawImage(drawn, layer.region, fit));
      err := None;
    }

    method RenderTextLayer(canvas: Canvas, layer: Layer, vars: map<string, string>, icons: map<string, string>)
      returns (err: Option<string>, ghost contentOrder: seq<string>, ghost iconOrder: seq<string>)
      modifies canvas
      ensures IsKeyOrder(contentOrder, vars.Keys) && IsKeyOrder(iconOrder, icons.Keys)
      ensures Performed(TextOutcome(layer, Substituted(layer.content, vars, contentOrder), iconOrder),
                        err, old(canvas.actions), canvas.actions)
    {
      var content;
      content, contentOrder := SubstituteVariables(layer.content, vars);
      iconOrder := SomeOrder(icons.Keys);
      if content == "" {
        return None, contentOrder, iconOrder;
      }
      if layer.stripHeaders {
        content := StripMarkdownHeaders(content);
      }
      if layer.iconReplace {
        content, iconOrder := ProcessIconReplacements(content, icons);
      }
      var lines := ProcessMarkdown(content);
      assert lines == Markdown(content);
      canvas.Draw(DrawText(lines, layer.region, BaseFont(layer), layer.align));
      err := None;
    }

    /** renderLayer: a layer whose non-empty condition fails is skipped;
        any other is drawn by its type. */
    method RenderLayer(canvas: Canvas, layer: Layer, vars: map<string, string>, icons: map<string, string>)
      returns (err: Option<string>, ghost w: Walk)
      requires Valid()
      modifies this`imageCache, canvas
      ensures Valid()
      ensures WalkFits(vars, icons, w)
      ensures Performed(LayerOutcome(layer, vars, icons, loads, revision, w), err, old(canvas.actions), canvas.actions)
    {
      if layer.condition != "" {
        var holds := EvaluateCondition(layer.condition, vars);
        if !holds {
          w := IdleWalk(vars, icons);
          ConditionSkips(layer, vars, icons, loads, revision, w);
          return None, w;
        }
      }
      err, w := RenderByType(canvas, layer, vars, icons);
      ConditionSkips(layer, vars, icons, loads, revision, w);
    }

    /** The type switch of renderLayer. */
    method RenderByType(canvas: Canvas, layer: Layer, vars: map<string, string>, icons: map<string, string>)
      returns (err: Option<string>, ghost w: Walk)
      requires Valid()
      modifies this`imageCache, canvas
      ensures Valid()
      ensures WalkFits(vars, icons, w)
      ensures Performed(Dispatched(layer, vars, icons, loads, revision, w), err, old(canvas.actions), canvas.actions)
    {
      w := IdleWalk(vars, icons);
      if layer.layerType == "image" {
        ghost var iw;
        err, iw := RenderImageLayer(canvas, layer, vars);
        w := iw.(content := w.content, icons := w.icons);
      } else if layer.layerType == "text" {
        ghost var contentOrder, iconOrder;
        err, contentOrder, iconOrder := RenderTextLayer(canvas, layer, vars, icons);
        w := w.(content := contentOrder, icons := iconOrder);
      } else {
        err := Some("unknown layer type: " + layer.layerType);
      }
    }

    /** The card's variables, by the builder of this renderer's revision. */
    method BuildVariables(card: Metadata.Card, t: Template)
      returns (vars: map<string, string>, ghost o: Orders, ghost split: (string, string))
      ensures BuiltVars(revision, card, t, fmt, o, split, vars)
      ensures "template_dir" in vars && vars["template_dir"] == t.templateDir
      ensures "icon_dir" in vars && vars["icon_dir"] == JoinPath(t.templateDir, "icons")
    {
      if revision == Current {
        vars, o, split := BuildTemplateVariables(card, t, fmt);
      } else {
        vars, o, split := BuildLegacyVariables(card, t, fmt);
      }
    }

    /** The layer loop on a blank canvas: every layer in order until the
        first that fails. */
    method RenderLayers(canvas: Canvas, layers: seq<Layer>, vars: map<string, string>, icons: map<string, string>)
      returns (err: Option<string>, ghost walks: seq<Walk>)
      requires Valid() && canvas.actions == []
      modifies this`imageCache, canvas
      ensures Valid()
      ensures |walks| == |layers| && WalksFit(vars, icons, walks)
      ensures (canvas.actions, err) == Collect(layers, Outcomes(layers, vars, icons, loads, revision, walks))
    {
      walks := [];
      var i := 0;
      while i < |layers|
        invariant 0 <= i <= |layers|
        invariant Valid()
        invariant |walks| == i && WalksFit(vars, icons, walks)
        invariant Collect(layers[..i], Outcomes(layers[..i], vars, icons, loads, revision, walks)) == (canvas.actions, None)
      {
        var layerErr;
        ghost var w;
        ghost var before := canvas.actions;
        layerErr, w := RenderLayer(canvas, layers[i], vars, icons);
        assert layers[..i + 1][..i] == layers[..i];
        OutcomesSnoc(layers[..i + 1], vars, icons, loads, revision, walks, w);
        CollectSnoc(layers[..i + 1], Outcomes(layers[..i], vars, icons, loads, revision, walks),
                    LayerOutcome(layers[i], vars, icons, loads, revision, w), layerErr, before, canvas.actions);
        if layerErr.Some? {
          err := Some(LayerError(layers[i], layerErr.value));
          walks := Abandon(layers, vars, icons, loads, revision, walks + [w]);
          return;
        }
        walks := walks + [w];
        i := i + 1;
      }
      assert layers[..i] == layers;
      err := None;
    }

    /** RenderCard: a white canvas of the template's size, the card's
        variables, every layer in order until the first that fails, then the
        PNG written to `outputPath`. */
    method RenderCard(card: Metadata.Card, t: Template, outputPath: string)
      returns (canvas: Canvas, err: Option<string>,
               ghost vars: map<string, string>, ghost o: Orders, ghost split: (string, string), ghost walks: seq<Walk>)
      requires Valid()
      modifies this`imageCache
      ensures Valid()
      ensures fresh(canvas)
      ensures canvas.width == t.dimensions.width && canvas.height == t.dimensions.height
      ensures BuiltVars(revision, card, t, fmt, o, split, vars)
      ensures |walks| == |t.layers| && WalksFit(vars, t.icons, walks)
      ensures canvas.actions == Collect(t.layers, Outcomes(t.layers, vars, t.icons, loads, revision, walks)).0
      ensures err == match Collect(t.layers, Outcomes(t.layers, vars, t.icons, loads, revision, walks)).1
                     case Some(e) => Some(e)
                     case None => SaveError(outputPath, saves(outputPath))
    {
      canvas := new Canvas(t.dimensions.width, t.dimensions.height);
      var templateVars;
      templateVars, o, split := BuildVariables(card, t);
      vars := templateVars;
      var layerErr;
      layerErr, walks := RenderLayers(canvas, t.layers, templateVars, t.icons);
      if layerErr.Some? {
        return canvas, layerErr, vars, o, split, walks;
      }
      err := SaveError(outputPath, saves(outputPath));
    }
  }

  /** The outcomes of one more layer. */
  lemma OutcomesSnoc(layers: seq<Layer>, vars: map<string, string>, icons: map<string, string>,
                     loads: string -> bool, revision: Revision, walks: seq<Walk>, w: Walk)
    requires |layers| == |walks| + 1 && WalksFit(vars, icons, walks) && WalkFits(vars, icons, w)
    ensures WalksFit(vars, icons, walks + [w])
    ensures Outcomes(layers, vars, icons, loads, revision, walks + [w])
         == Outcomes(layers[..|walks|], vars, icons, loads, revision, walks) + [LayerOutcome(layers[|walks|], vars, icons, loads, revision, w)]
  {
  }

  /** One more layer, performed on top of the drawing of the layers before
      it. */
  lemma CollectSnoc(layers: seq<Layer>, results: seq<Result<seq<Action>, string>>, r: Result<seq<Action>, string>,
                    err: Option<string>, before: seq<Action>, after: seq<Action>)
    requires |layers| == |results| + 1
    requires Collect(layers[..|results|], results) == (before, None)
    requires Performed(r, err, before, after)
    ensures err.None? ==> Collect(layers, results + [r]) == (after, None)
    ensures err.Some? ==> Collect(layers, results + [r]) == (before, Some(LayerError(layers[|results|], err.value)))
  {
    assert (results + [r])[..|results|] == results;
  }

  /** The prefix of the outcomes is the outcomes of the prefix. */
  lemma OutcomesPrefix(layers: seq<Layer>, vars: map<string, string>, icons: map<string, string>,
                       loads: string -> bool, revision: Revision, walks: seq<Walk>, k: nat)
    requires |walks| == |layers| && WalksFit(vars, icons, walks) && k <= |layers|
    ensures WalksFit(vars, icons, walks[..k])
    ensures Outcomes(layers, vars, icons, loads, revision, walks)[..k]
         == Outcomes(layers[..k], vars, icons, loads, revision, walks[..k])
  {
  }

  /** Orders for the layers after the one that failed, which are never
      drawn. */
  lemma Abandon(layers: seq<Layer>, vars: map<string, string>, icons: map<string, string>,
                loads: string -> bool, revision: Revision, done: seq<Walk>) returns (walks: seq<Walk>)
    requires |done| <= |layers| && WalksFit(vars, icons, done)
    requires Collect(layers[..|done|], Outcomes(layers[..|done|], vars, icons, loads, revision, done)).1.Some?
    ensures |walks| == |layers| && WalksFit(vars, icons, walks)
    ensures Collect(layers, Outcomes(layers, vars, icons, loads, revision, walks))
         == Collect(layers[..|done|], Outcomes(layers[..|done|], vars, icons, loads, revision, done))
  {
    var rest := seq(|layers| - |done|, _ => IdleWalk(vars, icons));
    walks := done + rest;
    assert walks[..|done|] == done;
    Abort(layers, vars, icons, loads, revision, walks, |done|);
  }

  /** A card whose first k layers end in an error is that error, whatever
      the later layers would do. */
  lemma Abort(layers: seq<Layer>, vars: map<string, string>, icons: map<string, string>,
              loads: string -> bool, revision: Revision, walks: seq<Walk>, k: nat)
    requires |walks| == |layers| && WalksFit(vars, icons, walks) && k <= |layers|
    requires WalksFit(vars, icons, walks[..k])
    requires Collect(layers[..k], Outcomes(layers[..k], vars, icons, loads, revision, walks[..k])).1.Some?
    ensures Collect(layers, Outcomes(layers, vars, icons, loads, revision, walks))
         == Collect(layers[..k], Outcomes(layers[..k], vars, icons, loads, revision, walks[..k]))
  {
    OutcomesPrefix(layers, vars, icons, loads, revision, walks, k);
    ErrorSticks(layers, Outcomes(layers, vars, icons, loads, revision, walks), k);
  }

  /** What a drawing step did: on error nothing was drawn, otherwise the
      outcome's actions were appended. */
  ghost predicate Performed(outcome: Result<seq<Action>, string>, err: Option<string>,
                            before: seq<Action>, after: seq<Action>)
  {
    match outcome
    case Err(e) => err == Some(e) && after == before
    case Ok(actions) => err.None? && after == before + actions
  }
}
