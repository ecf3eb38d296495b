/**
 * The texture compositor `generateTextTexture`: paints a background, every
 * image layer and an optional text onto a square canvas and wraps it as a
 * texture. The canvas is modelled as the ordered list of 2D-context commands
 * the function issues; rasterisation is not modelled, and a rotation stays
 * an opaque angle in degrees.
 */
module Compositor {
  import opened Wrappers
  import opened Customization

  /** Natural size, in pixels, of a decoded image. */
  datatype Size = Size(width: nat, height: nat)

  /** The image loader: `None` when the image fails to load or decode. */
  type Loader = string -> Option<Size>

  datatype Wrapping = ClampToEdge | RepeatWrapping | MirroredRepeat

  datatype Vec2 = Vec2(x: real, y: real)

  /**
   * One call on the canvas' 2D context. Fill, ClearRect and the texts are
   * drawn at the origin; a `DrawImage` names the image it paints by the URL
   * it was loaded from.
   */
  datatype Command =
    | Scale(factor: real)
    | ClearRect(w: real, h: real)
    | Save
    | Restore
    | Fill(color: string, w: real, h: real)
    | Translate(dx: real, dy: real)
    | RotateDeg(degrees: real)
    | DrawImage(src: string, x: real, y: real, w: real, h: real)
    /** `ctx.font`: always bold, at `px` pixels in `family`; the weight is fixed and not recorded. */
    | SetFont(px: real, family: string)
    | StrokeText(text: string, style: string, lineWidth: real, x: real, y: real)
    | FillText(text: string, style: string, x: real, y: real)

  predicate IsText(c: Command) {
    c.StrokeText? || c.FillText?
  }

  /** A canvas texture: the canvas (side length and paint commands) and the sampler fields. */
  datatype Texture = Texture(
    side: int, commands: seq<Command>,
    flipY: bool, wrapS: Wrapping, wrapT: Wrapping,
    repeat: Vec2, offset: Vec2, needsUpdate: bool)

  /** The options record; `None` is a field the caller left undefined. */
  datatype TextOptions = TextOptions(
    text: string, font: Option<string>, textColor: Option<string>, bgColor: Option<string>,
    x: Option<real>, y: Option<real>, rotation: Option<real>, size: Option<real>,
    images: Option<seq<CustomImage>>, scale: Option<real>)

  /** The options after the destructuring defaults have been applied. */
  datatype Settings = Settings(
    text: string, font: string, textColor: string, bgColor: string,
    x: real, y: real, rotation: real, size: real,
    images: seq<CustomImage>, scale: real)

  function Resolve(o: TextOptions): Settings {
    Settings(
      o.text, o.font.GetOr("Arial"), o.textColor.GetOr("#FFFFFF"), o.bgColor.GetOr("#000000"),
      o.x.GetOr(256.0), o.y.GetOr(256.0), o.rotation.GetOr(0.0), o.size.GetOr(64.0),
      o.images.GetOr([]), o.scale.GetOr(1.0))
  }

  /** The canvas side: `512 * scale`, truncated to an integer when assigned to `canvas.width`. */
  function CanvasSide(scale: real): (side: int)
    requires scale > 0.0
    ensures 0 <= side && side as real <= 512.0 * scale < side as real + 1.0
  {
    (512.0 * scale).Floor
  }

  /** Context scaling, clearing and the background fill that open every texture. */
  function Header(s: Settings): seq<Command>
    requires s.scale > 0.0
  {
    var side := CanvasSide(s.scale) as real;
    [Scale(s.scale), ClearRect(side, side), Save, Fill(s.bgColor, side / s.scale, side / s.scale), Restore]
  }

  /**
   * A coordinate or factor multiplied by `scale`, as the source writes it.
   * The context is already scaled by `scale` at this point, so the product
   * is scaled twice on the canvas.
   */
  function Px(v: real, scale: real): real {
    v * scale
  }

  /** The commands that paint one image layer of natural size `size`. */
  function ImageBlock(image: CustomImage, size: Size, scale: real): seq<Command> {
    var t := image.transform;
    var w, h := size.width as real, size.height as real;
    [Save,
     Translate(Px(t.x + 256.0, scale), Px(t.y + 256.0, scale)),
     RotateDeg(t.rotation),
     Scale(Px(t.scale, scale)),
     DrawImage(image.url, -w / 2.0, -h / 2.0, w, h),
     Restore]
  }

  /** The image layers painted in list order; `None` as soon as one of them fails to load. */
  function ImagePlan(images: seq<CustomImage>, scale: real, load: Loader): Option<seq<Command>>
    decreases |images|
  {
    if images == [] then Some([])
    else
      var last := images[|images| - 1];
      match ImagePlan(images[..|images| - 1], scale, load)
      case None => None
      case Some(painted) =>
        match load(last.url)
        case None => None
        case Some(size) => Some(painted + ImageBlock(last, size, scale))
  }

  /** The bold, centred text: stroked in white, then filled in the text colour. */
  function TextBlock(s: Settings): seq<Command> {
    [Save,
     Translate(Px(s.x, s.scale), Px(s.y, s.scale)),
     RotateDeg(s.rotation),
     SetFont(Px(s.size, s.scale), s.font),
     StrokeText(s.text, "#FFFFFF", 4.0 * s.scale, 0.0, 0.0),
     FillText(s.text, s.textColor, 0.0, 0.0),
     Restore]
  }

  function TextPart(s: Settings): seq<Command> {
    if s.text != "" then TextBlock(s) else []
  }

  /** What `generateTextTexture` resolves to; `None` is the rejected promise. */
  function Plan(o: TextOptions, load: Loader): Option<Texture>
    requires Resolve(o).scale > 0.0
  {
    var s := Resolve(o);
    match ImagePlan(s.images, s.scale, load)
    case None => None
    case Some(painted) =>
      Some(Texture(CanvasSide(s.scale), Header(s) + painted + TextPart(s),
                   false, ClampToEdge, ClampToEdge, Vec2(1.0, 1.0), Vec2(0.0, 0.0), true))
  }

  /** `generateTextTexture`, appending each context call to a command buffer. */
  method GenerateTextTexture(opts: TextOptions, load: Loader) returns (r: Option<Texture>)
    requires Resolve(opts).scale > 0.0
    ensures r == Plan(opts, load)
  {
    var s := Resolve(opts);
    var side := CanvasSide(s.scale);
    var commands: seq<Command> := [Scale(s.scale), ClearRect(side as real, side as real)];
    // the background, inside its own save / restore
    commands := commands + [Save, Fill(s.bgColor, side as real / s.scale, side as real / s.scale), Restore];
    ghost var header := commands;
    assert header == Header(s);
    ghost var painted: seq<Command> := [];
    for i := 0 to |s.images|
      invariant ImagePlan(s.images[..i], s.scale, load) == Some(painted)
      invariant commands == header + painted
    {
      var image := s.images[i];
      var img := load(image.url);
      if img.None? {
        LoadFailureRejects(s.images, s.scale, load, i);
        return None;
      }
      var size: Size := img.value;
      var t := image.transform;
      var w, h := size.width as real, size.height as real;
      var block := [
        Save,
        Translate(Px(t.x + 256.0, s.scale), Px(t.y + 256.0, s.scale)),
        RotateDeg(t.rotation),
        Scale(Px(t.scale, s.scale)),
        DrawImage(image.url, -w / 2.0, -h / 2.0, w, h),
        Restore];
      assert block == ImageBlock(image, size, s.scale);
      ImagePlanSnoc(s.images, i, s.scale, load);
      commands := commands + block;
      painted := painted + block;
    }
    assert s.images[..|s.images|] == s.images;
    ghost var front := commands;
    if s.text != "" {
      var text := [
        Save,
        Translate(Px(s.x, s.scale), Px(s.y, s.scale)),
        RotateDeg(s.rotation),
        SetFont(Px(s.size, s.scale), s.font),
        StrokeText(s.text, "#FFFFFF", 4.0 * s.scale, 0.0, 0.0),
        FillText(s.text, s.textColor, 0.0, 0.0),
        Restore];
      assert text == TextPart(s);
      commands := commands + text;
    }
    assert commands == front + TextPart(s);
    r := Some(Texture(side, commands, false, ClampToEdge, ClampToEdge, Vec2(1.0, 1.0), Vec2(0.0, 0.0), true));
  }

  /** Painting one more layer extends the plan of the layers before it. */
  lemma ImagePlanSnoc(images: seq<CustomImage>, i: int, scale: real, load: Loader)
    requires 0 <= i < |images|
    requires ImagePlan(images[..i], scale, load).Some? && load(images[i].url).Some?
    ensures ImagePlan(images[..i + 1], scale, load) ==
            Some(ImagePlan(images[..i], scale, load).value + ImageBlock(images[i], load(images[i].url).value, scale))
  {
    assert images[..i + 1][..i] == images[..i];
  }

  // ---------------------------------------------------------------------
  // Loading failures
  // ---------------------------------------------------------------------

  /** The image plan fails exactly when some layer's URL fails to load. */
  lemma {:induction false} ImagePlanFailsIff(images: seq<CustomImage>, scale: real, load: Loader)
    ensures ImagePlan(images, scale, load).None? <==>
            exists i :: 0 <= i < |images| && load(images[i].url).None?
    decreases |images|
  {
    if images != [] {
      var n := |images| - 1;
      var prefix := images[..n];
      ImagePlanFailsIff(prefix, scale, load);
      if ImagePlan(images, scale, load).None? {
        if ImagePlan(prefix, scale, load).None? {
          var i :| 0 <= i < |prefix| && load(prefix[i].url).None?;
          assert images[i] == prefix[i];
        } else {
          assert load(images[n].url).None?;
        }
      } else {
        forall i | 0 <= i < |images| ensures load(images[i].url).Some? {
          if i < n { assert images[i] == prefix[i]; }
        }
      }
    }
  }

  lemma LoadFailureRejects(images: seq<CustomImage>, scale: real, load: Loader, i: int)
    requires 0 <= i < |images| && load(images[i].url).None?
    ensures ImagePlan(images, scale, load).None?
  {
    ImagePlanFailsIff(images, scale, load);
  }

  /** If any image URL fails to load, the whole call fails and no texture is returned; otherwise it succeeds. */
  lemma PlanFailsIff(o: TextOptions, load: Loader)
    requires Resolve(o).scale > 0.0
    ensures Plan(o, load).None? <==>
            exists i :: 0 <= i < |Resolve(o).images| && load(Resolve(o).images[i].url).None?
  {
    ImagePlanFailsIff(Resolve(o).images, Resolve(o).scale, load);
  }

  // ---------------------------------------------------------------------
  // Canvas and background
  // ---------------------------------------------------------------------

  /**
   * The canvas is square with side `512 * scale` truncated, the background
   * fill (the first and only fill) is in `bgColor` and covers the canvas
   * exactly, and `bgColor` and `scale` default to "#000000" and 1.0.
   */
  lemma {:induction false} PlanBackground(o: TextOptions, load: Loader)
    requires Resolve(o).scale > 0.0
    requires Plan(o, load).Some?
    ensures var s, t := Resolve(o), Plan(o, load).value;
      && t.side == CanvasSide(s.scale)
      && t.side as real <= 512.0 * s.scale < t.side as real + 1.0
      && |t.commands| >= 5
      && t.commands[3] == Fill(s.bgColor, t.side as real / s.scale, t.side as real / s.scale)
      && t.commands[3].w * s.scale == t.side as real
      && (forall k :: 0 <= k < |t.commands| && t.commands[k].Fill? ==> k == 3)
      && (o.bgColor.None? ==> t.commands[3].color == "#000000")
      && (o.scale.None? ==> t.side == 512 && t.commands[3] == Fill(s.bgColor, 512.0, 512.0))
  {
    var s, t := Resolve(o), Plan(o, load).value;
    var painted := ImagePlan(s.images, s.scale, load).value;
    ImagePlanKinds(s.images, s.scale, load);
    var hd := Header(s);
    assert t.commands == hd + painted + TextPart(s);
    forall k | 0 <= k < |t.commands| && k != 3 ensures !t.commands[k].Fill? {
      if k < 5 {
        assert t.commands[k] == hd[k];
      } else if k < 5 + |painted| {
        assert t.commands[k] == painted[k - 5];
      } else {
        assert t.commands[k] == TextPart(s)[k - 5 - |painted|];
      }
    }
  }

  /** With an integral side (`scale` 1.0 on desktop) the fill covers the logical 512x512 area. */
  lemma IntegralSideFillsLogicalArea(o: TextOptions, load: Loader)
    requires Resolve(o).scale > 0.0 && Plan(o, load).Some?
    requires CanvasSide(Resolve(o).scale) as real == 512.0 * Resolve(o).scale
    ensures Plan(o, load).value.commands[3] == Fill(Resolve(o).bgColor, 512.0, 512.0)
  {
    var sc := Resolve(o).scale;
    var side := CanvasSide(sc) as real;
    assert side / sc == 512.0 by {
      assert side == 512.0 * sc;
      assert (512.0 * sc) / sc == 512.0;
    }
  }

  /** On the mobile scale 0.7 the canvas is 358 pixels wide: 512 * 0.7 = 358.4 is truncated. */
  lemma MobileCanvasIsTruncated()
    ensures CanvasSide(0.7) == 358
  {
  }

  // ---------------------------------------------------------------------
  // Image layers
  // ---------------------------------------------------------------------

  lemma HeaderKinds(s: Settings)
    requires s.scale > 0.0
    ensures forall k :: 0 <= k < |Header(s)| ==> !IsText(Header(s)[k]) && !Header(s)[k].DrawImage?
  {
  }

  predicate IsImageStep(c: Command) {
    c.Save? || c.Restore? || c.Translate? || c.RotateDeg? || c.Scale? || c.DrawImage?
  }

  /** The image part consists of saves, restores, transforms and draws only. */
  lemma {:induction false} ImagePlanKinds(images: seq<CustomImage>, scale: real, load: Loader)
    requires ImagePlan(images, scale, load).Some?
    ensures var cs := ImagePlan(images, scale, load).value;
      forall k :: 0 <= k < |cs| ==> IsImageStep(cs[k])
    decreases |images|
  {
    if images != [] {
      var n := |images| - 1;
      ImagePlanKinds(images[..n], scale, load);
      var ps := ImagePlan(images[..n], scale, load).value;
      var block := ImageBlock(images[n], load(images[n].url).value, scale);
      forall k | 0 <= k < |ps| + |block| ensures IsImageStep((ps + block)[k]) {
        if k >= |ps| { assert (ps + block)[k] == block[k - |ps|]; }
      }
    }
  }

  /**
   * Layer `i` is painted by the six commands at positions 6i .. 6i+6, in
   * list order: save, translate to the shifted centre, rotate, scale,
   * draw centred at natural size, restore.
   */
  lemma {:induction false} ImagePlanBlocks(images: seq<CustomImage>, scale: real, load: Loader)
    requires ImagePlan(images, scale, load).Some?
    ensures var cs := ImagePlan(images, scale, load).value;
      && |cs| == 6 * |images|
      && forall i :: 0 <= i < |images| ==>
           && load(images[i].url).Some?
           && cs[6 * i .. 6 * i + 6] == ImageBlock(images[i], load(images[i].url).value, scale)
    decreases |images|
  {
    if images != [] {
      var n := |images| - 1;
      var prefix := images[..n];
      ImagePlanBlocks(prefix, scale, load);
      var cs := ImagePlan(images, scale, load).value;
      var ps := ImagePlan(prefix, scale, load).value;
      assert cs == ps + ImageBlock(images[n], load(images[n].url).value, scale);
      forall i | 0 <= i < |images|
        ensures load(images[i].url).Some?
        ensures cs[6 * i .. 6 * i + 6] == ImageBlock(images[i], load(images[i].url).value, scale)
      {
        if i < n {
          assert images[i] == prefix[i];
          assert cs[6 * i .. 6 * i + 6] == ps[6 * i .. 6 * i + 6];
        } else {
          assert cs[6 * i .. 6 * i + 6] == cs[|ps|..];
        }
      }
    }
  }

  /** The draw commands of a command list, in order. */
  function Draws(cs: seq<Command>): seq<Command> {
    if cs == [] then []
    else (if cs[0].DrawImage? then [cs[0]] else []) + Draws(cs[1..])
  }

  lemma {:induction false} DrawsAppend(a: seq<Command>, b: seq<Command>)
    ensures Draws(a + b) == Draws(a) + Draws(b)
  {
    if a != [] {
      assert (a + b)[0] == a[0];
      assert (a + b)[1..] == a[1..] + b;
      DrawsAppend(a[1..], b);
      assert Draws(a + b) == (if a[0].DrawImage? then [a[0]] else []) + Draws(a[1..] + b);
      assert Draws(a) == (if a[0].DrawImage? then [a[0]] else []) + Draws(a[1..]);
    } else {
      assert a + b == b;
    }
  }

  lemma {:induction false} DrawsNone(cs: seq<Command>)
    requires forall k :: 0 <= k < |cs| ==> !cs[k].DrawImage?
    ensures Draws(cs) == []
  {
    if cs != [] {
      DrawsNone(cs[1..]);
    }
  }

  lemma DrawsOfBlock(image: CustomImage, size: Size, scale: real)
    ensures Draws(ImageBlock(image, size, scale)) == [DrawOf(image.url, size)]
  {
    var block := ImageBlock(image, size, scale);
    assert block == block[..4] + [block[4]] + [block[5]];
    DrawsAppend(block[..4] + [block[4]], [block[5]]);
    DrawsAppend(block[..4], [block[4]]);
    DrawsNone(block[..4]);
    DrawsNone([block[5]]);
    assert Draws([block[4]]) == [block[4]];
  }

  /** The draw of one layer: centred on the current origin, at natural size. */
  function DrawOf(src: string, size: Size): Command {
    DrawImage(src, -(size.width as real) / 2.0, -(size.height as real) / 2.0, size.width as real, size.height as real)
  }

  /** Every layer is drawn exactly once, in list order. */
  lemma {:induction false} ImagePlanDraws(images: seq<CustomImage>, scale: real, load: Loader)
    requires ImagePlan(images, scale, load).Some?
    ensures var ds := Draws(ImagePlan(images, scale, load).value);
      && |ds| == |images|
      && forall i :: 0 <= i < |images| ==> load(images[i].url).Some? && ds[i] == DrawOf(images[i].url, load(images[i].url).value)
    decreases |images|
  {
    if images != [] {
      var n := |images| - 1;
      var prefix := images[..n];
      ImagePlanDraws(prefix, scale, load);
      var ps := ImagePlan(prefix, scale, load).value;
      var size := load(images[n].url).value;
      var block := ImageBlock(images[n], size, scale);
      DrawsAppend(ps, block);
      DrawsOfBlock(images[n], size, scale);
      forall i | 0 <= i < n ensures load(images[i].url).Some? && Draws(ImagePlan(images, scale, load).value)[i] == DrawOf(images[i].url, load(images[i].url).value) {
        assert images[i] == prefix[i];
      }
    }
  }

  /** The layer order is visible in the plan: two layers from different URLs painted in either order differ. */
  lemma LayerOrderMatters(first: CustomImage, second: CustomImage, scale: real, load: Loader)
    requires first.url != second.url
    requires load(first.url).Some? && load(second.url).Some?
    ensures ImagePlan([first, second], scale, load).Some? && ImagePlan([second, first], scale, load).Some?
    ensures ImagePlan([first, second], scale, load) != ImagePlan([second, first], scale, load)
  {
    ImagePlanFailsIff([first, second], scale, load);
    ImagePlanFailsIff([second, first], scale, load);
    ImagePlanDraws([first, second], scale, load);
    ImagePlanDraws([second, first], scale, load);
  }

  /** The only draws of a texture are the layers', one per layer in list order; no layers leaves only the background (and text). */
  lemma PlanDraws(o: TextOptions, load: Loader)
    requires Resolve(o).scale > 0.0 && Plan(o, load).Some?
    ensures var s, ds := Resolve(o), Draws(Plan(o, load).value.commands);
      && |ds| == |s.images|
      && (forall i :: 0 <= i < |s.images| ==> load(s.images[i].url).Some? && ds[i] == DrawOf(s.images[i].url, load(s.images[i].url).value))
      && (forall i :: 0 <= i < |s.images| ==> ds[i].src == s.images[i].url)
      && (s.images == [] ==> Plan(o, load).value.commands == Header(s) + TextPart(s))
  {
    var s := Resolve(o);
    var painted := ImagePlan(s.images, s.scale, load).value;
    assert Plan(o, load).value.commands == Header(s) + painted + TextPart(s);
    ImagePlanDraws(s.images, s.scale, load);
    OnlyLayersDraw(s, painted);
    if s.images == [] {
      assert painted == [];
      assert Header(s) + painted + TextPart(s) == Header(s) + TextPart(s);
    }
  }

  /** Neither the header nor the text draws an image. */
  lemma OnlyLayersDraw(s: Settings, painted: seq<Command>)
    requires s.scale > 0.0
    ensures Draws(Header(s) + painted + TextPart(s)) == Draws(painted)
  {
    var hd, tp := Header(s), TextPart(s);
    DrawsAppend(hd + painted, tp);
    DrawsAppend(hd, painted);
    HeaderKinds(s);
    DrawsNone(hd);
    DrawsNone(tp);
  }

  // ---------------------------------------------------------------------
  // Save / restore nesting
  // ---------------------------------------------------------------------

  /** The context's transform (the transform calls since the last save) and the saved stack. */
  datatype Ctx = Ctx(transform: seq<Command>, saved: seq<seq<Command>>)

  /** One step of the context's state; `None` when a restore finds nothing saved. */
  function StepCtx(c: Ctx, cmd: Command): Option<Ctx> {
    match cmd
    case Save => Some(Ctx(c.transform, c.saved + [c.transform]))
    case Restore =>
      if c.saved == [] then None
      else Some(Ctx(c.saved[|c.saved| - 1], c.saved[..|c.saved| - 1]))
    case Translate(_, _) => Some(c.(transform := c.transform + [cmd]))
    case RotateDeg(_) => Some(c.(transform := c.transform + [cmd]))
    case Scale(_) => Some(c.(transform := c.transform + [cmd]))
    case _ => Some(c)
  }

  function Replay(c: Ctx, cs: seq<Command>): Option<Ctx>
    decreases |cs|
  {
    if cs == [] then Some(c)
    else match StepCtx(c, cs[0])
      case None => None
      case Some(c') => Replay(c', cs[1..])
  }

  lemma {:induction false} ReplayAppend(c: Ctx, a: seq<Command>, b: seq<Command>)
    ensures Replay(c, a + b) == (match Replay(c, a) case None => None case Some(c') => Replay(c', b))
    decreases |a|
  {
    if a != [] {
      assert (a + b)[0] == a[0];
      assert (a + b)[1..] == a[1..] + b;
      match StepCtx(c, a[0])
      case None =>
      case Some(c1) => ReplayAppend(c1, a[1..], b);
    } else {
      assert a + b == b;
    }
  }

  lemma ReplaySingle(c: Ctx, x: Command)
    ensures Replay(c, [x]) == StepCtx(c, x)
  {
    assert [x][1..] == [];
  }

  /** Every image block leaves the context's transform and stack as it found them. */
  lemma {:induction false} ImagePlanRestores(c: Ctx, images: seq<CustomImage>, scale: real, load: Loader)
    requires ImagePlan(images, scale, load).Some?
    ensures Replay(c, ImagePlan(images, scale, load).value) == Some(c)
    decreases |images|
  {
    if images != [] {
      var n := |images| - 1;
      ImagePlanRestores(c, images[..n], scale, load);
      var ps := ImagePlan(images[..n], scale, load).value;
      var block := ImageBlock(images[n], load(images[n].url).value, scale);
      ReplayAppend(c, ps, block);
      BlockRestores(c, block);
    }
  }

  /** A block that opens with Save and closes with Restore, with only transform calls or paints in between, restores the context. */
  lemma BlockRestores(c: Ctx, block: seq<Command>)
    requires |block| >= 2 && block[0] == Save && block[|block| - 1] == Restore
    requires forall k :: 0 < k < |block| - 1 ==> !block[k].Save? && !block[k].Restore?
    ensures Replay(c, block) == Some(c)
  {
    var inner := block[1..|block| - 1];
    var entered := Ctx(c.transform, c.saved + [c.transform]);
    assert forall k :: 0 <= k < |inner| ==> inner[k] == block[k + 1];
    InnerKeepsStack(entered, inner);
    assert block == [Save] + inner + [Restore];
    ReplayAppend(c, [Save], inner + [Restore]);
    ReplaySingle(c, Save);
    var mid := Replay(entered, inner).value;
    ReplayAppend(entered, inner, [Restore]);
    ReplaySingle(mid, Restore);
    assert StepCtx(mid, Restore) == Some(c);
    assert Replay(entered, inner + [Restore]) == Some(c);
    assert Replay(c, [Save]) == Some(entered);
    assert Replay(c, [Save] + (inner + [Restore])) == Some(c);
    assert [Save] + (inner + [Restore]) == block;
  }

  lemma {:induction false} InnerKeepsStack(c: Ctx, cs: seq<Command>)
    requires forall k :: 0 <= k < |cs| ==> !cs[k].Save? && !cs[k].Restore?
    ensures Replay(c, cs).Some? && Replay(c, cs).value.saved == c.saved
    decreases |cs|
  {
    if cs != [] {
      var c1 := StepCtx(c, cs[0]).value;
      InnerKeepsStack(c1, cs[1..]);
    }
  }

  /**
   * Every Save of a texture is matched by a later Restore and no Restore
   * is unmatched: replayed from a fresh context, only the opening
   * `ctx.scale(scale, scale)` is left in force and nothing stays saved.
   */
  lemma PlanBalanced(o: TextOptions, load: Loader)
    requires Resolve(o).scale > 0.0 && Plan(o, load).Some?
    ensures Replay(Ctx([], []), Plan(o, load).value.commands) == Some(Ctx([Scale(Resolve(o).scale)], []))
  {
    var s := Resolve(o);
    var hd, painted, tp := Header(s), ImagePlan(s.images, s.scale, load).value, TextPart(s);
    var start, scaled := Ctx([], []), Ctx([Scale(s.scale)], []);
    assert Plan(o, load).value.commands == hd + painted + tp;
    HeaderReplay(s);
    ImagePlanRestores(scaled, s.images, s.scale, load);
    TextPartRestores(scaled, s);
    ReplayAppend(start, hd, painted);
    ReplayAppend(start, hd + painted, tp);
  }

  /** The header leaves only the opening scale in force. */
  lemma HeaderReplay(s: Settings)
    requires s.scale > 0.0
    ensures Replay(Ctx([], []), Header(s)) == Some(Ctx([Scale(s.scale)], []))
  {
    var start, scaled := Ctx([], []), Ctx([Scale(s.scale)], []);
    var hd := Header(s);
    assert hd == [hd[0], hd[1]] + hd[2..];
    BlockRestores(scaled, hd[2..]);
    ReplayAppend(start, [hd[0], hd[1]], hd[2..]);
    assert Replay(start, [hd[0], hd[1]]) == Some(scaled) by {
      ReplayAppend(start, [hd[0]], [hd[1]]);
      ReplaySingle(start, hd[0]);
      ReplaySingle(scaled, hd[1]);
      assert start.transform + [hd[0]] == [Scale(s.scale)];
      assert [hd[0], hd[1]] == [hd[0]] + [hd[1]];
    }
  }

  lemma TextPartRestores(c: Ctx, s: Settings)
    ensures Replay(c, TextPart(s)) == Some(c)
  {
    if s.text != "" {
      BlockRestores(c, TextBlock(s));
    }
  }

  // ---------------------------------------------------------------------
  // Text
  // ---------------------------------------------------------------------

  /**
   * A texture carries text commands if and only if `text` is non-empty;
   * then the text block closes the plan, with the white stroke before the
   * fill in `textColor`, both at the translated origin.
   */
  lemma PlanText(o: TextOptions, load: Loader)
    requires Resolve(o).scale > 0.0 && Plan(o, load).Some?
    ensures var s, cs := Resolve(o), Plan(o, load).value.commands;
      && ((exists k :: 0 <= k < |cs| && IsText(cs[k])) <==> s.text != "")
      && (s.text != "" ==>
            && |cs| >= 7
            && cs[|cs| - 7 ..] == TextBlock(s)
            && cs[|cs| - 3] == StrokeText(s.text, "#FFFFFF", 4.0 * s.scale, 0.0, 0.0)
            && cs[|cs| - 2] == FillText(s.text, s.textColor, 0.0, 0.0)
            && forall k :: 0 <= k < |cs| && IsText(cs[k]) ==> k == |cs| - 3 || k == |cs| - 2)
  {
    var s := Resolve(o);
    var hd, painted := Header(s), ImagePlan(s.images, s.scale, load).value;
    assert Plan(o, load).value.commands == (hd + painted) + TextPart(s);
    ImagePlanKinds(s.images, s.scale, load);
    HeaderKinds(s);
    forall k | 0 <= k < |hd + painted| ensures !IsText((hd + painted)[k]) {
      if k >= |hd| { assert (hd + painted)[k] == painted[k - |hd|]; }
    }
    TextCloses(hd + painted, s);
  }

  /** Text appended after a text-free prefix is the only text, and closes the list. */
  lemma TextCloses(front: seq<Command>, s: Settings)
    requires forall k :: 0 <= k < |front| ==> !IsText(front[k])
    ensures var cs := front + TextPart(s);
      && ((exists k :: 0 <= k < |cs| && IsText(cs[k])) <==> s.text != "")
      && (s.text != "" ==>
            && |cs| >= 7
            && cs[|cs| - 7 ..] == TextBlock(s)
            && cs[|cs| - 3] == StrokeText(s.text, "#FFFFFF", 4.0 * s.scale, 0.0, 0.0)
            && cs[|cs| - 2] == FillText(s.text, s.textColor, 0.0, 0.0)
            && forall k :: 0 <= k < |cs| && IsText(cs[k]) ==> k == |cs| - 3 || k == |cs| - 2)
  {
    var cs := front + TextPart(s);
    if s.text != "" {
      assert cs[|cs| - 7 ..] == TextBlock(s);
      assert IsText(cs[|cs| - 3]);
      forall k | 0 <= k < |cs| && IsText(cs[k]) ensures k == |cs| - 3 || k == |cs| - 2 {
        if k >= |front| { assert cs[k] == TextBlock(s)[k - |front|]; }
      }
    } else {
      assert cs == front;
    }
  }

  /** A returned texture is not flipped and is clamped to the edge on both axes. */
  lemma PlanSampler(o: TextOptions, load: Loader)
    requires Resolve(o).scale > 0.0 && Plan(o, load).Some?
    ensures var t := Plan(o, load).value;
      !t.flipY && t.wrapS == ClampToEdge && t.wrapT == ClampToEdge && t.needsUpdate
  {
  }
}
