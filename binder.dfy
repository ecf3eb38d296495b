/**
 * The material binder: the effect body of the glove model that paints each
 * zone mesh of the loaded scene with its colour and, where the zone has
 * image layers, with a texture composited from them.
 *
 * The scene is a table from mesh name to the mesh's material (`None` for a
 * mesh without one); a material is a mutable object and two names may share
 * one. The pure functions `Step` and `RunCalls` say what one zone call and
 * the awaited chain of nine do to the materials' fields; the methods
 * `ApplyColor` and `ApplyMaterials` perform the updates in place and are
 * proved to do exactly that.
 */
module MaterialBinder {
  import opened Wrappers
  import opened Customization
  import opened Compositor
  import Uploader

  /** A material of a zone mesh: the fields the binder writes (`colorMap` is three.js' `material.map`). */
  class Material {
    var color: string
    var colorMap: Option<Texture>
    var needsUpdate: bool
    /** Whether the material has a `color` property at all. */
    const hasColor: bool

    constructor (hasColor: bool, color: string, colorMap: Option<Texture>, needsUpdate: bool)
      ensures this.hasColor == hasColor && this.color == color
      ensures this.colorMap == colorMap && this.needsUpdate == needsUpdate
    {
      this.hasColor := hasColor;
      this.color := color;
      this.colorMap := colorMap;
      this.needsUpdate := needsUpdate;
    }

    function State(): MatState
      reads this
    {
      MatState(color, colorMap, needsUpdate)
    }
  }

  /** The value of a material's written fields. */
  datatype MatState = MatState(color: string, colorMap: Option<Texture>, needsUpdate: bool)

  /** Mesh name to the mesh's material; a name that is absent has no mesh. */
  type Scene = map<string, Option<Material>>

  /** The fields of every material, by material object. */
  type Materials = map<Material, MatState>

  function MaterialsOf(scene: Scene): set<Material> {
    set n | n in scene && scene[n].Some? :: scene[n].value
  }

  function Snapshot(scene: Scene): (r: Materials)
    reads MaterialsOf(scene)
    ensures r.Keys == MaterialsOf(scene)
  {
    map m | m in MaterialsOf(scene) :: m.State()
  }

  /** The material a zone call writes: the mesh exists, has a material, and that material has a colour. */
  function Target(scene: Scene, name: string): (r: Option<Material>)
    ensures r.Some? <==> name in scene && scene[name].Some? && scene[name].value.hasColor
    ensures r.Some? ==> r.value in MaterialsOf(scene) && r.value.hasColor
  {
    if name in scene && scene[name].Some? && scene[name].value.hasColor then scene[name] else None
  }

  /** One `applyColor(name, color, images)` call. */
  datatype ZoneCall = ZoneCall(name: string, color: string, images: seq<CustomImage>)

  /** The nine awaited calls of `applyMaterials`, in order; zones called without a list get `[]`. */
  function ZoneCalls(glove: GloveColors, custom: CustomImages): seq<ZoneCall> {
    [ZoneCall("Fingers", glove.fingers, []),
     ZoneCall("Inner Palm", glove.innerPalm, []),
     ZoneCall("Outer Palm", glove.outerPalm, ImagesOf(custom, "OutterPalm")),
     ZoneCall("Inner Thumb", glove.innerThumb, []),
     ZoneCall("Outer Thumb", glove.outerThumb, ImagesOf(custom, "OutterThumb")),
     ZoneCall("Strap", glove.strap, ImagesOf(custom, "Strap")),
     ZoneCall("Wrist", glove.wrist, []),
     ZoneCall("Wrist Outline", glove.wristOutline, ImagesOf(custom, "WristOutline")),
     ZoneCall("Outline", glove.outline, [])]
  }

  /**
   * Every zone the uploader offers is composed onto a mesh: its image list
   * is the one the call for that zone's mesh passes to the compositor. The
   * "WristOutline" list is composed on the "Wrist Outline" mesh too, but the
   * uploader never fills it.
   */
  lemma UploadZonesAreComposed(glove: GloveColors, custom: CustomImages)
    ensures forall z :: z in Uploader.AvailableZones ==>
              exists k :: 0 <= k < |ZoneCalls(glove, custom)| &&
                ZoneCalls(glove, custom)[k].name == MeshOf(z) && ZoneCalls(glove, custom)[k].images == ImagesOf(custom, z)
    ensures ZoneCalls(glove, custom)[7].name == MeshOf("WristOutline")
    ensures ZoneCalls(glove, custom)[7].images == ImagesOf(custom, "WristOutline")
    ensures "WristOutline" !in Uploader.AvailableZones
  {
    var calls := ZoneCalls(glove, custom);
    forall z | z in Uploader.AvailableZones
      ensures exists k :: 0 <= k < |calls| && calls[k].name == MeshOf(z) && calls[k].images == ImagesOf(custom, z)
    {
      if z == "OutterPalm" {
        assert calls[2].name == MeshOf(z) && calls[2].images == ImagesOf(custom, z);
      } else if z == "OutterThumb" {
        assert calls[4].name == MeshOf(z) && calls[4].images == ImagesOf(custom, z);
      } else {
        assert calls[5].name == MeshOf(z) && calls[5].images == ImagesOf(custom, z);
      }
    }
  }

  /** The composition scale: 0.7 on a window narrower than 768 pixels, 1.0 otherwise. */
  function TextureScale(innerWidth: int): real {
    if innerWidth < 768 then 0.7 else 1.0
  }

  /** The options the binder passes to the compositor: no text, the zone colour as background. */
  function ZoneOptions(call: ZoneCall, innerWidth: int): TextOptions {
    TextOptions("", None, None, Some(call.color), None, None, None, None,
                Some(call.images), Some(TextureScale(innerWidth)))
  }

  /** The zone's texture after the binder has set its wrapping, repeat and offset; `None` when composition fails. */
  function TextureFor(call: ZoneCall, innerWidth: int, load: Loader): Option<Texture> {
    match Plan(ZoneOptions(call, innerWidth), load)
    case None => None
    case Some(t) =>
      Some(t.(wrapS := ClampToEdge, wrapT := ClampToEdge, repeat := Vec2(1.0, 1.0), offset := Vec2(0.0, 0.0)))
  }

  /** The materials after a call, and whether the call returned (`false`: its texture promise rejected). */
  datatype Outcome = Outcome(state: Materials, completed: bool)

  /**
   * One zone call. A call without a target changes nothing. Otherwise the
   * colour is set first; with images the call then awaits the texture, and
   * a rejection leaves the rest of the material as it was; on success, or
   * without images, the map is replaced and the material is flagged for
   * update.
   */
  function Step(st: Materials, scene: Scene, call: ZoneCall, innerWidth: int, load: Loader): (r: Outcome)
    requires MaterialsOf(scene) <= st.Keys
    ensures r.state.Keys == st.Keys
  {
    match Target(scene, call.name)
    case None => Outcome(st, true)
    case Some(m) =>
      var colored := st[m].(color := call.color);
      if call.images == [] then
        Outcome(st[m := colored.(colorMap := None, needsUpdate := true)], true)
      else
        match TextureFor(call, innerWidth, load)
        case None => Outcome(st[m := colored], false)
        case Some(t) => Outcome(st[m := colored.(colorMap := Some(t), needsUpdate := true)], true)
  }

  /** The awaited chain: each call runs only after the previous one returned. */
  function RunCalls(st: Materials, scene: Scene, calls: seq<ZoneCall>, innerWidth: int, load: Loader): (r: Outcome)
    requires MaterialsOf(scene) <= st.Keys
    ensures r.state.Keys == st.Keys
    decreases |calls|
  {
    if calls == [] then Outcome(st, true)
    else
      var o := Step(st, scene, calls[0], innerWidth, load);
      if !o.completed then o else RunCalls(o.state, scene, calls[1..], innerWidth, load)
  }

  /**
   * `applyColor`: writes the zone's material in place. `ok` is false when
   * the awaited texture promise rejects; the colour is then already set.
   */
  method ApplyColor(scene: Scene, call: ZoneCall, innerWidth: int, load: Loader) returns (ok: bool)
    modifies MaterialsOf(scene)
    ensures Outcome(Snapshot(scene), ok) == Step(old(Snapshot(scene)), scene, call, innerWidth, load)
  {
    ghost var st := Snapshot(scene);
    ok := true;
    if call.name in scene && scene[call.name].Some? && scene[call.name].value.hasColor {
      var material := scene[call.name].value;
      material.color := call.color;
      if |call.images| > 0 {
        var texture := GenerateTextTexture(ZoneOptions(call, innerWidth), load);
        if texture.None? {
          ok := false;
        } else {
          var t := texture.value;
          t := t.(wrapS := ClampToEdge, wrapT := ClampToEdge);
          t := t.(repeat := Vec2(1.0, 1.0), offset := Vec2(0.0, 0.0));
          material.colorMap := Some(t);
          material.needsUpdate := true;
        }
      } else {
        material.colorMap := None;
      }
      if ok {
        material.needsUpdate := true;
      }
      forall x | x in MaterialsOf(scene) && x != material ensures x.State() == st[x] {
      }
      assert Snapshot(scene) == st[material := material.State()];
    }
  }

  /**
   * `applyMaterials`: the nine zone calls of `ZoneCalls`, in order, each
   * awaited before the next starts; a rejection ends the chain.
   */
  method ApplyMaterials(glove: GloveColors, custom: CustomImages, scene: Scene, innerWidth: int, load: Loader)
    returns (ok: bool)
    modifies MaterialsOf(scene)
    ensures Outcome(Snapshot(scene), ok) == RunCalls(old(Snapshot(scene)), scene, ZoneCalls(glove, custom), innerWidth, load)
  {
    var calls := ZoneCalls(glove, custom);
    ok := true;
    for k := 0 to |calls|
      invariant RunCalls(old(Snapshot(scene)), scene, calls, innerWidth, load) ==
                RunCalls(Snapshot(scene), scene, calls[k..], innerWidth, load)
    {
      ok := ApplyColor(scene, calls[k], innerWidth, load);
      assert calls[k..][1..] == calls[k + 1..];
      if !ok {
        return;
      }
    }
  }

  // ---------------------------------------------------------------------
  // One zone call
  // ---------------------------------------------------------------------

  /**
   * A call whose mesh is absent, has no material, or whose material has no
   * colour changes nothing. Otherwise it writes only its own material: the
   * colour always; on return the map (the texture with images, none
   * without) and the update flag; on a rejection nothing but the colour.
   */
  lemma StepEffect(st: Materials, scene: Scene, call: ZoneCall, innerWidth: int, load: Loader)
    requires MaterialsOf(scene) <= st.Keys
    ensures var r := Step(st, scene, call, innerWidth, load);
      && (Target(scene, call.name).None? ==> r == Outcome(st, true))
      && (forall m :: m in st && Target(scene, call.name) != Some(m) ==> r.state[m] == st[m])
      && (Target(scene, call.name).Some? ==>
            var m := Target(scene, call.name).value;
            && r.state[m].color == call.color
            && (r.completed <==> call.images == [] || TextureFor(call, innerWidth, load).Some?)
            && (r.completed ==> r.state[m].needsUpdate)
            && (r.completed ==>
                  r.state[m].colorMap == (if call.images == [] then None else TextureFor(call, innerWidth, load)))
            && (!r.completed ==> r.state[m] == st[m].(color := call.color)))
  {
  }

  /**
   * The texture a zone gets: composed at scale 0.7 below 768 pixels of
   * width and 1.0 otherwise, over a background in the zone colour, with
   * no text, clamped, unrepeated and unshifted; it fails exactly when one
   * of the zone's images fails to load.
   */
  lemma ZoneTexture(call: ZoneCall, innerWidth: int, load: Loader)
    ensures TextureFor(call, innerWidth, load).None? <==>
            exists i :: 0 <= i < |call.images| && load(call.images[i].url).None?
    ensures TextureFor(call, innerWidth, load).Some? ==>
      var t := TextureFor(call, innerWidth, load).value;
      && t.side == (if innerWidth < 768 then 358 else 512)
      && |t.commands| >= 5
      && t.commands[0] == Scale(TextureScale(innerWidth))
      && t.commands[3].Fill? && t.commands[3].color == call.color
      && (forall k :: 0 <= k < |t.commands| ==> !IsText(t.commands[k]))
      && !t.flipY && t.wrapS == ClampToEdge && t.wrapT == ClampToEdge
      && t.repeat == Vec2(1.0, 1.0) && t.offset == Vec2(0.0, 0.0)
  {
    var o := ZoneOptions(call, innerWidth);
    PlanFailsIff(o, load);
    if Plan(o, load).Some? {
      PlanBackground(o, load);
      PlanText(o, load);
      MobileCanvasIsTruncated();
      assert CanvasSide(1.0) == 512;
    }
  }

  /** A zone's texture draws that zone's own images, once each, in list order. */
  lemma ZoneTextureDraws(call: ZoneCall, innerWidth: int, load: Loader)
    requires TextureFor(call, innerWidth, load).Some?
    ensures var ds := Draws(TextureFor(call, innerWidth, load).value.commands);
      && |ds| == |call.images|
      && forall i :: 0 <= i < |call.images| ==>
           load(call.images[i].url).Some? && ds[i] == DrawOf(call.images[i].url, load(call.images[i].url).value)
  {
    PlanDraws(ZoneOptions(call, innerWidth), load);
  }

  // ---------------------------------------------------------------------
  // The chain of calls
  // ---------------------------------------------------------------------

  /** A material that no call targets keeps its fields. */
  lemma {:induction false} RunUntouched(st: Materials, scene: Scene, calls: seq<ZoneCall>, innerWidth: int, load: Loader, m: Material)
    requires MaterialsOf(scene) <= st.Keys && m in st
    requires forall j :: 0 <= j < |calls| ==> Target(scene, calls[j].name) != Some(m)
    ensures RunCalls(st, scene, calls, innerWidth, load).state[m] == st[m]
    decreases |calls|
  {
    if calls != [] {
      var o := Step(st, scene, calls[0], innerWidth, load);
      StepEffect(st, scene, calls[0], innerWidth, load);
      if o.completed {
        RunUntouched(o.state, scene, calls[1..], innerWidth, load, m);
      }
    }
  }

  /** Running `a + b` runs `a`, then `b` only if every call of `a` returned. */
  lemma {:induction false} RunSplit(st: Materials, scene: Scene, a: seq<ZoneCall>, b: seq<ZoneCall>, innerWidth: int, load: Loader)
    requires MaterialsOf(scene) <= st.Keys
    ensures var o := RunCalls(st, scene, a, innerWidth, load);
      RunCalls(st, scene, a + b, innerWidth, load) == if o.completed then RunCalls(o.state, scene, b, innerWidth, load) else o
    decreases |a|
  {
    if a == [] {
      assert a + b == b;
    } else {
      assert (a + b)[0] == a[0];
      assert (a + b)[1..] == a[1..] + b;
      var o := Step(st, scene, a[0], innerWidth, load);
      if o.completed {
        RunSplit(o.state, scene, a[1..], b, innerWidth, load);
      }
    }
  }

  /**
   * If call `k` is the first to reject, the chain ends there with that
   * call's outcome: no later call runs, and a material that none of the
   * calls up to `k` targets keeps its fields.
   */
  lemma FailureStopsChain(st: Materials, scene: Scene, calls: seq<ZoneCall>, k: int, innerWidth: int, load: Loader)
    requires MaterialsOf(scene) <= st.Keys && 0 <= k < |calls|
    requires RunCalls(st, scene, calls[..k], innerWidth, load).completed
    requires !Step(RunCalls(st, scene, calls[..k], innerWidth, load).state, scene, calls[k], innerWidth, load).completed
    ensures var r := RunCalls(st, scene, calls, innerWidth, load);
      && r == Step(RunCalls(st, scene, calls[..k], innerWidth, load).state, scene, calls[k], innerWidth, load)
      && !r.completed
      && forall m :: m in st && (forall j :: 0 <= j <= k ==> Target(scene, calls[j].name) != Some(m)) ==> r.state[m] == st[m]
  {
    var pre := RunCalls(st, scene, calls[..k], innerWidth, load);
    RunSplit(st, scene, calls[..k], calls[k..], innerWidth, load);
    assert calls[..k] + calls[k..] == calls;
    assert calls[k..][0] == calls[k];
    var r := RunCalls(st, scene, calls, innerWidth, load);
    forall m | m in st && (forall j :: 0 <= j <= k ==> Target(scene, calls[j].name) != Some(m))
      ensures r.state[m] == st[m]
    {
      RunUntouched(st, scene, calls[..k], innerWidth, load, m);
      StepEffect(pre.state, scene, calls[k], innerWidth, load);
    }
  }

  /** When the calls up to and including call `k` have returned, so have those before it, and then call `k`. */
  lemma PrefixReturned(st: Materials, scene: Scene, calls: seq<ZoneCall>, k: int, innerWidth: int, load: Loader)
    requires MaterialsOf(scene) <= st.Keys && 0 <= k < |calls|
    requires RunCalls(st, scene, calls[..k + 1], innerWidth, load).completed
    ensures RunCalls(st, scene, calls[..k], innerWidth, load).completed
    ensures Step(RunCalls(st, scene, calls[..k], innerWidth, load).state, scene, calls[k], innerWidth, load).completed
  {
    RunSplit(st, scene, calls[..k], [calls[k]], innerWidth, load);
    assert calls[..k] + [calls[k]] == calls[..k + 1];
    assert [calls[k]][1..] == [];
  }

  /**
   * Once the calls up to and including call `k` have returned, a material
   * that no later call names ends as call `k` left it: that call's colour,
   * its map, and the update flag set, whether or not a later call rejects.
   */
  lemma LastWriteWins(st: Materials, scene: Scene, calls: seq<ZoneCall>, k: int, innerWidth: int, load: Loader, m: Material)
    requires MaterialsOf(scene) <= st.Keys && 0 <= k < |calls|
    requires RunCalls(st, scene, calls[..k + 1], innerWidth, load).completed
    requires Target(scene, calls[k].name) == Some(m)
    requires forall j :: k < j < |calls| ==> Target(scene, calls[j].name) != Some(m)
    ensures var f := RunCalls(st, scene, calls, innerWidth, load).state[m];
      && f.color == calls[k].color && f.needsUpdate
      && f.colorMap == (if calls[k].images == [] then None else TextureFor(calls[k], innerWidth, load))
  {
    PrefixReturned(st, scene, calls, k, innerWidth, load);
    var pre := RunCalls(st, scene, calls[..k], innerWidth, load);
    AfterReturnedCall(st, scene, calls, k, innerWidth, load, m);
    StepEffect(pre.state, scene, calls[k], innerWidth, load);
  }

  /**
   * When the calls before `k` and call `k` itself have returned, a material
   * no later call names keeps what call `k` wrote.
   */
  lemma AfterReturnedCall(st: Materials, scene: Scene, calls: seq<ZoneCall>, k: int, innerWidth: int, load: Loader, m: Material)
    requires MaterialsOf(scene) <= st.Keys && 0 <= k < |calls| && m in st
    requires RunCalls(st, scene, calls[..k], innerWidth, load).completed
    requires Step(RunCalls(st, scene, calls[..k], innerWidth, load).state, scene, calls[k], innerWidth, load).completed
    requires forall j :: k < j < |calls| ==> Target(scene, calls[j].name) != Some(m)
    ensures RunCalls(st, scene, calls, innerWidth, load).state[m] ==
            Step(RunCalls(st, scene, calls[..k], innerWidth, load).state, scene, calls[k], innerWidth, load).state[m]
  {
    var pre := RunCalls(st, scene, calls[..k], innerWidth, load);
    RunSplit(st, scene, calls[..k], calls[k..], innerWidth, load);
    assert calls[..k] + calls[k..] == calls;
    var o := Step(pre.state, scene, calls[k], innerWidth, load);
    assert calls[k..][0] == calls[k];
    var rest := calls[k + 1..];
    assert calls[k..][1..] == rest;
    forall j | 0 <= j < |rest| ensures Target(scene, rest[j].name) != Some(m) {
      assert rest[j] == calls[k + 1 + j];
    }
    RunUntouched(o.state, scene, rest, innerWidth, load, m);
  }

  /** No call clears the update flag. */
  lemma {:induction false} NeverCleared(st: Materials, scene: Scene, calls: seq<ZoneCall>, innerWidth: int, load: Loader, m: Material)
    requires MaterialsOf(scene) <= st.Keys && m in st && st[m].needsUpdate
    ensures RunCalls(st, scene, calls, innerWidth, load).state[m].needsUpdate
    decreases |calls|
  {
    if calls != [] {
      var o := Step(st, scene, calls[0], innerWidth, load);
      StepEffect(st, scene, calls[0], innerWidth, load);
      if o.completed {
        NeverCleared(o.state, scene, calls[1..], innerWidth, load, m);
      }
    }
  }

  /** Every material written by a call that returned is flagged for update at the end of the chain. */
  lemma ProcessedNeedsUpdate(st: Materials, scene: Scene, calls: seq<ZoneCall>, j: int, innerWidth: int, load: Loader, m: Material)
    requires MaterialsOf(scene) <= st.Keys && 0 <= j < |calls|
    requires Target(scene, calls[j].name) == Some(m)
    requires RunCalls(st, scene, calls[..j], innerWidth, load).completed
    requires Step(RunCalls(st, scene, calls[..j], innerWidth, load).state, scene, calls[j], innerWidth, load).completed
    ensures RunCalls(st, scene, calls, innerWidth, load).state[m].needsUpdate
  {
    var pre := RunCalls(st, scene, calls[..j], innerWidth, load);
    RunSplit(st, scene, calls[..j], calls[j..], innerWidth, load);
    assert calls[..j] + calls[j..] == calls;
    var o := Step(pre.state, scene, calls[j], innerWidth, load);
    assert calls[j..][0] == calls[j];
    assert calls[j..][1..] == calls[j + 1..];
    StepEffect(pre.state, scene, calls[j], innerWidth, load);
    NeverCleared(o.state, scene, calls[j + 1..], innerWidth, load, m);
  }

  /** In a chain that returned, a material written only by calls without images ends with no map. */
  lemma {:induction false} NoImagesNoMap(st: Materials, scene: Scene, calls: seq<ZoneCall>, innerWidth: int, load: Loader, m: Material)
    requires MaterialsOf(scene) <= st.Keys && m in st
    requires RunCalls(st, scene, calls, innerWidth, load).completed
    requires exists j :: 0 <= j < |calls| && Target(scene, calls[j].name) == Some(m)
    requires forall j :: 0 <= j < |calls| && Target(scene, calls[j].name) == Some(m) ==> calls[j].images == []
    ensures RunCalls(st, scene, calls, innerWidth, load).state[m].colorMap.None?
    ensures RunCalls(st, scene, calls, innerWidth, load).state[m].needsUpdate
    decreases |calls|
  {
    var o := Step(st, scene, calls[0], innerWidth, load);
    StepEffect(st, scene, calls[0], innerWidth, load);
    var rest := calls[1..];
    assert forall j :: 0 <= j < |rest| ==> rest[j] == calls[j + 1];
    if exists j :: 0 <= j < |rest| && Target(scene, rest[j].name) == Some(m) {
      NoImagesNoMap(o.state, scene, rest, innerWidth, load, m);
    } else {
      RunUntouched(o.state, scene, rest, innerWidth, load, m);
    }
  }

  /**
   * The zones called without a list (Fingers, Inner Palm, Inner Thumb,
   * Wrist, Outline) end with no map once the chain has returned, provided
   * their material is not also the material of a zone with images.
   */
  lemma UnlistedZoneHasNoMap(glove: GloveColors, custom: CustomImages, scene: Scene, st: Materials,
                             innerWidth: int, load: Loader, name: string)
    requires MaterialsOf(scene) <= st.Keys
    requires name in {"Fingers", "Inner Palm", "Inner Thumb", "Wrist", "Outline"}
    requires Target(scene, name).Some?
    requires forall z :: z in {"Outer Palm", "Outer Thumb", "Strap", "Wrist Outline"} ==> Target(scene, z) != Target(scene, name)
    requires RunCalls(st, scene, ZoneCalls(glove, custom), innerWidth, load).completed
    ensures var f := RunCalls(st, scene, ZoneCalls(glove, custom), innerWidth, load).state[Target(scene, name).value];
      f.colorMap.None? && f.needsUpdate
  {
    var calls := ZoneCalls(glove, custom);
    var m := Target(scene, name).value;
    var j := if name == "Fingers" then 0 else if name == "Inner Palm" then 1 else if name == "Inner Thumb" then 3
             else if name == "Wrist" then 6 else 8;
    assert calls[j].name == name;
    forall i | 0 <= i < |calls| && Target(scene, calls[i].name) == Some(m) ensures calls[i].images == [] {
      assert calls[i].name !in {"Outer Palm", "Outer Thumb", "Strap", "Wrist Outline"};
    }
    NoImagesNoMap(st, scene, calls, innerWidth, load, m);
  }

  /**
   * A zone the store holds no list for is called with the empty list (the
   * `images = []` default), so its call returns and leaves the material in
   * the zone colour, without a map and flagged for update.
   */
  lemma UnheldZoneClearsMap(st: Materials, scene: Scene, name: string, color: string, custom: CustomImages,
                            zone: string, innerWidth: int, load: Loader)
    requires MaterialsOf(scene) <= st.Keys
    requires zone !in custom && Target(scene, name).Some?
    ensures var r := Step(st, scene, ZoneCall(name, color, ImagesOf(custom, zone)), innerWidth, load);
      r.completed && r.state[Target(scene, name).value] == MatState(color, None, true)
  {
    StepEffect(st, scene, ZoneCall(name, color, ImagesOf(custom, zone)), innerWidth, load);
  }

  /** The mesh the binder paints with a store zone's image list. */
  function MeshOf(zone: string): string {
    if zone == "OutterPalm" then "Outer Palm"
    else if zone == "OutterThumb" then "Outer Thumb"
    else if zone == "Strap" then "Strap"
    else "Wrist Outline"
  }

  /**
   * An image zone whose list the store does not hold ends with no map once
   * the chain has returned, provided its material is not also painted by a
   * call that has images.
   */
  lemma UnheldZoneHasNoMap(glove: GloveColors, custom: CustomImages, scene: Scene, st: Materials,
                           innerWidth: int, load: Loader, zone: string)
    requires MaterialsOf(scene) <= st.Keys
    requires zone in {"OutterPalm", "OutterThumb", "Strap", "WristOutline"} && zone !in custom
    requires Target(scene, MeshOf(zone)).Some?
    requires forall i :: 0 <= i < |ZoneCalls(glove, custom)| && ZoneCalls(glove, custom)[i].images != [] ==>
               Target(scene, ZoneCalls(glove, custom)[i].name) != Target(scene, MeshOf(zone))
    requires RunCalls(st, scene, ZoneCalls(glove, custom), innerWidth, load).completed
    ensures var f := RunCalls(st, scene, ZoneCalls(glove, custom), innerWidth, load).state[Target(scene, MeshOf(zone)).value];
      f.colorMap.None? && f.needsUpdate
  {
    var calls := ZoneCalls(glove, custom);
    var m := Target(scene, MeshOf(zone)).value;
    var j := if zone == "OutterPalm" then 2 else if zone == "OutterThumb" then 4 else if zone == "Strap" then 5 else 7;
    assert calls[j].name == MeshOf(zone) && calls[j].images == [];
    NoImagesNoMap(st, scene, calls, innerWidth, load, m);
  }

  // ---------------------------------------------------------------------
  // Idempotence
  // ---------------------------------------------------------------------

  /** The fields a call writes on one material; `None` leaves the field as it is. */
  datatype Edit = Edit(color: Option<string>, colorMap: Option<Option<Texture>>, needsUpdate: Option<bool>)

  function ApplyEdit(e: Edit, s: MatState): MatState {
    MatState(e.color.GetOr(s.color), e.colorMap.GetOr(s.colorMap), e.needsUpdate.GetOr(s.needsUpdate))
  }

  /** `e`, then `f`: a field `f` writes takes `f`'s value. */
  function ThenEdit(e: Edit, f: Edit): (r: Edit)
    ensures forall s :: ApplyEdit(r, s) == ApplyEdit(f, ApplyEdit(e, s))
  {
    Edit(if f.color.Some? then f.color else e.color,
         if f.colorMap.Some? then f.colorMap else e.colorMap,
         if f.needsUpdate.Some? then f.needsUpdate else e.needsUpdate)
  }

  /** The writes of some calls, by material. */
  type Patch = map<Material, Edit>

  function ApplyPatch(p: Patch, st: Materials): (r: Materials)
    ensures r.Keys == st.Keys
  {
    map m | m in st :: if m in p then ApplyEdit(p[m], st[m]) else st[m]
  }

  /** `p`, then `q`. */
  function Compose(p: Patch, q: Patch): Patch {
    map m | m in p.Keys + q.Keys ::
      if m in p && m in q then ThenEdit(p[m], q[m]) else if m in q then q[m] else p[m]
  }

  /** What a call writes does not depend on the materials it finds. */
  function StepPatch(scene: Scene, call: ZoneCall, innerWidth: int, load: Loader): Patch {
    match Target(scene, call.name)
    case None => map[]
    case Some(m) =>
      if call.images == [] then map[m := Edit(Some(call.color), Some(None), Some(true))]
      else match TextureFor(call, innerWidth, load)
        case None => map[m := Edit(Some(call.color), None, None)]
        case Some(t) => map[m := Edit(Some(call.color), Some(Some(t)), Some(true))]
  }

  /** Nor does whether it returns. */
  predicate StepReturns(scene: Scene, call: ZoneCall, innerWidth: int, load: Loader) {
    Target(scene, call.name).None? || call.images == [] || TextureFor(call, innerWidth, load).Some?
  }

  datatype PatchRun = PatchRun(patch: Patch, completed: bool)

  function RunPatch(scene: Scene, calls: seq<ZoneCall>, innerWidth: int, load: Loader): PatchRun
    decreases |calls|
  {
    if calls == [] then PatchRun(map[], true)
    else
      var p := StepPatch(scene, calls[0], innerWidth, load);
      if !StepReturns(scene, calls[0], innerWidth, load) then PatchRun(p, false)
      else
        var rest := RunPatch(scene, calls[1..], innerWidth, load);
        PatchRun(Compose(p, rest.patch), rest.completed)
  }

  lemma StepIsPatch(st: Materials, scene: Scene, call: ZoneCall, innerWidth: int, load: Loader)
    requires MaterialsOf(scene) <= st.Keys
    ensures Step(st, scene, call, innerWidth, load) ==
            Outcome(ApplyPatch(StepPatch(scene, call, innerWidth, load), st), StepReturns(scene, call, innerWidth, load))
  {
    var p := StepPatch(scene, call, innerWidth, load);
    var r := Step(st, scene, call, innerWidth, load);
    StepEffect(st, scene, call, innerWidth, load);
    assert r.state == ApplyPatch(p, st);
  }

  lemma ComposeApply(p: Patch, q: Patch, st: Materials)
    ensures ApplyPatch(Compose(p, q), st) == ApplyPatch(q, ApplyPatch(p, st))
  {
  }

  /** The chain applies one patch, fixed by the scene, the calls and the loader. */
  lemma {:induction false} RunIsPatch(st: Materials, scene: Scene, calls: seq<ZoneCall>, innerWidth: int, load: Loader)
    requires MaterialsOf(scene) <= st.Keys
    ensures var pr := RunPatch(scene, calls, innerWidth, load);
      RunCalls(st, scene, calls, innerWidth, load) == Outcome(ApplyPatch(pr.patch, st), pr.completed)
    decreases |calls|
  {
    if calls == [] {
      assert ApplyPatch(map[], st) == st;
    } else {
      StepIsPatch(st, scene, calls[0], innerWidth, load);
      var p := StepPatch(scene, calls[0], innerWidth, load);
      if StepReturns(scene, calls[0], innerWidth, load) {
        var mid := ApplyPatch(p, st);
        RunIsPatch(mid, scene, calls[1..], innerWidth, load);
        ComposeApply(p, RunPatch(scene, calls[1..], innerWidth, load).patch, st);
      }
    }
  }

  /** Applying a patch twice is applying it once. */
  lemma ApplyPatchTwice(p: Patch, st: Materials)
    ensures ApplyPatch(p, ApplyPatch(p, st)) == ApplyPatch(p, st)
  {
  }

  /**
   * Running the binder again on the materials it produced, with the same
   * scene, calls and loader, changes nothing and ends the same way.
   */
  lemma BinderIdempotent(st: Materials, scene: Scene, calls: seq<ZoneCall>, innerWidth: int, load: Loader)
    requires MaterialsOf(scene) <= st.Keys
    ensures var once := RunCalls(st, scene, calls, innerWidth, load);
      RunCalls(once.state, scene, calls, innerWidth, load) == once
  {
    var pr := RunPatch(scene, calls, innerWidth, load);
    RunIsPatch(st, scene, calls, innerWidth, load);
    RunIsPatch(ApplyPatch(pr.patch, st), scene, calls, innerWidth, load);
    ApplyPatchTwice(pr.patch, st);
  }
}
