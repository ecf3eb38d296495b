/**
 * The shape of the customization store that the uploader writes and the
 * material binder reads. The store's own code is not part of this model:
 * only the record shapes and the two mutations the uploader calls are
 * given, and their behaviour is assumed (a new image gets the centred,
 * unrotated, unit-scale transform at the end of its zone; an update
 * replaces the transform of the images with that id, with no merge and no
 * re-clamp of its own).
 */
module Customization {
  /** Placement of one image layer inside a zone's 512x512 texture. */
  datatype Transform = Transform(x: real, y: real, rotation: real, scale: real)

  /** One uploaded image layer. */
  datatype CustomImage = CustomImage(id: string, url: string, transform: Transform)

  /** Zone key of the store (`"OutterPalm"`, `"Strap"`, ...) to its ordered image list. */
  type CustomImages = map<string, seq<CustomImage>>

  /** The `hex` value of each zone colour of the glove. */
  datatype GloveColors = GloveColors(
    fingers: string, innerPalm: string, outerPalm: string,
    innerThumb: string, outerThumb: string, strap: string,
    wrist: string, wristOutline: string, outline: string)

  const DefaultTransform := Transform(0.0, 0.0, 0.0, 1.0)

  /** The image list of a zone; a zone the store does not hold reads as the empty list. */
  function ImagesOf(images: CustomImages, zone: string): seq<CustomImage> {
    if zone in images then images[zone] else []
  }

  /** The store's `addCustomImage`: append a fresh layer at the default transform. */
  function AddImage(images: CustomImages, zone: string, id: string, url: string): (r: CustomImages)
    ensures r.Keys == images.Keys + {zone}
    ensures r[zone] == ImagesOf(images, zone) + [CustomImage(id, url, DefaultTransform)]
    ensures forall z :: z in images && z != zone ==> r[z] == images[z]
  {
    images[zone := ImagesOf(images, zone) + [CustomImage(id, url, DefaultTransform)]]
  }

  /** The store's `updateImageTransform`: every layer of `zone` with this id gets transform `t`. */
  function UpdateTransform(images: CustomImages, zone: string, id: string, t: Transform): (r: CustomImages)
    requires zone in images
    ensures r.Keys == images.Keys
    ensures forall z :: z in images && z != zone ==> r[z] == images[z]
    ensures |r[zone]| == |images[zone]|
    ensures forall i :: 0 <= i < |images[zone]| ==>
      r[zone][i].id == images[zone][i].id && r[zone][i].url == images[zone][i].url &&
      r[zone][i].transform == (if images[zone][i].id == id then t else images[zone][i].transform)
  {
    var l := images[zone];
    images[zone := seq(|l|, i requires 0 <= i < |l| => if l[i].id == id then l[i].(transform := t) else l[i])]
  }
}
