/**
 * The internal image identity and its converters to and from the two wire
 * generations (internal/torcx/types.go:80-85, 137-211).
 */
module Images {
  import opened Wire
  import opened Seqs

  /** An addon image within a profile: name, version reference and origin remote. */
  datatype Image = Image(Name: string, Reference: string, Remote: string)

  /** Internal image to V0: `remote` has no place in V0 and is dropped. */
  function ToJSONV0(im: Image): ImageV0
  {
    ImageV0(im.Name, im.Reference)
  }

  /** V0 to internal image: there is no remote to read, so it is empty. */
  function ImageFromJSONV0(j: ImageV0): Image
  {
    Image(j.Name, j.Reference, "")
  }

  /** Internal image to V1. As written, the remote is NOT carried over: it is always empty. */
  function ToJSONV1(im: Image): ImageV1
  {
    ImageV1(im.Name, im.Reference, "")
  }

  /** V1 to internal image: all three fields are copied. */
  function ImageFromJSONV1(j: ImageV1): Image
  {
    Image(j.Name, j.Reference, j.Remote)
  }

  /** Going through V0 keeps name and reference and clears the remote; it is lossless exactly when the remote is already empty. */
  lemma ImageV0RoundTrip(im: Image)
    ensures ImageFromJSONV0(ToJSONV0(im)) == Image(im.Name, im.Reference, "")
    ensures ImageFromJSONV0(ToJSONV0(im)) == im <==> im.Remote == ""
  {
  }

  /** Every V0 record is the image of the internal value it decodes to: V0 loses nothing on the wire side. */
  lemma ImageV0WireRoundTrip(j: ImageV0)
    ensures ToJSONV0(ImageFromJSONV0(j)) == j
  {
  }

  /** Because ToJSONV1 writes an empty remote, the V1 round trip also clears it, and is the identity exactly when the remote is empty. */
  lemma ImageV1RoundTrip(im: Image)
    ensures ToJSONV1(im).Remote == ""
    ensures ImageFromJSONV1(ToJSONV1(im)) == Image(im.Name, im.Reference, "")
    ensures ImageFromJSONV1(ToJSONV1(im)) == im <==> im.Remote == ""
  {
  }

  /** ImageFromJSONV1 copies every field, so re-encoding restores the wire record exactly when its remote is empty. */
  lemma ImageV1WireRoundTrip(j: ImageV1)
    ensures ImageFromJSONV1(j).Remote == j.Remote
    ensures ToJSONV1(ImageFromJSONV1(j)) == j <==> j.Remote == ""
  {
  }

  /** Converts a list of internal images to an ImagesV0, entry by entry and in order. */
  method ImagesToJSONV0(ims: seq<Image>) returns (j: ImagesV0)
    ensures j.Images == Map(ToJSONV0, ims)
  {
    j := ImagesV0([]);
    for k := 0 to |ims|
      invariant |j.Images| == k
      invariant forall i :: 0 <= i < k ==> j.Images[i] == ToJSONV0(ims[i])
    {
      var entry := ToJSONV0(ims[k]);
      j := j.(Images := j.Images + [entry]);
    }
  }

  /** Converts an ImagesV0 to a list of internal images, entry by entry and in order. */
  method ImagesFromJSONV0(j: ImagesV0) returns (result: seq<Image>)
    ensures result == Map(ImageFromJSONV0, j.Images)
  {
    result := [];
    for k := 0 to |j.Images|
      invariant |result| == k
      invariant forall i :: 0 <= i < k ==> result[i] == ImageFromJSONV0(j.Images[i])
    {
      var entry := ImageFromJSONV0(j.Images[k]);
      result := result + [entry];
    }
  }

  /** Converts a list of internal images to an ImagesV1, entry by entry and in order. */
  method ImagesToJSONV1(ims: seq<Image>) returns (j: ImagesV1)
    ensures j.Images == Map(ToJSONV1, ims)
  {
    j := ImagesV1([]);
    for k := 0 to |ims|
      invariant |j.Images| == k
      invariant forall i :: 0 <= i < k ==> j.Images[i] == ToJSONV1(ims[i])
    {
      var entry := ToJSONV1(ims[k]);
      j := j.(Images := j.Images + [entry]);
    }
  }

  /** Converts an ImagesV1 to a list of internal images, entry by entry and in order. */
  method ImagesFromJSONV1(j: ImagesV1) returns (result: seq<Image>)
    ensures result == Map(ImageFromJSONV1, j.Images)
  {
    result := [];
    for k := 0 to |j.Images|
      invariant |result| == k
      invariant forall i :: 0 <= i < k ==> result[i] == ImageFromJSONV1(j.Images[i])
    {
      var entry := ImageFromJSONV1(j.Images[k]);
      result := result + [entry];
    }
  }

  /** A list round trip through V0 keeps length, order, names and references, and clears every remote. */
  lemma ImagesV0RoundTrip(ims: seq<Image>)
    ensures var back := Map(ImageFromJSONV0, Map(ToJSONV0, ims));
      |back| == |ims| &&
      forall i :: 0 <= i < |ims| ==> back[i] == Image(ims[i].Name, ims[i].Reference, "")
  {
  }

  /** A list round trip through V1 is the identity exactly when no image in the list has a remote. */
  lemma ImagesV1RoundTrip(ims: seq<Image>)
    ensures Map(ImageFromJSONV1, Map(ToJSONV1, ims)) == ims <==> forall i :: 0 <= i < |ims| ==> ims[i].Remote == ""
  {
  }
}
