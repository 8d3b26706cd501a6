/**
 * The on-wire JSON records that the conversions read and write. Only the
 * fields the conversions touch are kept; everything else in these records
 * is outside this model.
 */
module Wire {

  /** Image entry of the first schema generation: no origin remote. */
  datatype ImageV0 = ImageV0(Name: string, Reference: string)

  /** Image entry of the second schema generation, which adds `remote`. */
  datatype ImageV1 = ImageV1(Name: string, Reference: string, Remote: string)

  /** List wrappers around the image entries of each generation. */
  datatype ImagesV0 = ImagesV0(Images: seq<ImageV0>)
  datatype ImagesV1 = ImagesV1(Images: seq<ImageV1>)

  /** One trusted key of a V0 remote; only its armored keyring is read. */
  datatype RemoteKeyV0 = RemoteKeyV0(ArmoredKeyring: string)

  /** A V0 remote: a templated base URL and its keys. */
  datatype RemoteV0 = RemoteV0(BaseURL: string, Keys: seq<RemoteKeyV0>)

  /** One fetchable version of an image in a V1 remote catalog. */
  datatype RemoteVersionV1 = RemoteVersionV1(Format: string, Hash: string, Location: string, Version: string)

  /** One image of a V1 remote catalog with its versions. */
  datatype RemoteImageV1 = RemoteImageV1(Name: string, DefaultVersion: string, Versions: seq<RemoteVersionV1>)

  /** A V1 remote catalog: a list of images, names not guaranteed unique. */
  datatype RemoteImagesV1 = RemoteImagesV1(Images: seq<RemoteImageV1>)
}
