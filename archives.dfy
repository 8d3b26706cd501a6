/**
 * Archive formats, the on-disk Archive record and their decoding with the
 * "absent format means tgz" default (internal/torcx/types.go:73-135).
 */
module Archives {
  import opened Wrappers
  import opened Images

  /** An archive format is a plain string; only the three constants below are meaningful. */
  type ArchiveFormat = string

  /** The zero value: the format is not known. */
  const ArchiveFormatUnknown: ArchiveFormat := ""
  /** A tar-gzipped image. */
  const ArchiveFormatTgz: ArchiveFormat := "tgz"
  /** A squashfs image. */
  const ArchiveFormatSquashfs: ArchiveFormat := "squashfs"

  /** The formats a decoder accepts. */
  predicate ValidFormat(f: ArchiveFormat)
  {
    f == ArchiveFormatTgz || f == ArchiveFormatSquashfs
  }

  /** Decoding fails only for a format string outside the two valid ones; the message text is not modelled. */
  datatype DecodeError = InvalidArchiveFormat

  /** An archive on disk: its image identity, where it lies, and how it is packed. */
  datatype Archive = Archive(image: Image, Filepath: string, Format: ArchiveFormat)

  /**
   * An archive record as the JSON decoder sees it before defaulting: the
   * format field is either absent or an explicit (already parsed) string.
   */
  datatype ArchiveJSON = ArchiveJSON(image: Image, Filepath: string, Format: Option<string>)

  /** The meaning of decoding a format string: accepted and kept exactly when it names a valid format. */
  function ParseArchiveFormat(s: string): (r: Result<ArchiveFormat, DecodeError>)
    ensures r.Ok? <==> ValidFormat(s)
    ensures r.Ok? ==> r.value == s
    ensures r.Err? ==> r.error == InvalidArchiveFormat
  {
    if s == ArchiveFormatTgz then Ok(ArchiveFormatTgz)
    else if s == ArchiveFormatSquashfs then Ok(ArchiveFormatSquashfs)
    else Err(InvalidArchiveFormat)
  }

  /** Encoding a valid format writes its string; decoding that string gives the format back. */
  lemma FormatRoundTrip(f: ArchiveFormat)
    requires ValidFormat(f)
    ensures ParseArchiveFormat(f) == Ok(f)
  {
  }

  /** The unknown format, the empty string, is rejected by the format decoder itself. */
  lemma EmptyFormatRejected()
    ensures ParseArchiveFormat(ArchiveFormatUnknown) == Err(InvalidArchiveFormat)
  {
  }

  /**
   * The meaning of decoding an Archive: the image fields and the path pass
   * through; an absent format defaults to tgz; a present one must decode.
   */
  function DecodeArchive(rec: ArchiveJSON): (r: Result<Archive, DecodeError>)
    ensures r.Ok? ==> ValidFormat(r.value.Format) && r.value.Format != ArchiveFormatUnknown
    ensures r.Ok? ==> r.value.image == rec.image && r.value.Filepath == rec.Filepath
    ensures rec.Format.None? ==> r == Ok(Archive(rec.image, rec.Filepath, ArchiveFormatTgz))
    ensures rec.Format.Some? ==> (r.Ok? <==> ValidFormat(rec.Format.value))
    ensures rec.Format.Some? && r.Ok? ==> r.value.Format == rec.Format.value
    ensures r.Err? ==> r.error == InvalidArchiveFormat
  {
    var format :=
      match rec.Format
      case None => Ok(ArchiveFormatUnknown)
      case Some(s) => ParseArchiveFormat(s);
    match format
    case Err(e) => Err(e)
    case Ok(f) =>
      var f' := if f == ArchiveFormatUnknown then ArchiveFormatTgz else f;
      Ok(Archive(rec.image, rec.Filepath, f'))
  }

  /** An explicit empty format is an error, while an absent one decodes to tgz. */
  lemma AbsentVersusEmptyFormat(image: Image, path: string)
    ensures DecodeArchive(ArchiveJSON(image, path, Some(""))).Err?
    ensures DecodeArchive(ArchiveJSON(image, path, None)).value.Format == ArchiveFormatTgz
  {
  }

  /** The file extension an archive of format `f` must have. */
  function FileSuffix(f: ArchiveFormat): (suffix: string)
    ensures |suffix| == 7 + |f| && suffix[..7] == ".torcx."
    ensures suffix[7..] == f
  {
    ".torcx." + f
  }

  /** Distinct formats have distinct suffixes; the two valid formats give ".torcx.tgz" and ".torcx.squashfs". */
  lemma FileSuffixInjective(f: ArchiveFormat, g: ArchiveFormat)
    ensures FileSuffix(f) == FileSuffix(g) <==> f == g
    ensures FileSuffix(ArchiveFormatTgz) == ".torcx.tgz"
    ensures FileSuffix(ArchiveFormatSquashfs) == ".torcx.squashfs"
  {
  }

  /** A format variable that the decoder writes through, like Go's pointer receiver. */
  class ArchiveFormatVar {
    var value: ArchiveFormat

    constructor (v: ArchiveFormat)
      ensures value == v
    {
      value := v;
    }

    /** Decodes `s` into this variable; on error the variable is left as it was. */
    method UnmarshalJSON(s: string) returns (err: Option<DecodeError>)
      modifies this
      ensures err.None? <==> ValidFormat(s)
      ensures err.None? ==> value == s && ParseArchiveFormat(s) == Ok(value)
      ensures err.Some? ==> value == old(value) && ParseArchiveFormat(s) == Err(err.value)
    {
      if s == ArchiveFormatTgz {
        value := ArchiveFormatTgz;
      } else if s == ArchiveFormatSquashfs {
        value := ArchiveFormatSquashfs;
      } else {
        return Some(InvalidArchiveFormat);
      }
      return None;
    }
  }

  /** An archive variable that the decoder writes through, like Go's pointer receiver. */
  class ArchiveVar {
    var value: Archive

    constructor (v: Archive)
      ensures value == v
    {
      value := v;
    }

    /**
     * Decodes `rec` into this variable: the record is first decoded into a
     * fresh alias whose format starts unknown, the format defaults to tgz if
     * it stayed unknown, and only then is the variable assigned. On error
     * the variable is left as it was.
     */
    method UnmarshalJSON(rec: ArchiveJSON) returns (err: Option<DecodeError>)
      modifies this
      ensures err.None? <==> DecodeArchive(rec).Ok?
      ensures err.None? ==> DecodeArchive(rec) == Ok(value)
      ensures err.Some? ==> value == old(value) && DecodeArchive(rec) == Err(err.value)
    {
      var alias := Archive(rec.image, rec.Filepath, ArchiveFormatUnknown);
      if rec.Format.Some? {
        var format := new ArchiveFormatVar(alias.Format);
        err := format.UnmarshalJSON(rec.Format.value);
        if err.Some? {
          return;
        }
        alias := alias.(Format := format.value);
      }
      if alias.Format == ArchiveFormatUnknown {
        alias := alias.(Format := ArchiveFormatTgz);
      }
      value := alias;
      return None;
    }
  }
}
