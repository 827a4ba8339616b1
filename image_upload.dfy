/**
 * The web apps' image upload helpers: `allowed_file`, `save_uploaded_image`
 * and its inner `guess_ext`. Base64 decoding, the image library's decoder
 * and the temporary file are parameters that may fail; what is modelled is
 * the order of the checks, the limits and the file extension.
 */
module ImageUpload {
  import opened Wrappers
  import opened Strings

  type Bytes = seq<bv8>

  /** `MAX_CONTENT_LENGTH` and the decoded-size limit: 16 MiB. */
  const MaxImageBytes: nat := 16 * 1024 * 1024

  /** The largest accepted width and height. */
  const MaxImageSide: nat := 4096

  const AllowedExtensions: set<string> := {"png", "jpg", "jpeg", "gif", "bmp", "webp"}

  /** `guess_ext`'s table from image-library format names to extensions. */
  const FormatExtensions: map<string, string> :=
    map["JPEG" := "jpg", "JPG" := "jpg", "PNG" := "png", "WEBP" := "webp", "BMP" := "bmp", "GIF" := "gif"]

  /** What the image library reports about a decoded image. */
  datatype ImageInfo = ImageInfo(format: Option<string>, width: nat, height: nat)

  /** `allowed_file`: a dot, and an allowed extension after the last one, in any case. */
  predicate AllowedFile(filename: string)
  {
    '.' in filename && LowerAscii(AfterLast(filename, '.')) in AllowedExtensions
  }

  /** The text after the last `c` of `s + [c] + t`, when `t` holds no `c`, is `t`. */
  lemma {:induction false} AfterLastOfJoined(s: string, c: char, t: string)
    requires c !in t
    ensures AfterLast(s + [c] + t, c) == t
    decreases |t|
  {
    if |t| == 0 {
      assert (s + [c] + t)[|s + [c] + t| - 1] == c;
    } else {
      var u := s + [c] + t;
      assert u[..|u| - 1] == s + [c] + t[..|t| - 1];
      AfterLastOfJoined(s, c, t[..|t| - 1]);
      assert t[..|t| - 1] + [t[|t| - 1]] == t;
    }
  }

  /**
   * A name built as stem, dot, extension is allowed exactly when the
   * extension, lower-cased, is one of the allowed ones; a name without a dot
   * never is.
   */
  lemma AllowedFileByExtension(stem: string, ext: string)
    requires '.' !in ext
    ensures AllowedFile(stem + "." + ext) <==> LowerAscii(ext) in AllowedExtensions
    ensures !AllowedFile(ext)
  {
    AfterLastOfJoined(stem, '.', ext);
    assert (stem + "." + ext)[|stem|] == '.';
  }

  /** `str.lower()` never introduces a `/`, and leaves no ASCII capital. */
  lemma LowerAsciiFacts(s: string)
    ensures '/' in LowerAscii(s) ==> '/' in s
    ensures forall i :: 0 <= i < |LowerAscii(s)| ==> !('A' <= LowerAscii(s)[i] <= 'Z')
  {
    var r := LowerAscii(s);
    if '/' in r {
      var i :| 0 <= i < |r| && r[i] == '/';
      assert s[i] == '/';
    }
  }

  /** `guess_ext(mt, fmt)`. */
  function GuessExt(mt: Option<string>, fmt: Option<string>): string
  {
    if fmt.Some? && fmt.value != "" && UpperAscii(fmt.value) in FormatExtensions then
      FormatExtensions[UpperAscii(fmt.value)]
    else if mt.Some? && mt.value != "" && '/' in mt.value then
      var mtExt := LowerAscii(AfterLast(mt.value, '/'));
      if mtExt == "jpeg" then "jpg" else mtExt
    else "jpg"
  }

  /**
   * A recognised format decides the extension through the table; otherwise
   * the MIME subtype, lower-cased, with `jpeg` written `jpg`; otherwise
   * `jpg`. The extension is never `jpeg`, holds no `/` and no capital.
   */
  lemma GuessExtSpec(mt: Option<string>, fmt: Option<string>)
    ensures var e := GuessExt(mt, fmt);
      e != "jpeg" && '/' !in e && forall i :: 0 <= i < |e| ==> !('A' <= e[i] <= 'Z')
    ensures fmt.Some? && UpperAscii(fmt.value) in FormatExtensions ==>
      GuessExt(mt, fmt) == FormatExtensions[UpperAscii(fmt.value)] && GuessExt(mt, fmt) in FormatExtensions.Values
    ensures (fmt.None? || UpperAscii(fmt.value) !in FormatExtensions) && mt.Some? && '/' in mt.value ==>
      GuessExt(mt, fmt) == (var x := LowerAscii(AfterLast(mt.value, '/')); if x == "jpeg" then "jpg" else x)
    ensures (fmt.None? || UpperAscii(fmt.value) !in FormatExtensions) && (mt.None? || '/' !in mt.value) ==>
      GuessExt(mt, fmt) == "jpg"
  {
    if !(fmt.Some? && fmt.value != "" && UpperAscii(fmt.value) in FormatExtensions) && mt.Some? && mt.value != "" && '/' in mt.value {
      LowerAsciiFacts(AfterLast(mt.value, '/'));
    }
  }

  /** The upload limits: at most 16 MiB decoded, and no side over 4096 pixels. */
  predicate WithinLimits(size: nat, width: nat, height: nat)
  {
    size <= MaxImageBytes && width <= MaxImageSide && height <= MaxImageSide
  }

  /** The text before the first `c`, all of `s` when there is none: `s.split(c)[0]`. */
  function BeforeFirst(s: string, c: char): (r: string)
    ensures IsPrefix(r, s) && c !in r
    ensures |r| < |s| ==> s[|r|] == c
  {
    if |s| == 0 || s[0] == c then [] else [s[0]] + BeforeFirst(s[1..], c)
  }

  /** `s.split(c, 1)`: the parts before and after the first `c`, or `None` when there is none. */
  function SplitFirst(s: string, c: char): (r: Option<(string, string)>)
    ensures r.None? <==> c !in s
    ensures r.Some? ==> s == r.value.0 + [c] + r.value.1 && c !in r.value.0
  {
    var b := BeforeFirst(s, c);
    if |b| == |s| then None
    else
      assert s == b + [c] + s[|b| + 1..];
      Some((b, s[|b| + 1..]))
  }

  /** The MIME type of a data-URI header: `header.split(';')[0].split(':', 1)[1]`, `None` on an error. */
  function MimeOfHeader(header: string): Option<string>
  {
    match SplitFirst(BeforeFirst(header, ';'), ':')
    case None => None
    case Some((_, after)) => Some(after)
  }

  /**
   * The first step of `save_uploaded_image`: a data URI (one that starts
   * with `data:image`) is split at its first comma into a header, whose MIME
   * type is kept, and the base64 payload; a data URI without a comma is an
   * error; anything else is taken whole as the payload, with no MIME type.
   */
  function Payload(imageData: string): (r: Option<(Option<string>, string)>)
    ensures !IsPrefix("data:image", imageData) ==> r == Some((None, imageData))
    ensures IsPrefix("data:image", imageData) ==> (r.None? <==> ',' !in imageData)
    ensures IsPrefix("data:image", imageData) && r.Some? ==>
      var header := BeforeFirst(imageData, ',');
      imageData == header + "," + r.value.1 && r.value.0 == MimeOfHeader(header)
  {
    if IsPrefix("data:image", imageData) then
      match SplitFirst(imageData, ',')
      case None => None
      case Some((header, data)) =>
        BeforeFirstOfJoined(header, ',', data);
        Some((MimeOfHeader(header), data))
    else Some((None, imageData))
  }

  /**
   * `save_uploaded_image`: `None` for a data URI without a comma, a payload
   * that does not decode, more than 16 MiB, an image the library rejects,
   * a side over 4096 or a failed write; otherwise the name of the written
   * temporary file, whose suffix is `.` and the guessed extension.
   */
  function SaveUploadedImage(imageData: string, decode: string -> Option<Bytes>, inspect: Bytes -> Option<ImageInfo>,
                             writeTemp: (Bytes, string) -> Option<string>): Option<string>
  {
    match Payload(imageData)
    case None => None
    case Some((mimeType, data)) =>
      match decode(data)
      case None => None
      case Some(binary) =>
        if |binary| > MaxImageBytes then None
        else
          match inspect(binary)
          case None => None
          case Some(info) =>
            if info.width > MaxImageSide || info.height > MaxImageSide then None
            else writeTemp(binary, "." + GuessExt(mimeType, info.format))
  }

  /**
   * An image is saved only when its payload decodes, the image library
   * accepts the bytes and they are within the limits; the file written then
   * holds exactly those bytes and carries the extension guessed from the
   * data URI's MIME type and the reported format.
   */
  lemma SavedImagesAreWithinLimits(imageData: string, decode: string -> Option<Bytes>, inspect: Bytes -> Option<ImageInfo>,
                                   writeTemp: (Bytes, string) -> Option<string>)
    requires SaveUploadedImage(imageData, decode, inspect, writeTemp).Some?
    ensures Payload(imageData).Some?
    ensures var (mimeType, data) := Payload(imageData).value;
      decode(data).Some? && inspect(decode(data).value).Some?
      && var binary := decode(data).value;
      var info := inspect(binary).value;
      WithinLimits(|binary|, info.width, info.height)
      && SaveUploadedImage(imageData, decode, inspect, writeTemp) == writeTemp(binary, "." + GuessExt(mimeType, info.format))
  {
  }

  /**
   * Conversely, a payload that decodes to bytes the image library accepts
   * within the limits is written, and the result is the write's.
   */
  lemma ImagesWithinLimitsAreWritten(imageData: string, decode: string -> Option<Bytes>, inspect: Bytes -> Option<ImageInfo>,
                                     writeTemp: (Bytes, string) -> Option<string>)
    requires Payload(imageData).Some? && decode(Payload(imageData).value.1).Some?
    requires var binary := decode(Payload(imageData).value.1).value;
      inspect(binary).Some? && WithinLimits(|binary|, inspect(binary).value.width, inspect(binary).value.height)
    ensures var binary := decode(Payload(imageData).value.1).value;
      SaveUploadedImage(imageData, decode, inspect, writeTemp)
      == writeTemp(binary, "." + GuessExt(Payload(imageData).value.0, inspect(binary).value.format))
  {
  }

  /**
   * A payload, of a data URI or of plain base64, that decodes to more than
   * 16 MiB, or to an image with a side over 4096, is refused.
   */
  lemma OversizeRefused(imageData: string, decode: string -> Option<Bytes>, inspect: Bytes -> Option<ImageInfo>,
                        writeTemp: (Bytes, string) -> Option<string>)
    requires Payload(imageData).Some? && decode(Payload(imageData).value.1).Some?
    requires var binary := decode(Payload(imageData).value.1).value;
      |binary| > MaxImageBytes
      || (inspect(binary).Some? && (inspect(binary).value.width > MaxImageSide || inspect(binary).value.height > MaxImageSide))
    ensures SaveUploadedImage(imageData, decode, inspect, writeTemp) == None
  {
  }

  /** A data URI names its MIME type between `:` and `;`: `data:image/png;base64,…` gives `image/png`. */
  lemma DataUriMime(mime: string, rest: string)
    requires ';' !in mime && ':' !in mime
    ensures MimeOfHeader("data:" + mime + ";" + rest) == Some(mime)
  {
    var h := "data:" + mime + ";" + rest;
    BeforeFirstOfJoined("data:" + mime, ';', rest);
    var b := BeforeFirst(h, ';');
    assert b == "data" + [':'] + mime;
    BeforeFirstOfJoined("data", ':', mime);
  }

  lemma {:induction false} BeforeFirstOfJoined(s: string, c: char, t: string)
    requires c !in s
    ensures BeforeFirst(s + [c] + t, c) == s
    decreases |s|
  {
    if |s| > 0 {
      assert (s + [c] + t)[1..] == s[1..] + [c] + t;
      BeforeFirstOfJoined(s[1..], c, t);
      assert [s[0]] + s[1..] == s;
    }
  }
}
