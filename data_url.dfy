/** Image sources as the pages build them from a stored base64 payload
    (RFC 2397 `data:` URLs). The base64 encoding itself is not modelled. */
module DataUrl {

  const JpegPrefix: string := "data:image/jpeg;base64,"
  const ImageScheme: string := "data:image"
  const DefaultImage: string := "/default-image.jpg"

  predicate StartsWith(s: string, p: string) { |p| <= |s| && s[..|p|] == p }

  /** `data:image/jpeg;base64,${payload}`; the payload can be read back after the prefix. */
  function AsJpeg(payload: string): (url: string)
    ensures StartsWith(url, ImageScheme)
    ensures |url| == |JpegPrefix| + |payload| && url[|JpegPrefix|..] == payload
  {
    assert (JpegPrefix + payload)[..|ImageScheme|] == ImageScheme;
    JpegPrefix + payload
  }

  /** `v.startsWith("data:image") ? v : data:image/jpeg;base64,${v}`: the result is always
      an image data URL, and a value that already is one is kept as it is. */
  function ImageSource(v: string): (url: string)
    ensures StartsWith(url, ImageScheme)
    ensures StartsWith(v, ImageScheme) ==> url == v
    ensures !StartsWith(v, ImageScheme) ==> url == AsJpeg(v)
  {
    if StartsWith(v, ImageScheme) then v else AsJpeg(v)
  }

  /** Applying the rule to its own output changes nothing. */
  lemma ImageSourceIdempotent(v: string)
    ensures ImageSource(ImageSource(v)) == ImageSource(v)
  {
  }
}
