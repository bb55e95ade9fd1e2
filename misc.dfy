/** `get_image_name_with_version`: the `name:tag` image reference. */
module Misc {
  import opened Basics
  import opened Strings

  const DefaultTag: string := "latest"

  /** The tag used for a manifest version, `latest` when there is none. */
  function Tag(version: Option<string>): string
  {
    match version
    case None => DefaultTag
    case Some(v) => v
  }

  function ImageNameWithVersion(image: string, version: Option<string>): (r: string)
    ensures |r| == |image| + 1 + |Tag(version)|
    ensures r[..|image|] == image && r[|image|] == ':'
    ensures r[|image| + 1..] == Tag(version)
  {
    image + ":" + Tag(version)
  }

  /** Leaving the version out and asking for `latest` name the same image. */
  lemma NoVersionIsLatest(image: string)
    ensures ImageNameWithVersion(image, None) == ImageNameWithVersion(image, Some("latest"))
  {
  }

  /** For an image name without `:`, splitting the reference at its first
      `:` gives back the name and the tag. */
  lemma ImageNameSplitsBack(image: string, version: Option<string>)
    requires ':' !in image
    ensures SplitOnce(ImageNameWithVersion(image, version), ':') == Some((image, Tag(version)))
  {
    var r := ImageNameWithVersion(image, version);
    assert r == image + [':'] + Tag(version);
    SplitOnceAround(image, Tag(version), ':');
  }
}
