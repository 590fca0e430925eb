/** Names the handlers build: the file extension taken from a media type,
    the object key a video is stored under, and the local path and public
    URL of a thumbnail. */
module Naming {

  import opened Strings

  /** The subtype of a `type/subtype` media type: the second piece of the
      media type split on `/`. */
  function Extension(mediaType: string): (ext: string)
    requires '/' in mediaType
    ensures '/' !in ext
  {
    Split(mediaType, '/')[1]
  }

  /** The extension of `t/sub` is `sub`. */
  lemma ExtensionOfMediaType(t: string, sub: string)
    requires '/' !in t && '/' !in sub
    ensures '/' in t + "/" + sub
    ensures Extension(t + "/" + sub) == sub
  {
    assert t + "/" + sub == t + ['/'] + sub;
    SplitPair(t, sub, '/');
  }

  /** The extensions of the media types the handlers accept. */
  lemma Mp4Extension()
    ensures '/' in "video/mp4" && Extension("video/mp4") == "mp4"
  {
    assert Split("video/mp4", '/') == ["video", "mp4"] by {
      SplitPair("video", "mp4", '/');
      assert "video" + ['/'] + "mp4" == "video/mp4";
    }
  }

  lemma JpegExtension()
    ensures '/' in "image/jpeg" && Extension("image/jpeg") == "jpeg"
  {
    assert Split("image/jpeg", '/') == ["image", "jpeg"] by {
      SplitPair("image", "jpeg", '/');
      assert "image" + ['/'] + "jpeg" == "image/jpeg";
    }
  }

  lemma PngExtension()
    ensures '/' in "image/png" && Extension("image/png") == "png"
  {
    assert Split("image/png", '/') == ["image", "png"] by {
      SplitPair("image", "png", '/');
      assert "image" + ['/'] + "png" == "image/png";
    }
  }

  /** `<prefix>/<name>.<ext>`, the object key of an uploaded video. */
  function ObjectKey(prefix: string, name: string, ext: string): (key: string)
    ensures |key| == |prefix| + |name| + |ext| + 2
    ensures key[|prefix|] == '/' && key[|prefix| + |name| + 1] == '.'
  {
    prefix + "/" + name + "." + ext
  }

  /** Between the two separators a key holds exactly its prefix, name and
      extension, in that order. */
  lemma ObjectKeyPieces(prefix: string, name: string, ext: string)
    ensures var key := ObjectKey(prefix, name, ext);
      && key[..|prefix|] == prefix
      && key[|prefix| + 1..|prefix| + |name| + 1] == name
      && key[|prefix| + |name| + 2..] == ext
  {
    var key := ObjectKey(prefix, name, ext);
    assert key == prefix + ['/'] + name + ['.'] + ext;
  }

  /** A key holds no comma when none of its parts does, so it can sit after
      the comma of a serialised locator. */
  lemma ObjectKeyHasNoComma(prefix: string, name: string, ext: string)
    requires ',' !in prefix && ',' !in name && ',' !in ext
    ensures ',' !in ObjectKey(prefix, name, ext)
  {
    var key := ObjectKey(prefix, name, ext);
    assert key == prefix + ['/'] + name + ['.'] + ext;
  }

  /** A key splits back into its prefix, name and extension when the prefix
      and name hold no `/`, and the name and extension no `.`. */
  lemma ObjectKeyParts(prefix: string, name: string, ext: string)
    requires '/' !in prefix && '/' !in name && '/' !in ext
    requires '.' !in name && '.' !in ext
    ensures Split(ObjectKey(prefix, name, ext), '/') == [prefix, name + "." + ext]
    ensures Split(name + "." + ext, '.') == [name, ext]
  {
    assert ObjectKey(prefix, name, ext) == prefix + ['/'] + (name + "." + ext);
    assert name + "." + ext == name + ['.'] + ext;
    SplitPair(prefix, name + "." + ext, '/');
    SplitPair(name, ext, '.');
  }

  /** Distinct parts give distinct keys. */
  lemma ObjectKeyInjective(p1: string, n1: string, e1: string, p2: string, n2: string, e2: string)
    requires '/' !in p1 && '/' !in n1 && '/' !in e1 && '.' !in n1 && '.' !in e1
    requires '/' !in p2 && '/' !in n2 && '/' !in e2 && '.' !in n2 && '.' !in e2
    requires ObjectKey(p1, n1, e1) == ObjectKey(p2, n2, e2)
    ensures p1 == p2 && n1 == n2 && e1 == e2
  {
    ObjectKeyParts(p1, n1, e1);
    ObjectKeyParts(p2, n2, e2);
  }

  /** `assets/<name>.<ext>`, where a thumbnail is written on local disk. */
  function ThumbnailLocation(name: string, ext: string): string {
    "assets/" + name + "." + ext
  }

  /** A thumbnail path lies directly under `assets` and splits back into
      the name and extension it was built from. */
  lemma ThumbnailLocationParts(name: string, ext: string)
    requires '/' !in name && '/' !in ext && '.' !in name && '.' !in ext
    ensures Split(ThumbnailLocation(name, ext), '/') == ["assets", name + "." + ext]
    ensures Split(name + "." + ext, '.') == [name, ext]
  {
    assert ThumbnailLocation(name, ext) == "assets" + ['/'] + (name + "." + ext);
    assert name + "." + ext == name + ['.'] + ext;
    SplitPair("assets", name + "." + ext, '/');
    SplitPair(name, ext, '.');
  }

  /** The address a thumbnail is served from by the local file server. */
  function ThumbnailUrl(port: string, location: string): string {
    "http://localhost:" + port + "/" + location
  }

  /** The URL of a thumbnail written under `assets`. */
  lemma ThumbnailUrlShape(port: string, name: string, ext: string)
    ensures ThumbnailUrl(port, ThumbnailLocation(name, ext)) ==
      "http://localhost:" + port + "/assets/" + name + "." + ext
  {
    assert "/" + "assets/" == "/assets/";
  }
}
