/** The storage locator a video record holds, serialised as
    `<bucket>,<key>`, and the read-side conversion that turns it into a
    short-lived signed URL. */
module Locator {

  import opened Wrappers
  import opened Strings
  import opened Records

  /** Where an object lives in the object store. */
  datatype Locator = Locator(bucket: string, key: string)

  /** A bucket name. Object-store bucket names are made of lower-case
      letters, digits, dots and hyphens, so none holds the comma the
      serialised locator separates on. */
  type Bucket = s: string | ',' !in s

  /** How long a signed URL stays valid: five minutes, in seconds. */
  const SignedUrlLifetime: nat := 5 * 60

  /** The object store's presigning service: given a bucket, a key and a
      lifetime in seconds it signs a URL or fails. Its internals are not
      part of this model. */
  type Presigner = (string, string, nat) -> Option<string>

  /** The form written into the record: bucket, a comma, key. */
  function Serialize(loc: Locator): string {
    loc.bucket + "," + loc.key
  }

  /** Reading a locator back: the string is split on commas and needs at
      least two pieces; the first is the bucket and the second the key, and
      any further pieces are ignored. */
  function Parse(s: string): (r: Option<Locator>)
    ensures r.None? <==> ',' !in s
    ensures r.Some? ==> ',' !in r.value.bucket && ',' !in r.value.key
    ensures r.Some? ==> Serialize(r.value) <= s
    ensures r.Some? ==> |Serialize(r.value)| == |s| || s[|Serialize(r.value)|] == ','
  {
    var parts := Split(s, ',');
    if |parts| < 2 then None
    else
      LeadingPieces(s);
      Some(Locator(parts[0], parts[1]))
  }

  /** The first two comma-separated pieces of a text, rejoined by a comma,
      are a prefix of it that ends at the end of the text or at a comma. */
  lemma LeadingPieces(s: string)
    requires |Split(s, ',')| >= 2
    ensures var parts := Split(s, ',');
      var n := |parts[0]| + 1 + |parts[1]|;
      && parts[0] + "," + parts[1] <= s
      && (n == |s| || s[n] == ',')
  {
    var parts := Split(s, ',');
    JoinOfSplit(s, ',');
    assert parts[1..][1..] == parts[2..];
    assert Join(parts, ',') == parts[0] + [','] + Join(parts[1..], ',');
    if |parts| > 2 {
      var rest := Join(parts[2..], ',');
      assert Join(parts[1..], ',') == parts[1] + [','] + rest;
      assert s == (parts[0] + "," + parts[1]) + [','] + rest;
    }
  }

  /** A locator whose bucket and key hold no comma survives serialisation. */
  lemma ParseSerialize(loc: Locator)
    requires ',' !in loc.bucket && ',' !in loc.key
    ensures Parse(Serialize(loc)) == Some(loc)
  {
    assert Serialize(loc) == loc.bucket + [','] + loc.key;
    SplitPair(loc.bucket, loc.key, ',');
  }

  /** A comma inside the key is not preserved: only the text before it is
      read back. */
  lemma CommaInKeyIsCut(bucket: string, head: string, tail: string)
    requires ',' !in bucket && ',' !in head
    ensures Parse(Serialize(Locator(bucket, head + [','] + tail))) == Some(Locator(bucket, head))
  {
    var key := head + [','] + tail;
    SplitHead(head, ',', tail);
    SplitHead(bucket, ',', key);
    assert Serialize(Locator(bucket, key)) == bucket + [','] + key;
  }

  /** A record as rendered for a client, and whether presigning failed. */
  datatype Signed = Signed(video: Video, failed: bool)

  /** The conversion applied to a record before it is returned: a record
      without a locator, or whose locator splits into fewer than two pieces,
      passes through unchanged and without error; otherwise the bucket and
      key are presigned for five minutes, a presigning error returns the
      record unchanged together with the error, and a signed URL replaces
      the locator. */
  function ToSigned(video: Video, presign: Presigner): Signed
  {
    if video.videoUrl.None? then Signed(video, false)
    else
      var parts := Split(video.videoUrl.value, ',');
      if |parts| < 2 then Signed(video, false)
      else
        match presign(parts[0], parts[1], SignedUrlLifetime)
        case None => Signed(video, true)
        case Some(url) => Signed(video.(videoUrl := Some(url)), false)
  }

  /** What the conversion can change: only the locator, only to a URL the
      presigner returned for the parsed bucket and key, and a failure leaves
      the record as it was. */
  lemma ToSignedCases(video: Video, presign: Presigner)
    ensures var r := ToSigned(video, presign);
      && r.video == video.(videoUrl := r.video.videoUrl)
      && (r.failed ==> r.video == video)
      && (video.videoUrl.None? ==> r == Signed(video, false))
      && (video.videoUrl.Some? ==>
            match Parse(video.videoUrl.value)
            case None => r == Signed(video, false)
            case Some(loc) =>
              match presign(loc.bucket, loc.key, SignedUrlLifetime)
              case None => r == Signed(video, true)
              case Some(url) => r == Signed(video.(videoUrl := Some(url)), false))
  {
  }

  /** A stored locator with a comma-free bucket and key is presigned for
      exactly that bucket and key. */
  lemma SignsStoredLocator(video: Video, loc: Locator, presign: Presigner)
    requires ',' !in loc.bucket && ',' !in loc.key
    requires video.videoUrl == Some(Serialize(loc))
    ensures ToSigned(video, presign).failed <==> presign(loc.bucket, loc.key, SignedUrlLifetime).None?
    ensures presign(loc.bucket, loc.key, SignedUrlLifetime).Some? ==>
      ToSigned(video, presign).video == video.(videoUrl := presign(loc.bucket, loc.key, SignedUrlLifetime))
  {
    ParseSerialize(loc);
  }
}
