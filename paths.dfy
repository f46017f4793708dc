/** Path resolution: an `s3://bucket/key` location becomes a bucket and a key. */
module Paths {
  import opened Types

  /** What a successful `url.Parse` yields, reduced to the three parts the program reads.
      The parser itself is not modelled: its outcome is an input of `ParseS3Path`. */
  datatype Url = Url(scheme: string, host: string, path: string)

  /** The bucket and the key (or key prefix) a path names. */
  datatype Location = Location(bucket: string, key: string)

  /** The only scheme the program accepts. */
  const S3Scheme: string := "s3"

  /** `trimInitialSlash`: drops one leading '/', if there is one, and nothing else. */
  function TrimInitialSlash(s: string): (r: string)
    ensures HasPrefix(s, "/") ==> s == "/" + r
    ensures !HasPrefix(s, "/") ==> r == s
  {
    if HasPrefix(s, "/") then s[1..] else s
  }

  /** The error `parseS3Path` reports for a URL whose scheme is not "s3". */
  function SchemeError(scheme: string): Error {
    GenericError("scheme '" + scheme + "' is not s3")
  }

  /** `parseS3Path`, given the outcome of `url.Parse` on the path. */
  function ParseS3Path(parsed: Result<Url>): (r: Result<Location>)
    ensures r.Ok? <==> parsed.Ok? && parsed.value.scheme == S3Scheme
    ensures parsed.Err? ==> r == Err(parsed.error)
    ensures parsed.Ok? && parsed.value.scheme != S3Scheme ==> r == Err(SchemeError(parsed.value.scheme))
    ensures r.Ok? ==> r.value.bucket == parsed.value.host
    ensures r.Ok? ==> parsed.value.path == "/" + r.value.key || (parsed.value.path == r.value.key && !HasPrefix(r.value.key, "/"))
  {
    match parsed
    case Err(e) => Err(e)
    case Ok(u) =>
      if u.scheme != S3Scheme then Err(SchemeError(u.scheme))
      else Ok(Location(u.host, TrimInitialSlash(u.path)))
  }

  /** The scheme error names the offending scheme, and it is not an `awserr.Error`. */
  lemma SchemeErrorNamesScheme(scheme: string)
    ensures Contains(Text(SchemeError(scheme)), scheme)
    ensures !SchemeError(scheme).AwsError?
  {
    var msg := Text(SchemeError(scheme));
    assert msg == "scheme '" + scheme + "' is not s3";
    assert msg[8..][..|scheme|] == scheme;
    assert HasPrefix(msg[8..], scheme);
  }

  /** A parsed path with or without its leading '/' resolves to the same location. For
      "s3://" text the parser always yields a path that is empty or starts with '/', so the
      second case is reached only by a parse result given directly. */
  lemma LeadingSlashOptional(bucket: string, key: string)
    requires !HasPrefix(key, "/")
    ensures ParseS3Path(Ok(Url(S3Scheme, bucket, "/" + key))) == Ok(Location(bucket, key))
    ensures ParseS3Path(Ok(Url(S3Scheme, bucket, key))) == Ok(Location(bucket, key))
  {
  }

  /** Only one separator is removed: a path "//k" gives the key "/k". */
  lemma OnlyOneSlashTrimmed(bucket: string, key: string)
    ensures ParseS3Path(Ok(Url(S3Scheme, bucket, "//" + key))) == Ok(Location(bucket, "/" + key))
  {
    assert ("//" + key)[1..] == "/" + key;
  }
}
