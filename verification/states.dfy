/**
 * `DownloadFileState`: the fingerprint of one remote file (its URL and the
 * `Content-MD5`, `Content-Length` and `Last-Modified` header values of the
 * last probe) plus two run-time fields that are never persisted.
 */
module DownloadFileStates {
  import opened Basics

  /**
   * An absolute URI, reduced to the parts the core looks at: `localPath`
   * feeds the target file name, the rest only takes part in equality.
   */
  datatype Uri = Uri(scheme: string, authority: string, localPath: string, query: string)

  /** The three response headers a probe reads; `None` when a header is absent. */
  datatype Headers = Headers(contentMd5: Option<string>, contentLength: Option<string>, lastModified: Option<string>)

  /** The persisted part of a state: what the state file holds per URL. */
  datatype Fingerprint = Fingerprint(url: Uri, md5Hash: Option<string>, length: Option<string>, lastModified: Option<string>)

  /** A `DownloadFileState` object's fields. */
  datatype DownloadFileState = DownloadFileState(
    url: Uri,
    md5Hash: Option<string>,
    length: Option<string>,
    lastModified: Option<string>,
    downloadPath: Option<string>,
    isNewVersionAvailable: bool)

  /** Serialising a state keeps `Url`, `MD5Hash`, `Length` and `LastModified` only. */
  function ToFingerprint(s: DownloadFileState): (f: Fingerprint)
    ensures f.url == s.url
  {
    Fingerprint(s.url, s.md5Hash, s.length, s.lastModified)
  }

  /** Deserialising a stored entry: the ignored fields get their defaults. */
  function FromFingerprint(f: Fingerprint): (s: DownloadFileState)
    ensures s.downloadPath == None && !s.isNewVersionAvailable
    ensures ToFingerprint(s) == f
  {
    DownloadFileState(f.url, f.md5Hash, f.length, f.lastModified, None, false)
  }

  /**
   * `Equals(object)`: false for null, otherwise field by field on `Url`,
   * `MD5Hash`, `Length` and `LastModified`, where two null strings are equal.
   */
  predicate Equals(x: DownloadFileState, another: Option<DownloadFileState>)
  {
    && another.Some?
    && x.url == another.value.url
    && x.md5Hash == another.value.md5Hash
    && x.length == another.value.length
    && x.lastModified == another.value.lastModified
  }

  /**
   * `operator ==`: true for the same reference (which for two non-null states
   * implies `Equals`) or for two non-null states that are `Equals`.
   */
  predicate OpEquals(x: Option<DownloadFileState>, y: Option<DownloadFileState>)
  {
    (x.None? && y.None?) || (x.Some? && y.Some? && Equals(x.value, y))
  }

  /** `operator !=` is the negation of `==`. */
  predicate OpNotEquals(x: Option<DownloadFileState>, y: Option<DownloadFileState>)
  {
    !OpEquals(x, y)
  }

  /** A new state from a probe: the request URL and the three header values. */
  function CreateFromWebResponse(requestUrl: Uri, headers: Headers): (s: DownloadFileState)
    ensures ToFingerprint(s) == Fingerprint(requestUrl, headers.contentMd5, headers.contentLength, headers.lastModified)
    ensures s.downloadPath == None && !s.isNewVersionAvailable
  {
    DownloadFileState(requestUrl, headers.contentMd5, headers.contentLength, headers.lastModified, None, false)
  }

  /** Two states are `Equals` exactly when their persisted fingerprints coincide. */
  lemma EqualsIffSameFingerprint(x: DownloadFileState, y: DownloadFileState)
    ensures Equals(x, Some(y)) <==> ToFingerprint(x) == ToFingerprint(y)
  {
  }

  /** `Equals` ignores `DownloadPath` and `IsNewVersionAvailable`. */
  lemma EqualsIgnoresRuntimeFields(x: DownloadFileState, y: DownloadFileState, path: Option<string>, flag: bool)
    ensures Equals(x, Some(y)) <==> Equals(x.(downloadPath := path, isNewVersionAvailable := flag), Some(y))
    ensures Equals(x, Some(y)) <==> Equals(x, Some(y.(downloadPath := path, isNewVersionAvailable := flag)))
  {
  }

  /** `==` on states is an equivalence relation, null being equal only to null. */
  lemma OpEqualsIsEquivalence(x: Option<DownloadFileState>, y: Option<DownloadFileState>, z: Option<DownloadFileState>)
    ensures OpEquals(x, x)
    ensures OpEquals(x, y) ==> OpEquals(y, x)
    ensures OpEquals(x, y) && OpEquals(y, z) ==> OpEquals(x, z)
    ensures x.None? ==> (OpEquals(x, y) <==> y.None?)
  {
  }

  /**
   * `==` in terms of fingerprints: two nulls are equal, exactly one null is
   * unequal, two states are equal iff their fingerprints are; `!=` is the
   * opposite in every case.
   */
  lemma OpEqualsByFingerprint(x: Option<DownloadFileState>, y: Option<DownloadFileState>)
    ensures OpEquals(x, y) <==>
      (x.None? && y.None?) || (x.Some? && y.Some? && ToFingerprint(x.value) == ToFingerprint(y.value))
    ensures OpNotEquals(x, y) <==> !OpEquals(x, y)
  {
  }
}
