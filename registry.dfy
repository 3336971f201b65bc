/** Rewriting of a container image reference so that it points at a target
    registry (internal/registry/rewriter.go).

    An image reference is inspected positionally, as a string: an optional
    registry host before the first '/', a repository path, and an optional
    ":tag" or "@digest" suffix. The registry detection is a heuristic, not
    the OCI reference grammar, and is modelled exactly as written. */
module Registry {

  /** The two validation errors RewriteImage can return. */
  datatype RewriteError = EmptyImage | EmptyTargetRegistry

  datatype Result<T> = Ok(value: T) | Err(error: RewriteError)

  /** Position of the first occurrence of `c` in `s`, or |s| when `c` does
      not occur (strings.Index, with "not found" reported as the length). */
  function IndexOf(s: string, c: char): (i: nat)
    ensures i <= |s|
    ensures i < |s| ==> s[i] == c
    ensures forall k :: 0 <= k < i ==> s[k] != c
  {
    if s == [] then 0
    else if s[0] == c then 0
    else 1 + IndexOf(s[1..], c)
  }

  /** strings.SplitN(s, "/", 2) on a string that holds a '/': the text
      before the first '/' and everything after it. */
  function SplitFirstSlash(s: string): (parts: (string, string))
    requires '/' in s
    ensures s == parts.0 + "/" + parts.1
    ensures '/' !in parts.0
  {
    var i := IndexOf(s, '/');
    assert s == s[..i] + [s[i]] + s[i + 1..];
    (s[..i], s[i + 1..])
  }

  /** A first path segment is taken for a registry host when it holds a
      '.' (a domain name) or a ':' (a port). */
  predicate LooksLikeRegistry(segment: string) {
    '.' in segment || ':' in segment
  }

  /** The image names an existing registry: it holds a '/' and the text
      before the first '/' looks like a registry host. */
  predicate HasRegistry(image: string) {
    '/' in image && LooksLikeRegistry(SplitFirstSlash(image).0)
  }

  /** The image without its registry host (and the '/' after it), or the
      whole image when it names no registry. */
  function StripRegistry(image: string): string {
    if HasRegistry(image) then SplitFirstSlash(image).1 else image
  }

  /** The reference carries an explicit tag or digest. */
  predicate HasTagOrDigest(image: string) {
    ':' in image || '@' in image
  }

  /** The image with ":latest" appended when it carries no tag or digest;
      the result always carries one. */
  function DefaultTag(image: string): (tagged: string)
    ensures HasTagOrDigest(tagged)
  {
    if !HasTagOrDigest(image) then
      assert (image + ":latest")[|image|] == ':';
      image + ":latest"
    else image
  }

  /** RewriteImage (rewriter.go:11-38): validate both inputs, strip an
      existing registry, default the tag, prefix the target registry. The
      empty image is checked first, so it wins over an empty target. */
  function RewriteImage(originalImage: string, targetRegistry: string): (r: Result<string>)
    ensures originalImage == "" ==> r == Err(EmptyImage)
    ensures originalImage != "" && targetRegistry == "" ==> r == Err(EmptyTargetRegistry)
    ensures r.Ok? <==> originalImage != "" && targetRegistry != ""
  {
    if originalImage == "" then Err(EmptyImage)
    else if targetRegistry == "" then Err(EmptyTargetRegistry)
    else
      var image := StripRegistry(originalImage);
      var image' := DefaultTag(image);
      Ok(targetRegistry + "/" + image')
  }

  // ---------------------------------------------------------------------
  // Properties of the rewrite

  /** Splitting at the first '/' is unique: a '/'-free prefix followed by a
      '/' is exactly the first segment. */
  lemma {:induction false} SplitFirstSlashOf(host: string, rest: string)
    requires '/' !in host
    ensures '/' in host + "/" + rest
    ensures SplitFirstSlash(host + "/" + rest) == (host, rest)
  {
    var s := host + "/" + rest;
    assert s[|host|] == '/';
    IndexOfFirst(host, rest);
    assert s[..|host|] == host;
    assert s[|host| + 1..] == rest;
  }

  lemma {:induction false} IndexOfFirst(host: string, rest: string)
    requires '/' !in host
    ensures IndexOf(host + "/" + rest, '/') == |host|
  {
    var s := host + "/" + rest;
    if host != [] {
      assert s[0] == host[0];
      assert s[1..] == host[1..] + "/" + rest;
      IndexOfFirst(host[1..], rest);
    }
  }

  /** A first segment that looks like a registry host is stripped, and
      exactly the text after its '/' is kept. */
  lemma StripKnownRegistry(host: string, rest: string)
    requires '/' !in host && LooksLikeRegistry(host)
    ensures HasRegistry(host + "/" + rest)
    ensures StripRegistry(host + "/" + rest) == rest
  {
    SplitFirstSlashOf(host, rest);
  }

  /** A first segment with neither '.' nor ':' is kept as part of the
      repository path. */
  lemma KeepPlainSegment(segment: string, rest: string)
    requires '/' !in segment && !LooksLikeRegistry(segment)
    ensures !HasRegistry(segment + "/" + rest)
    ensures StripRegistry(segment + "/" + rest) == segment + "/" + rest
  {
    SplitFirstSlashOf(segment, rest);
  }

  /** The registry segment is dropped if and only if the image holds a '/'
      and the text before the first '/' holds a '.' or a ':'. When it is
      dropped, what is kept is everything after that first '/', verbatim;
      otherwise the whole image is kept. */
  lemma StrippingRule(image: string)
    ensures StripRegistry(image) != image <==>
            '/' in image && LooksLikeRegistry(image[..IndexOf(image, '/')])
    ensures '/' in image && LooksLikeRegistry(image[..IndexOf(image, '/')]) ==>
            StripRegistry(image) == image[IndexOf(image, '/') + 1..]
    ensures !('/' in image && LooksLikeRegistry(image[..IndexOf(image, '/')])) ==>
            StripRegistry(image) == image
  {
  }

  /** On success the result begins with the target registry and a '/',
      and what follows is the remainder left after stripping, with
      ":latest" appended when it has no tag. */
  lemma ResultShape(originalImage: string, targetRegistry: string)
    requires originalImage != "" && targetRegistry != ""
    ensures RewriteImage(originalImage, targetRegistry).Ok?
    ensures var rest := StripRegistry(originalImage);
            var r := RewriteImage(originalImage, targetRegistry).value;
            var n := |targetRegistry| + 1;
            |r| > n && r[..n] == targetRegistry + "/" &&
            (r[n..] == rest || r[n..] == rest + ":latest")
  {
    var r := RewriteImage(originalImage, targetRegistry).value;
    var prefix := targetRegistry + "/";
    var tagged := DefaultTag(StripRegistry(originalImage));
    assert r == prefix + tagged;
    assert r[..|prefix|] == prefix && r[|prefix|..] == tagged;
  }

  /** A remainder without ':' and '@' gets the tag ":latest". */
  lemma LatestDefault(originalImage: string, targetRegistry: string)
    requires originalImage != "" && targetRegistry != ""
    requires !HasTagOrDigest(StripRegistry(originalImage))
    ensures var r := RewriteImage(originalImage, targetRegistry);
            r == Ok(targetRegistry + "/" + StripRegistry(originalImage) + ":latest") &&
            r.value[|r.value| - 7..] == ":latest"
  {
    var rest := StripRegistry(originalImage);
    assert targetRegistry + "/" + (rest + ":latest") == targetRegistry + "/" + rest + ":latest";
    var prefix := targetRegistry + "/" + rest;
    assert (prefix + ":latest")[|prefix|..] == ":latest";
  }

  /** The same default stated on the original image: an image with
      neither ':' nor '@' anywhere is rewritten to a result ending in
      ":latest", since the remainder kept after stripping is a part of it. */
  lemma UntaggedImageGetsLatest(originalImage: string, targetRegistry: string)
    requires originalImage != "" && targetRegistry != ""
    requires !HasTagOrDigest(originalImage)
    ensures var r := RewriteImage(originalImage, targetRegistry);
            r == Ok(targetRegistry + "/" + StripRegistry(originalImage) + ":latest") &&
            r.value[|r.value| - 7..] == ":latest"
  {
    var rest := StripRegistry(originalImage);
    if HasRegistry(originalImage) {
      var host := SplitFirstSlash(originalImage).0;
      assert originalImage == host + "/" + rest;
      forall k | 0 <= k < |rest|
        ensures rest[k] != ':' && rest[k] != '@'
      {
        assert rest[k] == originalImage[|host| + 1 + k];
      }
    }
    LatestDefault(originalImage, targetRegistry);
  }

  /** An explicit tag or digest is never overwritten: the remainder appears
      unchanged after the target registry and '/'. */
  lemma TagOrDigestPreserved(originalImage: string, targetRegistry: string)
    requires originalImage != "" && targetRegistry != ""
    requires HasTagOrDigest(StripRegistry(originalImage))
    ensures RewriteImage(originalImage, targetRegistry) ==
            Ok(targetRegistry + "/" + StripRegistry(originalImage))
  {
  }

  /** The same preservation stated on the original image: a ':tag' or
      '@digest' suffix (which holds no '/') of the original image ends the
      rewritten reference unchanged, whether or not a registry is dropped. */
  lemma TagSuffixPreserved(path: string, suffix: string, targetRegistry: string)
    requires path + suffix != "" && targetRegistry != ""
    requires '/' !in suffix && HasTagOrDigest(suffix)
    ensures RewriteImage(path + suffix, targetRegistry).Ok?
    ensures var r := RewriteImage(path + suffix, targetRegistry).value;
            |r| >= |suffix| && r[|r| - |suffix|..] == suffix
  {
    var o := path + suffix;
    var head: string := path;
    if HasRegistry(o) {
      var i := IndexOf(o, '/');
      assert o[i] == '/';
      assert i < |path|;
      head := path[i + 1..];
      StrippingRule(o);
      assert o[i + 1..] == head + suffix;
    }
    var rest := StripRegistry(o);
    assert rest == head + suffix;
    assert HasTagOrDigest(rest) by {
      var k :| 0 <= k < |suffix| && (suffix[k] == ':' || suffix[k] == '@');
      assert rest[|head| + k] == suffix[k];
    }
    TagOrDigestPreserved(o, targetRegistry);
    var r := targetRegistry + "/" + head + suffix;
    assert RewriteImage(o, targetRegistry).value == r;
    assert r[|r| - |suffix|..] == suffix;
  }

  /** A concrete instance of the ':latest' default: "nginx" becomes
      "target-registry.com/nginx:latest". */
  lemma RewritesPlainName()
    ensures RewriteImage("nginx", "target-registry.com") == Ok("target-registry.com/nginx:latest")
  {
    var r := RewriteImage("nginx", "target-registry.com").value;
    var expected := "target-registry.com/nginx:latest";
    assert |r| == |expected|;
    forall k | 0 <= k < |r|
      ensures r[k] == expected[k]
    {
    }
    assert r == expected;
  }

  /** Every successful result carries a tag or digest after the target
      registry. */
  lemma ResultHasTagOrDigest(originalImage: string, targetRegistry: string)
    requires RewriteImage(originalImage, targetRegistry).Ok?
    ensures var r := RewriteImage(originalImage, targetRegistry).value;
            HasTagOrDigest(r[|targetRegistry| + 1..])
  {
    var r := RewriteImage(originalImage, targetRegistry).value;
    assert r[|targetRegistry| + 1..] == DefaultTag(StripRegistry(originalImage));
  }

  /** Rewriting is idempotent for a target registry that is itself detected
      as a registry host (it holds '.' or ':' and no '/'): rewriting an
      output again with the same target gives the same string. */
  lemma {:induction false} Idempotent(originalImage: string, targetRegistry: string)
    requires LooksLikeRegistry(targetRegistry) && '/' !in targetRegistry
    requires RewriteImage(originalImage, targetRegistry).Ok?
    ensures var r := RewriteImage(originalImage, targetRegistry).value;
            RewriteImage(r, targetRegistry) == Ok(r)
  {
    var r := RewriteImage(originalImage, targetRegistry).value;
    var rest := DefaultTag(StripRegistry(originalImage));
    assert r == targetRegistry + "/" + rest;
    StripKnownRegistry(targetRegistry, rest);
    assert DefaultTag(rest) == rest;
  }

  /** Without a '.' or ':' in the target registry the idempotence above
      fails for every output: the target is then read as a path segment, is
      kept, and is prefixed a second time. */
  lemma {:induction false} NotIdempotentForPlainHost(originalImage: string, targetRegistry: string)
    requires !LooksLikeRegistry(targetRegistry) && '/' !in targetRegistry
    requires RewriteImage(originalImage, targetRegistry).Ok?
    ensures var r := RewriteImage(originalImage, targetRegistry).value;
            RewriteImage(r, targetRegistry) == Ok(targetRegistry + "/" + r) &&
            RewriteImage(r, targetRegistry) != Ok(r)
  {
    var r := RewriteImage(originalImage, targetRegistry).value;
    var rest := DefaultTag(StripRegistry(originalImage));
    assert r == targetRegistry + "/" + rest;
    KeepPlainSegment(targetRegistry, rest);
    assert r[|targetRegistry| + 1..] == rest;
    assert HasTagOrDigest(r) by {
      var k :| 0 <= k < |rest| && (rest[k] == ':' || rest[k] == '@');
      assert r[|targetRegistry| + 1 + k] == rest[k];
    }
    assert DefaultTag(r) == r;
  }
}
