/** How the request handler classifies a URL path: it takes the last path segment
    (dropping one trailing slash), accepts only the configuration endpoint and
    segments that mention ".mpd" or ".dcsm", and routes file requests by the
    extension that starts at the segment's last dot. Go's `strings.LastIndex` and
    `strings.Contains` are modelled on characters. */
module RequestPath {
  import opened SteeringTypes

  const ConfigEndpoint := "content_steering_config"
  const MpdExtension := ".mpd"
  const DcsmExtension := ".dcsm"

  /** The request routes the handler can take after classification. `Panic` is the
      run-time slice-bounds failure the handler hits on an empty path. */
  datatype Route =
    | Panic
    | Forbidden(segment: string)
    | ConfigRequest
    | MpdRequest(file: string)
    | DcsmRequest
    | BadRequest

  /** strings.LastIndex for a one-character needle: the last position of `c`, or -1. */
  function LastIndexOf(s: string, c: char): (i: int)
    ensures -1 <= i < |s|
    ensures 0 <= i ==> s[i] == c
    ensures forall j :: i < j < |s| ==> s[j] != c
  {
    if |s| == 0 then -1
    else if s[|s| - 1] == c then |s| - 1
    else LastIndexOf(s[..|s| - 1], c)
  }

  predicate IsPrefix(p: string, s: string) {
    |p| <= |s| && s[..|p|] == p
  }

  /** strings.Contains: `t` occurs somewhere in `s`. */
  predicate Contains(s: string, t: string)
    decreases |s|
  {
    IsPrefix(t, s) || (|s| > 0 && Contains(s[1..], t))
  }

  /** Wherever a non-empty pattern occurs, its first character occurs. */
  lemma {:induction false} ContainsFirstChar(s: string, t: string)
    requires |t| > 0 && Contains(s, t)
    ensures t[0] in s
    decreases |s|
  {
    if IsPrefix(t, s) {
      assert s[0] == t[0];
    } else {
      ContainsFirstChar(s[1..], t);
    }
  }

  /** `t` occurs in `s` starting at position `i`. */
  predicate OccursAt(s: string, t: string, i: int) {
    0 <= i <= |s| - |t| && s[i..i + |t|] == t
  }

  /** `Contains` is strings.Contains: `t` occurs in `s` exactly when it occurs at some
      position. */
  lemma {:induction false} ContainsIffOccurs(s: string, t: string)
    ensures Contains(s, t) <==> exists i :: OccursAt(s, t, i)
    decreases |s|
  {
    if Contains(s, t) {
      if IsPrefix(t, s) {
        assert OccursAt(s, t, 0);
      } else {
        ContainsIffOccurs(s[1..], t);
        var j :| OccursAt(s[1..], t, j);
        assert s[1..][j..j + |t|] == s[j + 1..j + 1 + |t|];
        assert OccursAt(s, t, j + 1);
      }
    }
    if exists i :: OccursAt(s, t, i) {
      var i :| OccursAt(s, t, i);
      assert s[i..][..|t|] == s[i..i + |t|];
      ContainsAt(s, t, i);
    }
  }

  /** The last path segment, one trailing "/" dropped first. `None` is the slice-bounds
      panic of `path[0:-1]`, which only an empty path reaches. */
  function LastSegment(path: string): Option<string>
  {
    var p := LastIndexOf(path, '/');
    var last := path[p + 1..];
    if |last| > 0 then Some(last)
    else if p < 0 then None
    else
      var trimmed := path[..p];
      Some(trimmed[LastIndexOf(trimmed, '/') + 1..])
  }

  /** The segment is the longest slash-free suffix of the path, after one trailing slash
      is dropped; only the empty path has none. */
  lemma {:induction false} LastSegmentShape(path: string)
    ensures LastSegment(path).None? <==> path == ""
    ensures LastSegment(path).Some? ==>
      var seg := LastSegment(path).value;
      var body := if path[|path| - 1] == '/' then path[..|path| - 1] else path;
      && '/' !in seg
      && |seg| <= |body|
      && body[|body| - |seg|..] == seg
      && (|seg| == |body| || body[|body| - |seg| - 1] == '/')
  {
  }

  /** The extension: the segment from its last dot on (Go slices from the index
      strings.LastIndex returns, which must not be -1). */
  function Extension(segment: string): (ext: string)
    requires '.' in segment
    ensures |ext| > 0 && ext[0] == '.' && '.' !in ext[1..]
    ensures |ext| <= |segment| && segment[|segment| - |ext|..] == ext
  {
    var d := LastIndexOf(segment, '.');
    assert forall j :: 1 <= j < |segment| - d ==> segment[d..][j] == segment[d + j];
    segment[d..]
  }

  /** The handler's filter: the configuration endpoint or a segment mentioning ".dcsm" or ".mpd". */
  predicate Supported(segment: string) {
    segment == ConfigEndpoint || Contains(segment, DcsmExtension) || Contains(segment, MpdExtension)
  }

  /** The handler's classification of a request path, before the HTTP method is looked at. */
  function Classify(path: string): Route
  {
    match LastSegment(path)
    case None => Panic
    case Some(segment) => ClassifySegment(segment)
  }

  /** The classification of an extracted last segment. */
  function ClassifySegment(segment: string): (r: Route)
    ensures !r.Panic?
  {
      if !Supported(segment) then Forbidden(segment)
      else if segment == ConfigEndpoint then ConfigRequest
      else
        ContainsFirstChar(segment, if Contains(segment, DcsmExtension) then DcsmExtension else MpdExtension);
        var ext := Extension(segment);
        if Contains(ext, MpdExtension) then MpdRequest(segment)
        else if Contains(ext, DcsmExtension) then DcsmRequest
        else BadRequest
  }

  /** Within a string whose only dot is its first character, a pattern starting with a dot
      occurs exactly when it is a prefix. */
  lemma {:induction false} DotLedContains(ext: string, pattern: string)
    requires |ext| > 0 && ext[0] == '.' && '.' !in ext[1..]
    requires |pattern| > 0 && pattern[0] == '.'
    ensures Contains(ext, pattern) <==> IsPrefix(pattern, ext)
  {
    if Contains(ext, pattern) && !IsPrefix(pattern, ext) {
      ContainsFirstChar(ext[1..], pattern);
      assert false;
    }
  }

  /** Only an empty path makes the handler panic; any other path, such as every path the
      HTTP server delivers (they start with "/"), is classified by its last segment. */
  lemma {:induction false} ClassifyPanicsOnlyOnEmpty(path: string)
    ensures Classify(path).Panic? <==> path == ""
    ensures path != "" ==> Classify(path) == ClassifySegment(LastSegment(path).value)
  {
  }

  /** A request is refused with 403 exactly when its segment fails the filter. */
  lemma {:induction false} ClassifyForbiddenIff(segment: string)
    ensures ClassifySegment(segment).Forbidden? <==> !Supported(segment)
  {
  }

  /** A segment is served as an MPD exactly when it has a dot and its extension begins
      with ".mpd"; as a DCSM exactly when its extension begins with ".dcsm". The ".mpd"
      test is made first. A segment that passes the filter with neither extension, such
      as "bbb.mpd.bak", gets the final 400 answer. */
  lemma {:induction false} ClassifyByExtension(segment: string)
    ensures ClassifySegment(segment).MpdRequest? <==> '.' in segment && IsPrefix(MpdExtension, Extension(segment))
    ensures ClassifySegment(segment).DcsmRequest? <==> '.' in segment && IsPrefix(DcsmExtension, Extension(segment))
    ensures ClassifySegment(segment).MpdRequest? ==> ClassifySegment(segment).file == segment
    ensures ClassifySegment(segment).BadRequest? <==>
      && Supported(segment) && '.' in segment
      && !IsPrefix(MpdExtension, Extension(segment)) && !IsPrefix(DcsmExtension, Extension(segment))
  {
    assert '.' !in ConfigEndpoint;
    if '.' in segment {
      var ext := Extension(segment);
      DotLedContains(ext, MpdExtension);
      DotLedContains(ext, DcsmExtension);
      if IsPrefix(MpdExtension, ext) {
        ContainsAt(segment, MpdExtension, |segment| - |ext|);
      }
      if IsPrefix(DcsmExtension, ext) {
        ContainsAt(segment, DcsmExtension, |segment| - |ext|);
        assert ext[1] == DcsmExtension[1] != MpdExtension[1];
      }
    } else {
      if Contains(segment, MpdExtension) {
        ContainsFirstChar(segment, MpdExtension);
      }
      if Contains(segment, DcsmExtension) {
        ContainsFirstChar(segment, DcsmExtension);
      }
    }
  }

  /** A pattern that starts at some position of a string is contained in it. */
  lemma {:induction false} ContainsAt(s: string, t: string, i: nat)
    requires i <= |s| && IsPrefix(t, s[i..])
    ensures Contains(s, t)
    decreases i
  {
    if i > 0 {
      assert s[1..][i - 1..] == s[i..];
      ContainsAt(s[1..], t, i - 1);
    }
  }

  /** resolveRemoteUrl: the origin URL of a requested file is the remote base URL followed by the file name. */
  function ResolveRemoteUrl(remoteBaseUrl: string, file: string): string
  {
    remoteBaseUrl + file
  }

  /** When the remote base URL ends with "/", the origin URL's last segment is the very
      file the client asked for. */
  lemma {:induction false} ResolvedUrlKeepsSegment(remoteBaseUrl: string, file: string)
    requires |remoteBaseUrl| > 0 && remoteBaseUrl[|remoteBaseUrl| - 1] == '/'
    requires file != "" && '/' !in file
    ensures LastSegment(ResolveRemoteUrl(remoteBaseUrl, file)) == Some(file)
  {
    var url := ResolveRemoteUrl(remoteBaseUrl, file);
    var p := LastIndexOf(url, '/');
    assert url[|remoteBaseUrl| - 1] == '/';
    forall j | |remoteBaseUrl| <= j < |url| ensures url[j] != '/' {
      assert url[j] == file[j - |remoteBaseUrl|];
    }
    assert p == |remoteBaseUrl| - 1;
  }
}
