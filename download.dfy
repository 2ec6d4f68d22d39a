/**
 * Downloading an external image: guessing its format from the Content-Type
 * header, naming it after the URL's path, and normalising its colour mode
 * before re-encoding it.
 */
module Download {
  import opened Wrappers
  import opened Exceptions
  import opened Strings
  import opened PosixPath

  /**
   * `guess_image_format(content_type)`: the upper-cased subtype of an `image/...`
   * type, None otherwise. `"image"` with no slash has no second part: IndexError.
   */
  function GuessImageFormat(contentType: string): (r: Result<Option<string>, Exception>)
    ensures contentType == [] ==> r == Success(None)
    ensures r.Failure? ==> r.error == IndexError
  {
    if contentType == [] then Success(None)
    else
      var parts := SplitOn(contentType, '/');
      if parts[0] == "image" then
        if |parts| < 2 then Failure(IndexError) else Success(Some(Upper(parts[1])))
      else Success(None)
  }

  lemma SplitImageSubtype(sub: string)
    requires '/' !in sub
    ensures SplitOn("image/" + sub, '/') == ["image", sub]
  {
    assert "image" + ['/'] == "image/";
    assert '/' !in "image";
    SplitOnTwo("image", '/', sub);
  }

  /** `image/<sub>`, with a subtype that has no further slash, gives `<sub>` upper-cased. */
  lemma GuessImageSubtype(sub: string)
    requires '/' !in sub
    ensures GuessImageFormat("image/" + sub) == Success(Some(Upper(sub)))
  {
    SplitImageSubtype(sub);
  }

  lemma GuessImagePng()
    ensures GuessImageFormat("image/png") == Success(Some("PNG"))
  {
    var sub := "png";
    assert "image/" + sub == "image/png";
    assert Upper(sub) == "PNG" by {
      assert Upper(sub)[0] == 'P' && Upper(sub)[1] == 'N' && Upper(sub)[2] == 'G';
    }
    GuessImageSubtype(sub);
  }

  /** A content type whose major type is not `image` gives no format. */
  lemma GuessOtherMajor(major: string, rest: string)
    requires '/' !in major && major != "image"
    ensures GuessImageFormat(major + "/" + rest) == Success(None)
  {
    assert major + "/" + rest == major + ['/'] + rest;
    SplitOnAppend(major, '/', rest);
    SplitOnNoSeparator(major, '/');
  }

  /** The only content type that fails is the bare `image`. */
  lemma GuessFailsOnlyOnBareImage(contentType: string)
    ensures GuessImageFormat(contentType).Failure? <==> contentType == "image"
  {
    if contentType == "image" {
      GuessBareImageFails();
    } else if GuessImageFormat(contentType).Failure? {
      GuessFailureIsBareImage(contentType);
    }
  }

  lemma GuessBareImageFails()
    ensures GuessImageFormat("image") == Failure(IndexError)
  {
    SplitOnNoSeparator("image", '/');
  }

  lemma GuessFailureIsBareImage(contentType: string)
    requires GuessImageFormat(contentType).Failure?
    ensures contentType == "image"
  {
    var parts := SplitOn(contentType, '/');
    assert parts[0] == "image" && |parts| < 2;
    SplitOnSingle(contentType, '/');
  }

  /** `image.mode not in ('L', 'RGB')` triggers a conversion to RGB. */
  function ConvertedMode(mode: string): (r: string)
    ensures r == "L" || r == "RGB"
    ensures mode == "L" || mode == "RGB" ==> r == mode
    ensures mode != "L" && mode != "RGB" ==> r == "RGB"
  {
    if mode in ["L", "RGB"] then mode else "RGB"
  }

  predicate IsSchemeChar(c: char) {
    'a' <= c <= 'z' || 'A' <= c <= 'Z' || '0' <= c <= '9' || c == '+' || c == '-' || c == '.'
  }

  /** The text before the first occurrence of `c`, or all of `s`. */
  function Before(s: string, c: char): (r: string)
    ensures StartsWith(s, r) && c !in r
  {
    var i := IndexOf(s, c);
    if i < 0 then s else s[..i]
  }

  /** Where the network location that starts `s` ends: at the first '/', '?' or '#'. */
  function NetlocEnd(s: string): (r: nat)
    ensures r <= |s|
    ensures forall k :: 0 <= k < r ==> s[k] != '/' && s[k] != '?' && s[k] != '#'
    ensures r < |s| ==> s[r] == '/' || s[r] == '?' || s[r] == '#'
  {
    if s == [] || s[0] in "/?#" then 0 else 1 + NetlocEnd(s[1..])
  }

  /** `url` without a leading `scheme:` (a non-empty run of scheme characters before the first ':'). */
  function AfterScheme(url: string): (r: string)
    ensures EndsWith(url, r)
  {
    var i := IndexOf(url, ':');
    if i > 0 && forall k :: 0 <= k < i ==> IsSchemeChar(url[k]) then url[i + 1..] else url
  }

  /** `s` without a leading `//netloc`. */
  function AfterNetloc(s: string): (r: string)
    ensures EndsWith(s, r)
  {
    if StartsWith(s, "//") then s[2 + NetlocEnd(s[2..])..] else s
  }

  /** The path without the `;params` of its last segment. */
  function StripParams(path: string): (r: string)
    ensures StartsWith(path, r)
  {
    var start := LastIndexOf(path, '/') + 1;
    var semi := IndexOf(path[start..], ';');
    if semi < 0 then path
    else
      PrefixStartsWith(path, start + semi);
      path[..start + semi]
  }

  /**
   * The path component of `urlparse(url)`: a leading `scheme:` and `//netloc` are
   * removed, then the fragment, the query and the `;params` of the last segment.
   */
  function UrlPath(url: string): (r: string)
    ensures '#' !in r && '?' !in r
  {
    var query := Before(Before(AfterNetloc(AfterScheme(url)), '#'), '?');
    var r := StripParams(query);
    assert forall k :: 0 <= k < |r| ==> r[k] == query[k];
    r
  }

  /** What `urllib.urlretrieve` and `Image.open` give for a URL: the Content-Type header ("" when missing), the decoded image's mode and size. */
  datatype Retrieved = Retrieved(contentType: string, mode: string, size: (int, int))

  /** The bytes `image.save(destination, format=...)` writes, described by what determines them. */
  datatype ContentFile = ContentFile(format: string, mode: string, size: (int, int))

  /** The `(filename, size, ContentFile)` triple. */
  datatype WebsiteImage = WebsiteImage(filename: string, size: (int, int), content: ContentFile)

  /**
   * `django_website_image(url)`: the file name is the basename of the URL's path; the
   * image is converted to RGB unless it is L or RGB, then encoded in the guessed
   * format. A format that cannot be guessed, or that no encoder handles, is an error.
   */
  function DjangoWebsiteImage(url: string, retrieve: string -> Retrieved, encoders: set<string>)
    : (r: Result<WebsiteImage, Exception>)
    ensures r.Success? ==> r.value.filename == Basename(UrlPath(url))
    ensures r.Success? ==> r.value.size == retrieve(url).size && r.value.content.size == retrieve(url).size
    ensures r.Success? ==> r.value.content.mode == ConvertedMode(retrieve(url).mode)
    ensures r.Success? <==>
      var f := GuessImageFormat(retrieve(url).contentType);
      f.Success? && f.value.Some? && f.value.value in encoders
    ensures r.Success? ==> Some(r.value.content.format) == GuessImageFormat(retrieve(url).contentType).value
  {
    var filename := Basename(UrlPath(url));
    var info := retrieve(url);
    var format := GuessImageFormat(info.contentType);
    if format.Failure? then Failure(format.error)
    else if format.value.None? || format.value.value !in encoders then Failure(UnknownImageFormat)
    else
      var mode := ConvertedMode(info.mode);
      Success(WebsiteImage(filename, info.size, ContentFile(format.value.value, mode, info.size)))
  }

  lemma IndexOfAbsent(s: string, c: char)
    requires c !in s
    ensures IndexOf(s, c) == -1
  {
  }

  lemma BeforeAbsent(s: string, c: char)
    requires c !in s
    ensures Before(s, c) == s
  {
  }

  /** A network location without '/', '?' or '#' ends where the path begins. */
  lemma {:induction false} NetlocEndOfHost(host: string, path: string)
    requires forall k :: 0 <= k < |host| ==> host[k] != '/' && host[k] != '?' && host[k] != '#'
    requires StartsWith(path, "/")
    ensures NetlocEnd(host + path) == |host|
    decreases |host|
  {
    if host == [] {
      assert host + path == path;
      assert path[0] == '/';
    } else {
      assert (host + path)[0] == host[0];
      assert (host + path)[1..] == host[1..] + path;
      NetlocEndOfHost(host[1..], path);
    }
  }

  lemma AfterSchemeHttp(rest: string)
    ensures AfterScheme("http:" + rest) == rest
  {
    var url := "http:" + rest;
    assert IndexOf(url, ':') == 4 by {
      assert url == "http" + (":" + rest);
      IndexOfAbsent("http", ':');
      IndexOfAppend("http", ":" + rest, ':');
    }
    assert url[5..] == rest;
  }

  lemma AfterNetlocHost(host: string, path: string)
    requires forall k :: 0 <= k < |host| ==> host[k] != '/' && host[k] != '?' && host[k] != '#'
    requires StartsWith(path, "/")
    ensures AfterNetloc("//" + host + path) == path
  {
    var s := "//" + host + path;
    assert StartsWith(s, "//");
    assert s[2..] == host + path;
    NetlocEndOfHost(host, path);
    assert s[2 + |host|..] == path;
  }

  /** A character absent from a string is absent from each of its suffixes. */
  lemma SuffixIndexOfAbsent(s: string, i: nat, c: char)
    requires i <= |s| && c !in s
    ensures IndexOf(s[i..], c) == -1
  {
  }

  lemma StripParamsAbsent(path: string)
    requires ';' !in path
    ensures StripParams(path) == path
  {
    SuffixIndexOfAbsent(path, LastIndexOf(path, '/') + 1, ';');
  }

  /** For `http://host/path` with a plain path, `urlparse` gives that path back. */
  lemma UrlPathOfHttp(host: string, path: string)
    requires forall k :: 0 <= k < |host| ==> host[k] != '/' && host[k] != '?' && host[k] != '#'
    requires StartsWith(path, "/") && '#' !in path && '?' !in path && ';' !in path
    ensures UrlPath("http://" + host + path) == path
  {
    assert "http://" + host + path == "http:" + ("//" + host + path);
    AfterSchemeHttp("//" + host + path);
    AfterNetlocHost(host, path);
    BeforeAbsent(path, '#');
    BeforeAbsent(path, '?');
    StripParamsAbsent(path);
  }

  /** The downloaded file is named after the last segment of the URL's plain path. */
  lemma WebsiteImageName(host: string, path: string, retrieve: string -> Retrieved, encoders: set<string>)
    requires forall k :: 0 <= k < |host| ==> host[k] != '/' && host[k] != '?' && host[k] != '#'
    requires StartsWith(path, "/") && '#' !in path && '?' !in path && ';' !in path
    requires DjangoWebsiteImage("http://" + host + path, retrieve, encoders).Success?
    ensures DjangoWebsiteImage("http://" + host + path, retrieve, encoders).value.filename
      == path[LastIndexOf(path, '/') + 1..]
  {
    var url := "http://" + host + path;
    assert DjangoWebsiteImage(url, retrieve, encoders).value.filename == Basename(UrlPath(url));
    assert UrlPath(url) == path by {
      UrlPathOfHttp(host, path);
    }
  }
}
