/**
 * Tileset helpers: the paths and commands for generating a tileset and its
 * thumbnail, the files of a tileset, and the geometry read from DZI and
 * Zoomify descriptors.
 */
module Tileset {
  import opened Wrappers
  import opened Exceptions
  import opened Strings
  import opened PosixPath
  import opened Download

  const ThumbSuffix: string := "_thumb.jpg"
  const TileSuffix: string := ".jpg[Q=100]"
  const ImageProperties: string := "ImageProperties.xml"
  const FirstTile: string := "TileGroup0/0-0-0.jpg"

  /** `get_thumbnail_path(image_path)`: the directory joined with `<stem>_thumb.jpg`. */
  function ThumbnailPath(imagePath: string): (r: string)
    ensures EndsWith(r, Splitext(Basename(imagePath)).0 + ThumbSuffix)
  {
    var (path, filename) := Split(imagePath);
    Join(path, Splitext(filename).0 + ThumbSuffix)
  }

  /** The thumbnail sits beside the image, named after the image without its extension. */
  lemma ThumbnailPathStem(imagePath: string)
    requires SingleSeparator(imagePath)
    ensures ThumbnailPath(imagePath) == Splitext(imagePath).0 + ThumbSuffix
  {
    assert ThumbSuffix[..1] == "_";
    JoinSplitStem(imagePath, ThumbSuffix);
  }

  /** Where `vips dzsave` writes the tileset: the directory joined with the file stem. */
  function TilesetDestination(imagePath: string): (r: string)
    ensures EndsWith(r, Splitext(Basename(imagePath)).0)
  {
    var (path, filename) := Split(imagePath);
    Join(path, Splitext(filename).0)
  }

  lemma TilesetDestinationStem(imagePath: string)
    requires SingleSeparator(imagePath)
    ensures TilesetDestination(imagePath) == Splitext(imagePath).0
  {
    JoinSplitStem(imagePath, []);
    AppendEmpty(Splitext(Split(imagePath).1).0);
    AppendEmpty(Splitext(imagePath).0);
  }

  const DzSaveTool: seq<string> := ["vips", "dzsave"]
  const SuffixOption: seq<string> := ["--suffix", TileSuffix]

  /** The argument list `create_tileset` runs: the image, the destination, and the tile suffix. */
  function TilesetCommand(imagePath: string): (r: seq<string>)
    ensures |r| == 6 && r[..2] == DzSaveTool && r[2] == imagePath && r[4..] == SuffixOption
    ensures EndsWith(r[3], Splitext(Basename(imagePath)).0)
  {
    var d := TilesetDestination(imagePath);
    SliceOfConcat(DzSaveTool, [imagePath, d], SuffixOption);
    DzSaveTool + [imagePath, d] + SuffixOption
  }

  /** The tileset command writes next to the image, under its stem, with the fixed JPEG suffix. */
  lemma TilesetCommandShape(imagePath: string)
    requires SingleSeparator(imagePath)
    ensures TilesetCommand(imagePath) == DzSaveTool + [imagePath, Splitext(imagePath).0] + SuffixOption
  {
    TilesetDestinationStem(imagePath);
  }

  const ThumbnailTool: seq<string> := ["vipsthumbnail"]
  const OutputFlag: string := "--output"
  const SizeFlag: string := "--size"

  /** The argument list `create_thumbnail` runs: the image, the thumbnail path, and the configured size. */
  function ThumbnailCommand(imagePath: string, thumbSize: int): (r: seq<string>)
    ensures |r| == 6 && r[..1] == ThumbnailTool && r[1] == imagePath && r[2] == OutputFlag && r[4] == SizeFlag
    ensures EndsWith(r[3], Splitext(Basename(imagePath)).0 + ThumbSuffix)
    ensures thumbSize >= 0 ==> AllDigits(r[5]) && DigitsValue(r[5]) == thumbSize
  {
    SizeArgument(thumbSize);
    var tail := [OutputFlag, ThumbnailPath(imagePath), SizeFlag, IntToString(thumbSize)];
    SliceOfConcat(ThumbnailTool, [imagePath], tail);
    ThumbnailTool + [imagePath] + tail
  }

  /** `str(size)` of a non-negative size reads back as the size. */
  lemma SizeArgument(size: int)
    ensures size >= 0 ==> AllDigits(IntToString(size)) && DigitsValue(IntToString(size)) == size
  {
    if size >= 0 {
      NatToStringRoundTrip(size);
    }
  }

  /** The thumbnail command writes the derived thumbnail path, at a size that reads back as configured. */
  lemma ThumbnailCommandShape(imagePath: string, thumbSize: nat)
    requires SingleSeparator(imagePath)
    ensures var cmd := ThumbnailCommand(imagePath, thumbSize);
      cmd[3] == Splitext(imagePath).0 + ThumbSuffix && AllDigits(cmd[5]) && DigitsValue(cmd[5]) == thumbSize
  {
    ThumbnailPathStem(imagePath);
    NatToStringRoundTrip(thumbSize);
  }

  /** One step of `os.walk`: a directory and the names of the files in it. */
  datatype WalkEntry = WalkEntry(dirpath: string, dirnames: seq<string>, filenames: seq<string>)

  /** `[os.path.join(dirpath, name) for name in filenames]`. */
  function JoinAll(dirpath: string, names: seq<string>): (r: seq<string>)
    ensures |r| == |names| && forall j :: 0 <= j < |names| ==> r[j] == Join(dirpath, names[j])
  {
    seq(|names|, j requires 0 <= j < |names| => Join(dirpath, names[j]))
  }

  /** The files listed by a walk, entry after entry. */
  function WalkFiles(entries: seq<WalkEntry>): (r: seq<string>)
    ensures entries == [] ==> r == []
    ensures entries != [] ==> var last := entries[|entries| - 1];
      |r| >= |last.filenames| &&
      r[|r| - |last.filenames|..] == JoinAll(last.dirpath, last.filenames)
  {
    if entries == [] then []
    else
      var last := entries[|entries| - 1];
      WalkFiles(entries[..|entries| - 1]) + JoinAll(last.dirpath, last.filenames)
  }

  /** Entry `i` of the walk lists `f` as its `j`-th file. */
  predicate ListedAt(entries: seq<WalkEntry>, i: int, j: int, f: string) {
    0 <= i < |entries| && 0 <= j < |entries[i].filenames| && f == Join(entries[i].dirpath, entries[i].filenames[j])
  }

  /** Every listed file comes from some walk entry. */
  lemma {:induction false} WalkFilesSound(entries: seq<WalkEntry>, f: string)
    requires f in WalkFiles(entries)
    ensures exists i, j :: ListedAt(entries, i, j, f)
  {
    var n := |entries| - 1;
    var init := entries[..n];
    var inLast := JoinAll(entries[n].dirpath, entries[n].filenames);
    assert WalkFiles(entries) == WalkFiles(init) + inLast;
    if f in inLast {
      var j :| 0 <= j < |inLast| && inLast[j] == f;
      assert ListedAt(entries, n, j, f);
    } else {
      WalkFilesSound(init, f);
      var i, j :| ListedAt(init, i, j, f);
      assert ListedAt(entries, i, j, f);
    }
  }

  /** Every file of every walk entry is listed. */
  lemma {:induction false} WalkFilesComplete(entries: seq<WalkEntry>, i: int, j: int, f: string)
    requires ListedAt(entries, i, j, f)
    ensures f in WalkFiles(entries)
  {
    var n := |entries| - 1;
    var init := entries[..n];
    var inLast := JoinAll(entries[n].dirpath, entries[n].filenames);
    assert WalkFiles(entries) == WalkFiles(init) + inLast;
    if i == n {
      assert inLast[j] == f;
    } else {
      assert ListedAt(init, i, j, f);
      WalkFilesComplete(init, i, j, f);
    }
  }

  /** Walking one more entry lists its files after the ones before. */
  lemma WalkFilesSnoc(entries: seq<WalkEntry>, i: nat)
    requires i < |entries|
    ensures WalkFiles(entries[..i + 1]) == WalkFiles(entries[..i]) + JoinAll(entries[i].dirpath, entries[i].filenames)
  {
    PrefixOfPrefix(entries, i, i + 1);
  }

  /**
   * `get_tileset_files(image_path)`: every file under the image's directory, as
   * `walk` lists that directory tree.
   */
  method TilesetFiles(imagePath: string, walk: string -> seq<WalkEntry>) returns (files: seq<string>)
    ensures files == WalkFiles(walk(Split(imagePath).0))
  {
    var path := Split(imagePath).0;
    var entries := walk(path);
    files := [];
    var i := 0;
    while i < |entries|
      invariant 0 <= i <= |entries|
      invariant files == WalkFiles(entries[..i])
    {
      WalkFilesSnoc(entries, i);
      files := files + JoinAll(entries[i].dirpath, entries[i].filenames);
      i := i + 1;
    }
    TakeAll(entries);
  }

  lemma NoSlashNoLeadingSlash(s: string)
    requires '/' !in s
    ensures !StartsWith(s, "/")
  {
    if s != [] {
      assert s[0] in s;
    }
  }

  /** Under `SingleSeparator`, joining the head and the tail of `p` gives `p` back. */
  lemma JoinSplit(p: string)
    requires SingleSeparator(p)
    ensures Join(Split(p).0, Split(p).1) == p
  {
    var k := LastIndexOf(p, '/');
    var name := Split(p).1;
    assert name == p[k + 1..];
    NoSlashNoLeadingSlash(name);
    JoinDirectory(p, name);
    TakeDrop(p, k + 1);
  }

  /** The image itself is among the tileset files when the walk of its directory lists it. */
  lemma ImageAmongTilesetFiles(imagePath: string, entries: seq<WalkEntry>, i: nat)
    requires SingleSeparator(imagePath)
    requires i < |entries| && entries[i].dirpath == Split(imagePath).0
    requires Basename(imagePath) in entries[i].filenames
    ensures imagePath in WalkFiles(entries)
  {
    var name := Basename(imagePath);
    var j :| 0 <= j < |entries[i].filenames| && entries[i].filenames[j] == name;
    JoinSplit(imagePath);
    assert ListedAt(entries, i, j, imagePath);
    WalkFilesComplete(entries, i, j, imagePath);
  }

  // ----- Searching a descriptor: re.search(key + '=["\'](\d+)["\']', body, re.I) -----

  predicate IsQuote(c: char) { c == '"' || c == '\'' }

  /** Length of the run of ASCII digits starting at `j`. */
  function DigitRun(s: string, j: nat): (n: nat)
    requires j <= |s|
    ensures j + n <= |s| && forall k :: j <= k < j + n ==> IsDigit(s[k])
    ensures j + n == |s| || !IsDigit(s[j + n])
    decreases |s| - j
  {
    if j < |s| && IsDigit(s[j]) then 1 + DigitRun(s, j + 1) else 0
  }

  /**
   * The match of the pattern at position `i`, if any, as its capture group: the key
   * in any letter case, '=', a quote, the digits (as many as there are), a quote.
   */
  function MatchAt(key: string, s: string, i: nat): (r: Option<string>)
    ensures r.Some? ==> r.value != [] && AllDigits(r.value)
  {
    var k := |key|;
    if i + k + 2 <= |s| && Lower(s[i..i + k]) == Lower(key) && s[i + k] == '=' && IsQuote(s[i + k + 1]) then
      var j := i + k + 2;
      var n := DigitRun(s, j);
      if n > 0 && j + n < |s| && IsQuote(s[j + n]) then Some(s[j..j + n]) else None
    else None
  }

  /** The leftmost match at or after `from`, with its position. */
  function FirstMatch(key: string, s: string, from: nat): (r: Option<(nat, string)>)
    ensures r.Some? ==> from <= r.value.0 <= |s| && MatchAt(key, s, r.value.0) == Some(r.value.1)
    ensures r.Some? ==> forall p :: from <= p < r.value.0 ==> MatchAt(key, s, p).None?
    ensures r.None? ==> forall p :: from <= p <= |s| ==> MatchAt(key, s, p).None?
    decreases |s| + 1 - from
  {
    if from > |s| then None
    else
      match MatchAt(key, s, from)
      case Some(g) => Some((from, g))
      case None => FirstMatch(key, s, from + 1)
  }

  /** `extract_data(regex, string)`: the groups of the first match, or an empty list. */
  function ExtractData(key: string, body: string): (r: seq<string>)
    ensures |r| <= 1
    ensures r == [] <==> forall p :: 0 <= p <= |body| ==> MatchAt(key, body, p).None?
    ensures r != [] ==> (exists p ::
      0 <= p <= |body| && MatchAt(key, body, p) == Some(r[0]) && (forall q :: 0 <= q < p ==> MatchAt(key, body, q).None?))
  {
    match FirstMatch(key, body, 0)
    case Some((_, g)) => [g]
    case None => []
  }

  /** The pattern matches wherever the key, '=', a quoted digit run and a quote stand. */
  lemma MatchAtAttribute(key: string, pre: string, word: string, q1: char, digits: string, q2: char, post: string)
    requires Lower(word) == Lower(key) && IsQuote(q1) && IsQuote(q2)
    requires digits != [] && AllDigits(digits)
    ensures MatchAt(key, pre + word + "=" + [q1] + digits + [q2] + post, |pre|) == Some(digits)
  {
    var s := pre + word + "=" + [q1] + digits + [q2] + post;
    AttributeLayout(pre, word, q1, digits, q2, post);
    DigitRunOf(s, |pre| + |word| + 2, |digits|);
  }

  /** Where the parts of an attribute stand in the text around it. */
  lemma AttributeLayout(pre: string, word: string, q1: char, digits: string, q2: char, post: string)
    ensures var s, i, j := pre + word + "=" + [q1] + digits + [q2] + post, |pre|, |pre| + |word| + 2;
      j + |digits| < |s| && s[i..i + |word|] == word && s[i + |word|] == '=' && s[i + |word| + 1] == q1 &&
      s[j..j + |digits|] == digits && s[j + |digits|] == q2 &&
      forall m :: j <= m < j + |digits| ==> s[m] == digits[m - j]
  {
    var s := pre + word + "=" + [q1] + digits + [q2] + post;
    var i, j := |pre|, |pre| + |word| + 2;
    forall m | 0 <= m < |word|
      ensures s[i..i + |word|][m] == word[m]
    {
      assert s[i + m] == word[m];
    }
    forall m | j <= m < j + |digits|
      ensures s[m] == digits[m - j]
    {
    }
    forall m | 0 <= m < |digits|
      ensures s[j..j + |digits|][m] == digits[m]
    {
      assert s[j + m] == digits[m];
    }
  }

  /** A run of digits followed by a non-digit has exactly that length. */
  lemma {:induction false} DigitRunOf(s: string, j: nat, n: nat)
    requires j + n < |s| && !IsDigit(s[j + n])
    requires forall k :: j <= k < j + n ==> IsDigit(s[k])
    ensures DigitRun(s, j) == n
    decreases n
  {
    if n > 0 {
      DigitRunOf(s, j + 1, n - 1);
    }
  }

  // ----- Metadata -----

  /** The dictionary the metadata handlers return: `base_tile_url` always, the rest when found. */
  datatype Metadata = Metadata(baseTileUrl: string, width: Option<int>, height: Option<int>, tileSize: Option<int>)

  /** `int(groups[0])` when the key was found, otherwise absent. */
  function Attribute(key: string, body: string): (r: Option<int>)
    ensures r.Some? ==> r.value >= 0
    ensures r.None? <==> forall p :: 0 <= p <= |body| ==> MatchAt(key, body, p).None?
  {
    var groups := ExtractData(key, body);
    if groups == [] then None else Some(DigitsValue(groups[0]))
  }

  /** Reading a descriptor body: the value of `Attribute` is the integer of the leftmost match. */
  lemma AttributeIsFirstMatch(key: string, body: string)
    ensures Attribute(key, body).Some? <==> FirstMatch(key, body, 0).Some?
    ensures Attribute(key, body).Some? ==> Attribute(key, body).value == DigitsValue(FirstMatch(key, body, 0).value.1)
  {
  }

  /**
   * `get_dzi_metadata(url)` over the body `fetch` gives for `url`: the URL without its
   * extension plus `_files/`, and width, height and tile size where the body has them.
   */
  function DziMetadata(url: string, fetch: string -> string): (r: Metadata)
    ensures r.baseTileUrl == Splitext(url).0 + "_files/"
  {
    var body := fetch(url);
    Metadata(Splitext(url).0 + "_files/", Attribute("width", body), Attribute("height", body), Attribute("tilesize", body))
  }

  /** A descriptor in which none of the attributes occurs yields only the base tile URL. */
  lemma DziMetadataNoMatches(url: string, fetch: string -> string)
    requires forall p :: 0 <= p <= |fetch(url)| ==>
      MatchAt("width", fetch(url), p).None? && MatchAt("height", fetch(url), p).None?
      && MatchAt("tilesize", fetch(url), p).None?
    ensures DziMetadata(url, fetch) == Metadata(Splitext(url).0 + "_files/", None, None, None)
  {
  }

  /** The integer fields come from the leftmost matches, and are absent exactly when nothing matches. */
  lemma DziMetadataGeometry(url: string, fetch: string -> string)
    ensures var m, body := DziMetadata(url, fetch), fetch(url);
      (m.width.Some? <==> FirstMatch("width", body, 0).Some?)
      && (m.width.Some? ==> m.width.value == DigitsValue(FirstMatch("width", body, 0).value.1))
      && (m.height.Some? <==> FirstMatch("height", body, 0).Some?)
      && (m.height.Some? ==> m.height.value == DigitsValue(FirstMatch("height", body, 0).value.1))
      && (m.tileSize.Some? <==> FirstMatch("tilesize", body, 0).Some?)
      && (m.tileSize.Some? ==> m.tileSize.value == DigitsValue(FirstMatch("tilesize", body, 0).value.1))
  {
    var body := fetch(url);
    AttributeIsFirstMatch("width", body);
    AttributeIsFirstMatch("height", body);
    AttributeIsFirstMatch("tilesize", body);
  }

  /** `get_local_metadata(url)`: the DZI metadata of `http://<site domain>`. */
  function LocalMetadata(url: string, siteDomain: string, fetch: string -> string): (r: Metadata)
    ensures r.baseTileUrl == Splitext("http://" + siteDomain).0 + "_files/"
    ensures var body := fetch("http://" + siteDomain);
      r.width == Attribute("width", body) && r.height == Attribute("height", body) &&
      r.tileSize == Attribute("tilesize", body)
  {
    DziMetadata("http://" + siteDomain, fetch)
  }

  /** The local handler never looks at the URL it is given. */
  lemma LocalMetadataIgnoresUrl(url1: string, url2: string, siteDomain: string, fetch: string -> string)
    ensures LocalMetadata(url1, siteDomain, fetch) == LocalMetadata(url2, siteDomain, fetch)
  {
  }

  /**
   * The site domain is not a path: when it contains a dot, `splitext` takes its last
   * label for an extension, and the base tile URL loses that label.
   */
  lemma LocalBaseTileUrlDropsLabel(url: string, host: string, tld: string, fetch: string -> string)
    requires '/' !in host && HasNonDot(host, 0, |host|)
    requires '/' !in tld && '.' !in tld
    ensures LocalMetadata(url, host + "." + tld, fetch).baseTileUrl == "http://" + host + "_files/"
  {
    var p := "http://" + (host + "." + tld);
    var dot := 7 + |host|;
    assert p == "http://" + host + ("." + tld);
    LastIndexOfUnique(p, '/', 6);
    LastIndexOfUnique(p, '.', dot);
    assert p[dot] == '.';
    HasNonDotShift("http://", host);
    assert Splitext(p).0 == p[..dot];
    assert p[..dot] == "http://" + host;
  }

  /** A dotted prefix does not change where the non-dot characters of `b` are. */
  lemma HasNonDotShift(a: string, b: string)
    requires HasNonDot(b, 0, |b|)
    ensures HasNonDot(a + b + ".", |a|, |a| + |b|)
  {
    var k :| 0 <= k < |b| && b[k] != '.';
    assert (a + b + ".")[|a| + k] == b[k];
  }

  /** `get_zoomify_metadata(url)`: the DZI geometry, with every `ImageProperties.xml` removed from the URL as base. */
  function ZoomifyMetadata(url: string, fetch: string -> string): (r: Metadata)
    ensures var d := DziMetadata(url, fetch);
      r.width == d.width && r.height == d.height && r.tileSize == d.tileSize
  {
    DziMetadata(url, fetch).(baseTileUrl := ReplaceAll(url, ImageProperties, ""))
  }

  /** For `<dir>/ImageProperties.xml` the base tile URL is the directory, slash included. */
  lemma ZoomifyBaseTileUrl(dir: string, fetch: string -> string)
    requires forall i: nat :: i < |dir| ==> !OccursAt(dir + ImageProperties, ImageProperties, i)
    ensures ZoomifyMetadata(dir + ImageProperties, fetch).baseTileUrl == dir
  {
    ReplaceAllSuffix(dir, ImageProperties, "");
    assert dir + "" == dir;
  }

  /** The URL of the first (1x1) tile of a Zoomify pyramid, derived from its `ImageProperties.xml` URL. */
  function ZoomifyThumbnailUrl(url: string): (r: string)
    ensures (forall i: nat :: i < |url| ==> !OccursAt(url, ImageProperties, i)) ==> r == url
  {
    ReplaceAllAbsent(url, ImageProperties, FirstTile);
    ReplaceAll(url, ImageProperties, FirstTile)
  }

  /** `"{0}.jpg".format(thumb_url.split("/")[-3])`; IndexError when there are fewer than three parts. */
  function ZoomifyThumbnailName(thumbUrl: string): (r: Result<string, Exception>)
    ensures r.Success? ==> EndsWith(r.value, ".jpg")
    ensures r.Failure? <==> |SplitOn(thumbUrl, '/')| < 3
  {
    var parts := SplitOn(thumbUrl, '/');
    if |parts| < 3 then Failure(IndexError) else Success(parts[|parts| - 3] + ".jpg")
  }

  /**
   * `create_zoomify_thumbnail(url)`: the name is derived before the first tile is
   * downloaded, and the download's size and content are returned with it.
   */
  function CreateZoomifyThumbnail(url: string, retrieve: string -> Retrieved, encoders: set<string>)
    : (r: Result<WebsiteImage, Exception>)
    ensures r.Success? ==> ZoomifyThumbnailName(ZoomifyThumbnailUrl(url)) == Success(r.value.filename)
    ensures r.Success? ==> var w := DjangoWebsiteImage(ZoomifyThumbnailUrl(url), retrieve, encoders);
      w.Success? && r.value.size == w.value.size && r.value.content == w.value.content
    ensures r.Failure? <==>
      ZoomifyThumbnailName(ZoomifyThumbnailUrl(url)).Failure?
      || DjangoWebsiteImage(ZoomifyThumbnailUrl(url), retrieve, encoders).Failure?
  {
    var thumbUrl := ZoomifyThumbnailUrl(url);
    var name := ZoomifyThumbnailName(thumbUrl);
    if name.Failure? then Failure(name.error)
    else
      var image := DjangoWebsiteImage(thumbUrl, retrieve, encoders);
      if image.Failure? then Failure(image.error)
      else Success(WebsiteImage(name.value, image.value.size, image.value.content))
  }

  lemma FirstTileParts()
    ensures SplitOn(FirstTile, '/') == ["TileGroup0", "0-0-0.jpg"]
  {
    assert FirstTile == "TileGroup0" + ['/'] + "0-0-0.jpg";
    SplitOnTwo("TileGroup0", '/', "0-0-0.jpg");
  }

  /** For `<dir>/ImageProperties.xml` the thumbnail is the `TileGroup0/0-0-0.jpg` tile beside the descriptor. */
  lemma ZoomifyThumbnailUrlOf(dir: string)
    requires forall i: nat :: i < |dir| ==> !OccursAt(dir + ImageProperties, ImageProperties, i)
    ensures ZoomifyThumbnailUrl(dir + ImageProperties) == dir + FirstTile
  {
    ReplaceAllSuffix(dir, ImageProperties, FirstTile);
  }

  /** The tile `<prefix>/<dir>/TileGroup0/0-0-0.jpg` is saved as `<dir>.jpg`. */
  lemma ZoomifyThumbnailNameOf(prefix: string, dir: string)
    requires '/' !in dir
    ensures ZoomifyThumbnailName(prefix + "/" + dir + "/" + FirstTile) == Success(dir + ".jpg")
  {
    var inner := dir + ['/'] + FirstTile;
    var url := prefix + "/" + dir + "/" + FirstTile;
    assert url == prefix + ['/'] + inner;
    var front := SplitOn(prefix, '/');
    assert SplitOn(url, '/') == front + ([dir] + ["TileGroup0", "0-0-0.jpg"]) by {
      SplitOnAppend(prefix, '/', inner);
      assert SplitOn(inner, '/') == [dir] + ["TileGroup0", "0-0-0.jpg"] by {
        SplitOnAppend(dir, '/', FirstTile);
        SplitOnNoSeparator(dir, '/');
        FirstTileParts();
      }
    }
    var parts := SplitOn(url, '/');
    assert parts[|parts| - 3] == dir;
  }
}
