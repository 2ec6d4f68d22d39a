/**
 * The image record: how uploads are named, which URL its tiles come from, the
 * validation gate, and the save cycle that persists the record, runs the
 * post-save thumbnail hook and refreshes the tileset metadata.
 */
module Models {
  import opened Wrappers
  import opened Exceptions
  import opened Strings
  import opened PosixPath
  import opened Download
  import opened Tileset

  // ----- Pure derivations -----

  /**
   * `slug_upload_to(instance, filename)`: `loupe/<dir>/<filename>`, where the directory
   * is the slug if there is one, else the slugified name if there is one, else the
   * file name without its extension.
   */
  function SlugUploadTo(slug: string, name: string, filename: string, slugify: string -> string): (r: string)
    ensures StartsWith(r, "loupe/") && EndsWith(r, "/" + filename) && |r| >= 7 + |filename|
    ensures slug != [] ==> r[6..|r| - |filename| - 1] == slug
    ensures slug == [] && name != [] ==> r[6..|r| - |filename| - 1] == slugify(name)
    ensures slug == [] && name == [] ==> r[6..|r| - |filename| - 1] == Splitext(filename).0
  {
    var dir := if slug != [] then slug else if name != [] then slugify(name) else Splitext(filename).0;
    var r := "loupe/" + dir + ("/" + filename);
    SliceOfConcat("loupe/", dir, "/" + filename);
    r
  }

  /**
   * `tileset_url`: for an uploaded image, its storage URL without the extension,
   * followed by `.dzi` and wrapped in single quotes; otherwise the external URL.
   */
  function TilesetUrl(image: string, url: string, storageUrl: string -> string): (r: string)
    ensures image == [] ==> r == url
    ensures image != [] ==>
      |r| >= 6 && r[0] == '\'' && EndsWith(r, ".dzi'") && r[1..|r| - 5] == Splitext(storageUrl(image)).0
  {
    if image != [] then
      var stem := Splitext(storageUrl(image)).0;
      var r := "'" + stem + ".dzi'";
      SliceOfConcat("'", stem, ".dzi'");
      r
    else url
  }

  /** `"%s" % value` for an optional integer field. */
  function OptionalIntText(v: Option<int>): (r: string)
    ensures v.None? ==> r == "None"
    ensures v.Some? && v.value >= 0 ==> AllDigits(r) && DigitsValue(r) == v.value
    ensures ',' !in r
  {
    match v
    case None => "None"
    case Some(n) => if n >= 0 then (NatToStringRoundTrip(n); NatToString(n)) else IntToString(n)
  }

  const ZoomifySourceTail: string := "\", type: \"zoomify\"}"

  /**
   * `tileset_source`: for a Zoomify tileset, the object literal OpenSeadragon reads
   * (width, height, tiles URL); otherwise the tileset URL.
   */
  function TilesetSource(width: Option<int>, height: Option<int>, image: string, url: string, tileType: string,
                         storageUrl: string -> string): (r: string)
    ensures tileType != "zoomify" ==> r == TilesetUrl(image, url, storageUrl)
    ensures tileType == "zoomify" ==>
      r == WidthField(width) + "," + HeightField(height) + "," + TilesUrlField(url)
  {
    if tileType == "zoomify" then
      var w, h := OptionalIntText(width), OptionalIntText(height);
      ZoomifyLiteral(w, h, url);
      "{width: " + w + ", height: " + h + ", tilesUrl: \"" + url + ZoomifySourceTail
    else TilesetUrl(image, url, storageUrl)
  }

  /** The `%`-format of the Zoomify literal, cut at the commas that separate its fields. */
  lemma ZoomifyLiteral(w: string, h: string, url: string)
    ensures "{width: " + w + ", height: " + h + ", tilesUrl: \"" + url + ZoomifySourceTail ==
      ("{width: " + w) + "," + (" height: " + h) + "," + (" tilesUrl: \"" + url + ZoomifySourceTail)
  {
    assert ", height: " == "," + " height: ";
    assert ", tilesUrl: \"" == "," + " tilesUrl: \"";
  }

  /** The three comma-separated fields of the Zoomify object literal. */
  function WidthField(width: Option<int>): string { "{width: " + OptionalIntText(width) }
  function HeightField(height: Option<int>): string { " height: " + OptionalIntText(height) }
  function TilesUrlField(url: string): string { " tilesUrl: \"" + url + ZoomifySourceTail }

  /** Splitting `w,h,t` on commas gives back `w` and `h` when neither holds a comma. */
  lemma SplitFields(w: string, h: string, t: string)
    requires ',' !in w && ',' !in h
    ensures var parts := SplitOn(w + "," + h + "," + t, ',');
      |parts| >= 3 && parts[0] == w && parts[1] == h
  {
    assert w + "," + h + "," + t == w + [','] + (h + [','] + t);
    SplitOnAppend(w, ',', h + [','] + t);
    SplitOnAppend(h, ',', t);
    SplitOnNoSeparator(w, ',');
    SplitOnNoSeparator(h, ',');
  }

  /**
   * Reading the Zoomify literal back: split at its commas, the first part carries the
   * width and the second the height, each rendered as `%s` renders it.
   */
  lemma ZoomifySourceFields(width: Option<int>, height: Option<int>, image: string, url: string,
                            storageUrl: string -> string)
    ensures var parts := SplitOn(TilesetSource(width, height, image, url, "zoomify", storageUrl), ',');
      |parts| >= 3 && parts[0] == WidthField(width) && parts[1] == HeightField(height)
  {
    SplitFields(WidthField(width), HeightField(height), TilesUrlField(url));
  }

  /** `"<app_label>/<model name in lower case>_<variant>.html"`. */
  function TemplateName(appLabel: string, modelName: string, variant: string): string {
    appLabel + "/" + Lower(modelName) + "_" + variant + ".html"
  }

  /**
   * The template names `render` tries, most specific first: a template for the
   * external tileset type when there is an external URL, then the default one.
   */
  function TemplateNames(appLabel: string, modelName: string, url: string, tileType: string): (r: seq<string>)
    ensures |r| == if url != [] then 2 else 1
    ensures r[|r| - 1] == TemplateName(appLabel, modelName, "default")
    ensures url != [] ==> r[0] == TemplateName(appLabel, modelName, tileType)
  {
    var selection := [TemplateName(appLabel, modelName, "default")];
    if url != [] then [TemplateName(appLabel, modelName, tileType)] + selection else selection
  }

  const EitherMessage: string := "Use either an uploaded image or an external tileset url."
  const TypeMessage: string := "Please select an external tileset type when using an external tileset."

  /**
   * `clean`: exactly one of an uploaded image and an external URL, and an external
   * URL needs a type. Checked in that order, each with its own message.
   */
  function Clean(image: string, url: string, tileType: string): (r: Outcome<Exception>)
    ensures r == Pass <==> (image != [] <==> url == []) && (url != [] ==> tileType != [])
    ensures image != [] && url != [] ==> r == Fail(ValidationError(EitherMessage))
    ensures image == [] && url == [] ==> r == Fail(ValidationError(EitherMessage))
    ensures image == [] && url != [] && tileType == [] ==> r == Fail(ValidationError(TypeMessage))
  {
    if image != [] && url != [] then Fail(ValidationError(EitherMessage))
    else if image == [] && url == [] then Fail(ValidationError(EitherMessage))
    else if url != [] && tileType == [] then Fail(ValidationError(TypeMessage))
    else Pass
  }

  /** A record that passes `clean` always has somewhere to take its tiles from. */
  lemma CleanRecordHasTilesetUrl(image: string, url: string, tileType: string, storageUrl: string -> string)
    requires Clean(image, url, tileType) == Pass
    ensures TilesetUrl(image, url, storageUrl) != []
  {
  }

  // ----- The record and its save cycle -----

  /** What the program reads from outside: descriptor bodies, the site, storage URLs, downloads, encoders. */
  datatype Env = Env(
    fetch: string -> string,
    siteDomain: string,
    storageUrl: string -> string,
    retrieve: string -> Retrieved,
    encoders: set<string>)

  /** `getattr(tileset, 'get_%s_metadata' % tile_type)`: the handlers that exist. */
  const MetadataHandlers: map<string, (string, Env) -> Metadata> := map[
    "dzi" := (u: string, e: Env) => DziMetadata(u, e.fetch),
    "local" := (u: string, e: Env) => LocalMetadata(u, e.siteDomain, e.fetch),
    "zoomify" := (u: string, e: Env) => ZoomifyMetadata(u, e.fetch)]

  /** `getattr(tileset, 'create_%s_thumbnail' % tileset_type)`: the handlers that exist. */
  const ThumbnailHandlers: map<string, (string, Env) -> Result<WebsiteImage, Exception>> := map[
    "zoomify" := (u: string, e: Env) => CreateZoomifyThumbnail(u, e.retrieve, e.encoders)]

  /** The fields whose change triggers a metadata refresh. */
  datatype Source = Source(image: string, url: string, tileType: string)

  /** The stored fields of an image record. */
  datatype Record = Record(
    name: string, slug: string,
    image: string, url: string, tileType: string,
    height: Option<int>, width: Option<int>, tileSize: Option<int>, baseTileUrl: Option<string>,
    thumbnail: string)

  function SourceOf(r: Record): Source {
    Source(r.image, r.url, r.tileType)
  }

  /** The whole observable state: the record, the values last loaded or saved, the rows written, and the tile types `update_metadata` ran with. */
  datatype State = State(rec: Record, snapshot: Source, rows: seq<Record>, updates: seq<string>)

  /** What a step leaves behind, and whether it raised. */
  datatype Step = Step(st: State, outcome: Outcome<Exception>)

  /** `dirty_fields` names one of `image`, `external_tileset_url`, `external_tileset_type`. */
  predicate Dirty(s: State)
    ensures Dirty(s) <==>
      s.rec.image != s.snapshot.image || s.rec.url != s.snapshot.url || s.rec.tileType != s.snapshot.tileType
  {
    SourceOf(s.rec) != s.snapshot
  }

  /** The hook has work to do: an external URL, no thumbnail yet, and a thumbnail handler for the type. */
  predicate ThumbnailPending(r: Record)
    ensures ThumbnailPending(r) <==> r.url != [] && r.thumbnail == [] && r.tileType == "zoomify"
  {
    r.url != [] && r.thumbnail == [] && r.tileType in ThumbnailHandlers
  }

  /** Writing the row. */
  function Persist(s: State): (r: State)
    ensures r.rows == s.rows + [s.rec] && r.rows[|s.rows|] == s.rec
    ensures r.rec == s.rec && r.snapshot == s.snapshot && r.updates == s.updates
    ensures Dirty(r) == Dirty(s)
  {
    s.(rows := s.rows + [s.rec])
  }

  /**
   * The dirty-field tracking's own post-save receiver: the saved values become the
   * reference. It is connected after the thumbnail hook, so it runs after it, and
   * only when the hook did not raise.
   */
  function ResetDirty(s: State): (r: State)
    ensures !Dirty(r) && r.rec == s.rec && r.rows == s.rows && r.updates == s.updates
  {
    s.(snapshot := SourceOf(s.rec))
  }

  /** The handler `update_metadata` looks for: the external type, or `local` when there is none. */
  function TileType(r: Record): (t: string)
    ensures t != []
    ensures r.tileType != [] ==> t == r.tileType
  {
    if r.tileType != [] then r.tileType else "local"
  }

  /**
   * The name the thumbnail field stores for a downloaded file: the file's last path
   * component under `loupe_thumbs`.
   */
  function ThumbnailName(filename: string): (r: string)
    ensures r == "loupe_thumbs/" + Basename(filename)
  {
    var name := Basename(filename);
    ThumbsJoin(name);
    Join(ThumbsDir, name)
  }

  const ThumbsDir: string := "loupe_thumbs"

  lemma ThumbsJoin(name: string)
    requires '/' !in name
    ensures Join(ThumbsDir, name) == "loupe_thumbs/" + name
  {
    NoSlashNoLeadingSlash(name);
    assert ThumbsDir[|ThumbsDir| - 1] != '/';
    assert ThumbsDir + "/" == "loupe_thumbs/";
  }

  /** Two records that differ at most in their thumbnail. */
  predicate SameButThumbnail(a: Record, b: Record) {
    a.(thumbnail := b.thumbnail) == b
  }

  /**
   * `save()`: note whether a source field is dirty, write the row, run the post-save
   * hook, then reset the dirty-field tracking, and refresh the metadata when a source
   * field was dirty. When the hook raises, neither of the last two happens.
   */
  function SaveSpec(s: State, env: Env): (r: Step)
    ensures SourceOf(r.st.rec) == SourceOf(s.rec)
    ensures r.outcome.Pass? ==> !Dirty(r.st) && !ThumbnailPending(r.st.rec)
    ensures r.outcome.Fail? ==> r.st == Persist(s)
    ensures !ThumbnailPending(s.rec) ==> r.outcome.Pass? && r.st.rec.thumbnail == s.rec.thumbnail
    decreases (if ThumbnailPending(s.rec) then 1 else 0), (if Dirty(s) then 1 else 0), 2
  {
    var dirty := Dirty(s);
    var hooked := HookSpec(Persist(s), env);
    if hooked.outcome.Fail? then hooked
    else if dirty then UpdateSpec(ResetDirty(hooked.st), env)
    else Step(ResetDirty(hooked.st), Pass)
  }

  /**
   * `create_external_thumbnail`: with an external URL, no thumbnail and a handler for
   * the type, download the thumbnail, store it in the thumbnail field and save again.
   */
  function HookSpec(s: State, env: Env): (r: Step)
    ensures SourceOf(r.st.rec) == SourceOf(s.rec)
    ensures r.outcome.Pass? ==> !ThumbnailPending(r.st.rec)
    ensures r.outcome.Fail? ==> r.st == s
    ensures !ThumbnailPending(s.rec) ==> r == Step(s, Pass)
    ensures ThumbnailPending(s.rec) && r.outcome.Pass? ==> !Dirty(r.st)
    decreases (if ThumbnailPending(s.rec) then 1 else 0), (if Dirty(s) then 1 else 0), 1
  {
    if ThumbnailPending(s.rec) then
      var made := ThumbnailHandlers[s.rec.tileType](TilesetUrl(s.rec.image, s.rec.url, env.storageUrl), env);
      if made.Failure? then Step(s, Fail(made.error))
      else SaveSpec(s.(rec := s.rec.(thumbnail := ThumbnailName(made.value.filename))), env)
    else Step(s, Pass)
  }

  /**
   * `update_metadata`: look up the handler for the tile type; when there is one,
   * overwrite the four geometry fields with what it returns and save again.
   */
  function UpdateSpec(s: State, env: Env): (r: Step)
    ensures SourceOf(r.st.rec) == SourceOf(s.rec)
    ensures r.outcome.Pass? && !Dirty(s) ==> !Dirty(r.st)
    ensures !ThumbnailPending(s.rec) ==> r.outcome.Pass? && r.st.rec.thumbnail == s.rec.thumbnail
    decreases (if ThumbnailPending(s.rec) then 1 else 0), (if Dirty(s) then 1 else 0), 3
  {
    if TileType(s.rec) in MetadataHandlers then SaveSpec(Refreshed(s, env), env)
    else Step(s.(updates := s.updates + [TileType(s.rec)]), Pass)
  }

  /** What the metadata handler for tile type `t` returns for the record's tileset URL. */
  function LookupMetadata(t: string, r: Record, env: Env): Metadata
    requires t in MetadataHandlers
  {
    MetadataHandlers[t](TilesetUrl(r.image, r.url, env.storageUrl), env)
  }

  /** `image_height`, `image_width`, `tile_size` and `base_tile_url` set from `metadata.get(...)`. */
  function WithGeometry(r: Record, m: Metadata): (g: Record)
    ensures SourceOf(g) == SourceOf(r) && g.thumbnail == r.thumbnail && g.name == r.name && g.slug == r.slug
    ensures g.height == m.height && g.width == m.width && g.tileSize == m.tileSize
    ensures g.baseTileUrl == Some(m.baseTileUrl)
  {
    r.(height := m.height, width := m.width, tileSize := m.tileSize, baseTileUrl := Some(m.baseTileUrl))
  }

  /** The state `update_metadata` saves when its handler exists. */
  function Refreshed(s: State, env: Env): (r: State)
    requires TileType(s.rec) in MetadataHandlers
    ensures SourceOf(r.rec) == SourceOf(s.rec) && r.snapshot == s.snapshot && r.rows == s.rows
    ensures r.rec.thumbnail == s.rec.thumbnail
  {
    var t := TileType(s.rec);
    s.(updates := s.updates + [t], rec := WithGeometry(s.rec, LookupMetadata(t, s.rec, env)))
  }

  // ----- What the save cycle guarantees -----

  /** A save of a record with no dirty source field never calls `update_metadata` and changes at most the thumbnail. */
  lemma {:induction false} CleanSaveNoUpdate(s: State, env: Env)
    requires !Dirty(s)
    ensures SaveSpec(s, env).st.updates == s.updates
    ensures SameButThumbnail(s.rec, SaveSpec(s, env).st.rec)
    decreases (if ThumbnailPending(s.rec) then 1 else 0), 2
  {
    CleanHookNoUpdate(Persist(s), env);
  }

  /** The hook, run on a clean record, never calls `update_metadata` and changes at most the thumbnail. */
  lemma {:induction false} CleanHookNoUpdate(s: State, env: Env)
    requires !Dirty(s)
    ensures HookSpec(s, env).st.updates == s.updates
    ensures SameButThumbnail(s.rec, HookSpec(s, env).st.rec)
    decreases (if ThumbnailPending(s.rec) then 1 else 0), 1
  {
    if ThumbnailPending(s.rec) {
      var made := ThumbnailHandlers[s.rec.tileType](TilesetUrl(s.rec.image, s.rec.url, env.storageUrl), env);
      if made.Success? {
        var next := s.(rec := s.rec.(thumbnail := ThumbnailName(made.value.filename)));
        assert !ThumbnailPending(next.rec);
        CleanSaveNoUpdate(next, env);
      }
    }
  }

  /** `update_metadata` on a clean record is called once and saves without calling itself again. */
  lemma UpdateOnClean(s: State, env: Env)
    requires !Dirty(s)
    ensures UpdateSpec(s, env).st.updates == s.updates + [TileType(s.rec)]
  {
    if TileType(s.rec) in MetadataHandlers {
      CleanSaveNoUpdate(Refreshed(s, env), env);
    }
  }

  /** A save with nothing for the hook to do calls `update_metadata` once if a source field was dirty, else never. */
  lemma SettledSaveUpdateCalls(s: State, env: Env)
    requires !ThumbnailPending(s.rec)
    ensures SaveSpec(s, env).st.updates == s.updates + (if Dirty(s) then [TileType(s.rec)] else [])
  {
    var reset := ResetDirty(HookSpec(Persist(s), env).st);
    if Dirty(s) {
      UpdateOnClean(reset, env);
    }
  }

  /**
   * The hook calls `update_metadata` (through the save that stores the thumbnail)
   * exactly when it stores a thumbnail while a source field is still dirty.
   */
  lemma HookUpdateCalls(s: State, env: Env)
    ensures var r := HookSpec(s, env);
      r.st.updates == s.updates +
        (if Dirty(s) && ThumbnailPending(s.rec) && r.outcome.Pass? then [TileType(s.rec)] else [])
  {
    if ThumbnailPending(s.rec) {
      var made := ThumbnailHandlers[s.rec.tileType](TilesetUrl(s.rec.image, s.rec.url, env.storageUrl), env);
      if made.Success? {
        var next := s.(rec := s.rec.(thumbnail := ThumbnailName(made.value.filename)));
        HookStores(s, env, next);
        assert !ThumbnailPending(next.rec) && Dirty(next) == Dirty(s);
        SettledSaveUpdateCalls(next, env);
      }
    }
  }

  /** A hook that downloads a thumbnail is the save of the record with the thumbnail's name. */
  lemma HookStores(s: State, env: Env, next: State)
    requires ThumbnailPending(s.rec)
    requires var made := ThumbnailHandlers[s.rec.tileType](TilesetUrl(s.rec.image, s.rec.url, env.storageUrl), env);
      made.Success? && next == s.(rec := s.rec.(thumbnail := ThumbnailName(made.value.filename)))
    ensures HookSpec(s, env) == SaveSpec(next, env)
  {
  }

  /**
   * `save` calls `update_metadata` only when a source field was dirty and the hook did
   * not raise: once, or twice when the hook stored a thumbnail, because the save inside
   * the hook runs before the dirty-field tracking is reset.
   */
  lemma SaveUpdateCalls(s: State, env: Env)
    ensures var hooked := HookSpec(Persist(s), env);
      SaveSpec(s, env).st.updates == s.updates +
        (if Dirty(s) && hooked.outcome.Pass? then
           (if ThumbnailPending(s.rec) then [TileType(s.rec), TileType(s.rec)] else [TileType(s.rec)])
         else [])
  {
    if Dirty(s) && HookSpec(Persist(s), env).outcome.Pass? {
      DirtySaveUpdateCalls(s, env);
      RepeatedCall(s.updates, TileType(s.rec), ThumbnailPending(s.rec));
    } else {
      QuietSaveUpdateCalls(s, env);
    }
  }

  /** A save whose hook raises, or that found no dirty source field, does not call `update_metadata`. */
  lemma QuietSaveUpdateCalls(s: State, env: Env)
    requires !Dirty(s) || HookSpec(Persist(s), env).outcome.Fail?
    ensures SaveSpec(s, env).st.updates == s.updates
  {
    var hooked := HookSpec(Persist(s), env);
    SaveUnfold(s, env);
    if hooked.outcome.Pass? {
      HookUpdateCalls(Persist(s), env);
      assert Dirty(Persist(s)) == Dirty(s);
    }
  }

  /** The dirty case of `SaveUpdateCalls`: the hook's save, then the outer refresh. */
  lemma DirtySaveUpdateCalls(s: State, env: Env)
    requires Dirty(s) && HookSpec(Persist(s), env).outcome.Pass?
    ensures SaveSpec(s, env).st.updates ==
      s.updates + (if ThumbnailPending(s.rec) then [TileType(s.rec)] else []) + [TileType(s.rec)]
  {
    var hooked := HookSpec(Persist(s), env);
    var t := TileType(s.rec);
    var reset := ResetDirty(hooked.st);
    var first: seq<string> := if ThumbnailPending(s.rec) then [t] else [];
    HookUpdateCalls(Persist(s), env);
    assert reset.updates == s.updates + first;
    SaveUnfold(s, env);
    assert TileType(reset.rec) == t;
    UpdateOnClean(reset, env);
  }

  /** A call logged after an optional first one. */
  lemma RepeatedCall(u: seq<string>, t: string, twice: bool)
    ensures u + (if twice then [t] else []) + [t] == u + (if twice then [t, t] else [t])
  {
    if twice {
      AppendAssociative(u, [t], [t]);
    } else {
      AppendEmpty(u);
    }
  }

  /** One step of `save`, as its definition states it. */
  lemma SaveUnfold(s: State, env: Env)
    ensures var hooked := HookSpec(Persist(s), env);
      SaveSpec(s, env) ==
        if hooked.outcome.Fail? then hooked
        else if Dirty(s) then UpdateSpec(ResetDirty(hooked.st), env)
        else Step(ResetDirty(hooked.st), Pass)
  {
  }

  /** `a` is an initial part of `b`. */
  ghost predicate IsPrefix<T>(a: seq<T>, b: seq<T>) {
    |a| <= |b| && b[..|a|] == a
  }

  lemma PrefixTransitive<T>(a: seq<T>, b: seq<T>, c: seq<T>)
    requires IsPrefix(a, b) && IsPrefix(b, c)
    ensures IsPrefix(a, c)
  {
    assert c[..|a|] == c[..|b|][..|a|];
  }

  lemma PrefixOfAppend<T>(a: seq<T>, x: T)
    ensures IsPrefix(a, a + [x])
  {
    assert (a + [x])[..|a|] == a;
  }

  /** A save only appends rows, and the first row it appends is the record as it was. */
  lemma {:induction false} SaveRows(s: State, env: Env)
    ensures IsPrefix(s.rows + [s.rec], SaveSpec(s, env).st.rows)
    decreases (if ThumbnailPending(s.rec) then 1 else 0), (if Dirty(s) then 1 else 0), 2
  {
    var hooked := HookSpec(Persist(s), env);
    HookRows(Persist(s), env);
    if hooked.outcome.Pass? && Dirty(s) {
      var reset := ResetDirty(hooked.st);
      UpdateRows(reset, env);
      PrefixTransitive(s.rows + [s.rec], reset.rows, SaveSpec(s, env).st.rows);
    }
  }

  /** The hook only appends rows. */
  lemma {:induction false} HookRows(s: State, env: Env)
    ensures IsPrefix(s.rows, HookSpec(s, env).st.rows)
    decreases (if ThumbnailPending(s.rec) then 1 else 0), (if Dirty(s) then 1 else 0), 1
  {
    if ThumbnailPending(s.rec) {
      var made := ThumbnailHandlers[s.rec.tileType](TilesetUrl(s.rec.image, s.rec.url, env.storageUrl), env);
      if made.Success? {
        var next := s.(rec := s.rec.(thumbnail := ThumbnailName(made.value.filename)));
        assert !ThumbnailPending(next.rec);
        HookStores(s, env, next);
        SaveRows(next, env);
        PrefixOfAppend(s.rows, next.rec);
        PrefixTransitive(s.rows, next.rows + [next.rec], HookSpec(s, env).st.rows);
      }
    }
  }

  /** `update_metadata` only appends rows. */
  lemma {:induction false} UpdateRows(s: State, env: Env)
    ensures IsPrefix(s.rows, UpdateSpec(s, env).st.rows)
    decreases (if ThumbnailPending(s.rec) then 1 else 0), (if Dirty(s) then 1 else 0), 3
  {
    if TileType(s.rec) in MetadataHandlers {
      var next := Refreshed(s, env);
      SaveRows(next, env);
      PrefixOfAppend(s.rows, next.rec);
      PrefixTransitive(s.rows, next.rows + [next.rec], UpdateSpec(s, env).st.rows);
    }
  }

  /** The record is written before anything else happens, as it was when `save` was called. */
  lemma SavePersistsFirst(s: State, env: Env)
    ensures var r := SaveSpec(s, env).st;
      |r.rows| > |s.rows| && r.rows[|s.rows|] == s.rec
  {
    var r := SaveSpec(s, env).st;
    SaveRows(s, env);
    assert r.rows[..|s.rows| + 1][|s.rows|] == s.rec;
  }

  /**
   * After a save that refreshes with an existing handler, the four geometry fields are
   * exactly what the handler returned for the tileset URL; absent values become None.
   */
  lemma SaveOverwritesGeometry(s: State, env: Env)
    requires Dirty(s) && HookSpec(Persist(s), env).outcome.Pass?
    requires TileType(s.rec) in MetadataHandlers
    ensures var m := LookupMetadata(TileType(s.rec), s.rec, env);
      var r := SaveSpec(s, env).st.rec;
      r.height == m.height && r.width == m.width && r.tileSize == m.tileSize && r.baseTileUrl == Some(m.baseTileUrl)
  {
    var reset := ResetDirty(HookSpec(Persist(s), env).st);
    assert TileType(reset.rec) == TileType(s.rec);
    CleanSaveNoUpdate(Refreshed(reset, env), env);
  }

  /**
   * A tile type without a metadata handler (`iif`, `lip`, `osm`, `tms`): `update_metadata`
   * is a no-op — no field changes and nothing is saved again.
   */
  lemma UnsupportedTypeNoOp(s: State, env: Env)
    requires TileType(s.rec) !in MetadataHandlers
    ensures UpdateSpec(s, env) == Step(s.(updates := s.updates + [TileType(s.rec)]), Pass)
  {
  }

  /** The handler lookup succeeds for exactly the types `dzi`, `zoomify`, `local` and no type at all. */
  lemma MetadataHandlerTypes(r: Record)
    ensures TileType(r) in MetadataHandlers <==> r.tileType in {"", "dzi", "zoomify", "local"}
  {
  }

  /**
   * A hook that downloads a thumbnail leaves the record pointing at `loupe_thumbs/<name>`;
   * on a clean record that is the only field it changes.
   */
  lemma HookStoresThumbnail(s: State, env: Env)
    requires ThumbnailPending(s.rec)
    requires ThumbnailHandlers[s.rec.tileType](TilesetUrl(s.rec.image, s.rec.url, env.storageUrl), env).Success?
    ensures var made := ThumbnailHandlers[s.rec.tileType](TilesetUrl(s.rec.image, s.rec.url, env.storageUrl), env);
      var r := HookSpec(s, env);
      r.outcome.Pass? && r.st.rec.thumbnail == ThumbnailName(made.value.filename) &&
      (!Dirty(s) ==> r.st.rec == s.rec.(thumbnail := ThumbnailName(made.value.filename)))
  {
    var made := ThumbnailHandlers[s.rec.tileType](TilesetUrl(s.rec.image, s.rec.url, env.storageUrl), env);
    var next := s.(rec := s.rec.(thumbnail := ThumbnailName(made.value.filename)));
    assert !ThumbnailPending(next.rec);
    if !Dirty(s) {
      CleanSaveNoUpdate(next, env);
    }
  }

  /** The image record as the program holds it in memory. */
  class LoupeImage {
    var name: string
    var slug: string
    var image: string
    var url: string
    var tileType: string
    var height: Option<int>
    var width: Option<int>
    var tileSize: Option<int>
    var baseTileUrl: Option<string>
    var thumbnail: string
    /** The source fields as last loaded or saved, which dirty-field tracking compares against. */
    var snapshot: Source
    /** The rows written to the database, oldest first. */
    var rows: seq<Record>
    /** The tile types `update_metadata` was called with, oldest first. */
    ghost var updates: seq<string>

    function Current(): Record
      reads this
    {
      Record(name, slug, image, url, tileType, height, width, tileSize, baseTileUrl, thumbnail)
    }

    ghost function Snapshot(): State
      reads this
    {
      State(Current(), snapshot, rows, updates)
    }

    /** A record with the given field values whose tracked values are `loaded`. */
    constructor (r: Record, loaded: Source)
      ensures Snapshot() == State(r, loaded, [], [])
    {
      name, slug, image, url, tileType := r.name, r.slug, r.image, r.url, r.tileType;
      height, width, tileSize, baseTileUrl, thumbnail := r.height, r.width, r.tileSize, r.baseTileUrl, r.thumbnail;
      snapshot := loaded;
      rows := [];
      updates := [];
    }

    method Save(env: Env) returns (o: Outcome<Exception>)
      modifies this
      ensures Snapshot() == SaveSpec(old(Snapshot()), env).st
      ensures o == SaveSpec(old(Snapshot()), env).outcome
      decreases (if ThumbnailPending(Current()) then 1 else 0), (if Dirty(Snapshot()) then 1 else 0), 2
    {
      var refresh := SourceOf(Current()) != snapshot;
      rows := rows + [Current()];
      o := CreateExternalThumbnail(env);
      if o.Pass? {
        snapshot := SourceOf(Current());
        if refresh {
          o := UpdateMetadata(env);
        }
      }
    }

    method CreateExternalThumbnail(env: Env) returns (o: Outcome<Exception>)
      modifies this
      ensures Snapshot() == HookSpec(old(Snapshot()), env).st
      ensures o == HookSpec(old(Snapshot()), env).outcome
      decreases (if ThumbnailPending(Current()) then 1 else 0), (if Dirty(Snapshot()) then 1 else 0), 1
    {
      ghost var before := Snapshot();
      if url != [] && thumbnail == [] && tileType in ThumbnailHandlers {
        var made := ThumbnailHandlers[tileType](TilesetUrl(image, url, env.storageUrl), env);
        if made.Failure? {
          o := Fail(made.error);
        } else {
          SetThumbnail(ThumbnailName(made.value.filename));
          ghost var next := Snapshot();
          assert !ThumbnailPending(next.rec);
          o := Save(env);
          assert HookSpec(before, env) == SaveSpec(next, env);
        }
      } else {
        o := Pass;
      }
    }

    /** The assignment of the generated thumbnail's name. */
    method SetThumbnail(name: string)
      modifies this
      ensures Snapshot() == old(Snapshot()).(rec := old(Current()).(thumbnail := name))
    {
      thumbnail := name;
    }

    /** The four assignments from the metadata dictionary. */
    method SetGeometry(m: Metadata)
      modifies this
      ensures Snapshot() == old(Snapshot()).(rec := WithGeometry(old(Current()), m))
    {
      height, width, tileSize, baseTileUrl := m.height, m.width, m.tileSize, Some(m.baseTileUrl);
    }

    method UpdateMetadata(env: Env) returns (o: Outcome<Exception>)
      modifies this
      ensures Snapshot() == UpdateSpec(old(Snapshot()), env).st
      ensures o == UpdateSpec(old(Snapshot()), env).outcome
      decreases (if ThumbnailPending(Current()) then 1 else 0), (if Dirty(Snapshot()) then 1 else 0), 3
    {
      ghost var before := Snapshot();
      var t := if tileType != [] then tileType else "local";
      updates := updates + [t];
      if t in MetadataHandlers {
        var m := MetadataHandlers[t](TilesetUrl(image, url, env.storageUrl), env);
        assert t == TileType(before.rec) && m == LookupMetadata(t, before.rec, env);
        SetGeometry(m);
        assert Snapshot() == Refreshed(before, env);
        o := Save(env);
      } else {
        o := Pass;
      }
    }
  }
}
