# django-loupe, modelled in Dafny

django-loupe stores large images for deep-zoom viewing. For an image, the program:

- turns the upload into a tileset of tiles and a thumbnail;
- reads tile geometry (width, height, tile size, base tile URL) from DZI or Zoomify descriptors;
- keeps that geometry on a database record, up to date whenever the record's image source changes;
- ships the generated files from local to remote storage in a background task.

In the browser, a Zoomify tile source computes the tile pyramid and the URL of each tile.

This project models those parts and proves what they guarantee. There are six modules:

- **Download** (`download.dfy`): `guess_image_format`, the file name and colour-mode decisions of `django_website_image`, and the `urlparse` path it relies on.
- **Tileset** (`tileset.dfy`): the thumbnail path, the `vips`/`vipsthumbnail` argument lists, the tileset file listing (an `os.walk` loop), the case-insensitive attribute search of a descriptor, the DZI, local and Zoomify metadata dictionaries, and the Zoomify thumbnail URL and name.
- **Fields** (`fields.dfy`): the `thumbnail_url` of the large-image field.
- **Models** (`models.dfy`): the pure derivations (`slug_upload_to`, `tileset_url`, `tileset_source`, the `render` template list, `clean`) and the save cycle of the image record. The record is a class (`LoupeImage`) whose `Save`, `UpdateMetadata` and `CreateExternalThumbnail` methods change its fields and append to its written rows. Each method is proved equal to a specification function (`SaveSpec`, `UpdateSpec`, `HookSpec`). The lemmas about those functions state the promises of the save cycle.
- **Zoomify** (`zoomify.dfy`): the `ZoomifyTileSource` class. Its constructor runs the halving `while` loop and the running-total `for` loop, proved against `Tiers` and `AreaSum`. The module also has `getTileUrl`, `supports` and `configure`.
- **Task** (`task.dfy`): `TileAndTransfer.transfer` and `TileTransferAndDelete.transfer` over local and remote `Store` objects whose file maps the methods update.

Two modules support the others:

- **PosixPath** models `os.path.split`, `splitext`, `basename` and `join`.
- **Strings** models `str.split`, `str.replace`, `str.upper`/`lower` and decimal rendering.

`wrappers.dfy` holds `Option`, `Result`, `Outcome` and the exceptions that can be raised.

Where the documentation and the code differ, the model follows the code:

- The transfer task's docstring says everything is transferred. The loop returns after the first file, so at most one file reaches the remote storage.
- `get_dzi_metadata` always returns `base_tile_url`, even when the descriptor body has no attribute at all. Its result is never an entirely empty dictionary.
- `get_local_metadata` ignores the URL it is given.

## Model

| member | source | states |
|---|---|---|
| Download.GuessImageFormat | loupe/download_external_img.py:11-19 | an empty content type gives None; the only error is IndexError |
| Download.GuessImageSubtype | loupe/download_external_img.py:16-18 | `image/<sub>` with a slash-free subtype gives the subtype upper-cased |
| Download.GuessImagePng | loupe/download_external_img.py:16-18 | an example of `GuessImageSubtype`: `image/png` gives `PNG` |
| Download.GuessOtherMajor | loupe/download_external_img.py:17-19 | a major type other than `image`, the empty one included, gives None |
| Download.GuessFailsOnlyOnBareImage | loupe/download_external_img.py:16-18 | the guess raises exactly for the content type `image`, which has no second part |
| Download.ConvertedMode | loupe/download_external_img.py:35-36 | modes L and RGB are kept; every other mode becomes RGB |
| Download.UrlPath | loupe/download_external_img.py:31 | the `urlparse` path: the scheme, `//netloc`, fragment, query and the last segment's `;params` are removed, so no `#` or `?` remains |
| Download.DjangoWebsiteImage | loupe/download_external_img.py:22-42 | on success: the file name is the basename of the URL's path, the size is the decoded image's size, the mode is the converted mode and the format is the guessed one; success exactly when a format is guessed and can be encoded |
| Download.UrlPathOfHttp | loupe/download_external_img.py:31 | for `http://host/path` with a plain path, the `urlparse` path is that path |
| Download.WebsiteImageName | loupe/download_external_img.py:31 | the downloaded file is named after the last segment of the URL's path |
| Fields.ThumbnailUrl | loupe/fields.py:6-11 | no file raises ValueError; otherwise the result ends in `_thumb.jpg`, and what precedes it is the storage URL with its extension removed |
| Fields.ThumbnailUrlMatchesThumbnailPath | loupe/fields.py:9-11 | the thumbnail URL follows the same naming as the thumbnail file written next to the image |
| PosixPath.Split | loupe/tileset.py:15 | the tail is the whole last component: it has no slash, ends the path, and starts the path or follows a slash; the head starts the path, only slashes lie between them, and trailing slashes are stripped from a head that is not all slashes |
| PosixPath.Splitext | loupe/tileset.py:16 | the two parts rebuild the path; a non-empty extension starts at the last dot, which lies in the last component after a character other than a dot; when there is no extension, any dot of the last component has only dots before it |
| PosixPath.Join | loupe/tileset.py:17 | an absolute second part replaces the first; otherwise the parts are joined with one `/`, or with none when the first is empty or already ends in `/` |
| PosixPath.Basename | loupe/download_external_img.py:31 | the last component: no slash, ends the path, and starts it or follows a slash |
| PosixPath.JoinSplitStem | loupe/tileset.py:15-17 | joining the directory with the file's stem and a suffix gives the path's stem and the suffix |
| Strings.JoinOnSplitOn | loupe/static/openseadragon/zoomify.js:113-115 | joining the parts of a split with the separator gives the string back |
| Strings.SplitOn | loupe/tileset.py:107 | `str.split` on one character: at least one part, and no part contains the separator |
| Strings.ReplaceAll | loupe/tileset.py:106 | replacing a pattern by itself leaves the string unchanged |
| Strings.ReplaceAllAbsent | loupe/tileset.py:106 | a string without the pattern is left unchanged |
| Strings.Upper | loupe/download_external_img.py:18 | same length, each character upper-cased |
| Strings.NatToStringRoundTrip | loupe/tileset.py:49 | the decimal rendering of a number reads back as that number |
| Strings.ReplaceAllSuffix | loupe/tileset.py:106 | replacing the only occurrence of a pattern at the end of a string replaces that occurrence alone |
| Tileset.ThumbnailPathStem | loupe/tileset.py:11-17 | the thumbnail path is the image path without its extension followed by `_thumb.jpg` |
| Tileset.ThumbnailPath | loupe/tileset.py:11-17 | the path ends with the file's stem followed by `_thumb.jpg` |
| Tileset.TilesetDestination | loupe/tileset.py:24-26 | the tileset destination ends with the stem of the image's file name |
| Tileset.TilesetDestinationStem | loupe/tileset.py:24-26 | the destination is the image path without its extension |
| Tileset.TilesetCommand | loupe/tileset.py:24-27 | six arguments: `vips dzsave`, the image, a destination ending in the file's stem, `--suffix .jpg[Q=100]` |
| Tileset.TilesetCommandShape | loupe/tileset.py:27 | `vips dzsave <image> <stem> --suffix .jpg[Q=100]` |
| Tileset.ThumbnailCommand | loupe/tileset.py:43-50 | six arguments: `vipsthumbnail`, the image, `--output`, a path ending in `<stem>_thumb.jpg`, `--size`, and a size that reads back as configured |
| Tileset.ThumbnailCommandShape | loupe/tileset.py:43-50 | the output is the thumbnail path; the size argument reads back as the configured size |
| Tileset.JoinAll | loupe/tileset.py:39 | one joined path per file name, in order |
| Tileset.WalkFiles | loupe/tileset.py:38-39 | no entries list no files; otherwise the files of the last entry, joined to its directory, come last and in order |
| Tileset.WalkFilesSound | loupe/tileset.py:38-39 | every listed file is a file of some walk entry, joined to its directory |
| Tileset.WalkFilesComplete | loupe/tileset.py:38-39 | every file of every walk entry is listed |
| Tileset.TilesetFiles | loupe/tileset.py:31-40 | the loop with `extend` yields the files of the walk of the image's directory, entry after entry |
| Tileset.ImageAmongTilesetFiles | loupe/tileset.py:31-40 | the image itself is among the files when the walk lists it |
| Tileset.DigitRun | loupe/tileset.py:6-8 | the greedy `\d+`: a maximal run of digits |
| Tileset.MatchAt | loupe/tileset.py:6-8 | a match captures a non-empty run of digits |
| Tileset.FirstMatch | loupe/tileset.py:65 | `re.search`: the leftmost match, with no match before it; None only when nothing matches |
| Tileset.ExtractData | loupe/tileset.py:61-69 | at most one group; empty exactly when nothing matches; otherwise the group of the leftmost match |
| Tileset.MatchAtAttribute | loupe/tileset.py:6-8 | the key in any letter case, `=`, a quote, digits and a quote match, capturing the digits |
| Tileset.Attribute | loupe/tileset.py:82-87 | a non-negative integer when the key matches, absent exactly when it never does |
| Tileset.AttributeIsFirstMatch | loupe/tileset.py:82-87 | the value is the integer of the leftmost match |
| Tileset.DziMetadata | loupe/tileset.py:80-81 | `base_tile_url` is always the URL without its extension followed by `_files/` |
| Tileset.DziMetadataNoMatches | loupe/tileset.py:76-88 | a body without any of the attributes yields only `base_tile_url` |
| Tileset.DziMetadataGeometry | loupe/tileset.py:76-88 | each of width, height and tile size is present exactly when its key matches, and is then the integer of the first match |
| Tileset.LocalMetadata | loupe/tileset.py:91-97 | the base tile URL is `http://<site domain>` without its extension followed by `_files/`; width, height and tile size are read from the body fetched at `http://<site domain>` |
| Tileset.LocalBaseTileUrlDropsLabel | loupe/tileset.py:80-96 | for a site domain `<host>.<label>`, the extension split takes `.<label>` away, so the base tile URL is `http://<host>_files/` |
| Tileset.LocalMetadataIgnoresUrl | loupe/tileset.py:91-97 | the result does not depend on the URL argument |
| Tileset.ZoomifyMetadata | loupe/tileset.py:112-118 | width, height and tile size are those of the DZI reading |
| Tileset.ZoomifyBaseTileUrl | loupe/tileset.py:117 | for `<dir>ImageProperties.xml` the base tile URL is `<dir>` |
| Tileset.ZoomifyThumbnailUrl | loupe/tileset.py:106 | a URL without `ImageProperties.xml` is left unchanged |
| Tileset.ZoomifyThumbnailUrlOf | loupe/tileset.py:106 | for `<dir>ImageProperties.xml` the thumbnail URL is `<dir>TileGroup0/0-0-0.jpg` |
| Tileset.ZoomifyThumbnailName | loupe/tileset.py:107 | ends in `.jpg`; raises IndexError exactly when the URL has fewer than three `/` parts |
| Tileset.ZoomifyThumbnailNameOf | loupe/tileset.py:107 | the tile `<prefix>/<dir>/TileGroup0/0-0-0.jpg` is saved as `<dir>.jpg` |
| Tileset.CreateZoomifyThumbnail | loupe/tileset.py:100-109 | the name comes from the thumbnail URL and the size and content from its download; fails exactly when either fails |
| Models.SlugUploadTo | loupe/models.py:17-26 | `loupe/<dir>/<filename>`, where the directory is the slug, else the slugified name, else the file stem |
| Models.TilesetUrl | loupe/models.py:75-83 | with an uploaded image, `'<url stem>.dzi'` in single quotes; otherwise the external URL |
| Models.OptionalIntText | loupe/models.py:88 | `%s` of a missing value is `None`; of a number, digits that read back as it |
| Models.TilesetSource | loupe/models.py:85-90 | for Zoomify, the object literal: the width field, the height field and the tiles-URL field, separated by commas; otherwise the tileset URL |
| Models.ZoomifySourceFields | loupe/models.py:88 | split at its commas, the Zoomify literal gives back the width text and then the height text |
| Models.TemplateNames | loupe/models.py:95-106 | the default template is last; with an external URL, the template of its type comes first |
| Models.Clean | loupe/models.py:108-119 | passes exactly when one of image and URL is set and a URL has a type; the two messages in their order |
| Models.CleanRecordHasTilesetUrl | loupe/models.py:114-117 | a record that passes `clean` has a non-empty tileset URL |
| Models.TileType | loupe/models.py:126-129 | the external type, or `local` when there is none |
| Models.Dirty | loupe/models.py:146-149 | a refresh is due exactly when the image, the external URL or the external type differs from its value last loaded or saved |
| Models.ThumbnailPending | loupe/models.py:173-177 | the hook has work exactly when there is an external URL, no thumbnail, and the type is `zoomify`, the only type with a thumbnail handler |
| Models.Persist | loupe/models.py:150 | the write appends the record as it is, and changes neither the record, its tracked values nor whether it is dirty |
| Models.ResetDirty | loupe/models.py:150 | the dirty-field tracking's reset after a write: the record and rows are kept and nothing is dirty afterwards |
| Models.WithGeometry | loupe/models.py:134-137 | the four geometry fields take the dictionary's values, absent ones as None; the source fields, name, slug and thumbnail are kept |
| Models.ThumbnailName | loupe/models.py:179 | the stored name is `loupe_thumbs/` followed by the last component of the file name |
| Models.SaveSpec | loupe/models.py:142-152 | the source fields are unchanged; when the hook passes they are no longer dirty and no thumbnail is pending; when it raises, the state is the one just written, still dirty |
| Models.HookSpec | loupe/models.py:171-181 | the hook keeps the source fields; with nothing to do it changes nothing; when it raises it changes nothing; when it stores a thumbnail the nested save leaves the fields clean |
| Models.UpdateSpec | loupe/models.py:121-140 | `update_metadata` keeps the source fields, leaves clean fields clean, and keeps the thumbnail when the hook has nothing to do |
| Models.Refreshed | loupe/models.py:134-138 | overwriting the geometry touches neither the source fields nor the written rows |
| Models.CleanSaveNoUpdate | loupe/models.py:146-152 | a save with no dirty source field never calls `update_metadata` and changes at most the thumbnail |
| Models.CleanHookNoUpdate | loupe/models.py:171-181 | the hook on a record with no dirty source field never calls `update_metadata` and changes at most the thumbnail |
| Models.UpdateOnClean | loupe/models.py:121-140 | on a clean record, `update_metadata` runs once: its own save does not call it again |
| Models.SettledSaveUpdateCalls | loupe/models.py:146-152 | with nothing for the hook to do, a save calls `update_metadata` once when a source field was dirty and never otherwise |
| Models.HookUpdateCalls | loupe/models.py:171-181 | the hook leads to `update_metadata` exactly when it stores a thumbnail while a source field is still dirty |
| Models.SaveUpdateCalls | loupe/models.py:146-181 | `update_metadata` runs only when a source field was dirty and the hook did not raise: once, or twice when the hook stored a thumbnail, because the hook's save runs before the dirty tracking is reset |
| Models.DirtySaveUpdateCalls | loupe/models.py:146-181 | a dirty save whose hook passes calls `update_metadata` twice when the hook stored a thumbnail, and once otherwise |
| Models.QuietSaveUpdateCalls | loupe/models.py:146-152 | a save whose hook raises, or that found no dirty source field, never calls `update_metadata` |
| Models.SaveRows | loupe/models.py:150 | a save only appends rows, and the first row it appends is the record as it was |
| Models.HookRows | loupe/models.py:179 | the hook only appends rows |
| Models.UpdateRows | loupe/models.py:138 | `update_metadata` only appends rows |
| Models.SavePersistsFirst | loupe/models.py:146-152 | the record is written, as it was, before anything else happens |
| Models.SaveOverwritesGeometry | loupe/models.py:134-138 | after a refresh with a handler, all four geometry fields are what the handler returned, absent keys becoming None |
| Models.UnsupportedTypeNoOp | loupe/models.py:130-140 | a type without a handler changes no field and saves nothing |
| Models.MetadataHandlerTypes | loupe/models.py:126-131 | a handler exists exactly for `dzi`, `zoomify`, `local` and no type |
| Models.HookStoresThumbnail | loupe/models.py:177-179 | a successful hook leaves the record pointing at the downloaded thumbnail under `loupe_thumbs` |
| Models.LoupeImage.Save | loupe/models.py:142-152 | the new record, rows, tracked values and outcome are those of `SaveSpec` |
| Models.LoupeImage.CreateExternalThumbnail | loupe/models.py:171-181 | the new state and outcome are those of `HookSpec` |
| Models.LoupeImage.UpdateMetadata | loupe/models.py:121-140 | the new state and outcome are those of `UpdateSpec` |
| Models.LoupeImage.SetThumbnail | loupe/models.py:179 | only the thumbnail field changes |
| Models.LoupeImage.SetGeometry | loupe/models.py:134-137 | only the four geometry fields change, to the dictionary's values |
| Zoomify.CeilDiv | loupe/static/openseadragon/zoomify.js:36-39 | `Math.ceil(a / b)`: the least `r` with `a <= b * r` |
| Zoomify.TilesOf | loupe/static/openseadragon/zoomify.js:53-56 | the tile grid covers the tier, with no spare row or column |
| Zoomify.HalfShrinks | loupe/static/openseadragon/zoomify.js:46-52 | halving a tier that exceeds one tile makes it strictly smaller, so the loop ends |
| Zoomify.Tiers | loupe/static/openseadragon/zoomify.js:43-59 | at least one tier, the full image first |
| Zoomify.Reversed | loupe/static/openseadragon/zoomify.js:60-61 | the same elements in the opposite order |
| Zoomify.TiersHalve | loupe/static/openseadragon/zoomify.js:46-58 | in loop order, every tier but the last exceeds one tile and the next is its floor-half |
| Zoomify.TiersEndSmall | loupe/static/openseadragon/zoomify.js:46-47 | the last tier of the loop fits in one tile |
| Zoomify.PyramidEnds | loupe/static/openseadragon/zoomify.js:35-61 | after the reverse, tier 0 fits in one tile and the last tier is the full image |
| Zoomify.PyramidStep | loupe/static/openseadragon/zoomify.js:46-61 | after the reverse, each tier is the floor-half of the next, which exceeded one tile |
| Zoomify.PyramidGrows | loupe/static/openseadragon/zoomify.js:46-61 | tier sides are non-negative and grow level by level |
| Zoomify.TiersNonNegative | loupe/static/openseadragon/zoomify.js:49-52 | halving keeps sides non-negative |
| Zoomify.AreaSumSnoc | loupe/static/openseadragon/zoomify.js:66-72 | adding a tier adds its tiles to the running total |
| Zoomify.AreaSumMonotone | loupe/static/openseadragon/zoomify.js:66-72 | with non-negative grids the running total never decreases |
| Zoomify.RowMajorBound | loupe/static/openseadragon/zoomify.js:137 | row-major numbering of a grid stays below its tile count |
| Zoomify.RowMajorInjective | loupe/static/openseadragon/zoomify.js:137 | row-major numbering tells the tiles of one grid apart |
| Zoomify.TileIndexInjective | loupe/static/openseadragon/zoomify.js:137 | different tiles of the pyramid get different numbers |
| Zoomify.TileIndex | loupe/static/openseadragon/zoomify.js:137 | a tile on its level's grid gets a number at least the tile count of the levels below it and less than the count up to and including its level |
| Zoomify.TilePath | loupe/static/openseadragon/zoomify.js:139 | split at `/`, the tile path is the directory `TileGroup<group>` and the file `<level>-<x>-<y>.jpg` |
| Zoomify.ClampedLevel | loupe/static/openseadragon/zoomify.js:136 | a natural number equal to 0 or to `level - 1` and not below `level - 1`: the maximum of the two |
| Zoomify.HalvingLoop | loupe/static/openseadragon/zoomify.js:35-59 | the `while` loop produces the tiers and, for each, its tile grid |
| Zoomify.RunningTotals | loupe/static/openseadragon/zoomify.js:66-72 | the `for` loop: entry `j` is the number of tiles in the tiers below `j` |
| Zoomify.ZoomifyTileSource.constructor | loupe/static/openseadragon/zoomify.js:30-72 | tile size 0 becomes 256; the tables are consistent; the tiers are the reversed halving sequence; `maxLevel` is the tier count |
| Zoomify.ZoomifyTileSource.GetTileUrl | loupe/static/openseadragon/zoomify.js:135-141 | defined exactly for a clamped level below the tier count; then the tiles URL, the group `index / 256`, the level and the coordinates |
| Zoomify.NewTileSource | loupe/static/openseadragon/zoomify.js:27-32 | raises the required-parameter error exactly when width, height or tiles URL is missing |
| Zoomify.FirstTileUrl | loupe/static/openseadragon/zoomify.js:135-141 | on level 0 or 1, tile (0, 0) is `TileGroup0/0-0-0.jpg` |
| Zoomify.TileGroupBound | loupe/static/openseadragon/zoomify.js:137-138 | a tile's index is below the pyramid's tile count and its group is non-negative |
| Zoomify.TilesOfNonNegative | loupe/static/openseadragon/zoomify.js:53-56 | non-negative sides need non-negative tile counts |
| Zoomify.PositiveImageGrids | loupe/static/openseadragon/zoomify.js:36-58 | an image with positive sides gets grids with non-negative sides |
| Zoomify.Supports | loupe/static/openseadragon/zoomify.js:87-95 | an object of type `zoomify` or an `IMAGE_PROPERTIES` document, and nothing else |
| Zoomify.ServicePath | loupe/static/openseadragon/zoomify.js:113-115 | the service path always ends in `/` |
| Zoomify.ServicePathPrefix | loupe/static/openseadragon/zoomify.js:112-115 | the service path is the URL up to and including its last `/`, or `/` when it has none |
| Zoomify.Configure | loupe/static/openseadragon/zoomify.js:106-123 | an XML document raises ReferenceError; a missing URL raises TypeError; it succeeds exactly for a plain object with a URL or a `tilesUrl`, and then `tilesUrl` becomes the service path, prefixed by protocol and host unless it starts with `http` |
| Zoomify.ConfigureDirectory | loupe/static/openseadragon/zoomify.js:112-120 | an absolute `<dir>/ImageProperties.xml` configures `<dir>/` |
| Zoomify.ConfigureRelativeDirectory | loupe/static/openseadragon/zoomify.js:112-120 | a relative `<dir>/ImageProperties.xml` configures `protocol + "//" + host + <dir>/` |
| Task.Store.Open | loupe/task.py:46 | a name the storage holds gives its content; any other raises IOError |
| Task.Store.Save | loupe/task.py:46 | writes the content, or raises a transport error and changes nothing |
| Task.Store.Delete | loupe/task.py:65 | removes exactly that name |
| Task.CopyAttempt | loupe/task.py:46 | the copy succeeds exactly when the local storage holds the file and the remote write goes through, and then carries the local content; a missing file raises IOError first |
| Task.RemoteAfter | loupe/task.py:44-52 | a name is remote afterwards exactly when it was before or is the first file copied successfully; other names keep their content; the copied file has the local content |
| Task.TransferResult | loupe/task.py:44-52 | None exactly for no files; True exactly when the first copy succeeds; False exactly when it fails |
| Task.CopyFirst | loupe/task.py:44-52 | the loop's result, the remote files and the log are those of the first file's copy |
| Task.RunTools | loupe/task.py:40-43 | the tileset command, then the thumbnail command, each logged when its status is exactly 1 |
| Task.TileAndTransfer | loupe/task.py:28-52 | both commands, then at most the first tileset file copied, with result and log as specified |
| Task.Mro | loupe/task.py:55 | each class's resolution order starts with itself and ends with `Transfer` |
| Task.SuperTransfer | loupe/task.py:62 | a start class outside the instance's resolution order raises TypeError; otherwise the class right after it in that order, and AttributeError when no class follows |
| Task.SuperAsWrittenRaises | loupe/task.py:62 | `super(TransferAndDelete, self)` on a `TileTransferAndDelete` raises TypeError |
| Task.SuperCorrectedReachesTileAndTransfer | loupe/task.py:61-63 | `super(TileTransferAndDelete, self)` reaches `TileAndTransfer.transfer` |
| Task.TileTransferAndDeleteAsWritten | loupe/task.py:61-66 | as written the delete variant always raises TypeError |
| Task.TileTransferAndDelete | loupe/task.py:61-66 | the transfer's result unchanged; only `name` is deleted locally, and only on True |
| Task.OnlyFirstFileCopied | loupe/task.py:44-47 | no file but the first reaches the remote storage |
| Task.SuccessCopiesFirstFile | loupe/task.py:46-47 | on True the remote copy of the first file equals the local one |
| Task.NoSuccessNoWrite | loupe/task.py:44-52 | on False or None the remote storage is unchanged |
| Task.LogShape | loupe/task.py:40-52 | a tool is logged exactly when its status is 1; a failed copy adds an error and its traceback |

## Left out

- Running `vips` and `vipsthumbnail`: the commands are built, and their exit statuses are a parameter (`run`).
- The network: the descriptor body (`get_data`), the headers and the decoded image of a download are given by functions in `Env`. A fetch that raises is not modelled, and neither is `get_data`'s fallback to `""` when the downloaded file cannot be opened.
- PIL decoding and encoding and the `StringIO` buffer: a file's content is described by its format, mode and size. A guessed format that no encoder handles, or no guessed format, is modelled as an UnknownImageFormat error.
- `os.walk` is a given listing; the walk of a directory is not derived from files on disk.
- The Django ORM, `dirty_fields` and the `post_save` signal: the record is a class holding its field values, the values last saved (`snapshot`) and the rows written. The hook runs after every write, as the receiver ignores `created`. The dirty-field tracking resets after the hook, and only when the hook did not raise, so the save inside the hook still sees the source fields as dirty.
- `slugify`, the storage's `url`, the current `Site` and the available encoders are parameters.
- Empty and missing values of the image, URL and type fields are one value (`""`). The tests in `clean`, `tileset_url`, `render`, `update_metadata` and the hook are truth tests, and `tileset_source` compares with `'zoomify'`, so the collapse does not change their branches. The geometry fields keep the difference, because `metadata.get` gives None.
- Models.Dirty: `dirty_fields` compares values, and None differs from `""`. A save that turns a NULL URL or type into `""` (as a form saving a blank field does) marks it dirty, so the source runs `update_metadata` with another fetch and another row. The model sees no change, so SaveSpec does not refresh in that case.
- Models.TilesetSource: a missing URL is formatted by `%s` as `None` (models.py line 88), so a Zoomify record with an image and no URL renders `tilesUrl: "None"`; the model renders `tilesUrl: ""`.
- Models.TemplateNames: a missing type is formatted as `None` (models.py line 105), giving `<model>_None.html`; the model gives `<model>_.html`.
- Models.TilesetUrl: without an image, a missing URL is returned as None (models.py line 83); the model returns `""`.
- Models.ThumbnailPending: `hasattr(instance.thumbnail, 'file')` (models.py line 173) is modelled as a non-empty thumbnail name. A name whose file cannot be opened is not modelled.
- Task.Store.Save: the remote storage is assumed to overwrite a name it already holds. Django's `Storage.save` passes the name through `get_available_name`, so on a backend that does not overwrite (such as `FileSystemStorage`) the copy lands under a new name and the old remote content stays; `transfer` ignores the name it gets back. Task.RemoteAfter and Task.SuccessCopiesFirstFile inherit this assumption.
- Models.ThumbnailName: `thumbnail.save` keeps the last component of the name and puts it under `loupe_thumbs`. The character clean-up of `get_valid_name` and the renaming of taken names by `get_available_name` are not modelled.
- Download.UrlPath: the `;params` of the last segment are removed for every scheme, while `urlparse` does so only for the schemes in its `uses_params` list. Its rule that `name:digits` is not a scheme is not modelled either. Nor is its ValueError ("Invalid IPv6 URL") for a netloc that holds a `[` without a `]`, or a `]` without a `[`: the model returns a path where `urlparse` raises, before any download starts.
- The exceptions the handlers catch: a missing handler is the only `AttributeError`; an `AttributeError` raised inside a handler is not modelled.
- `create_tileset_async`, `storage.py`, settings merging, the admin, URLs, template tags and packaging. Celery retries and the queued-storage transport are also out: one task run is one attempt, and a failed save is a parameter set (`unreachable`).
- The logger: log lines are returned as a list.
- `render` itself: only the template-name list is modelled.
- Zoomify.ZoomifyTileSource.constructor: requires a non-negative tile size, because a negative one makes the `while` loop never end. JavaScript's non-integer widths and heights are not modelled.
- Zoomify.ZoomifyTileSource.constructor: `reverse()` works in place on the two arrays; the model assigns their reversed values.
- The positional and object argument forms of the constructor, and `$.TileSource.apply`, are not modelled.
- Zoomify.Configure: the XML branch calls `configureFromXml`, but the file defines `configureFromXML` (zoomify.js lines 108 and 151). The model gives the ReferenceError that the code raises. The intended XML configuration is not modelled.
- Zoomify.Configure: `options`, `service` and `host` are implicit globals, shared between tile sources. `location.protocol` and `location.host` are parameters, and `getTileUrl` takes the current tiles URL as a parameter.
- Zoomify.Supports: a plain object that has a `documentElement` is not modelled; a descriptor is either an object or an XML document.

## Findings

| source | as written | input that shows it | evidently intended | confidence | as-written member | corrected member |
|---|---|---|---|---|---|---|
| loupe/task.py:62 | `super(TransferAndDelete, self).transfer(...)` in `TileTransferAndDelete` | any call of `TileTransferAndDelete.transfer`: `TransferAndDelete` is not in its resolution order, so `super` raises TypeError before any tool runs | `super(TileTransferAndDelete, self)`, reaching `TileAndTransfer.transfer`, then deleting `name` on success | not executed | Task.TileTransferAndDeleteAsWritten | Task.TileTransferAndDelete |
