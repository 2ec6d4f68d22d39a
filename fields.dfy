/** The file attribute of a large image: the URL of its thumbnail. */
module Fields {
  import opened Wrappers
  import opened Exceptions
  import opened Strings
  import opened PosixPath
  import Tileset

  /**
   * `LargeImageFieldFile.thumbnail_url`: a field without a file is an error; otherwise
   * the storage URL of the file, without its extension, followed by `_thumb.jpg`.
   */
  function ThumbnailUrl(name: string, storageUrl: string -> string): (r: Result<string, Exception>)
    ensures name == [] <==> r.Failure?
    ensures r.Failure? ==> r.error == ValueError
    ensures r.Success? ==> EndsWith(r.value, Tileset.ThumbSuffix)
    ensures r.Success? ==>
      var url := storageUrl(name);
      var stem := r.value[..|r.value| - |Tileset.ThumbSuffix|];
      StartsWith(url, stem) && Splitext(url).1 == url[|stem|..]
  {
    if name == [] then Failure(ValueError)
    else Success(Splitext(storageUrl(name)).0 + Tileset.ThumbSuffix)
  }

  /**
   * The thumbnail URL follows the same naming as the thumbnail file `vipsthumbnail`
   * writes: for a storage whose URLs have a single separator before the file name,
   * it is the thumbnail path of the image URL.
   */
  lemma ThumbnailUrlMatchesThumbnailPath(name: string, storageUrl: string -> string)
    requires name != [] && SingleSeparator(storageUrl(name))
    ensures ThumbnailUrl(name, storageUrl) == Success(Tileset.ThumbnailPath(storageUrl(name)))
  {
    Tileset.ThumbnailPathStem(storageUrl(name));
  }
}
