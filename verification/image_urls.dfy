/** How the screens turn what the API says about a picture into the address
    the browser loads: `getImageUrl` and the product-picture fallback of
    `handleProductImageError`. The gallery, detail and scene-selection
    screens carry private copies of `getImageUrl` with the same text; the one
    definition here stands for all of them. */
module ImageUrls {
  import opened Base
  import opened Text
  import M = MongoBackend

  const DefaultBase := "http://localhost:5000"
  const NoImage := "https://via.placeholder.com/400x400?text=No+Image"
  const ProductNotFound := "https://via.placeholder.com/300x300?text=Product+Image+Not+Found"

  /** `axios.defaults.baseURL?.replace('/api', '') || 'http://localhost:5000'`:
      the configured API address without its first `/api`, or the default
      when there is none or nothing is left. */
  function BaseUrl(configured: Option<string>): (b: string)
    ensures b != ""
    ensures configured.None? ==> b == DefaultBase
    ensures configured.Some? && !Contains(configured.value, "/api") && configured.value != "" ==>
      b == configured.value
    ensures configured.Some? && |configured.value| > 4 ==>
      forall i | FirstAt(configured.value, "/api", i) :: b == configured.value[..i] + configured.value[i + 4..]
  {
    if configured.Some? && ReplaceFirst(configured.value, "/api", "") != "" then
      ReplaceFirst(configured.value, "/api", "")
    else DefaultBase
  }

  /** With the usual configuration `http://localhost:5000/api` the pictures
      are served from `http://localhost:5000`. */
  lemma UsualBase()
    ensures BaseUrl(Some("http://localhost:5000/api")) == "http://localhost:5000"
  {
    var c := "http://localhost:5000/api";
    assert OccursAt(c, "/api", 21);
    forall j | 0 <= j < 21 ensures !OccursAt(c, "/api", j) {
      assert c[j..j + 4][0] == c[j] && c[j..j + 4][1] == c[j + 1];
      assert c[j] != '/' || c[j + 1] != 'a';
    }
    assert FirstAt(c, "/api", 21);
    assert c[..21] + c[25..] == "http://localhost:5000";
  }

  /** `getImageUrl(imagePath, imageUrl)`. */
  function GetImageUrl(configured: Option<string>, path: Option<string>, url: Option<string>): (r: string)
    ensures Truthy(url) ==> r == BaseUrl(configured) + url.value
    ensures !Truthy(url) && Truthy(path) && Contains(path.value, "/uploads/") ==>
      r == BaseUrl(configured) + "/uploads/" + AfterLast(path.value, '/')
    ensures !Truthy(url) && Truthy(path) && !Contains(path.value, "/uploads/") && Contains(path.value, "/processed/") ==>
      r == BaseUrl(configured) + "/processed/" + AfterLast(path.value, '/')
    ensures !Truthy(url) && Truthy(path) && !Contains(path.value, "/uploads/") && !Contains(path.value, "/processed/") ==>
      r == BaseUrl(configured) + "/processed/" + path.value
    ensures !Truthy(url) && !Truthy(path) ==> r == NoImage
  {
    var b := BaseUrl(configured);
    if Truthy(url) then b + url.value
    else if Truthy(path) && Contains(path.value, "/") && Contains(path.value, "/uploads/") then
      b + "/uploads/" + AfterLast(path.value, '/')
    else if Truthy(path) && Contains(path.value, "/") && Contains(path.value, "/processed/") then
      b + "/processed/" + AfterLast(path.value, '/')
    else if Truthy(path) then
      ContainsSlash(path.value, "/uploads/");
      ContainsSlash(path.value, "/processed/");
      b + "/processed/" + path.value
    else NoImage
  }

  /** A string holding a marker that starts with `/` holds `/`: the `/` test
      in front of the two marker tests never changes the outcome. */
  lemma ContainsSlash(s: string, marker: string)
    requires |marker| > 0 && marker[0] == '/'
    ensures Contains(s, marker) ==> Contains(s, "/")
  {
    if Contains(s, marker) {
      var i :| 0 <= i <= |s| - |marker| && OccursAt(s, marker, i);
      assert s[i] == marker[0];
      assert s[i..i + 1] == "/";
      assert OccursAt(s, "/", i);
    }
  }

  /** Whatever the configuration, a picture the server described with an
      address is loaded from that address on the static host, and any other
      non-empty path is too; only a picture with neither gets the
      placeholder. */
  lemma GetImageUrlHost(configured: Option<string>, path: Option<string>, url: Option<string>)
    ensures Truthy(url) || Truthy(path) ==> StartsWith(GetImageUrl(configured, path, url), BaseUrl(configured))
    ensures !Truthy(url) && !Truthy(path) ==> GetImageUrl(configured, path, url) == NoImage
  {
    var b := BaseUrl(configured);
    var r := GetImageUrl(configured, path, url);
    if Truthy(url) || Truthy(path) {
      assert r[..|b|] == b;
    }
  }

  /** The addresses the Mongo server attaches (`/processed/` or `/uploads/`
      and the stored file's base name, as `ServedUrl` builds them) are
      loaded from the static host as they are, whatever the stored path
      looks like. */
  lemma ServedUrlResolves(configured: Option<string>, folder: string, path: Option<string>, stored: string)
    requires '/' !in folder
    ensures GetImageUrl(configured, path, Some(M.ServedUrl(folder, stored))) ==
      BaseUrl(configured) + M.ServedUrl(folder, stored)
  {
    assert M.ServedUrl(folder, stored)[0] == '/';
  }

  /** A path below an `uploads` directory given in full is served from the
      uploads folder even when it also mentions `/processed/`: the uploads
      test comes first. */
  lemma UploadsTestedFirst(configured: Option<string>, dir: string, name: string)
    requires '/' !in name && name != ""
    ensures GetImageUrl(configured, Some(dir + "/uploads/" + name), None) ==
      BaseUrl(configured) + "/uploads/" + name
  {
    var p := dir + "/uploads/" + name;
    assert OccursAt(p, "/uploads/", |dir|);
    AfterLastAt(p, '/', |dir| + 8);
    assert p[|dir| + 9..] == name;
  }

  /** The product picture tried after the processed one failed:
      `original_url` on the static host, else the original path through
      `getImageUrl`, else the placeholder. */
  function ProductFallback(configured: Option<string>, originalUrl: Option<string>,
                           originalPath: Option<string>): (src: string)
    ensures Truthy(originalUrl) ==> src == BaseUrl(configured) + originalUrl.value
    ensures !Truthy(originalUrl) && Truthy(originalPath) ==>
      src == GetImageUrl(configured, originalPath, None)
    ensures !Truthy(originalUrl) && !Truthy(originalPath) ==> src == ProductNotFound
  {
    if Truthy(originalUrl) then BaseUrl(configured) + originalUrl.value
    else if Truthy(originalPath) then GetImageUrl(configured, originalPath, None)
    else ProductNotFound
  }

  /** What an error handler left on an `<img>` element: which address it
      loads and whether a further failure still has a handler. */
  class ImgElement {
    var src: string
    var fallbackArmed: bool

    constructor(src: string)
      ensures this.src == src && !fallbackArmed
    {
      this.src := src;
      fallbackArmed := false;
    }

    /** `handleProductImageError`: switch to the fallback picture and arm
        the handler that shows the placeholder if that fails too. */
    method HandleProductImageError(configured: Option<string>, originalUrl: Option<string>,
                                   originalPath: Option<string>)
      modifies this
      ensures src == ProductFallback(configured, originalUrl, originalPath)
      ensures fallbackArmed
    {
      src := ProductFallback(configured, originalUrl, originalPath);
      fallbackArmed := true;
    }

    /** Another load failure: the armed handler shows the placeholder and
        removes itself, so a failing placeholder is not retried forever. */
    method LoadFailed()
      modifies this
      ensures old(fallbackArmed) ==> src == ProductNotFound && !fallbackArmed
      ensures !old(fallbackArmed) ==> src == old(src) && !fallbackArmed
    {
      if fallbackArmed {
        src := ProductNotFound;
        fallbackArmed := false;
      }
    }
  }
}
