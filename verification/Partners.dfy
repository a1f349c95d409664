/** The partners strip of the home page: where each partner's logo is
    loaded from. */
module Partners {
  import opened Common

  /** `STORAGE_URL`, the public folder of the image bucket. */
  function StorageUrl(): string
  {
    "https://dyxkbbojlyppizsgjjxx.supabase.co/storage/v1/object/public/image/"
  }

  /** `replace(/\/$/, "")`: one trailing slash removed, if there is one. */
  function StripTrailingSlash(s: string): (r: string)
    ensures s != [] && s[|s| - 1] == '/' ==> r + "/" == s
    ensures !(s != [] && s[|s| - 1] == '/') ==> r == s
  {
    if s != [] && s[|s| - 1] == '/' then s[..|s| - 1] else s
  }

  /** `replace(/^\//, "")`: one leading slash removed, if there is one. */
  function StripLeadingSlash(s: string): (r: string)
    ensures s != [] && s[0] == '/' ==> "/" + r == s
    ensures !(s != [] && s[0] == '/') ==> r == s
  {
    if s != [] && s[0] == '/' then s[1..] else s
  }

  /** `getImageUrl` over a given base: the base without its trailing slash,
      one slash, and the file name without its leading slash. */
  function ImageUrlOn(base: string, fileName: string): string
  {
    StripTrailingSlash(base) + "/" + StripLeadingSlash(fileName)
  }

  /** `getImageUrl(fileName)`. */
  function GetImageUrl(fileName: string): (r: string)
    ensures StartsWith(r, StorageUrl())
    ensures r == StorageUrl() + StripLeadingSlash(fileName)
  {
    BaseEndsWithSlash(StorageUrl(), fileName);
    ImageUrlOn(StorageUrl(), fileName)
  }

  /** Over a base ending in "/", the URL is the base followed by the file
      name without its leading slash. */
  lemma BaseEndsWithSlash(base: string, fileName: string)
    requires base != [] && base[|base| - 1] == '/'
    ensures ImageUrlOn(base, fileName) == base + StripLeadingSlash(fileName)
    ensures StartsWith(ImageUrlOn(base, fileName), base)
  {
    var u := ImageUrlOn(base, fileName);
    assert u == (StripTrailingSlash(base) + "/") + StripLeadingSlash(fileName);
    assert u[..|base|] == base;
  }

  /** A leading slash makes no difference... */
  lemma LeadingSlashIgnored(base: string, name: string)
    requires name == [] || name[0] != '/'
    ensures ImageUrlOn(base, "/" + name) == ImageUrlOn(base, name)
  {
    assert ("/" + name)[1..] == name;
  }

  /** ...but only one is removed: a second one stays in the URL. */
  lemma OnlyOneSlashStripped(base: string, name: string)
    ensures ImageUrlOn(base, "//" + name) == StripTrailingSlash(base) + "/" + "/" + name
  {
    assert ("//" + name)[1..] == "/" + name;
  }

  /** The logo source of a partner card: the placeholder when `logo_url` is
      null or empty, the URL itself when it starts with "http", and
      otherwise a file of the image bucket. */
  function LogoUrl(logoUrl: Option<string>): (r: string)
    ensures logoUrl.None? || logoUrl == Some("") ==> r == "/placeholder.svg"
    ensures logoUrl.Some? && logoUrl.value != "" && StartsWith(logoUrl.value, "http") ==> r == logoUrl.value
    ensures logoUrl.Some? && logoUrl.value != "" && !StartsWith(logoUrl.value, "http") ==>
              r == StorageUrl() + StripLeadingSlash(logoUrl.value)
  {
    match logoUrl
    case None => "/placeholder.svg"
    case Some(u) =>
      if u == "" then "/placeholder.svg"
      else if StartsWith(u, "http") then u
      else GetImageUrl(u)
  }

  /** A logo URL that is neither empty nor absolute always points into the
      image bucket. */
  lemma RelativeLogoInBucket(u: string)
    requires u != "" && !StartsWith(u, "http")
    ensures StartsWith(LogoUrl(Some(u)), StorageUrl())
  {
  }
}
