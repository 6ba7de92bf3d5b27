/** The page head (AnticcaReale-main/src/components/seo/SEO.tsx): the title, canonical
    URL, social image and structured data each page declares. */
module Seo {
  import opened Types
  import opened Text

  const SITE_URL: string := "https://anticca.com.tr"
  const SITE_NAME: string := "Anticca"
  const DEFAULT_OG_IMAGE: string := SITE_URL + "/logo.png"

  /** `fullTitle`: the site name is appended unless the title already mentions it. */
  function FullTitle(title: string): (r: string)
    ensures Contains(r, SITE_NAME)
    ensures title <= r
    ensures Contains(title, SITE_NAME) ==> r == title
    ensures !Contains(title, SITE_NAME) ==> r == title + " | " + SITE_NAME
  {
    if Contains(title, SITE_NAME) then title
    else
      ContainsSuffix(title + " | ", SITE_NAME);
      title + " | " + SITE_NAME
  }

  /** Normalising a title twice is normalising it once. */
  lemma FullTitleIdempotent(title: string)
    ensures FullTitle(FullTitle(title)) == FullTitle(title)
  {
  }

  /** `canonicalUrl`: the site URL followed by the path, when a path is given. */
  function CanonicalUrl(canonical: Option<string>): (r: Option<string>)
    ensures r.Some? <==> TruthyString(canonical)
    ensures r.Some? ==> SITE_URL <= r.value && r.value[|SITE_URL|..] == canonical.value
  {
    if TruthyString(canonical) then Some(SITE_URL + canonical.value) else None
  }

  /** `image`: the page's image, or the logo. */
  function Image(ogImage: Option<string>): (r: string)
    ensures r != ""
    ensures TruthyString(ogImage) ==> r == ogImage.value
    ensures !TruthyString(ogImage) ==> r == DEFAULT_OG_IMAGE
  {
    if TruthyString(ogImage) then ogImage.value else DEFAULT_OG_IMAGE
  }

  /** A page's structured data: one object or a list of them. */
  datatype JsonLd<T> = One(item: T) | Many(items: seq<T>)

  /** `Array.isArray(jsonLd) ? jsonLd : [jsonLd]`: always emitted as a list. */
  function JsonLdArray<T>(jsonLd: JsonLd<T>): (r: seq<T>)
    ensures jsonLd.One? ==> r == [jsonLd.item]
    ensures jsonLd.Many? ==> r == jsonLd.items
  {
    match jsonLd
    case One(x) => [x]
    case Many(xs) => xs
  }

  /** Normalising a list that is already a list changes nothing. */
  lemma JsonLdArrayIdempotent<T>(jsonLd: JsonLd<T>)
    ensures JsonLdArray(Many(JsonLdArray(jsonLd))) == JsonLdArray(jsonLd)
  {
  }

  /** The tags the component emits. */
  datatype Head<T> = Head(
    title: string, description: string, robotsNoindex: bool, canonical: Option<string>,
    ogTitle: string, ogType: string, ogImage: string, ogUrl: Option<string>, ogSiteName: string,
    twitterTitle: string, twitterImage: string, jsonLd: Option<seq<T>>)

  /** The head of a page: the document, Open Graph and Twitter titles agree, so do the two
      images, and the canonical link and the Open Graph URL are both present or both
      absent. */
  function SeoHead<T>(title: string, description: string, canonical: Option<string>,
                      ogImage: Option<string>, ogType: Option<string>,
                      jsonLd: Option<JsonLd<T>>, noindex: bool): (h: Head<T>)
    ensures h.title == h.ogTitle == h.twitterTitle == FullTitle(title)
    ensures h.ogImage == h.twitterImage == Image(ogImage)
    ensures h.canonical == h.ogUrl == CanonicalUrl(canonical)
    ensures h.robotsNoindex == noindex
    ensures h.ogType == (if ogType.Some? then ogType.value else "website")
    ensures h.jsonLd.Some? <==> jsonLd.Some?
    ensures h.jsonLd.Some? ==> h.jsonLd.value == JsonLdArray(jsonLd.value)
  {
    var fullTitle := FullTitle(title);
    var canonicalUrl := CanonicalUrl(canonical);
    var image := Image(ogImage);
    Head(fullTitle, description, noindex, canonicalUrl,
         fullTitle, if ogType.Some? then ogType.value else "website", image, canonicalUrl, SITE_NAME,
         fullTitle, image, if jsonLd.Some? then Some(JsonLdArray(jsonLd.value)) else None)
  }
}
