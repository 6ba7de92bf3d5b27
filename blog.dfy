/** The blog post page (AnticcaReale-main/src/pages/BlogDetailPage.tsx): the video embed
    address, the gallery of a rich-text post and the lightbox's navigation. */
module BlogDetail {
  import opened Types

  /** The characters of a YouTube video id, `[a-zA-Z0-9_-]`. */
  predicate IdChar(c: char)
  {
    'a' <= c <= 'z' || 'A' <= c <= 'Z' || '0' <= c <= '9' || c == '_' || c == '-'
  }

  predicate IsDigit(c: char) { '0' <= c <= '9' }

  /** The match of `(?:youtube\.com\/(?:watch\?v=|embed\/)|youtu\.be\/)([a-zA-Z0-9_-]{11})`
      starting at position `i`, as its captured id. The three prefixes differ, so at most
      one of them can start at a position. */
  function YoutubeAt(url: string, i: nat): Option<string>
    requires i <= |url|
  {
    var rest := url[i..];
    var k := if "youtube.com/watch?v=" <= rest then 20
             else if "youtube.com/embed/" <= rest then 18
             else if "youtu.be/" <= rest then 9
             else 0;
    if k > 0 && |rest| >= k + 11 && (forall j :: k <= j < k + 11 ==> IdChar(rest[j]))
    then Some(rest[k..k + 11])
    else None
  }

  /** The leftmost YouTube match at or after `i`. */
  function YoutubeSearch(url: string, i: nat): (r: Option<string>)
    requires i <= |url|
    ensures r.Some? ==> |r.value| == 11 && forall j :: 0 <= j < 11 ==> IdChar(r.value[j])
    decreases |url| - i
  {
    if YoutubeAt(url, i).Some? then YoutubeAt(url, i)
    else if i == |url| then None
    else YoutubeSearch(url, i + 1)
  }

  /** The longest run of digits at the start of `s` (`\d+` is greedy). */
  function DigitRun(s: string): (r: string)
    ensures r <= s
    ensures forall j :: 0 <= j < |r| ==> IsDigit(r[j])
    ensures |r| < |s| ==> !IsDigit(s[|r|])
  {
    if s != [] && IsDigit(s[0]) then [s[0]] + DigitRun(s[1..]) else []
  }

  /** The match of `vimeo\.com\/(\d+)` starting at `i`, as its captured digits. */
  function VimeoAt(url: string, i: nat): Option<string>
    requires i <= |url|
  {
    var rest := url[i..];
    if "vimeo.com/" <= rest && |rest| > 10 && IsDigit(rest[10]) then Some(DigitRun(rest[10..]))
    else None
  }

  function VimeoSearch(url: string, i: nat): (r: Option<string>)
    requires i <= |url|
    ensures r.Some? ==> r.value != [] && forall j :: 0 <= j < |r.value| ==> IsDigit(r.value[j])
    decreases |url| - i
  {
    if VimeoAt(url, i).Some? then VimeoAt(url, i)
    else if i == |url| then None
    else VimeoSearch(url, i + 1)
  }

  const YOUTUBE_EMBED: string := "https://www.youtube.com/embed/"
  const VIMEO_PLAYER: string := "https://player.vimeo.com/video/"

  /** `getVideoEmbedUrl`: a YouTube id becomes an embed address, else a Vimeo number a
      player address; any other address is kept. */
  function VideoEmbedUrl(url: string): string
  {
    var youtube := YoutubeSearch(url, 0);
    if youtube.Some? then YOUTUBE_EMBED + youtube.value
    else
      var vimeo := VimeoSearch(url, 0);
      if vimeo.Some? then VIMEO_PLAYER + vimeo.value
      else url
  }

  /** `getVideoEmbedUrl` keeps the address when neither pattern matches
      anywhere in it; otherwise the result is the embed address of the leftmost YouTube
      match, or failing one, the player address of the leftmost Vimeo match. */
  lemma VideoEmbedUrlContract(url: string)
    ensures (forall j :: 0 <= j <= |url| ==> YoutubeAt(url, j).None? && VimeoAt(url, j).None?) ==>
      VideoEmbedUrl(url) == url
    ensures forall j, id ::
      (0 <= j <= |url| && YoutubeAt(url, j) == Some(id)
       && (forall k :: 0 <= k < j ==> YoutubeAt(url, k).None?)) ==>
      VideoEmbedUrl(url) == YOUTUBE_EMBED + id
    ensures forall j, digits ::
      (0 <= j <= |url| && VimeoAt(url, j) == Some(digits)
       && (forall k :: 0 <= k <= |url| ==> YoutubeAt(url, k).None?)
       && (forall k :: 0 <= k < j ==> VimeoAt(url, k).None?)) ==>
      VideoEmbedUrl(url) == VIMEO_PLAYER + digits
  {
    forall j, id | 0 <= j <= |url| && YoutubeAt(url, j) == Some(id)
      && (forall k :: 0 <= k < j ==> YoutubeAt(url, k).None?)
      ensures YoutubeSearch(url, 0) == Some(id)
    {
      YoutubeLeftmost(url, 0, j);
    }
    forall j, digits | 0 <= j <= |url| && VimeoAt(url, j) == Some(digits)
      && (forall k :: 0 <= k < j ==> VimeoAt(url, k).None?)
      ensures VimeoSearch(url, 0) == Some(digits)
    {
      VimeoLeftmost(url, 0, j);
    }
    if forall j :: 0 <= j <= |url| ==> YoutubeAt(url, j).None? {
      YoutubeNone(url, 0);
    }
    if forall j :: 0 <= j <= |url| ==> VimeoAt(url, j).None? {
      VimeoNone(url, 0);
    }
  }

  /** The search returns the first match at or after `i`. */
  lemma {:induction false} YoutubeLeftmost(url: string, i: nat, j: nat)
    requires i <= j <= |url| && YoutubeAt(url, j).Some?
    requires forall k :: i <= k < j ==> YoutubeAt(url, k).None?
    ensures YoutubeSearch(url, i) == YoutubeAt(url, j)
    decreases j - i
  {
    if i < j {
      YoutubeLeftmost(url, i + 1, j);
    }
  }

  lemma {:induction false} YoutubeNone(url: string, i: nat)
    requires i <= |url|
    requires forall k :: i <= k <= |url| ==> YoutubeAt(url, k).None?
    ensures YoutubeSearch(url, i).None?
    decreases |url| - i
  {
    if i < |url| {
      YoutubeNone(url, i + 1);
    }
  }

  lemma {:induction false} VimeoLeftmost(url: string, i: nat, j: nat)
    requires i <= j <= |url| && VimeoAt(url, j).Some?
    requires forall k :: i <= k < j ==> VimeoAt(url, k).None?
    ensures VimeoSearch(url, i) == VimeoAt(url, j)
    decreases j - i
  {
    if i < j {
      VimeoLeftmost(url, i + 1, j);
    }
  }

  lemma {:induction false} VimeoNone(url: string, i: nat)
    requires i <= |url|
    requires forall k :: i <= k <= |url| ==> VimeoAt(url, k).None?
    ensures VimeoSearch(url, i).None?
    decreases |url| - i
  {
    if i < |url| {
      VimeoNone(url, i + 1);
    }
  }

  /** `galleryImages`: a rich-text post's images; none for a video post. */
  function GalleryImages(post: BlogPost): (r: seq<string>)
    ensures IsVideoBlogPost(post) ==> r == []
    ensures IsRichTextBlogPost(post) ==> r == post.galleryImages
  {
    if IsRichTextBlogPost(post) then post.galleryImages else []
  }

  /** JavaScript's `%`: the remainder takes the sign of the dividend. */
  function JsRem(a: int, n: int): int
    requires n != 0
  {
    if a >= 0 then a % n else -((-a) % n)
  }

  datatype Direction = Prev | Next

  /** The index `navigateImage` moves to in a gallery of `n` images. */
  function NavigatedIndex(i: int, n: int, direction: Direction): int
    requires n != 0
  {
    if direction == Prev then JsRem(i - 1 + n, n) else JsRem(i + 1, n)
  }

  lemma RemBelow(a: int, n: int)
    requires 0 <= a < n
    ensures a % n == a
  {
  }

  lemma RemOneLap(a: int, n: int)
    requires 0 < n <= a < 2 * n
    ensures a % n == a - n
  {
    assert a == n * 1 + (a - n);
  }

  /** From a shown image, both buttons stay within the gallery, wrapping at the ends. */
  lemma NavigationWraps(i: int, n: int)
    requires 0 <= i < n
    ensures NavigatedIndex(i, n, Prev) == (if i == 0 then n - 1 else i - 1)
    ensures NavigatedIndex(i, n, Next) == (if i == n - 1 then 0 else i + 1)
  {
    if i == 0 { RemBelow(n - 1, n); } else { RemOneLap(i - 1 + n, n); }
    if i == n - 1 { RemOneLap(n, n); } else { RemBelow(i + 1, n); }
  }

  /** Each button undoes the other. */
  lemma NavigationInverse(i: int, n: int)
    requires 0 <= i < n
    ensures NavigatedIndex(NavigatedIndex(i, n, Next), n, Prev) == i
    ensures NavigatedIndex(NavigatedIndex(i, n, Prev), n, Next) == i
  {
    NavigationWraps(i, n);
    NavigationWraps(NavigatedIndex(i, n, Next), n);
    NavigationWraps(NavigatedIndex(i, n, Prev), n);
  }

  /** The lightbox's selected image. */
  class Lightbox {
    var selectedImageIndex: Option<int>

    constructor ()
      ensures selectedImageIndex == None
    {
      selectedImageIndex := None;
    }

    method OpenLightbox(index: int)
      modifies this
      ensures selectedImageIndex == Some(index)
    {
      selectedImageIndex := Some(index);
    }

    method CloseLightbox()
      modifies this
      ensures selectedImageIndex == None
    {
      selectedImageIndex := None;
    }

    /** `navigateImage`: nothing happens when no image is open or the gallery is empty. */
    method NavigateImage(galleryImages: seq<string>, direction: Direction)
      modifies this
      ensures old(selectedImageIndex).None? || |galleryImages| == 0 ==>
        selectedImageIndex == old(selectedImageIndex)
      ensures old(selectedImageIndex).Some? && |galleryImages| > 0 ==>
        selectedImageIndex == Some(NavigatedIndex(old(selectedImageIndex).value, |galleryImages|, direction))
      ensures old(selectedImageIndex).Some? && 0 <= old(selectedImageIndex).value < |galleryImages| ==>
        selectedImageIndex.Some? && 0 <= selectedImageIndex.value < |galleryImages|
    {
      if selectedImageIndex.None? || |galleryImages| == 0 {
        return;
      }
      var i := selectedImageIndex.value;
      var n := |galleryImages|;
      if 0 <= i < n {
        NavigationWraps(i, n);
      }
      var newIndex := if direction == Prev then JsRem(i - 1 + n, n) else JsRem(i + 1, n);
      selectedImageIndex := Some(newIndex);
    }
  }
}
