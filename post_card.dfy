/**
 * One post in the board list: its thumbnail (with a fallback that takes
 * over for good once the image fails to load), its author's picture and
 * its text preview.
 */
module PostCard {

  import opened Opt
  import opened JsStrings
  import opened TextPreview

  const FallbackThumbnail := "https://via.placeholder.com/300x180?text=No+Image"
  const FallbackProfile := "https://placehold.co/40x40?text=👤"

  /** `!imgError && post.thumbnail ? post.thumbnail : fallbackThumbnail`. */
  function ThumbnailSrc(imgError: bool, thumbnail: Option<string>): (r: string)
    ensures r != ""
    ensures !imgError && OptTruthy(thumbnail) ==> r == thumbnail.value
    ensures imgError || !OptTruthy(thumbnail) ==> r == FallbackThumbnail
  {
    if !imgError && OptTruthy(thumbnail) then thumbnail.value else FallbackThumbnail
  }

  /** `post.authorImage || fallbackProfile`. */
  function ProfileSrc(authorImage: Option<string>): (r: string)
    ensures r != ""
    ensures OptTruthy(authorImage) ==> r == authorImage.value
    ensures !OptTruthy(authorImage) ==> r == FallbackProfile
  {
    if OptTruthy(authorImage) then authorImage.value else FallbackProfile
  }

  /**
   * The preview paragraph: present only for a post with content, and then
   * the extracted text cut at the default limit. `textContent` and
   * `innerText` are what the browser extracts from `content`.
   */
  function Preview(content: Option<string>, textContent: JsText, innerText: JsText): (r: Option<JsText>)
    ensures r.Some? <==> OptTruthy(content)
    ensures r.Some? ==> |r.value| <= DefaultMaxLength + |Ellipsis|
    ensures r.Some? && |ExtractedText(textContent, innerText)| <= DefaultMaxLength ==> r.value == ExtractedText(textContent, innerText)
  {
    if OptTruthy(content) then Some(ExtractTextFromHtml(textContent, innerText, DefaultMaxLength)) else None
  }

  /**
   * The card's one piece of state: whether its thumbnail failed to load.
   * Only `OnError` writes `imgError`, and it sets it, so once set it stays
   * set and the card shows the fallback from then on.
   */
  class CardImage {
    const thumbnail: Option<string>
    var imgError: bool

    constructor (thumbnail: Option<string>)
      ensures this.thumbnail == thumbnail && !imgError
    {
      this.thumbnail := thumbnail;
      imgError := false;
    }

    function Src(): string
      reads this
    {
      ThumbnailSrc(imgError, thumbnail)
    }

    /** `onError`: the flag is set and nothing ever clears it, so the fallback stays. */
    method OnError()
      modifies this`imgError
      ensures imgError && Src() == FallbackThumbnail
      // a second error changes nothing
      ensures old(imgError) ==> Src() == old(Src())
    {
      imgError := true;
    }
  }

  /** Once the image failed, the source is the fallback whatever the thumbnail. */
  lemma ErrorMeansFallback(thumbnail: Option<string>)
    ensures ThumbnailSrc(true, thumbnail) == FallbackThumbnail
  {
  }
}
