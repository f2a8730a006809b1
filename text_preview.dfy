/**
 * The preview text under a post title: the text extracted from the post's
 * HTML, cut to `maxLength` characters with "..." appended when longer.
 * Parsing the HTML belongs to the browser and is not modelled: the
 * `textContent` and `innerText` the browser reports are inputs here.
 *
 * A JavaScript string is a sequence of UTF-16 code units, and `length` and
 * `slice` count code units, so the preview is modelled on code units: a
 * character outside the Basic Multilingual Plane (an emoji) counts twice,
 * and a cut may fall between the two halves of its surrogate pair.
 */
module TextPreview {

  /** One UTF-16 code unit. */
  newtype CodeUnit = x: int | 0 <= x < 0x1_0000

  /** A JavaScript string value. */
  type JsText = seq<CodeUnit>

  const DefaultMaxLength: nat := 60

  /** "...", three FULL STOP code units. */
  const Ellipsis: JsText := [0x2E, 0x2E, 0x2E]

  /** The UTF-16 form of one character: itself, or a high and a low surrogate. */
  function EncodeChar(c: char): (r: JsText)
    ensures |r| == if c as int < 0x1_0000 then 1 else 2
  {
    var n := c as int;
    if n < 0x1_0000 then [n as CodeUnit]
    else
      var m := n - 0x1_0000;
      [(0xD800 + m / 0x400) as CodeUnit, (0xDC00 + m % 0x400) as CodeUnit]
  }

  /** The UTF-16 form of a string of characters, as a JavaScript engine stores it. */
  function Utf16(s: string): (r: JsText)
    ensures |r| >= |s|
    decreases |s|
  {
    if s == [] then [] else EncodeChar(s[0]) + Utf16(s[1..])
  }

  /** Characters outside the Basic Multilingual Plane take two code units each. */
  lemma {:induction false} Utf16Astral(s: string)
    requires forall i :: 0 <= i < |s| ==> s[i] as int >= 0x1_0000
    ensures |Utf16(s)| == 2 * |s|
    decreases |s|
  {
    if s != [] {
      Utf16Astral(s[1..]);
    }
  }

  /** `text.length > maxLength ? text.slice(0, maxLength) + "..." : text`. */
  function Truncate(text: JsText, maxLength: nat): (r: JsText)
    // short text is shown as it is
    ensures |text| <= maxLength ==> r == text
    // long text keeps its first maxLength code units and ends in the ellipsis
    ensures |text| > maxLength ==> |r| == maxLength + |Ellipsis| && r[..maxLength] == text[..maxLength] && r[maxLength..] == Ellipsis
    // either way it starts like the text and is at most three code units longer than the limit
    ensures |r| <= maxLength + |Ellipsis|
    ensures var n := if |text| < maxLength then |text| else maxLength; |r| >= n && r[..n] == text[..n]
  {
    if |text| > maxLength then text[..maxLength] + Ellipsis else text
  }

  /**
   * Thirty-one emoji are 62 code units, so at the default limit they are
   * cut after the thirtieth and the ellipsis is appended.
   */
  lemma EmojiTextIsCut()
    ensures var text := Utf16(seq(31, _ => '\U{1F464}'));
      |text| == 62 && Truncate(text, DefaultMaxLength) == text[..60] + Ellipsis
  {
    var s := seq(31, _ => '\U{1F464}');
    Utf16Astral(s);
  }

  /** `temp.textContent || temp.innerText || ""`: the first non-empty of the two, else empty. */
  function ExtractedText(textContent: JsText, innerText: JsText): (r: JsText)
    ensures r == [] <==> textContent == [] && innerText == []
    ensures r == textContent || r == innerText
    ensures textContent != [] ==> r == textContent
  {
    if textContent != [] then textContent else innerText
  }

  /** `extractTextFromHTML(html, maxLength)`, given what the browser extracted from `html`. */
  function ExtractTextFromHtml(textContent: JsText, innerText: JsText, maxLength: nat): (r: JsText)
    ensures |r| <= maxLength + |Ellipsis|
    ensures r == [] <==> textContent == [] && innerText == []
  {
    Truncate(ExtractedText(textContent, innerText), maxLength)
  }

  /** With the default limit the preview is at most 63 code units long. */
  lemma DefaultPreviewBound(text: JsText)
    ensures |Truncate(text, DefaultMaxLength)| <= 63
  {
  }

  /** Cutting a preview again gives the same preview. */
  lemma TruncateIdempotent(text: JsText, maxLength: nat)
    ensures Truncate(Truncate(text, maxLength), maxLength) == Truncate(text, maxLength)
  {
  }
}
