/**
 * The feed (src/screens/HomeScreen.tsx): every record of the store, under
 * a header that counts them.
 */
module HomeScreen {
  import opened Types
  import opened JsText

  /** What the screen shows: the header subtitle and the list. */
  datatype FeedView = FeedView(
    subtitle: string,
    items: seq<Video>,
    emptyState: bool,
    fullHeight: bool)

  /** `{videos.length} video{videos.length !== 1 ? 's' : ''} disponibili`. */
  function Subtitle(n: nat): string {
    DecimalString(n) + " video" + (if n != 1 then "s" else "") + " disponibili"
  }

  /**
   * The feed lists the store as it is; the empty state and the full-height
   * layout are used exactly when the store is empty.
   */
  function Render(videos: seq<Video>): (view: FeedView)
    ensures view.items == videos
    ensures view.emptyState <==> |videos| == 0
    ensures view.fullHeight <==> |videos| == 0
  {
    FeedView(Subtitle(|videos|), videos, |videos| == 0, |videos| == 0)
  }

  /** The header opens with the number of records in the store. */
  lemma HeaderCount(videos: seq<Video>)
    ensures LeadingNumber(Render(videos).subtitle) == |videos|
  {
    var n := |videos|;
    var rest := " video" + (if n != 1 then "s" else "") + " disponibili";
    assert Subtitle(n) == DecimalString(n) + rest;
    DigitPrefixOfNumeral(DecimalString(n), rest);
    DecimalRoundTrip(n);
  }

  /**
   * After the number comes the word "video", which carries an "s" exactly
   * when the number is not 1.
   */
  lemma HeaderPlural(videos: seq<Video>)
    ensures var s := Render(videos).subtitle;
            var p := |DigitPrefix(s)|;
            && p + 7 <= |s|
            && s[p..p + 6] == " video"
            && (s[p + 6] == 's' <==> |videos| != 1)
  {
    var n := |videos|;
    var d := DecimalString(n);
    var rest := " video" + (if n != 1 then "s" else "") + " disponibili";
    var s := Subtitle(n);
    assert s == d + rest;
    DigitPrefixOfNumeral(d, rest);
    assert s[|d|..] == rest;
    assert rest[..6] == " video";
    assert rest[6] == if n != 1 then 's' else ' ';
  }
}
