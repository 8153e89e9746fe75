/**
 * The profile screen (src/screens/ProfileScreen.tsx): the store filtered
 * to the demo user's own uploads, the "Video" stat, the subtitle and the
 * empty state.
 */
module ProfileScreen {
  import opened Types
  import opened JsText

  /**
   * `videos.filter(video => video.uploader === 'Luca Rossi')`: the demo
   * user's records, and all of them, in store order.
   */
  function UserVideos(videos: seq<Video>): (r: seq<Video>)
    ensures |r| <= |videos|
    ensures forall i :: 0 <= i < |r| ==> r[i].uploader == DemoUser
    ensures forall v :: v in r <==> v in videos && v.uploader == DemoUser
  {
    if videos == [] then []
    else (if videos[0].uploader == DemoUser then [videos[0]] else []) + UserVideos(videos[1..])
  }

  /**
   * Filtering keeps order: the filter of a concatenation is the concatenation
   * of the filters, so records keep their relative positions.
   */
  lemma {:induction false} UserVideosDistributes(a: seq<Video>, b: seq<Video>)
    ensures UserVideos(a + b) == UserVideos(a) + UserVideos(b)
  {
    if a == [] {
      assert a + b == b;
    } else {
      var head := if a[0].uploader == DemoUser then [a[0]] else [];
      assert (a + b)[0] == a[0];
      assert (a + b)[1..] == a[1..] + b;
      UserVideosDistributes(a[1..], b);
      assert head + (UserVideos(a[1..]) + UserVideos(b)) == (head + UserVideos(a[1..])) + UserVideos(b);
    }
  }

  /** A record uploaded by the demo user is listed last on the profile, and nothing else moves. */
  lemma UploadedVideoListed(videos: seq<Video>, v: Video)
    requires v.uploader == DemoUser
    ensures UserVideos(videos + [v]) == UserVideos(videos) + [v]
  {
    UserVideosDistributes(videos, [v]);
    assert [v][1..] == [];
  }

  /** What the screen shows: the stat, the optional subtitle and the list. */
  datatype ProfileView = ProfileView(
    videoStat: nat,
    subtitle: Option<string>,
    items: seq<Video>,
    emptyState: bool,
    fullHeight: bool)

  /**
   * The stat counts the listed records; the "N video caricati" subtitle
   * appears exactly when the demo user has a record in the store, and the
   * empty state with the full-height layout exactly when it has none.
   */
  function Render(videos: seq<Video>): (view: ProfileView)
    ensures view.items == UserVideos(videos)
    ensures view.videoStat == |view.items|
    ensures view.subtitle.Some? <==> exists i :: 0 <= i < |videos| && videos[i].uploader == DemoUser
    ensures view.subtitle.Some? ==> LeadingNumber(view.subtitle.value) == view.videoStat
    ensures view.emptyState <==> forall i :: 0 <= i < |videos| ==> videos[i].uploader != DemoUser
    ensures view.fullHeight == view.emptyState
  {
    var userVideos := UserVideos(videos);
    var n := |userVideos|;
    assert n > 0 ==> userVideos[0] in videos;
    assert forall i :: 0 <= i < |videos| && videos[i].uploader == DemoUser ==> videos[i] in userVideos;
    DigitPrefixOfNumeral(DecimalString(n), " video caricati");
    DecimalRoundTrip(n);
    ProfileView(
      n,
      if n > 0 then Some(DecimalString(n) + " video caricati") else None,
      userVideos,
      n == 0,
      n == 0)
  }
}
