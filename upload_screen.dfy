/**
 * The upload form (src/screens/UploadScreen.tsx): four state cells, the
 * handlers that set them, the validity flag that enables the button, and
 * the guarded `upload` that builds a record and hands it to the store.
 */
module UploadScreen {
  import opened Types
  import opened JsText
  import VideoContext

  /** The sharing groups offered as buttons, in display order. */
  const Groups: seq<string> := ["Amici", "Famiglia", "Colleghi", "Pubblico", "Lavoro"]

  /** The thumbnail URL is this prefix followed by a clock reading. */
  const ThumbnailPrefix: string := "https://picsum.photos/400/200?random="

  /** JavaScript truthiness of a `string | null` cell: null and "" are both falsy. */
  predicate Truthy(s: Option<string>) {
    s.Some? && s.value != ""
  }

  /** The record `upload` builds from the form cells and two clock readings. */
  predicate BuiltFrom(v: Video, uri: string, title: string, description: string, group: string,
                      nowForId: nat, nowForThumbnail: nat)
  {
    && v.id == DecimalString(nowForId)
    && v.title == Trim(title)
    && v.description == Trim(description)
    && v.uri == uri
    && v.group == group
    && v.uploader == DemoUser
    && v.thumbnail == Some(ThumbnailPrefix + DecimalString(nowForThumbnail))
  }

  class UploadForm {
    var videoUri: Option<string>
    var title: string
    var description: string
    var selectedGroup: Option<string>
    /** The context value `useVideoContext()` returned. */
    const store: VideoContext.VideoStore

    /** A selected group is always one of the offered buttons. */
    ghost predicate Valid()
      reads this
    {
      selectedGroup.Some? ==> selectedGroup.value in Groups
    }

    constructor (store: VideoContext.VideoStore)
      ensures Valid() && this.store == store
      ensures videoUri == None && title == "" && description == "" && selectedGroup == None
    {
      this.store := store;
      videoUri := None;
      title := "";
      description := "";
      selectedGroup := None;
    }

    /**
     * What `pickVideo` does with the answers of the permission request and of
     * the picker: only a granted, not cancelled pick replaces `videoUri`.
     */
    method PickVideo(granted: bool, canceled: bool, assetUri: string)
      requires Valid()
      modifies this
      ensures Valid()
      ensures videoUri == if granted && !canceled then Some(assetUri) else old(videoUri)
      ensures title == old(title) && description == old(description)
      ensures selectedGroup == old(selectedGroup)
    {
      if !granted {
        return;
      }
      if !canceled {
        videoUri := Some(assetUri);
      }
    }

    /** `onChangeText` of the title input. */
    method SetTitle(s: string)
      requires Valid()
      modifies this
      ensures Valid()
      ensures title == s
      ensures videoUri == old(videoUri) && description == old(description)
      ensures selectedGroup == old(selectedGroup)
    {
      title := s;
    }

    /** `onChangeText` of the description input. */
    method SetDescription(s: string)
      requires Valid()
      modifies this
      ensures Valid()
      ensures description == s
      ensures videoUri == old(videoUri) && title == old(title)
      ensures selectedGroup == old(selectedGroup)
    {
      description := s;
    }

    /** Pressing the button of group `g`; only the five buttons exist. */
    method SelectGroup(g: string)
      requires Valid() && g in Groups
      modifies this
      ensures Valid()
      ensures selectedGroup == Some(g)
      ensures videoUri == old(videoUri) && title == old(title) && description == old(description)
    {
      selectedGroup := Some(g);
    }

    method ResetForm()
      requires Valid()
      modifies this
      ensures Valid()
      ensures videoUri == None && title == "" && description == "" && selectedGroup == None
    {
      videoUri := None;
      title := "";
      description := "";
      selectedGroup := None;
    }

    /**
     * `isFormValid`, which enables the upload button: a picked video, a title
     * and a description with a non-whitespace character, and a group.
     */
    function IsFormValid(): (ok: bool)
      reads this
      ensures ok <==> && Truthy(videoUri) && !AllWhitespace(title)
                      && !AllWhitespace(description) && Truthy(selectedGroup)
      ensures Valid() ==> (ok <==> && videoUri.Some? && videoUri.value != ""
                                   && !AllWhitespace(title) && !AllWhitespace(description)
                                   && selectedGroup.Some?)
    {
      Truthy(videoUri) && Trim(title) != "" && Trim(description) != "" && Truthy(selectedGroup)
    }

    /**
     * `upload`, with the two `Date.now()` readings as parameters. It accepts
     * exactly when the form is valid. A rejection changes nothing; an
     * acceptance hands one record built from the trimmed fields to the store
     * and resets the form, so that an immediate second upload is rejected.
     */
    method Upload(nowForId: nat, nowForThumbnail: nat) returns (accepted: bool)
      requires Valid()
      modifies this, store
      ensures Valid()
      ensures accepted == old(IsFormValid())
      ensures !accepted ==> && videoUri == old(videoUri) && title == old(title)
                            && description == old(description)
                            && selectedGroup == old(selectedGroup)
                            && store.videos == old(store.videos)
      ensures accepted ==> videoUri == None && title == "" && description == "" && selectedGroup == None
      ensures accepted ==> !IsFormValid()
      ensures accepted && store.provided ==>
                && |store.videos| == |old(store.videos)| + 1
                && store.videos[..|old(store.videos)|] == old(store.videos)
                && old(videoUri).Some? && old(selectedGroup).Some?
                && BuiltFrom(store.videos[|old(store.videos)|], old(videoUri).value, old(title),
                             old(description), old(selectedGroup).value, nowForId, nowForThumbnail)
      ensures accepted && !store.provided ==> store.videos == old(store.videos)
    {
      if !Truthy(videoUri) || Trim(title) == "" || Trim(description) == "" || !Truthy(selectedGroup) {
        return false;
      }
      var newVideo := Video(
        DecimalString(nowForId),
        Trim(title),
        Trim(description),
        videoUri.value,
        selectedGroup.value,
        DemoUser,
        Some(ThumbnailPrefix + DecimalString(nowForThumbnail)));
      store.AddVideo(newVideo);
      ResetForm();
      accepted := true;
    }
  }
}
