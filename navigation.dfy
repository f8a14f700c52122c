/**
 * Which navigations the embedded web view performs itself. Every navigation
 * the web view is about to start is put to this policy: iOS transcript
 * downloads are taken out of the web view, URLs outside the widget's own
 * pages go to the platform's URL opener, and only the widget's own pages
 * load inline.
 */
module Navigation {
  import opened Text
  import opened Effects

  /** `Platform.OS`, the platform the component runs on. */
  datatype Platform = IOS | Android | Other

  /** URL fragments that mark a page of the widget itself. */
  const AllowedUrls: seq<string> :=
    ["embed.html", "ada-instance-id", "embed2", "ada.support/embed/", "ada-dev2.support/embed/"]

  /** The URL fragment of a chat-transcript download. */
  const TranscriptPath: string := "transcript/txt"

  /** `shouldOpenInline`: the URL contains one of the allow-listed fragments. */
  function ShouldOpenInline(url: string): (r: bool)
    ensures r <==> || Includes(url, "embed.html")
                   || Includes(url, "ada-instance-id")
                   || Includes(url, "embed2")
                   || Includes(url, "ada.support/embed/")
                   || Includes(url, "ada-dev2.support/embed/")
  {
    assert AllowedUrls[0] == "embed.html" && AllowedUrls[1] == "ada-instance-id"
        && AllowedUrls[2] == "embed2" && AllowedUrls[3] == "ada.support/embed/"
        && AllowedUrls[4] == "ada-dev2.support/embed/";
    SomeIncluded(url, AllowedUrls)
  }

  /** A transcript download requested on iOS, which the web view cannot perform. */
  predicate IsIOSTranscript(url: string, os: Platform): (r: bool)
    ensures r <==> os == IOS && exists i :: OccursAt(url, TranscriptPath, i)
  {
    Includes(url, TranscriptPath) && os == IOS
  }

  /**
   * What the navigation callback answers (`navigate`: whether the web view
   * loads the URL itself) and the effects it has on the way.
   */
  datatype Decision = Decision(navigate: bool, effects: seq<Effect>)

  /**
   * `onShouldStartLoadWithRequest`: the web view loads the URL itself
   * exactly when it is one of the widget's pages and not an iOS transcript
   * download; every URL it refuses is handed on, never dropped, and no URL
   * is handed to more than one place.
   */
  function OnShouldStartLoadWithRequest(url: string, os: Platform): (d: Decision)
    ensures d.navigate <==> ShouldOpenInline(url) && !IsIOSTranscript(url, os)
    ensures d.navigate <==> d.effects == []
    ensures IsIOSTranscript(url, os) ==> d.effects == [DownloadTranscript(url)]
    ensures !IsIOSTranscript(url, os) && !ShouldOpenInline(url) ==> d.effects == [OpenUrl(url)]
  {
    if IsIOSTranscript(url, os) then
      Decision(false, [DownloadTranscript(url)])
    else if !ShouldOpenInline(url) then
      Decision(false, [OpenUrl(url)])
    else
      Decision(true, [])
  }

  /** The transcript download only ever starts on iOS. */
  lemma DownloadOnlyOnIOS(url: string, os: Platform)
    ensures DownloadTranscript(url) in OnShouldStartLoadWithRequest(url, os).effects ==> os == IOS
  {
  }

  /**
   * A URL that contains `embed.html` loads inline, on every platform, unless
   * it is an iOS transcript download.
   */
  lemma {:induction false} EmbedPageLoadsInline(url: string, os: Platform, i: nat)
    requires OccursAt(url, "embed.html", i)
    requires !IsIOSTranscript(url, os)
    ensures OnShouldStartLoadWithRequest(url, os) == Decision(true, [])
  {
    assert Includes(url, "embed.html");
  }

  /**
   * On iOS the transcript rule comes first: an allow-listed transcript URL,
   * such as `https://ada.support/embed/transcript/txt`, is still kept out of
   * the web view, while on Android it loads inline.
   */
  lemma TranscriptBeforeAllowList(scheme: string)
    ensures var url := scheme + "ada.support/embed/" + TranscriptPath;
            ShouldOpenInline(url)
            && OnShouldStartLoadWithRequest(url, IOS) == Decision(false, [DownloadTranscript(url)])
            && OnShouldStartLoadWithRequest(url, Android) == Decision(true, [])
  {
    var page := "ada.support/embed/";
    var url := scheme + page + TranscriptPath;
    assert url[|scheme|..|scheme| + |page|] == page;
    assert OccursAt(url, page, |scheme|);
    assert url[|scheme + page|..|url|] == TranscriptPath;
    assert OccursAt(url, TranscriptPath, |scheme + page|);
  }

  /** A URL with none of the allow-listed fragments goes to the platform's URL opener. */
  lemma ForeignUrlOpensExternally(url: string, os: Platform)
    requires forall k :: 0 <= k < |AllowedUrls| ==> !Includes(url, AllowedUrls[k])
    requires !IsIOSTranscript(url, os)
    ensures OnShouldStartLoadWithRequest(url, os) == Decision(false, [OpenUrl(url)])
  {
  }
}
