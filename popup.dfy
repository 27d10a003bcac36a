/**
 The popup window (popup.js): which of its six sections is visible, the
 captured-transcript banner and its dismiss guard, the language selector
 built from a video's caption tracks, the plain/timestamped text choice,
 and the download it assembles from the Export functions.

 DOM elements are modelled by the map `hidden` from element to whether it
 carries the `hidden` class; an element that is not a key is missing from
 the page.
 */
module Popup {
  import opened Options
  import Export
  import Background

  /** The transcript fields the popup reads. */
  datatype Transcript = Transcript(
    transcript: string,
    timestampedTranscript: string,
    language: string,
    isAutoGenerated: bool,
    wordCount: int)

  datatype CaptionTrack = CaptionTrack(name: string, languageCode: string, isAutoGenerated: bool)

  datatype VideoData = VideoData(title: string, videoId: string, hasTranscripts: bool, captionTracks: seq<CaptionTrack>)

  /** An `<option>` of the language selector: the track it selects (None for the placeholder) and its label. */
  datatype LanguageOption = LanguageOption(value: Option<CaptionTrack>, text: string)

  /** A file handed to the browser for download. */
  datatype Download = Download(filename: string, content: string)

  /**
   The page elements whose `hidden` class the popup toggles: the six
   sections (ids "loading", "error", "video-info", "no-transcripts",
   "results", "not-youtube"), the captured banner (id
   "transcript-captured-banner"), the tip notice (selector ".info-notice"),
   the language selection (id "language-selection"), and any other element
   by its id.
   */
  datatype Element =
    | Loading | Error | VideoInfo | NoTranscripts | Results | NotYoutube
    | Banner | InfoNotice | LanguageSelection
    | Other(id: string)

  /** The sections, in the order showSection visits them. */
  const Sections: seq<Element> := [Loading, Error, VideoInfo, NoTranscripts, Results, NotYoutube]
  const Placeholder := LanguageOption(None, "Select a language...")
  const AutoSuffix := "(Auto-generated)"
  const ManualSuffix := "(Manual)"

  /** The text shown and downloaded: timestamped in timestamp mode, plain otherwise. */
  function SelectedText(t: Transcript, timestampMode: bool): string {
    if timestampMode then t.timestampedTranscript else t.transcript
  }

  /** The label of a caption track's option: its name, a space, and its kind in parentheses. */
  function OptionLabel(track: CaptionTrack): (caption: string)
    ensures |caption| >= |track.name| + 1 && caption[..|track.name| + 1] == track.name + " "
    ensures track.isAutoGenerated <==> |caption| >= |AutoSuffix| && caption[|caption| - |AutoSuffix|..] == AutoSuffix
    ensures !track.isAutoGenerated ==> |caption| >= |ManualSuffix| && caption[|caption| - |ManualSuffix|..] == ManualSuffix
  {
    var suffix := if track.isAutoGenerated then AutoSuffix else ManualSuffix;
    var caption := track.name + " " + suffix;
    assert caption[..|track.name| + 1] == track.name + " ";
    assert caption[|caption| - |suffix|..] == suffix;
    assert !track.isAutoGenerated && |caption| >= |AutoSuffix| ==> caption[|caption| - 2] != AutoSuffix[|AutoSuffix| - 2];
    caption
  }

  /** The option for a caption track. */
  function TrackOption(track: CaptionTrack): LanguageOption {
    LanguageOption(Some(track), OptionLabel(track))
  }

  /** The selector lists the placeholder, then one option per track in order. */
  ghost predicate ListsTracks(options: seq<LanguageOption>, tracks: seq<CaptionTrack>) {
    && |options| == |tracks| + 1 && options[0] == Placeholder
    && forall j :: 0 <= j < |tracks| ==> options[j + 1] == TrackOption(tracks[j])
  }

  /** Of the six sections, exactly `shown` is visible where present. */
  ghost predicate OnlySection(hidden: map<Element, bool>, shown: Element) {
    forall k :: k in hidden && k in Sections ==> (hidden[k] <==> k != shown)
  }

  /** The sections among the six that are present and not hidden. */
  ghost function VisibleSections(hidden: map<Element, bool>): set<Element> {
    set k | k in Sections && k in hidden && !hidden[k]
  }

  /**
   After a section is shown, the visible sections are that one alone when it
   is one of the six and present, and none otherwise.
   */
  lemma OnlySectionVisible(hidden: map<Element, bool>, shown: Element)
    requires OnlySection(hidden, shown)
    ensures VisibleSections(hidden) == if shown in Sections && shown in hidden then {shown} else {}
  {
    if shown in Sections && shown in hidden {
      assert shown in VisibleSections(hidden);
    }
  }

  /** The banner is shown and the tip notice hidden, as far as each is present. */
  ghost predicate BannerRaised(hidden: map<Element, bool>, before: map<Element, bool>) {
    && hidden.Keys == before.Keys
    && (Banner in hidden ==> !hidden[Banner])
    && (InfoNotice in hidden ==> hidden[InfoNotice])
    && forall k :: k in hidden && k != Banner && k != InfoNotice ==> hidden[k] == before[k]
  }

  /** The banner is hidden and the tip notice shown, as far as each is present. */
  ghost predicate BannerDismissed(hidden: map<Element, bool>, before: map<Element, bool>) {
    && hidden.Keys == before.Keys
    && (Banner in hidden ==> hidden[Banner])
    && (InfoNotice in hidden ==> !hidden[InfoNotice])
    && forall k :: k in hidden && k != Banner && k != InfoNotice ==> hidden[k] == before[k]
  }

  class YouTubeTranscriptPopup {
    var hidden: map<Element, bool>
    var currentVideoData: Option<VideoData>
    var currentTranscript: Option<Transcript>
    var isTimestampMode: bool
    var hasCapturedTranscript: bool
    /** The `checked` state of the timestamp toggle. */
    var timestampToggleChecked: bool
    /** The value of the transcript textarea. */
    var transcriptText: string
    /** The `disabled` state of the extract button. */
    var extractDisabled: bool
    var languageOptions: seq<LanguageOption>
    /** The track the language selector's value stands for; None for the placeholder or no match. */
    var selectedLanguage: Option<CaptionTrack>
    var videoTitleText: string
    var videoIdText: string
    var languageInfo: string
    var typeInfo: string
    var wordCountInfo: string
    /** The actions of the runtime messages the popup has sent, in order. */
    var sentActions: seq<string>

    /** A popup over a page whose elements are `elements`, before any round-trip has answered. */
    constructor (elements: map<Element, bool>)
      ensures hidden == elements && sentActions == []
      ensures currentVideoData.None? && currentTranscript.None?
      ensures !isTimestampMode && !hasCapturedTranscript
    {
      hidden := elements;
      currentVideoData, currentTranscript := None, None;
      isTimestampMode, hasCapturedTranscript := false, false;
      timestampToggleChecked := false;
      transcriptText := "";
      extractDisabled := false;
      languageOptions, selectedLanguage := [], None;
      videoTitleText, videoIdText := "", "";
      languageInfo, typeInfo, wordCountInfo := "", "", "";
      sentActions := [];
    }

    /** Unhides the section `sectionId` and hides every other present section of the six. */
    method ShowSection(sectionId: Element)
      modifies this`hidden
      ensures hidden.Keys == old(hidden).Keys
      ensures OnlySection(hidden, sectionId)
      ensures forall k :: k in hidden && k !in Sections ==> hidden[k] == old(hidden)[k]
    {
      var i := 0;
      while i < |Sections|
        invariant 0 <= i <= |Sections|
        invariant hidden.Keys == old(hidden).Keys
        invariant forall k :: k in hidden && k in Sections[..i] ==> (hidden[k] <==> k != sectionId)
        invariant forall k :: k in hidden && k !in Sections[..i] ==> hidden[k] == old(hidden)[k]
      {
        var id := Sections[i];
        if id in hidden {
          hidden := hidden[id := id != sectionId];
        }
        i := i + 1;
      }
      assert Sections[..i] == Sections;
    }

    method ShowCapturedBanner()
      modifies this`hidden
      ensures BannerRaised(hidden, old(hidden))
    {
      if Banner in hidden {
        hidden := hidden[Banner := false];
      }
      if InfoNotice in hidden {
        hidden := hidden[InfoNotice := true];
      }
    }

    method HideCapturedBanner()
      modifies this`hidden
      ensures BannerDismissed(hidden, old(hidden))
    {
      if Banner in hidden {
        hidden := hidden[Banner := true];
      }
      if InfoNotice in hidden {
        hidden := hidden[InfoNotice := false];
      }
    }

    /**
     Sends one clear message and lowers the flag, only while the flag is up;
     a second call, or an unload after it, sends nothing more.
     */
    method DismissCapturedTranscript()
      modifies this`sentActions, this`hasCapturedTranscript, this`hidden
      ensures !hasCapturedTranscript
      ensures sentActions == old(sentActions) + if old(hasCapturedTranscript) then [Background.ClearCapturedTranscriptAction] else []
      ensures old(hasCapturedTranscript) ==> BannerDismissed(hidden, old(hidden))
      ensures !old(hasCapturedTranscript) ==> hidden == old(hidden)
    {
      if !hasCapturedTranscript {
        return;
      }
      sentActions := sentActions + [Background.ClearCapturedTranscriptAction];
      hasCapturedTranscript := false;
      HideCapturedBanner();
    }

    method HandlePopupUnload()
      modifies this`sentActions, this`hasCapturedTranscript, this`hidden
      ensures !hasCapturedTranscript
      ensures sentActions == old(sentActions) + if old(hasCapturedTranscript) then [Background.ClearCapturedTranscriptAction] else []
      ensures old(hasCapturedTranscript) ==> BannerDismissed(hidden, old(hidden))
      ensures !old(hasCapturedTranscript) ==> hidden == old(hidden)
    {
      if hasCapturedTranscript {
        DismissCapturedTranscript();
      }
    }

    /** Puts the selected text of the current transcript in the textarea; nothing without a transcript. */
    method UpdateTranscriptDisplay()
      modifies this`transcriptText
      ensures currentTranscript.Some? ==> transcriptText == SelectedText(currentTranscript.value, isTimestampMode)
      ensures currentTranscript.None? ==> transcriptText == old(transcriptText)
    {
      if currentTranscript.None? {
        return;
      }
      var t := currentTranscript.value;
      transcriptText := if isTimestampMode then t.timestampedTranscript else t.transcript;
    }

    /** The change handler of the timestamp toggle: after it, the textarea matches the toggle. */
    method OnTimestampToggle(checked: bool)
      modifies this`isTimestampMode, this`timestampToggleChecked, this`transcriptText
      ensures isTimestampMode == checked && timestampToggleChecked == checked
      ensures currentTranscript.Some? ==> transcriptText == SelectedText(currentTranscript.value, checked)
      ensures currentTranscript.None? ==> transcriptText == old(transcriptText)
    {
      timestampToggleChecked := checked;
      isTimestampMode := checked;
      UpdateTranscriptDisplay();
    }

    /** The change handler of the language selector: the extract button is enabled once a track is chosen. */
    method OnLanguageChange(value: Option<CaptionTrack>)
      modifies this`selectedLanguage, this`extractDisabled
      ensures selectedLanguage == value
      ensures extractDisabled <==> value.None?
    {
      selectedLanguage := value;
      extractDisabled := value.None?;
    }

    /**
     Fills the info badges from `data` and the textarea from the current
     transcript, then resets the toggle and shows the results section. The
     textarea is filled BEFORE the mode is reset, so it holds the text of the
     mode in force when the call began.
     */
    method DisplayTranscriptResults(data: Transcript)
      modifies this`languageInfo, this`typeInfo, this`wordCountInfo, this`transcriptText,
               this`timestampToggleChecked, this`isTimestampMode, this`hidden
      ensures languageInfo == data.language
      ensures typeInfo == Export.TypeLabel(data.isAutoGenerated)
      ensures wordCountInfo == Export.IntToDecimal(data.wordCount) + " words"
      ensures currentTranscript.Some? ==> transcriptText == SelectedText(currentTranscript.value, old(isTimestampMode))
      ensures currentTranscript.None? ==> transcriptText == old(transcriptText)
      ensures !isTimestampMode && !timestampToggleChecked
      ensures hidden.Keys == old(hidden).Keys
      ensures OnlySection(hidden, Results)
      ensures forall k :: k in hidden && k !in Sections ==> hidden[k] == old(hidden)[k]
    {
      languageInfo := data.language;
      typeInfo := if data.isAutoGenerated then "Auto-generated" else "Manual";
      wordCountInfo := Export.IntToDecimal(data.wordCount) + " words";
      UpdateTranscriptDisplay();
      timestampToggleChecked := false;
      isTimestampMode := false;
      ShowSection(Results);
    }

    /**
     The continuation of checkForCapturedTranscript once the background
     answered with a transcript: keep it, raise the flag, show the banner,
     and, when the active tab's video information also arrived, display it.
     */
    method ReceiveCapturedTranscript(found: Transcript, video: Option<VideoData>)
      modifies this`currentTranscript, this`hasCapturedTranscript, this`currentVideoData, this`hidden,
               this`languageInfo, this`typeInfo, this`wordCountInfo, this`transcriptText,
               this`timestampToggleChecked, this`isTimestampMode
      ensures currentTranscript == Some(found) && hasCapturedTranscript
      ensures hidden.Keys == old(hidden).Keys
      ensures Banner in hidden ==> !hidden[Banner]
      ensures InfoNotice in hidden ==> hidden[InfoNotice]
      ensures video.None? ==>
        && BannerRaised(hidden, old(hidden))
        && currentVideoData == old(currentVideoData)
        && languageInfo == old(languageInfo) && typeInfo == old(typeInfo) && wordCountInfo == old(wordCountInfo)
        && transcriptText == old(transcriptText)
        && isTimestampMode == old(isTimestampMode) && timestampToggleChecked == old(timestampToggleChecked)
      ensures video.Some? ==>
        && currentVideoData == video
        && OnlySection(hidden, Results)
        && (forall k :: k in hidden && k !in Sections && k != Banner && k != InfoNotice ==> hidden[k] == old(hidden)[k])
        && languageInfo == found.language
        && typeInfo == Export.TypeLabel(found.isAutoGenerated)
        && wordCountInfo == Export.IntToDecimal(found.wordCount) + " words"
        && transcriptText == SelectedText(found, old(isTimestampMode))
        && !isTimestampMode && !timestampToggleChecked
    {
      currentTranscript := Some(found);
      hasCapturedTranscript := true;
      ShowCapturedBanner();
      if video.Some? {
        currentVideoData := video;
        assert Banner !in Sections && InfoNotice !in Sections;
        DisplayTranscriptResults(found);
      }
    }

    /** The continuation of extractTranscript once the content script returned a transcript. */
    method ReceiveExtractedTranscript(data: Transcript)
      modifies this`currentTranscript, this`languageInfo, this`typeInfo, this`wordCountInfo, this`transcriptText,
               this`timestampToggleChecked, this`isTimestampMode, this`hidden
      ensures currentTranscript == Some(data)
      ensures languageInfo == data.language
      ensures typeInfo == Export.TypeLabel(data.isAutoGenerated)
      ensures wordCountInfo == Export.IntToDecimal(data.wordCount) + " words"
      ensures transcriptText == SelectedText(data, old(isTimestampMode))
      ensures !isTimestampMode && !timestampToggleChecked
      ensures hidden.Keys == old(hidden).Keys
      ensures OnlySection(hidden, Results)
      ensures forall k :: k in hidden && k !in Sections ==> hidden[k] == old(hidden)[k]
    {
      currentTranscript := Some(data);
      DisplayTranscriptResults(data);
    }

    /** Resets the selector to its placeholder and appends one option per caption track, in order. */
    method FillLanguageOptions(tracks: seq<CaptionTrack>)
      modifies this`languageOptions
      ensures ListsTracks(languageOptions, tracks)
    {
      languageOptions := [Placeholder];
      var i := 0;
      while i < |tracks|
        invariant 0 <= i <= |tracks|
        invariant ListsTracks(languageOptions, tracks[..i])
      {
        languageOptions := languageOptions + [TrackOption(tracks[i])];
        i := i + 1;
      }
      assert tracks[..i] == tracks;
    }

    /**
     Shows the video's title and id, then either the no-transcripts section,
     or the video-info section with one option per caption track after the
     placeholder. With several tracks the selector is shown and the extract
     button disabled until a choice; with one track it is chosen and the
     button enabled.
     */
    method DisplayVideoInfo(videoData: VideoData)
      requires videoData.hasTranscripts ==> LanguageSelection in hidden
      modifies this`videoTitleText, this`videoIdText, this`hidden, this`languageOptions,
               this`selectedLanguage, this`extractDisabled
      ensures videoTitleText == videoData.title && videoIdText == videoData.videoId
      ensures hidden.Keys == old(hidden).Keys
      ensures !videoData.hasTranscripts ==>
        && OnlySection(hidden, NoTranscripts)
        && (forall k :: k in hidden && k !in Sections ==> hidden[k] == old(hidden)[k])
        && languageOptions == old(languageOptions) && selectedLanguage == old(selectedLanguage)
        && extractDisabled == old(extractDisabled)
      ensures videoData.hasTranscripts ==> var tracks := videoData.captionTracks;
        && OnlySection(hidden, VideoInfo)
        && (forall k :: k in hidden && k !in Sections && k != LanguageSelection ==> hidden[k] == old(hidden)[k])
        && ListsTracks(languageOptions, tracks)
        && (extractDisabled <==> |tracks| > 1)
        && (hidden[LanguageSelection] <==> |tracks| <= 1)
        && selectedLanguage == (if |tracks| == 1 then Some(tracks[0]) else None)
    {
      videoTitleText := videoData.title;
      videoIdText := videoData.videoId;
      if !videoData.hasTranscripts {
        ShowSection(NoTranscripts);
        return;
      }
      var tracks := videoData.captionTracks;
      selectedLanguage := None;
      FillLanguageOptions(tracks);
      if |tracks| > 1 {
        hidden := hidden[LanguageSelection := false];
        extractDisabled := true;
      } else {
        hidden := hidden[LanguageSelection := true];
        selectedLanguage := if |tracks| == 1 then Some(tracks[0]) else None;
        extractDisabled := false;
      }
      ghost var before := hidden;
      assert LanguageSelection !in Sections;
      ShowSection(VideoInfo);
      assert hidden[LanguageSelection] == before[LanguageSelection];
    }

    /**
     The file the download button produces: nothing without both a current
     transcript and current video data; otherwise the metadata header over
     the selected text, under the safe file name.
     */
    method DownloadTranscript(extractedAt: string) returns (d: Option<Download>)
      ensures d.None? <==> currentTranscript.None? || currentVideoData.None?
      ensures d.Some? ==>
        var t, v := currentTranscript.value, currentVideoData.value;
        && d.value.filename == Export.DownloadFilename(v.title, v.videoId)
        && d.value.content == Export.FileContent(v.title, v.videoId, t.language, t.isAutoGenerated,
                                                 t.wordCount, extractedAt, SelectedText(t, isTimestampMode))
    {
      if currentTranscript.None? || currentVideoData.None? {
        return None;
      }
      var t, v := currentTranscript.value, currentVideoData.value;
      var text := if isTimestampMode then t.timestampedTranscript else t.transcript;
      var content := Export.FileContent(v.title, v.videoId, t.language, t.isAutoGenerated, t.wordCount, extractedAt, text);
      var filename := Export.DownloadFilename(v.title, v.videoId);
      d := Some(Download(filename, content));
    }
  }
}
