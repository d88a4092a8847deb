/** The tool detail panel (`tool-info-display.component.ts`): the demo-video
    player's state flags, the per-tool video lookup, `formatTime`,
    `darkenColor` (with the `#rrggbb` parsing it relies on), the category
    icons and the emits of the visit and share buttons. */
module ToolInfoDisplay {
  import opened Js
  import opened Digits

  /** `ToolInfo` */
  datatype ToolInfo = ToolInfo(
    name: string, description: string, url: Option<string>, category: string,
    categoryColor: string, popularity: int, demoVideo: Option<string>)

  /** `CategoryInfo` */
  datatype CategoryInfo = CategoryInfo(name: string, description: string, color: string, tools: seq<ToolInfo>)

  // ---------------------------------------------------------------- video lookup

  datatype VideoEntry = VideoEntry(url: string, duration: string)

  const SampleVideo1: string := "https://sample-videos.com/zip/10/mp4/SampleVideo_1280x720_1mb.mp4"
  const SampleVideo2: string := "https://sample-videos.com/zip/10/mp4/SampleVideo_1280x720_2mb.mp4"
  const SampleVideo5: string := "https://sample-videos.com/zip/10/mp4/SampleVideo_1280x720_5mb.mp4"

  /** `videoDatabase`: eight tools and the `'default'` entry. */
  const VideoDatabase: map<string, VideoEntry> := map[
    "ChatGPT" := VideoEntry(SampleVideo1, "1:30"),
    "DALL\U{00B7}E" := VideoEntry(SampleVideo2, "2:15"),
    "GitHub Copilot" := VideoEntry(SampleVideo5, "3:45"),
    "Midjourney" := VideoEntry(SampleVideo1, "2:30"),
    "Claude" := VideoEntry(SampleVideo2, "2:00"),
    "Stable Diffusion" := VideoEntry(SampleVideo5, "4:20"),
    "ElevenLabs" := VideoEntry(SampleVideo1, "1:45"),
    "Runway ML" := VideoEntry(SampleVideo2, "3:10"),
    "default" := VideoEntry(SampleVideo1, "2:30")]

  /** `videoDatabase[name] || videoDatabase['default']` */
  function VideoFor(name: string): (v: VideoEntry)
    ensures name in VideoDatabase ==> v == VideoDatabase[name]
    ensures name !in VideoDatabase ==> v == VideoEntry(SampleVideo1, "2:30")
  {
    if name in VideoDatabase then VideoDatabase[name] else VideoDatabase["default"]
  }

  /** Only the eight listed tools have a video of their own; every other
      name, `'default'` included, gets the default one. */
  lemma VideoForListed(name: string)
    ensures name in VideoDatabase && name != "default" <==>
            name in {"ChatGPT", "DALL\U{00B7}E", "GitHub Copilot", "Midjourney", "Claude",
                     "Stable Diffusion", "ElevenLabs", "Runway ML"}
    ensures VideoFor(name).url in {SampleVideo1, SampleVideo2, SampleVideo5}
    ensures VideoFor(name).duration != ""
  {
  }

  // ---------------------------------------------------------------- formatTime

  /** `formatTime(seconds)`: `"0:00"` for NaN, else the floored minutes, a
      colon and the floored remainder padded to two digits. */
  function FormatTime(seconds: Num): (r: string)
    ensures seconds.NaN? ==> r == "0:00"
    ensures seconds.Val? ==> ':' in r
  {
    match seconds
    case NaN => "0:00"
    case Val(s) =>
      IntToString(Floor(s / 60.0), 10) + ":" + PadStart2(IntToString(Floor(RealRem(s, 60.0)), 10))
  }

  lemma FloorShift(x: real, k: int)
    ensures Floor(x - k as real) == Floor(x) - k
  {
  }

  /** The whole minutes of a non-negative time, and the whole seconds left over. */
  lemma MinutesAndSeconds(s: real, m: int, sec: int)
    requires s >= 0.0 && m == Floor(s / 60.0) && sec == Floor(s) - 60 * m
    ensures m >= 0 && 0 <= sec < 60
    ensures Floor(RealRem(s, 60.0)) == sec
  {
    assert m as real <= s / 60.0 < m as real + 1.0;
    assert 60.0 * m as real <= s < 60.0 * m as real + 60.0;
    assert Trunc(s / 60.0) == m;
    assert RealRem(s, 60.0) == s - (60 * m) as real;
    FloorShift(s, 60 * m);
  }

  /** For a time of zero or more seconds: the minutes are the whole minutes,
      and the seconds field is the two digits of the remaining 0..59 seconds. */
  lemma FormatTimeNonNegative(s: real, m: int, sec: int)
    requires s >= 0.0 && m == Floor(s / 60.0) && sec == Floor(s) - 60 * m
    ensures m >= 0 && 0 <= sec < 60
    ensures FormatTime(Val(s)) == IntToString(m, 10) + ":" + [DigitChar(sec / 10), DigitChar(sec % 10)]
  {
    MinutesAndSeconds(s, m, sec);
    PadTwoDigits(sec, 10);
    var pad := PadStart2(IntToString(sec, 10));
    assert pad == [DigitChar(sec / 10), DigitChar(sec % 10)];
    assert Floor(RealRem(s, 60.0)) == sec;
    assert FormatTime(Val(s)) == IntToString(m, 10) + ":" + pad;
  }

  // ---------------------------------------------------------------- darkenColor

  /** One channel of `darkenColor`: parse two hex digits, scale by
      `(100 - percent) / 100`, round, print in hex padded to two digits; a
      channel that does not parse prints as `NaN`. */
  function DarkenChannel(s: string, percent: real): string {
    match ParseIntHex(s)
    case None => "NaN"
    case Some(c) => PadStart2(IntToString(Darkened(c, percent), 16))
  }

  function Darkened(c: int, percent: real): int {
    Round(c as real * ((100.0 - percent) / 100.0))
  }

  /** `darkenColor(color, percent)` */
  function DarkenColor(color: string, percent: real): string {
    var hex := RemoveFirst(color, '#');
    "#" + DarkenChannel(Substr(hex, 0, 2), percent) + DarkenChannel(Substr(hex, 2, 2), percent)
        + DarkenChannel(Substr(hex, 4, 2), percent)
  }

  /** A colour written `#rrggbb` (hex digits of either case). */
  predicate IsHexColor(color: string) {
    |color| == 7 && color[0] == '#' && forall i :: 1 <= i < 7 ==> IsDigit(color[i], 16)
  }

  /** The channel whose two digits start at index `i` of a `#rrggbb` colour. */
  function ChannelAt(color: string, i: nat): (c: int)
    requires IsHexColor(color) && 1 <= i <= 5
    ensures 0 <= c < 256
  {
    16 * HexValue(color[i]) + HexValue(color[i + 1])
  }

  /** Two lower-case hex digits of a byte. */
  function Hex2(n: int): string
    requires 0 <= n < 256
  {
    [DigitChar(n / 16), DigitChar(n % 16)]
  }

  lemma MulAtMost(c: real, f: real)
    requires c >= 0.0 && 0.0 <= f <= 1.0
    ensures 0.0 <= c * f <= c
  {
  }

  /** Darkening by 0..100 percent never raises a channel or makes it
      negative, and darkening by 0 keeps it. */
  lemma DarkenedBounds(c: int, percent: real)
    requires c >= 0 && 0.0 <= percent <= 100.0
    ensures 0 <= Darkened(c, percent) <= c
    ensures percent == 0.0 ==> Darkened(c, percent) == c
  {
    MulAtMost(c as real, (100.0 - percent) / 100.0);
  }

  /** A channel that parses to a byte is printed darkened, as two hex digits. */
  lemma DarkenChannelOfByte(s: string, c: int, percent: real)
    requires ParseIntHex(s) == Some(c) && 0 <= c < 256 && 0.0 <= percent <= 100.0
    ensures 0 <= Darkened(c, percent) <= c
    ensures DarkenChannel(s, percent) == Hex2(Darkened(c, percent))
  {
    DarkenedBounds(c, percent);
    PadTwoDigits(Darkened(c, percent), 16);
  }

  /** The two digits at index `i` of a `#rrggbb` colour parse to its channel. */
  lemma ChannelParses(color: string, i: nat)
    requires IsHexColor(color) && 1 <= i <= 5
    ensures ParseIntHex([color[i], color[i + 1]]) == Some(ChannelAt(color, i))
  {
    var x, y := color[i], color[i + 1];
    assert IsDigit(x, 16) && IsDigit(y, 16);
    ParseTwoHexDigits(x, y);
    assert ChannelAt(color, i) == 16 * HexValue(x) + HexValue(y);
  }

  /** On a `#rrggbb` colour and a percentage in 0..100, `darkenColor` gives
      `#` and six lower-case hex digits, each channel darkened and none raised. */
  lemma DarkenHexColor(color: string, percent: real)
    requires IsHexColor(color) && 0.0 <= percent <= 100.0
    ensures 0 <= Darkened(ChannelAt(color, 1), percent) <= ChannelAt(color, 1)
    ensures 0 <= Darkened(ChannelAt(color, 3), percent) <= ChannelAt(color, 3)
    ensures 0 <= Darkened(ChannelAt(color, 5), percent) <= ChannelAt(color, 5)
    ensures DarkenColor(color, percent)
            == "#" + Hex2(Darkened(ChannelAt(color, 1), percent))
                   + Hex2(Darkened(ChannelAt(color, 3), percent))
                   + Hex2(Darkened(ChannelAt(color, 5), percent))
    ensures |DarkenColor(color, percent)| == 7
  {
    var hex := RemoveFirst(color, '#');
    assert hex == color[1..];
    assert Substr(hex, 0, 2) == [color[1], color[2]];
    assert Substr(hex, 2, 2) == [color[3], color[4]];
    assert Substr(hex, 4, 2) == [color[5], color[6]];
    ChannelParses(color, 1);
    ChannelParses(color, 3);
    ChannelParses(color, 5);
    DarkenChannelOfByte([color[1], color[2]], ChannelAt(color, 1), percent);
    DarkenChannelOfByte([color[3], color[4]], ChannelAt(color, 3), percent);
    DarkenChannelOfByte([color[5], color[6]], ChannelAt(color, 5), percent);
  }

  lemma HexDigitPrintsLower(c: char)
    requires IsDigit(c, 16)
    ensures DigitChar(HexValue(c)) == LowerChar(c)
  {
  }

  /** A channel prints back as its own two digits, lower-cased. */
  lemma Hex2OfChannel(color: string, i: nat)
    requires IsHexColor(color) && 1 <= i <= 5
    ensures Hex2(ChannelAt(color, i)) == [LowerChar(color[i]), LowerChar(color[i + 1])]
  {
    var x, y := color[i], color[i + 1];
    var h, l := HexValue(x), HexValue(y);
    HexDigitPrintsLower(x);
    HexDigitPrintsLower(y);
    var c := ChannelAt(color, i);
    DigitsOfByte(c, h, l);
    var q, r := c / 16, c % 16;
    assert q == h && r == l;
    assert Hex2(c) == [DigitChar(q), DigitChar(r)];
  }

  /** A byte's two hex digits. */
  lemma DigitsOfByte(c: int, h: int, l: int)
    requires 0 <= h < 16 && 0 <= l < 16 && c == 16 * h + l
    ensures c / 16 == h && c % 16 == l
  {
  }

  lemma LowerOfHexColor(color: string)
    requires IsHexColor(color)
    ensures Lower(color) == "#" + [LowerChar(color[1]), LowerChar(color[2])]
                                + [LowerChar(color[3]), LowerChar(color[4])]
                                + [LowerChar(color[5]), LowerChar(color[6])]
  {
    var l := Lower(color);
    assert l[0] == '#';
  }

  /** Darkening by 0 percent gives back the colour itself, lower-cased. */
  lemma DarkenByZero(color: string)
    requires IsHexColor(color)
    ensures DarkenColor(color, 0.0) == Lower(color)
  {
    DarkenHexColor(color, 0.0);
    DarkenedBounds(ChannelAt(color, 1), 0.0);
    DarkenedBounds(ChannelAt(color, 3), 0.0);
    DarkenedBounds(ChannelAt(color, 5), 0.0);
    Hex2OfChannel(color, 1);
    Hex2OfChannel(color, 3);
    Hex2OfChannel(color, 5);
    LowerOfHexColor(color);
  }

  /** The thumbnail gradient's second stop for a `#rrggbb` category colour:
      `#` and six lower-case hex digits, each channel the first stop's
      darkened by 20 percent and none of them raised. */
  lemma ThumbnailStopDarkens(color: string)
    requires IsHexColor(color)
    ensures var d := DarkenColor(color, 20.0);
            && |d| == 7 && d[0] == '#'
            && d == "#" + Hex2(Darkened(ChannelAt(color, 1), 20.0))
                        + Hex2(Darkened(ChannelAt(color, 3), 20.0))
                        + Hex2(Darkened(ChannelAt(color, 5), 20.0))
            && Darkened(ChannelAt(color, 1), 20.0) <= ChannelAt(color, 1)
            && Darkened(ChannelAt(color, 3), 20.0) <= ChannelAt(color, 3)
            && Darkened(ChannelAt(color, 5), 20.0) <= ChannelAt(color, 5)
  {
    DarkenHexColor(color, 20.0);
  }

  // ---------------------------------------------------------------- category icons

  /** The fall-back icon, the wrench. */
  const DefaultIcon: string := "\U{1F527}"

  /** The icon table of `getCategoryIcon`, keyed by category name. */
  const CategoryIcons: map<string, string> := map[
    "Text Generation" := "\U{270D}\U{FE0F}",
    "Image Generation" := "\U{1F3A8}",
    "Code Generation" := "\U{1F4BB}",
    "Audio Processing" := "\U{1F3B5}",
    "Video Generation" := "\U{1F3AC}",
    "Data Analysis" := "\U{1F4CA}",
    "Design Tools" := "\U{1F3AF}",
    "Productivity" := "\U{26A1}",
    "Translation" := "\U{1F310}",
    "Customer Support" := "\U{1F4AC}",
    "Marketing" := "\U{1F4E2}",
    "Research" := "\U{1F52C}",
    "Education" := "\U{1F4DA}",
    "Healthcare" := "\U{1F3E5}",
    "Finance" := "\U{1F4B0}",
    "Legal Tech" := "\U{2696}\U{FE0F}"]

  /** `icons[categoryName] || '🔧'` */
  function GetCategoryIcon(categoryName: string): (icon: string)
    ensures icon != ""
    ensures categoryName in CategoryIcons ==> icon == CategoryIcons[categoryName]
  {
    if categoryName in CategoryIcons && CategoryIcons[categoryName] != "" then CategoryIcons[categoryName]
    else DefaultIcon
  }

  /** The wrench appears exactly for the names the table does not list. */
  lemma CategoryIconFallback(categoryName: string)
    ensures GetCategoryIcon(categoryName) == DefaultIcon <==> categoryName !in CategoryIcons
  {
  }

  // ---------------------------------------------------------------- emits

  /** `visitToolUrl(url)`: the URL is emitted when it is truthy. */
  function VisitToolUrl(url: Option<string>): (emitted: Option<string>)
    ensures emitted.Some? <==> Truthy(url)
    ensures emitted.Some? ==> emitted == url
  {
    if Truthy(url) then url else None
  }

  // ---------------------------------------------------------------- the component

  class ToolInfoPanel {
    var selectedTool: Option<ToolInfo>
    var selectedCategory: Option<CategoryInfo>
    var isVideoPlaying: bool
    var currentVideoUrl: string
    var showCustomControls: bool
    var isPlaying: bool
    var currentTime: real
    var duration: real
    var videoProgress: real

    /** The controls and the playing flag belong to an open player. */
    ghost predicate Valid()
      reads this
    {
      (isPlaying ==> isVideoPlaying) && (showCustomControls ==> isVideoPlaying)
    }

    /** The `<video>` element is in the page: the player is open inside the
        single-tool view. */
    predicate VideoElementPresent()
      reads this
    {
      isVideoPlaying && selectedTool.Some? && selectedCategory.None?
    }

    constructor()
      ensures Valid() && selectedTool.None? && selectedCategory.None?
      ensures !isVideoPlaying && currentVideoUrl == "" && !showCustomControls && !isPlaying
      ensures currentTime == 0.0 && duration == 0.0 && videoProgress == 0.0
    {
      selectedTool, selectedCategory := None, None;
      isVideoPlaying, currentVideoUrl, showCustomControls, isPlaying := false, "", false, false;
      currentTime, duration, videoProgress := 0.0, 0.0, 0.0;
    }

    /** The `selectedTool` input is bound to a new value; the player is not reset. */
    method SetSelectedTool(tool: Option<ToolInfo>)
      requires Valid()
      modifies this
      ensures Valid() && selectedTool == tool && selectedCategory == old(selectedCategory)
      ensures isVideoPlaying == old(isVideoPlaying) && currentVideoUrl == old(currentVideoUrl)
      ensures showCustomControls == old(showCustomControls) && isPlaying == old(isPlaying)
      ensures currentTime == old(currentTime) && duration == old(duration) && videoProgress == old(videoProgress)
    {
      selectedTool := tool;
    }

    /** `getVideoDuration()`: `'2:30'` with no tool, else the tool's entry. */
    function GetVideoDuration(): (d: string)
      reads this
      ensures selectedTool.None? ==> d == "2:30"
      ensures selectedTool.Some? && selectedTool.value.name in VideoDatabase ==>
                d == VideoDatabase[selectedTool.value.name].duration
      ensures selectedTool.Some? && selectedTool.value.name !in VideoDatabase ==> d == "2:30"
    {
      if selectedTool.None? then "2:30" else VideoFor(selectedTool.value.name).duration
    }

    /** `playDemoVideo()`: with a tool, load its video and start playing;
        without one, nothing. */
    method PlayDemoVideo()
      requires Valid()
      modifies this
      ensures Valid()
      ensures old(selectedTool).None? ==>
                isVideoPlaying == old(isVideoPlaying) && isPlaying == old(isPlaying)
                && currentVideoUrl == old(currentVideoUrl)
      ensures old(selectedTool).Some? ==>
                isVideoPlaying && isPlaying && currentVideoUrl == VideoFor(old(selectedTool).value.name).url
      ensures selectedTool == old(selectedTool) && selectedCategory == old(selectedCategory)
      ensures showCustomControls == old(showCustomControls)
      ensures currentTime == old(currentTime) && duration == old(duration) && videoProgress == old(videoProgress)
    {
      if selectedTool.None? {
        return;
      }
      currentVideoUrl := VideoFor(selectedTool.value.name).url;
      isVideoPlaying := true;
      isPlaying := true;
    }

    /** `onVideoLoaded()`: the element's duration is read and the controls shown. */
    method OnVideoLoaded(elementDuration: real)
      requires Valid()
      modifies this
      ensures Valid()
      ensures old(VideoElementPresent()) ==> duration == elementDuration && showCustomControls
      ensures !old(VideoElementPresent()) ==>
                duration == old(duration) && showCustomControls == old(showCustomControls)
      ensures selectedTool == old(selectedTool) && selectedCategory == old(selectedCategory)
      ensures isVideoPlaying == old(isVideoPlaying) && currentVideoUrl == old(currentVideoUrl)
      ensures isPlaying == old(isPlaying) && currentTime == old(currentTime) && videoProgress == old(videoProgress)
    {
      if VideoElementPresent() {
        duration := elementDuration;
        showCustomControls := true;
      }
    }

    /** `onVideoEnded()`, up to the 3 s timer whose callback is `CloseVideo`. */
    method OnVideoEnded()
      requires Valid()
      modifies this
      ensures Valid()
      ensures !isPlaying && videoProgress == 100.0
      ensures selectedTool == old(selectedTool) && selectedCategory == old(selectedCategory)
      ensures isVideoPlaying == old(isVideoPlaying) && currentVideoUrl == old(currentVideoUrl)
      ensures showCustomControls == old(showCustomControls)
      ensures currentTime == old(currentTime) && duration == old(duration)
    {
      isPlaying := false;
      videoProgress := 100.0;
    }

    /** `onVideoError()`: fall back to the default video. */
    method OnVideoError()
      requires Valid()
      modifies this
      ensures Valid()
      ensures currentVideoUrl == VideoDatabase["default"].url
      ensures selectedTool == old(selectedTool) && selectedCategory == old(selectedCategory)
      ensures isVideoPlaying == old(isVideoPlaying) && showCustomControls == old(showCustomControls)
      ensures isPlaying == old(isPlaying) && currentTime == old(currentTime)
      ensures duration == old(duration) && videoProgress == old(videoProgress)
    {
      currentVideoUrl := VideoDatabase["default"].url;
    }

    /** `togglePlayPause()`: flips `isPlaying` when the element is there. */
    method TogglePlayPause()
      requires Valid()
      modifies this
      ensures Valid()
      ensures isPlaying == (if old(VideoElementPresent()) then !old(isPlaying) else old(isPlaying))
      ensures selectedTool == old(selectedTool) && selectedCategory == old(selectedCategory)
      ensures isVideoPlaying == old(isVideoPlaying) && currentVideoUrl == old(currentVideoUrl)
      ensures showCustomControls == old(showCustomControls) && currentTime == old(currentTime)
      ensures duration == old(duration) && videoProgress == old(videoProgress)
    {
      if VideoElementPresent() {
        isPlaying := !isPlaying;
      }
    }

    /** `closeVideo()`: the player goes back to its initial state, except
        that the last duration read is kept. */
    method CloseVideo()
      modifies this
      ensures Valid()
      ensures !isVideoPlaying && !isPlaying && currentTime == 0.0 && videoProgress == 0.0
      ensures !showCustomControls && currentVideoUrl == ""
      ensures duration == old(duration)
      ensures selectedTool == old(selectedTool) && selectedCategory == old(selectedCategory)
    {
      isVideoPlaying := false;
      isPlaying := false;
      currentTime := 0.0;
      videoProgress := 0.0;
      showCustomControls := false;
      currentVideoUrl := "";
    }

    /** `onVisitTool()`: the selected tool's URL, when there is a tool and its URL is truthy. */
    function OnVisitTool(): (emitted: Option<string>)
      reads this
      ensures emitted.Some? <==> selectedTool.Some? && Truthy(selectedTool.value.url)
      ensures emitted.Some? ==> emitted == selectedTool.value.url
    {
      if selectedTool.Some? then VisitToolUrl(selectedTool.value.url) else None
    }

    /** `onShareTool()`: the selected tool, when there is one. */
    function OnShareTool(): (emitted: Option<ToolInfo>)
      reads this
      ensures emitted == selectedTool
    {
      selectedTool
    }

    /** `getThumbnailGradient()`: a gradient from the category colour to that
        colour darkened by 20 percent. */
    function GetThumbnailGradient(): (g: string)
      reads this
      ensures selectedTool.None? ==> g == "linear-gradient(135deg, #3b82f6, #1e40af)"
      ensures selectedTool.Some? ==>
                g == "linear-gradient(135deg, " + selectedTool.value.categoryColor + ", "
                     + DarkenColor(selectedTool.value.categoryColor, 20.0) + ")"
    {
      if selectedTool.None? then "linear-gradient(135deg, #3b82f6, #1e40af)"
      else
        var color := selectedTool.value.categoryColor;
        "linear-gradient(135deg, " + color + ", " + DarkenColor(color, 20.0) + ")"
    }
  }
}
