/**
 * The lesson accordion of a course page: extracting a YouTube video id
 * from a lesson URL, the single-open section toggle, and opening the video
 * modal.
 *
 * `getYoutubeVideoId` matches
 *   `^.*(youtu.be\/|v\/|u\/\w\/|embed\/|watch\?v=|&v=)([^#&?]*).*`
 * Without the `s` flag `.` stops at a line terminator, so the leading `.*`
 * covers at most the first line; being greedy, it leaves the right-most
 * marker on that line to the group, and the id group then takes the
 * longest run of characters other than `#`, `&` and `?`.
 */
module ContentAccordion {
  import opened Wrappers
  import opened Text

  // ------------------------------------------------------------ the pattern

  /** `youtu.be/`, whose `.` is any character but a line terminator. */
  predicate ShortLinkAt(url: string, p: nat) {
    p + 9 <= |url| && url[p..p + 5] == "youtu" && !IsLineTerminator(url[p + 5]) && url[p + 6..p + 9] == "be/"
  }

  /** `u/\w/`. */
  predicate UserPathAt(url: string, p: nat) {
    p + 4 <= |url| && url[p] == 'u' && url[p + 1] == '/' && IsWordChar(url[p + 2]) && url[p + 3] == '/'
  }

  predicate LiteralAt(url: string, p: nat, lit: string) {
    p + |lit| <= |url| && url[p..p + |lit|] == lit
  }

  /** The length of the first alternative of the marker group that matches at `p`, if any. */
  function MarkerAt(url: string, p: nat): (len: Option<nat>)
    ensures len.Some? ==> 2 <= len.value <= 9 && p + len.value <= |url|
  {
    if ShortLinkAt(url, p) then Some(9)
    else if LiteralAt(url, p, "v/") then Some(2)
    else if UserPathAt(url, p) then Some(4)
    else if LiteralAt(url, p, "embed/") then Some(6)
    else if LiteralAt(url, p, "watch?v=") then Some(8)
    else if LiteralAt(url, p, "&v=") then Some(3)
    else None
  }

  /** Where the first line ends: the first line terminator, or the end of the text. */
  function LineEnd(url: string): (e: nat)
    ensures e <= |url| && (e < |url| ==> IsLineTerminator(url[e]))
    ensures forall i :: 0 <= i < e ==> !IsLineTerminator(url[i])
  {
    if url == [] || IsLineTerminator(url[0]) then 0 else 1 + LineEnd(url[1..])
  }

  /** The right-most position at or before `p` where a marker starts. */
  function LastMarker(url: string, p: nat): (r: Option<nat>)
    ensures r.Some? ==> r.value <= p && MarkerAt(url, r.value).Some?
    ensures r.Some? ==> forall q :: r.value < q <= p ==> MarkerAt(url, q).None?
    ensures r.None? ==> forall q :: 0 <= q <= p ==> MarkerAt(url, q).None?
  {
    if MarkerAt(url, p).Some? then Some(p)
    else if p == 0 then None
    else LastMarker(url, p - 1)
  }

  /** A character of the id group `[^#&?]`. */
  predicate IdGroupChar(c: char) { c != '#' && c != '&' && c != '?' }

  /** The end of the longest run of id-group characters starting at `i`. */
  function RunEnd(url: string, i: nat): (j: nat)
    requires i <= |url|
    ensures i <= j <= |url|
    ensures forall k :: i <= k < j ==> IdGroupChar(url[k])
    ensures j < |url| ==> !IdGroupChar(url[j])
    decreases |url| - i
  {
    if i == |url| || !IdGroupChar(url[i]) then i else RunEnd(url, i + 1)
  }

  /** The id group of the match, or `None` when the pattern does not match. */
  function Capture(url: string): (id: Option<string>)
    ensures id.Some? ==> forall k :: 0 <= k < |id.value| ==> IdGroupChar(id.value[k])
  {
    var p := LastMarker(url, LineEnd(url));
    if p.None? then None
    else
      var start := p.value + MarkerAt(url, p.value).value;
      Some(url[start..RunEnd(url, start)])
  }

  /**
   * `getYoutubeVideoId(url)`: the captured id when it has exactly eleven
   * characters. The id follows the right-most marker of the first line and
   * is the longest run that contains no `#`, `&` or `?`.
   */
  function GetYoutubeVideoId(url: string): (id: Option<string>)
    ensures id.Some? ==> |id.value| == 11 && forall k :: 0 <= k < 11 ==> IdGroupChar(id.value[k])
    ensures id.Some? ==>
      exists p: nat :: p <= LineEnd(url) && MarkerAt(url, p).Some? &&
        (forall q :: p < q <= LineEnd(url) ==> MarkerAt(url, q).None?) &&
        var start := p + MarkerAt(url, p).value;
        start + 11 <= |url| && id.value == url[start..start + 11] &&
        (start + 11 == |url| || !IdGroupChar(url[start + 11]))
    ensures (forall q :: 0 <= q <= LineEnd(url) ==> MarkerAt(url, q).None?) ==> id.None?
  {
    var c := Capture(url);
    if c.Some? && |c.value| == 11 then
      var p := LastMarker(url, LineEnd(url)).value;
      var start := p + MarkerAt(url, p).value;
      assert c.value == url[start..RunEnd(url, start)] && RunEnd(url, start) == start + 11;
      c
    else None
  }

  /** A character of a YouTube id: a letter, a digit, `_` or `-`. */
  predicate YoutubeIdChar(c: char) { IsWordChar(c) || c == '-' }

  /** No marker starts at `q` when `url[q..]` has no `/`, `=`, `?` or `&` within the next nine characters. */
  lemma {:induction false} NoMarkerWithoutPunctuation(url: string, q: nat)
    requires forall k :: q <= k < |url| && k < q + 9 ==> YoutubeIdChar(url[k])
    ensures MarkerAt(url, q).None?
  {
    if q + 9 <= |url| {
      assert url[q + 6..q + 9][2] == url[q + 8] && YoutubeIdChar(url[q + 8]);
    }
    if q + 8 <= |url| {
      assert url[q..q + 8][5] == url[q + 5];
    }
    if q + 6 <= |url| {
      assert url[q..q + 6][5] == url[q + 5] && YoutubeIdChar(url[q + 5]);
    }
    if q + 2 <= |url| {
      assert url[q..q + 2][1] == url[q + 1] && YoutubeIdChar(url[q + 1]);
    }
    if q + 3 <= |url| {
      assert url[q..q + 3][0] == url[q] && YoutubeIdChar(url[q]);
    }
  }

  /**
   * A watch URL ending in an eleven-character YouTube id yields that id,
   * whatever single line comes before it (even one with other markers).
   */
  lemma {:induction false} WatchUrlId(prefix: string, id: string)
    requires |id| == 11 && forall k :: 0 <= k < 11 ==> YoutubeIdChar(id[k])
    requires forall k :: 0 <= k < |prefix| ==> !IsLineTerminator(prefix[k])
    ensures GetYoutubeVideoId(prefix + "watch?v=" + id) == Some(id)
  {
    var url := prefix + "watch?v=" + id;
    var p := |prefix|;
    WatchUrlShape(prefix, id);
    forall q | p < q <= |url|
      ensures MarkerAt(url, q).None?
    {
      if q < p + 8 {
        AfterWatchMarker(url, p, q);
      } else {
        NoMarkerWithoutPunctuation(url, q);
      }
    }
    OneLine(url);
    CaptureAfter(url, p);
  }

  /** The pieces of a watch URL: the marker at the end of the prefix and an id of id-group characters after it. */
  lemma {:induction false} WatchUrlShape(prefix: string, id: string)
    requires |id| == 11 && forall k :: 0 <= k < 11 ==> YoutubeIdChar(id[k])
    requires forall k :: 0 <= k < |prefix| ==> !IsLineTerminator(prefix[k])
    ensures var url := prefix + "watch?v=" + id; var p := |prefix|;
      && |url| == p + 19 && url[p + 8..] == id && MarkerAt(url, p) == Some(8)
    ensures var url := prefix + "watch?v=" + id; var p := |prefix|;
      forall k :: p + 8 <= k < |url| ==> YoutubeIdChar(url[k]) && IdGroupChar(url[k])
    ensures var url := prefix + "watch?v=" + id;
      forall k :: 0 <= k < |url| ==> !IsLineTerminator(url[k])
  {
    var url := prefix + "watch?v=" + id;
    var p := |prefix|;
    var w := "watch?v=";
    assert url[p..p + 8] == w;
    assert LiteralAt(url, p, w);
    assert url[p] == 'w';
    forall k | 0 <= k < |url|
      ensures !IsLineTerminator(url[k])
    {
      if k < p {
        assert url[k] == prefix[k];
      } else if k < p + 8 {
        assert url[k] == w[k - p];
      } else {
        assert url[k] == id[k - p - 8];
      }
    }
    forall k | p + 8 <= k < |url|
      ensures YoutubeIdChar(url[k]) && IdGroupChar(url[k])
    {
      assert url[k] == id[k - p - 8];
    }
  }

  /** The id is the rest of a one-line text after its last marker when that rest is eleven id-group characters. */
  lemma {:induction false} CaptureAfter(url: string, p: nat)
    requires LineEnd(url) == |url| && MarkerAt(url, p).Some?
    requires p + MarkerAt(url, p).value + 11 == |url|
    requires forall q :: p < q <= |url| ==> MarkerAt(url, q).None?
    requires forall k :: p + MarkerAt(url, p).value <= k < |url| ==> IdGroupChar(url[k])
    ensures GetYoutubeVideoId(url) == Some(url[p + MarkerAt(url, p).value..])
  {
    var start := p + MarkerAt(url, p).value;
    LastMarkerIs(url, p);
    RunToEnd(url, start);
    assert LastMarker(url, LineEnd(url)) == Some(p);
    assert url[start..RunEnd(url, start)] == url[start..];
    assert Capture(url) == Some(url[start..]);
  }

  /** The first line of a text without line terminators is the whole text. */
  lemma {:induction false} OneLine(url: string)
    requires forall k :: 0 <= k < |url| ==> !IsLineTerminator(url[k])
    ensures LineEnd(url) == |url|
  {
  }

  /** The right-most marker up to the end of a URL is the one at `p` when none follows it. */
  lemma {:induction false} LastMarkerIs(url: string, p: nat)
    requires p <= |url| && MarkerAt(url, p).Some?
    requires forall q :: p < q <= |url| ==> MarkerAt(url, q).None?
    ensures LastMarker(url, |url|) == Some(p)
  {
  }

  /** The id group runs to the end of the text when every character from `i` on may belong to it. */
  lemma {:induction false} RunToEnd(url: string, i: nat)
    requires i <= |url| && forall k :: i <= k < |url| ==> IdGroupChar(url[k])
    ensures RunEnd(url, i) == |url|
  {
  }

  /** Inside `watch?v=` (after its first character) no marker starts. */
  lemma {:induction false} AfterWatchMarker(url: string, p: nat, q: nat)
    requires LiteralAt(url, p, "watch?v=") && p < q < p + 8
    ensures MarkerAt(url, q).None?
  {
    assert url[p..p + 8][q - p] == url[q];
    assert url[q] in {'a', 't', 'c', 'h', '?', 'v', '='};
    if q + 2 <= |url| {
      assert url[q..q + 2][0] == url[q] && url[q..q + 2][1] == url[q + 1];
    }
    if q + 3 <= |url| {
      assert url[q..q + 3][0] == url[q];
    }
    if q + 5 <= |url| {
      assert url[q..q + 5][0] == url[q];
    }
    if q + 6 <= |url| {
      assert url[q..q + 6][0] == url[q];
    }
    if q + 8 <= |url| {
      assert url[q..q + 8][0] == url[q];
    }
    if q == p + 6 {
      assert url[p..p + 8][7] == url[q + 1];
    } else {
      assert url[q] != 'v';
    }
  }

  /** With no marker on the first line there is no id. */
  lemma {:induction false} NoMarkerNoId(url: string)
    requires forall q :: 0 <= q <= LineEnd(url) ==> MarkerAt(url, q).None?
    ensures GetYoutubeVideoId(url) == None
  {
  }

  /**
   * The converse of `GetYoutubeVideoId`'s contract: when the right-most
   * marker of the first line is followed by a maximal run of exactly eleven
   * id-group characters, that run is the id. This covers `youtu.be/<id>`,
   * `embed/<id>`, `watch?v=<id>&t=42s` and `youtu.be/<id>?si=…` alike.
   */
  lemma {:induction false} IdAfterLastMarker(url: string, p: nat)
    requires p <= LineEnd(url) && MarkerAt(url, p).Some?
    requires forall q :: p < q <= LineEnd(url) ==> MarkerAt(url, q).None?
    requires p + MarkerAt(url, p).value + 11 <= |url|
    requires forall k :: p + MarkerAt(url, p).value <= k < p + MarkerAt(url, p).value + 11 ==> IdGroupChar(url[k])
    requires p + MarkerAt(url, p).value + 11 == |url| || !IdGroupChar(url[p + MarkerAt(url, p).value + 11])
    ensures GetYoutubeVideoId(url) == Some(url[p + MarkerAt(url, p).value..p + MarkerAt(url, p).value + 11])
  {
    var start := p + MarkerAt(url, p).value;
    RunEndAt(url, start, start + 11);
    LastMarkerAt(url, LineEnd(url), p);
    CaptureOf(url, p, start + 11);
  }

  /** The capture, once the right-most marker and the end of the run after it are known. */
  lemma {:induction false} CaptureOf(url: string, p: nat, j: nat)
    requires LastMarker(url, LineEnd(url)) == Some(p)
    requires p + MarkerAt(url, p).value <= j <= |url| && RunEnd(url, p + MarkerAt(url, p).value) == j
    ensures Capture(url) == Some(url[p + MarkerAt(url, p).value..j])
  {
  }

  /** The right-most marker at or before `e` is the one at `p` when none lies between them. */
  lemma {:induction false} LastMarkerAt(url: string, e: nat, p: nat)
    requires p <= e && MarkerAt(url, p).Some?
    requires forall q :: p < q <= e ==> MarkerAt(url, q).None?
    ensures LastMarker(url, e) == Some(p)
    decreases e - p
  {
    if e > p {
      LastMarkerAt(url, e - 1, p);
    }
  }

  /** The id group starting at `i` ends at `j` when `url[i..j]` is a run of id-group characters that cannot be extended. */
  lemma {:induction false} RunEndAt(url: string, i: nat, j: nat)
    requires i <= j <= |url|
    requires forall k :: i <= k < j ==> IdGroupChar(url[k])
    requires j < |url| ==> !IdGroupChar(url[j])
    ensures RunEnd(url, i) == j
    decreases j - i
  {
    if i < j {
      RunEndAt(url, i + 1, j);
    }
  }

  // ------------------------------------------------------------ the accordion

  /** A lesson as the accordion receives it; the optional fields may be absent. */
  datatype AccordionLesson = AccordionLesson(title: string, videoType: Option<string>, videoUrl: Option<string>)

  /** `expandedSection === index ? null : index`. */
  function Toggled(expanded: Option<int>, index: int): (e: Option<int>)
    ensures forall j :: e == Some(j) <==> j == index && expanded != Some(index)
  {
    if expanded == Some(index) then None else Some(index)
  }

  /** Toggling a section twice restores the state only when it was that section or none was open. */
  lemma {:induction false} ToggleTwice(expanded: Option<int>, index: int)
    ensures Toggled(Toggled(expanded, index), index) == if expanded == Some(index) then expanded else None
  {
  }

  class Accordion {
    var expandedSection: Option<int>
    var videoModalOpen: bool
    var currentVideo: Option<string>

    /** The first section starts open, the modal closed. */
    constructor()
      ensures expandedSection == Some(0) && !videoModalOpen && currentVideo == None
    {
      expandedSection := Some(0);
      videoModalOpen := false;
      currentVideo := None;
    }

    /** `toggleSection(index)`: closes the section when it is the open one, and otherwise opens it alone. */
    method ToggleSection(index: int)
      modifies this
      ensures expandedSection == Toggled(old(expandedSection), index)
      ensures videoModalOpen == old(videoModalOpen) && currentVideo == old(currentVideo)
    {
      expandedSection := if expandedSection == Some(index) then None else Some(index);
    }

    /**
     * `openVideoModal(lesson)`: a YouTube lesson with a URL opens the modal
     * on the URL's id, or changes nothing when the URL has no valid id; any
     * other lesson only raises the "not available" alert (`alerted`).
     */
    method OpenVideoModal(lesson: AccordionLesson) returns (alerted: bool)
      modifies this
      ensures var isYoutube := lesson.videoType == Some("youtube") && lesson.videoUrl.Some? && lesson.videoUrl.value != "";
        && (alerted <==> !isYoutube)
        && (isYoutube && GetYoutubeVideoId(lesson.videoUrl.value).Some? ==>
              videoModalOpen && currentVideo == GetYoutubeVideoId(lesson.videoUrl.value))
        && (!(isYoutube && GetYoutubeVideoId(lesson.videoUrl.value).Some?) ==>
              videoModalOpen == old(videoModalOpen) && currentVideo == old(currentVideo))
      ensures expandedSection == old(expandedSection)
    {
      if lesson.videoType == Some("youtube") && lesson.videoUrl.Some? && lesson.videoUrl.value != "" {
        var videoId := GetYoutubeVideoId(lesson.videoUrl.value);
        if videoId.Some? {
          currentVideo := videoId;
          videoModalOpen := true;
        }
        alerted := false;
      } else {
        alerted := true;
      }
    }
  }
}
