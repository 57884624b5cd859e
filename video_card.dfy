/**
 * src/components/dashboard/VideoCard.tsx: what a video's card shows. The
 * thumbnail address comes from a stricter id pattern than the backend's
 * (exactly eleven `[\w-]` characters after a prefix); the duration is
 * minutes and zero-padded seconds; the status picks a label, an icon and
 * whether it spins. Markup, colours and the relative creation date are not
 * modelled.
 */
module VideoCard {
  import opened Wrappers
  import opened Text
  import opened ClientTypes
  import YouTube

  // ---- getYoutubeThumbnail ----

  /** The alternatives of `(?:youtube\.com\/(?:watch\?v=|embed\/|v\/)|youtu\.be\/)`, in order. */
  const ThumbnailPrefixes: seq<string> := ["youtube.com/watch?v=", "youtube.com/embed/", "youtube.com/v/", "youtu.be/"]

  const IdLength: nat := 11

  /** Eleven id characters follow alternative `alt` placed at `p`. */
  predicate IdAfter(url: string, p: nat, alt: string) {
    OccursAt(url, alt, p) && p + |alt| + IdLength <= |url|
    && YouTube.IsBareId(url[p + |alt|..p + |alt| + IdLength])
  }

  /** The capture when the pattern matches at `p`, trying the alternatives from the `i`-th on. */
  function IdAtFrom(url: string, p: nat, i: nat): Option<string>
    requires i <= |ThumbnailPrefixes|
    decreases |ThumbnailPrefixes| - i
  {
    if i == |ThumbnailPrefixes| then None
    else if IdAfter(url, p, ThumbnailPrefixes[i]) then
      var alt := ThumbnailPrefixes[i];
      Some(url[p + |alt|..p + |alt| + IdLength])
    else IdAtFrom(url, p, i + 1)
  }

  /**
   * A capture at `p` exists exactly when one of the remaining alternatives is
   * there with eleven id characters after it, and it is those characters.
   */
  lemma {:induction false} IdAtFromCaptures(url: string, p: nat, i: nat)
    requires i <= |ThumbnailPrefixes|
    decreases |ThumbnailPrefixes| - i
    ensures IdAtFrom(url, p, i).Some? <==> exists j :: i <= j < |ThumbnailPrefixes| && IdAfter(url, p, ThumbnailPrefixes[j])
    ensures IdAtFrom(url, p, i).Some? ==>
      exists j :: i <= j < |ThumbnailPrefixes| && IdAfter(url, p, ThumbnailPrefixes[j])
                  && IdAtFrom(url, p, i).value == url[p + |ThumbnailPrefixes[j]|..p + |ThumbnailPrefixes[j]| + IdLength]
  {
    if i < |ThumbnailPrefixes| && !IdAfter(url, p, ThumbnailPrefixes[i]) {
      IdAtFromCaptures(url, p, i + 1);
    }
  }

  /** The pattern matches at `p`. */
  predicate MatchesAt(url: string, p: nat) {
    exists j :: 0 <= j < |ThumbnailPrefixes| && IdAfter(url, p, ThumbnailPrefixes[j])
  }

  /** The leftmost match at `p` or later. */
  function MatchFrom(url: string, p: nat): (r: Option<string>)
    decreases |url| - p
    ensures r.None? <==> forall q: nat :: p <= q <= |url| ==> !MatchesAt(url, q)
  {
    if p > |url| then None
    else
      IdAtFromCaptures(url, p, 0);
      match IdAtFrom(url, p, 0)
      case Some(id) =>
        assert MatchesAt(url, p);
        Some(id)
      case None =>
        var rest := MatchFrom(url, p + 1);
        assert rest.None? ==> forall q: nat :: p <= q <= |url| ==> !MatchesAt(url, q) by {
          if rest.None? {
            forall q: nat | p <= q <= |url|
              ensures !MatchesAt(url, q)
            {
              if q > p {
                assert p + 1 <= q;
              }
            }
          }
        }
        rest
  }

  /** The thumbnail address for a card: the `mqdefault` still of the captured id, or '' without one. */
  function GetYoutubeThumbnail(url: string): (r: string)
    ensures r == "" <==> forall q: nat :: q <= |url| ==> !MatchesAt(url, q)
    ensures r != "" ==> var id := MatchFrom(url, 0).value;
      YouTube.IsBareId(id) && r == "https://img.youtube.com/vi/" + id + "/mqdefault.jpg"
  {
    match MatchFrom(url, 0)
    case None => ""
    case Some(id) =>
      MatchIsBareId(url, 0);
      "https://img.youtube.com/vi/" + id + "/mqdefault.jpg"
  }

  /** Every capture is exactly eleven id characters taken from the URL. */
  lemma {:induction false} MatchIsBareId(url: string, p: nat)
    requires MatchFrom(url, p).Some?
    ensures YouTube.IsBareId(MatchFrom(url, p).value)
    ensures exists k: nat :: OccursAt(url, MatchFrom(url, p).value, k)
    decreases |url| - p
  {
    if IdAtFrom(url, p, 0).Some? {
      CaptureIsBareId(url, p);
      assert MatchFrom(url, p) == IdAtFrom(url, p, 0);
    } else {
      MatchIsBareId(url, p + 1);
    }
  }

  /** A capture at one position is eleven id characters found in the URL. */
  lemma CaptureIsBareId(url: string, p: nat)
    requires IdAtFrom(url, p, 0).Some?
    ensures YouTube.IsBareId(IdAtFrom(url, p, 0).value)
    ensures exists k: nat :: OccursAt(url, IdAtFrom(url, p, 0).value, k)
  {
    IdAtFromCaptures(url, p, 0);
    var j :| 0 <= j < |ThumbnailPrefixes| && IdAfter(url, p, ThumbnailPrefixes[j])
             && IdAtFrom(url, p, 0).value == url[p + |ThumbnailPrefixes[j]|..p + |ThumbnailPrefixes[j]| + IdLength];
    var k := p + |ThumbnailPrefixes[j]|;
    assert OccursAt(url, url[k..k + IdLength], k);
  }

  /** Positions where no alternative can start do not change the leftmost match. */
  lemma {:induction false} SkipUnmatched(url: string, p: nat, q: nat)
    requires p <= q <= |url|
    requires forall k :: p <= k < q ==> IdAtFrom(url, k, 0).None?
    ensures MatchFrom(url, p) == MatchFrom(url, q)
    decreases q - p
  {
    if p < q {
      SkipUnmatched(url, p + 1, q);
    }
  }

  /** Two texts occurring at the same place agree wherever both are defined. */
  lemma SharedPlace(url: string, a: string, b: string, p: nat, k: nat)
    requires OccursAt(url, a, p) && OccursAt(url, b, p) && k < |a| && k < |b|
    ensures a[k] == b[k]
  {
    assert a[k] == url[p..p + |a|][k] == url[p + k];
    assert b[k] == url[p..p + |b|][k] == url[p + k];
  }

  /** Which alternative can occur at `p`, read off the characters at offsets 5 and 12. */
  function AlternativeAt(url: string, p: nat): nat {
    if p + 5 < |url| && url[p + 5] == '.' then 3
    else if p + 12 < |url| && url[p + 12] == 'w' then 0
    else if p + 12 < |url| && url[p + 12] == 'e' then 1
    else 2
  }

  /** At one position at most one alternative occurs: they part at offset 5 or 12. */
  lemma OnlyAlternativeAt(url: string, p: nat, i: nat)
    requires i < |ThumbnailPrefixes| && OccursAt(url, ThumbnailPrefixes[i], p)
    ensures i == AlternativeAt(url, p)
  {
    assert url[p + 5] == ThumbnailPrefixes[i][5] by {
      assert url[p..p + |ThumbnailPrefixes[i]|][5] == url[p + 5];
    }
    if i < 3 {
      assert url[p + 12] == ThumbnailPrefixes[i][12] by {
        assert url[p..p + |ThumbnailPrefixes[i]|][12] == url[p + 12];
      }
    }
  }

  /** Every alternative starts with `y`. */
  lemma MatchStartsWithY(url: string, p: nat)
    ensures IdAtFrom(url, p, 0).Some? ==> p < |url| && url[p] == 'y'
  {
    if IdAtFrom(url, p, 0).Some? {
      IdAtFromCaptures(url, p, 0);
      var i :| 0 <= i < |ThumbnailPrefixes| && IdAfter(url, p, ThumbnailPrefixes[i]);
      assert ThumbnailPrefixes[i][0] == 'y';
      assert url[p..p + |ThumbnailPrefixes[i]|][0] == url[p];
    }
  }

  /**
   * A URL made of a lead without `y`, a prefix, an eleven-character id and
   * anything after has that id's thumbnail: every alternative begins with
   * `y`, so no match starts inside the lead.
   */
  lemma LeadThenPrefix(lead: string, j: nat, id: string, rest: string)
    requires forall k :: 0 <= k < |lead| ==> lead[k] != 'y'
    requires j < |ThumbnailPrefixes| && YouTube.IsBareId(id)
    ensures GetYoutubeThumbnail(lead + ThumbnailPrefixes[j] + id + rest)
            == "https://img.youtube.com/vi/" + id + "/mqdefault.jpg"
  {
    var alt := ThumbnailPrefixes[j];
    var after := alt + id + rest;
    var url := lead + after;
    assert url == lead + ThumbnailPrefixes[j] + id + rest;
    var p := |lead|;
    forall k | 0 <= k < p
      ensures url[k] != 'y'
    {
      assert url[k] == lead[k];
    }
    assert url[p..] == after;
    assert after[..|alt|] == alt && after[|alt|..|alt| + IdLength] == id;
    SliceOfSlice(url, p, |url|, 0, |alt|);
    SliceOfSlice(url, p, |url|, |alt|, |alt| + IdLength);
    PrefixCaptures(url, p, j);
    assert MatchFrom(url, p) == Some(id);
    NoMatchBeforeY(url, p);
  }

  /** Without a `y` before `p` the leftmost match is the one from `p` on. */
  lemma NoMatchBeforeY(url: string, p: nat)
    requires p <= |url| && forall k :: 0 <= k < p ==> url[k] != 'y'
    ensures MatchFrom(url, 0) == MatchFrom(url, p)
  {
    forall k | 0 <= k < p
      ensures IdAtFrom(url, k, 0).None?
    {
      MatchStartsWithY(url, k);
    }
    SkipUnmatched(url, 0, p);
  }

  /** An alternative with eleven id characters after it is the capture at its place. */
  lemma PrefixCaptures(url: string, p: nat, j: nat)
    requires j < |ThumbnailPrefixes| && IdAfter(url, p, ThumbnailPrefixes[j])
    ensures IdAtFrom(url, p, 0) == Some(url[p + |ThumbnailPrefixes[j]|..p + |ThumbnailPrefixes[j]| + IdLength])
  {
    IdAtFromCaptures(url, p, 0);
    var i :| 0 <= i < |ThumbnailPrefixes| && IdAfter(url, p, ThumbnailPrefixes[i])
             && IdAtFrom(url, p, 0).value == url[p + |ThumbnailPrefixes[i]|..p + |ThumbnailPrefixes[i]| + IdLength];
    OnlyAlternativeAt(url, p, i);
    OnlyAlternativeAt(url, p, j);
  }

  // ---- duration ----

  /** JavaScript's `%`: the remainder takes the sign of the dividend. */
  function JsRem(n: int, m: int): (r: int)
    requires m > 0
    ensures n >= 0 ==> 0 <= r < m && r == n % m
    ensures n < 0 ==> -m < r <= 0 && r == -((-n) % m)
  {
    if n >= 0 then n % m else -((-n) % m)
  }

  /**
   * What `{video.duration && <span>...</span>}` renders: nothing for a null
   * duration; the number itself for 0, since `0 && x` is 0 and React writes a
   * number as its text; otherwise the span with `Math.floor(d / 60)`, a colon
   * and the remainder padded to two digits.
   */
  datatype DurationView =
    | NoDuration
    | BareNumber(text: string)
    | Clock(text: string)

  function DurationText(duration: Option<int>): (r: DurationView)
    ensures r.NoDuration? <==> duration.None?
    ensures r.BareNumber? <==> duration == Some(0)
    ensures r.BareNumber? ==> r.text == "0"
  {
    match duration
    case None => NoDuration
    case Some(d) =>
      if d == 0 then BareNumber(IntToString(0))
      // Division by a positive constant rounds down here as Math.floor does.
      else Clock(IntToString(d / 60) + ":" + PadStart2(IntToString(JsRem(d, 60))))
  }

  /**
   * A positive duration reads back: the clock text's minutes and two-digit
   * seconds are decimal numbers `m` and `s` with `m * 60 + s == d` and
   * `s < 60`.
   */
  lemma DurationReadsBack(d: nat)
    requires d > 0
    ensures DurationText(Some(d)).Clock?
    ensures var t := DurationText(Some(d)).text;
      exists minutes: string, seconds: string ::
        t == minutes + ":" + seconds && AllDigits(minutes) && AllDigits(seconds) && |seconds| == 2
        && DigitsValue(seconds) < 60 && DigitsValue(minutes) * 60 + DigitsValue(seconds) == d
  {
    var minutes := NatToString(d / 60);
    var seconds := PadStart2(NatToString(d % 60));
    NatToStringRoundTrip(d / 60);
    SecondsText(d % 60);
    assert DurationText(Some(d)).text == minutes + ":" + seconds;
  }

  /** Seconds below 60, padded: two digits that read back as the number. */
  lemma SecondsText(n: nat)
    requires n < 60
    ensures var t := PadStart2(NatToString(n));
      |t| == 2 && AllDigits(t) && DigitsValue(t) == n
  {
    var s := NatToString(n);
    NatToStringRoundTrip(n);
    if n < 10 {
      assert |s| == 1;
      LeadingZeroValue(s);
    } else {
      assert n / 10 < 10;
      assert |s| == 2;
    }
  }

  // ---- statusConfig ----

  datatype Icon = Spinner | CheckMark | Cross

  /** The row of `statusConfig` used for a status; colours are styling and not modelled. */
  datatype StatusStyle = StatusStyle(caption: string, icon: Icon, animate: bool)

  /** The text with its first letter upper-cased. */
  function Capitalized(s: string): string {
    if s != [] && 'a' <= s[0] <= 'z' then [(s[0] as int - 32) as char] + s[1..] else s
  }

  /** The label is the status name with a capital; only processing spins; the two unfinished states share the spinner. */
  function StatusStyleOf(s: VideoStatus): (r: StatusStyle)
    ensures r.animate <==> s == Processing
    ensures r.icon == Spinner <==> s == Queued || s == Processing
    ensures r.caption == Capitalized(StatusName(s))
  {
    match s
    case Queued => StatusStyle("Queued", Spinner, false)
    case Processing => StatusStyle("Processing", Spinner, true)
    case Completed => StatusStyle("Completed", CheckMark, false)
    case Failed => StatusStyle("Failed", Cross, false)
  }

  // ---- the card ----

  /** What a card shows; `hasOnView` says a view handler was passed. */
  datatype Card = Card(
    style: StatusStyle,
    thumbnail: string,
    title: string,
    duration: DurationView,
    contentBadges: bool,
    error: Option<string>,
    viewButton: bool)

  function CardOf(v: ClientVideo, hasOnView: bool): (c: Card)
    ensures c.style == StatusStyleOf(v.status) && c.thumbnail == GetYoutubeThumbnail(v.youtubeUrl)
    ensures c.title == if TextTruthy(v.title) then v.title.value else "Untitled Video"
    ensures c.duration == DurationText(v.duration)
    ensures c.contentBadges <==> v.status == Completed
    ensures c.error.Some? <==> v.status == Failed && TextTruthy(v.errorMessage)
    ensures c.error.Some? ==> c.error == v.errorMessage
    ensures c.viewButton <==> v.status == Completed && hasOnView
  {
    Card(StatusStyleOf(v.status), GetYoutubeThumbnail(v.youtubeUrl),
         if TextTruthy(v.title) then v.title.value else "Untitled Video",
         DurationText(v.duration),
         v.status == Completed,
         if v.status == Failed && TextTruthy(v.errorMessage) then v.errorMessage else None,
         v.status == Completed && hasOnView)
  }

  /** A card never offers the content and reports an error at once. */
  lemma ContentAndErrorExclusive(v: ClientVideo, hasOnView: bool)
    ensures !(CardOf(v, hasOnView).contentBadges && CardOf(v, hasOnView).error.Some?)
    ensures CardOf(v, hasOnView).viewButton ==> CardOf(v, hasOnView).contentBadges
  {
  }
}
