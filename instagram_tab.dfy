/**
 * src/components/dashboard/content-tabs/InstagramTab.tsx: the reels read
 * from a content row's data, the downloaded scripts file, the two copy
 * texts of a reel card and the card labels. The component reads the data's
 * `reels` field, while the backend's generator writes an object whose
 * field is `captions`; the lemmas below state what the tab then shows. The
 * TypeScript cast of each array item to a reel is a parameter. Clipboard,
 * Blob download and toasts are not modelled.
 */
module InstagramTab {
  import opened Wrappers
  import opened Text
  import opened JsonValue
  import opened ContentTabs
  import ContentGenerator

  datatype Reel = Reel(title: string, duration: string, hook: string, script: string, caption: string, hashtags: seq<string>)

  /** What the component's type cast makes of one item of the array. */
  type AsReel = Json -> Reel

  /** `content.data.reels` when it holds an array, cast item by item; None when the field is absent. */
  function ReelsOf(data: Json, asReel: AsReel): (r: Option<seq<Reel>>)
    ensures r.None? <==> Field(data, "reels").None? || !Field(data, "reels").value.JArr?
    ensures r.Some? ==> |r.value| == |Field(data, "reels").value.items|
    ensures r.Some? ==> forall i :: 0 <= i < |r.value| ==> r.value[i] == asReel(Field(data, "reels").value.items[i])
  {
    match Field(data, "reels")
    case Some(JArr(items)) => Some(CastAll(items, asReel))
    case _ => None
  }

  function CastAll(items: seq<Json>, asReel: AsReel): (r: seq<Reel>)
    ensures |r| == |items|
    ensures forall i :: 0 <= i < |items| ==> r[i] == asReel(items[i])
  {
    if items == [] then [] else [asReel(items[0])] + CastAll(items[1..], asReel)
  }

  /** A reel's block in the file, numbered `n`, without its closing rule. */
  function ReelBody(r: Reel, n: nat): string {
    "REEL #" + NatToString(n) + "\n\nTitle: " + r.title + "\nDuration: " + r.duration
    + "\n\n\U{1FA9D} Hook:\n" + r.hook
    + "\n\n\U{1F4DD} Script:\n" + r.script
    + "\n\n\U{1F4AC} Caption:\n" + r.caption
    + "\n\n#\U{FE0F}\U{20E3} Hashtags:\n" + Join(r.hashtags, " ")
  }

  const Rule: string := "\n\n---"

  function BodiesFrom(reels: seq<Reel>, k: nat): (r: seq<string>)
    ensures |r| == |reels|
    ensures forall i :: 0 <= i < |reels| ==> r[i] == ReelBody(reels[i], k + i + 1)
  {
    if reels == [] then [] else [ReelBody(reels[0], k + 1)] + BodiesFrom(reels[1..], k + 1)
  }

  /** `downloadAll`: nothing without a reels array; else the numbered blocks, each closed by a rule, joined by a blank line. */
  function DownloadAll(data: Json, asReel: AsReel): (r: Option<string>)
    ensures r.None? <==> ReelsOf(data, asReel).None?
    ensures r.Some? ==> r.value == Join(Terminated(BodiesFrom(ReelsOf(data, asReel).value, 0), Rule), "\n\n")
  {
    match ReelsOf(data, asReel)
    case None => None
    case Some(reels) => Some(Join(Terminated(BodiesFrom(reels, 0), Rule), "\n\n"))
  }

  /** The file is the blocks separated by rules, with a last rule at its end. */
  lemma DownloadClosesEveryBlock(data: Json, asReel: AsReel)
    requires ReelsOf(data, asReel).Some? && |ReelsOf(data, asReel).value| >= 1
    ensures DownloadAll(data, asReel).value == Join(BodiesFrom(ReelsOf(data, asReel).value, 0), Rule + "\n\n") + Rule
  {
    JoinTerminated(BodiesFrom(ReelsOf(data, asReel).value, 0), Rule, "\n\n");
  }

  /** The result view's list, `content.data.reels || []`, and its heading. */
  datatype ReelsView = ReelsView(heading: string, labels: seq<string>, reels: seq<Reel>)

  function LabelsFrom(count: nat, k: nat): (r: seq<string>)
    ensures |r| == count
    ensures forall i :: 0 <= i < count ==> r[i] == "Reel #" + NatToString(k + i + 1)
    decreases count
  {
    if count == 0 then [] else ["Reel #" + NatToString(k + 1)] + LabelsFrom(count - 1, k + 1)
  }

  function ViewOf(data: Json, asReel: AsReel): (v: ReelsView)
    ensures var reels := ReelsOf(data, asReel).GetOr([]);
      v.reels == reels && |v.labels| == |reels|
      && v.heading == "Instagram Reels (" + NatToString(|reels|) + " scripts)"
  {
    var reels := ReelsOf(data, asReel).GetOr([]);
    ReelsView("Instagram Reels (" + NatToString(|reels|) + " scripts)", LabelsFrom(|reels|, 0), reels)
  }

  /**
   * Data without a `reels` field, such as every object whose only field is
   * the generator's `captions`, shows no reel and downloads nothing.
   */
  lemma CaptionsPayloadShowsNoReels(captions: Json, asReel: AsReel)
    ensures ViewOf(JObj([("captions", captions)]), asReel).reels == []
    ensures DownloadAll(JObj([("captions", captions)]), asReel).None?
  {
  }

  /** The generator's fallback payload in particular. */
  lemma FallbackShowsNoReels(asReel: AsReel)
    ensures ViewOf(ContentGenerator.InstagramFallback, asReel).heading == "Instagram Reels (" + NatToString(0) + " scripts)"
    ensures DownloadAll(ContentGenerator.InstagramFallback, asReel).None?
  {
    CaptionsPayloadShowsNoReels(JArr([]), asReel);
  }

  /** The script copy button: hook and script, a blank line apart. */
  function ScriptCopy(r: Reel): string {
    r.hook + "\n\n" + r.script
  }

  /** The caption copy button: the caption, a blank line, the hashtags separated by spaces. */
  function CaptionCopy(r: Reel): string {
    r.caption + "\n\n" + Join(r.hashtags, " ")
  }

  /** The caption copy ends with the text the file's hashtag section holds. */
  lemma CaptionCopyEndsLikeTheFile(r: Reel, n: nat)
    ensures var tags := Join(r.hashtags, " ");
      CaptionCopy(r)[|CaptionCopy(r)| - |tags|..] == tags
      && ReelBody(r, n)[|ReelBody(r, n)| - |tags|..] == tags
  {
    var tags := Join(r.hashtags, " ");
    var head := "REEL #" + NatToString(n) + "\n\nTitle: " + r.title + "\nDuration: " + r.duration
      + "\n\n\U{1FA9D} Hook:\n" + r.hook
      + "\n\n\U{1F4DD} Script:\n" + r.script
      + "\n\n\U{1F4AC} Caption:\n" + r.caption
      + "\n\n#\U{FE0F}\U{20E3} Hashtags:\n";
    assert ReelBody(r, n) == head + tags;
    assert CaptionCopy(r) == (r.caption + "\n\n") + tags;
  }
}
