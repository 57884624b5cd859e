/**
 * src/components/dashboard/content-tabs/LinkedInTab.tsx: the text of one
 * copied slide, of "Copy All Slides" and of the downloaded file, and the
 * slide badge with its call-to-action mark. The markers are the emoji code
 * points the component writes. Clipboard, Blob download and toasts are not
 * modelled.
 */
module LinkedInTab {
  import opened Wrappers
  import opened Text
  import opened ContentTabs

  datatype Slide = Slide(slideNumber: int, title: string, content: string, designNotes: string)

  /** Everything after the slide's number: title, content and design notes under their markers. */
  function SlideBody(s: Slide): string {
    "\n\n\U{1F4CC} Title:\n" + s.title + "\n\n\U{1F4A1} Content:\n" + s.content
    + "\n\n\U{1F3A8} Design Notes:\n" + s.designNotes
  }

  /** `copyToClipboard` of one slide. */
  function SlideCopy(s: Slide): string {
    "Slide " + IntToString(s.slideNumber) + SlideBody(s)
  }

  /** A slide's block in the copy-all and download texts. */
  function SlideBlock(s: Slide): string {
    "SLIDE " + IntToString(s.slideNumber) + SlideBody(s)
  }

  /** The bulk block is the single copy with its label in capitals. */
  lemma BlockIsCapitalisedCopy(s: Slide)
    ensures SlideBlock(s) == "SLIDE" + SlideCopy(s)[5..]
  {
    assert SlideCopy(s)[5..] == " " + IntToString(s.slideNumber) + SlideBody(s);
  }

  function Blocks(slides: seq<Slide>): (r: seq<string>)
    ensures |r| == |slides|
    ensures forall i :: 0 <= i < |slides| ==> r[i] == SlideBlock(slides[i])
  {
    if slides == [] then [] else [SlideBlock(slides[0])] + Blocks(slides[1..])
  }

  const CopySeparator: string := "\n\n---\n\n"

  /** `copyAllSlides`: nothing when the slides field is missing; else the blocks joined by a rule. */
  function CopyAllSlides(slides: Option<seq<Slide>>): (r: Option<string>)
    ensures r.None? <==> slides.None?
    ensures r.Some? ==> r.value == Join(Blocks(slides.value), CopySeparator)
  {
    if slides.None? then None else Some(Join(Blocks(slides.value), CopySeparator))
  }

  /** `downloadAll`: nothing when the slides field is missing; else each block ends with a rule and they are joined by a blank line. */
  function DownloadAll(slides: Option<seq<Slide>>): (r: Option<string>)
    ensures r.None? <==> slides.None?
    ensures r.Some? ==> r.value == Join(Terminated(Blocks(slides.value), "\n\n---"), "\n\n")
  {
    if slides.None? then None else Some(Join(Terminated(Blocks(slides.value), "\n\n---"), "\n\n"))
  }

  /** The downloaded file is the copy-all text followed by one more rule. */
  lemma DownloadIsCopyAllWithRule(slides: seq<Slide>)
    requires |slides| >= 1
    ensures DownloadAll(Some(slides)).value == CopyAllSlides(Some(slides)).value + "\n\n---"
  {
    JoinTerminated(Blocks(slides), "\n\n---", "\n\n");
    assert "\n\n---" + "\n\n" == CopySeparator;
  }

  /** The badge of a slide card: `Slide n/total`, marked ' (CTA)' exactly on the slide whose number is the total. */
  function SlideBadge(s: Slide, total: nat): (r: string)
    ensures s.slideNumber == total ==> r == "Slide " + IntToString(s.slideNumber) + "/" + NatToString(total) + " (CTA)"
    ensures s.slideNumber != total ==> r == "Slide " + IntToString(s.slideNumber) + "/" + NatToString(total)
  {
    "Slide " + IntToString(s.slideNumber) + "/" + NatToString(total) + (if s.slideNumber == total then " (CTA)" else "")
  }

  /** In a list numbered 1..n in order, exactly the last slide's badge carries the mark. */
  lemma OnlyLastSlideMarked(slides: seq<Slide>, i: nat)
    requires forall k :: 0 <= k < |slides| ==> slides[k].slideNumber == k + 1
    requires i < |slides|
    ensures var plain := "Slide " + IntToString(slides[i].slideNumber) + "/" + NatToString(|slides|);
      SlideBadge(slides[i], |slides|) == plain + " (CTA)" <==> i == |slides| - 1
  {
    var plain := "Slide " + IntToString(slides[i].slideNumber) + "/" + NatToString(|slides|);
    assert |plain + " (CTA)"| == |plain| + 6;
  }
}
