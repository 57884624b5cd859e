/**
 * src/components/dashboard/content-tabs/ShortsTab.tsx: the downloaded
 * scripts file, the per-short copy text and the card labels. The three
 * section markers are the code points the component's source holds, which
 * are not emoji but the bytes of UTF-8 emoji read as Mac Roman text; they
 * are kept as written. Durations are kept as the text they are written
 * with. Clipboard, Blob download and toasts are not modelled.
 */
module ShortsTab {
  import opened Wrappers
  import opened Text
  import opened ContentTabs

  datatype Short = Short(title: string, duration: string, hook: string, script: string, cta: string)

  const HookMarker: string := "\U{F8FF}\U{00FC}\U{2122}\U{00F9}"
  const ScriptMarker: string := "\U{F8FF}\U{00FC}\U{00EC}\U{00F9}"
  const CtaMarker: string := "\U{F8FF}\U{00FC}\U{00EC}\U{00A2}"

  /** A short's block in the file, numbered `n`, without its closing rule. */
  function ShortBody(s: Short, n: nat): string {
    "SHORT #" + NatToString(n) + "\n\nTitle: " + s.title + "\nDuration: " + s.duration
    + "\n\n" + HookMarker + " Hook:\n" + s.hook
    + "\n\n" + ScriptMarker + " Script:\n" + s.script
    + "\n\n" + CtaMarker + " CTA:\n" + s.cta
  }

  const Rule: string := "\n\n---"

  /** The shorts from position `k` on, each numbered by its position from one. */
  function BodiesFrom(shorts: seq<Short>, k: nat): (r: seq<string>)
    ensures |r| == |shorts|
    ensures forall i :: 0 <= i < |shorts| ==> r[i] == ShortBody(shorts[i], k + i + 1)
  {
    if shorts == [] then [] else [ShortBody(shorts[0], k + 1)] + BodiesFrom(shorts[1..], k + 1)
  }

  /** `downloadAll`: nothing without a shorts field; else the numbered blocks, each closed by a rule, joined by a blank line. */
  function DownloadAll(shorts: Option<seq<Short>>): (r: Option<string>)
    ensures r.None? <==> shorts.None?
    ensures r.Some? ==> r.value == Join(Terminated(BodiesFrom(shorts.value, 0), Rule), "\n\n")
  {
    if shorts.None? then None else Some(Join(Terminated(BodiesFrom(shorts.value, 0), Rule), "\n\n"))
  }

  /** The file is the blocks separated by rules, with a last rule at its end. */
  lemma DownloadClosesEveryBlock(shorts: seq<Short>)
    requires |shorts| >= 1
    ensures DownloadAll(Some(shorts)).value == Join(BodiesFrom(shorts, 0), Rule + "\n\n") + Rule
  {
    JoinTerminated(BodiesFrom(shorts, 0), Rule, "\n\n");
  }

  /** An empty list is a present field: the file is written, empty. */
  lemma EmptyListDownloadsEmptyFile()
    ensures DownloadAll(Some([])) == Some("")
  {
  }

  /** The per-short copy button: hook, script and call to action, a blank line apart. */
  function ShortCopy(s: Short): string {
    s.hook + "\n\n" + s.script + "\n\n" + s.cta
  }

  /** The copy text is the file block's three sections with their headings removed. */
  lemma CopyJoinsTheSections(s: Short)
    ensures ShortCopy(s) == Join([s.hook, s.script, s.cta], "\n\n")
  {
    JoinCons(s.hook, [s.script, s.cta], "\n\n");
    JoinCons(s.script, [s.cta], "\n\n");
  }

  /** The card labels `Short #1` .. `Short #n`. */
  function LabelsFrom(count: nat, k: nat): (r: seq<string>)
    ensures |r| == count
    ensures forall i :: 0 <= i < count ==> r[i] == "Short #" + NatToString(k + i + 1)
    decreases count
  {
    if count == 0 then [] else ["Short #" + NatToString(k + 1)] + LabelsFrom(count - 1, k + 1)
  }

  /** The result view: `shorts || []`, its heading and its card labels. */
  datatype ShortsView = ShortsView(heading: string, labels: seq<string>, shorts: seq<Short>)

  function ViewOf(shorts: Option<seq<Short>>): (v: ShortsView)
    ensures v.shorts == shorts.GetOr([]) && |v.labels| == |v.shorts|
    ensures v.heading == "YouTube Shorts (" + NatToString(|v.shorts|) + " scripts)"
  {
    var list := shorts.GetOr([]);
    ShortsView("YouTube Shorts (" + NatToString(|list|) + " scripts)", LabelsFrom(|list|, 0), list)
  }

  /** Every card shown has the number of the file block of the same short. */
  lemma CardNumbersFollowTheFile(shorts: seq<Short>, i: nat)
    requires i < |shorts|
    ensures ViewOf(Some(shorts)).labels[i] == "Short #" + NatToString(i + 1)
    ensures BodiesFrom(shorts, 0)[i] == ShortBody(shorts[i], i + 1)
  {
  }
}
