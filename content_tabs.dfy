/**
 * What the four content tabs under src/components/dashboard/content-tabs/
 * share: the choice between the generate view and the result view, the
 * rule that disables the generate button, the failure toast's text, and
 * the join of blocks that each end with a terminator, which the download
 * serialisers use. The copies of these rules in each tab are identical, so
 * they are stated once here.
 */
module ContentTabs {
  import opened Wrappers
  import opened Text
  import Store

  /** The content row a tab's query returns: the row's status and its data. */
  datatype TabContent<T> = TabContent(status: Store.Status, data: T)

  /** `!content || content.status !== 'completed'`: the generate view, else the result view. */
  predicate ShowsGenerateView<T>(content: Option<TabContent<T>>) {
    content.None? || content.value.status != Store.Completed
  }

  /** `profile?.credits_remaining ?? 0`. */
  function CreditsShown(credits: Option<int>): (c: int)
    ensures credits.Some? ==> c == credits.value
    ensures credits.None? ==> c == 0
  {
    credits.GetOr(0)
  }

  /** The generate button: disabled while the mutation runs or without a credit; a profile not yet loaded counts as none. */
  predicate GenerateDisabled(isPending: bool, credits: Option<int>) {
    isPending || CreditsShown(credits) < 1
  }

  /** The 'Insufficient credits' notice shows exactly when the credit test disables the button. */
  predicate ShowsInsufficientCredits(credits: Option<int>) {
    CreditsShown(credits) < 1
  }

  lemma GenerateNeedsLoadedCredit(isPending: bool, credits: Option<int>)
    ensures !GenerateDisabled(isPending, credits) <==> !isPending && credits.Some? && credits.value >= 1
    ensures ShowsInsufficientCredits(credits) ==> GenerateDisabled(isPending, credits)
  {
  }

  /** The failure toast's description: `error.message || 'Please try again.'`. */
  function FailureDescription(message: string): (r: string)
    ensures r != ""
    ensures message != "" ==> r == message
  {
    if message != "" then message else "Please try again."
  }

  /** Each block followed by the terminator `t`. */
  function Terminated(blocks: seq<string>, t: string): (r: seq<string>)
    ensures |r| == |blocks|
    ensures forall i :: 0 <= i < |blocks| ==> r[i] == blocks[i] + t
  {
    if blocks == [] then [] else [blocks[0] + t] + Terminated(blocks[1..], t)
  }

  /**
   * Joining terminated blocks with `sep` is joining the bare blocks with
   * `t + sep` and ending with `t`: a download is its copy-all text with one
   * more terminator.
   */
  lemma {:induction false} JoinTerminated(blocks: seq<string>, t: string, sep: string)
    requires |blocks| >= 1
    ensures Join(Terminated(blocks, t), sep) == Join(blocks, t + sep) + t
    decreases |blocks|
  {
    if |blocks| > 1 {
      JoinTerminated(blocks[1..], t, sep);
      assert Terminated(blocks, t)[1..] == Terminated(blocks[1..], t);
    }
  }
}
