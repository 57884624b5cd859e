/**
 * src/components/dashboard/content-tabs/TwitterTab.tsx: the thread the
 * "Copy Entire Thread" button writes, the tweet cards and the hashtag row.
 * A missing or null field of the content data is None. Clipboard writes,
 * toasts and the "copied" flags are browser effects and are not modelled.
 * Lengths are counted in characters here, where JavaScript counts UTF-16
 * code units.
 */
module TwitterTab {
  import opened Wrappers
  import opened Text
  import opened ContentTabs

  datatype ThreadData = ThreadData(tweets: Option<seq<string>>, hashtags: Option<seq<string>>)

  const ThreadSeparator: string := "\n\n---\n\n"

  /** The tweets from position `k` of a thread of `n`, each headed by `position/n`. */
  function NumberedFrom(tweets: seq<string>, k: nat, n: nat): (r: seq<string>)
    ensures |r| == |tweets|
    ensures forall i :: 0 <= i < |tweets| ==>
      r[i] == NatToString(k + i + 1) + "/" + NatToString(n) + "\n\n" + tweets[i]
  {
    if tweets == [] then []
    else [NatToString(k + 1) + "/" + NatToString(n) + "\n\n" + tweets[0]] + NumberedFrom(tweets[1..], k + 1, n)
  }

  /** The text the button copies. */
  function ThreadText(tweets: seq<string>): string {
    Join(NumberedFrom(tweets, 0, |tweets|), ThreadSeparator)
  }

  /** `copyEntireThread`: nothing is written when the tweets field is missing; an empty list, being truthy, writes ''. */
  function CopyEntireThread(data: Option<ThreadData>): (r: Option<string>)
    ensures r.None? <==> data.None? || data.value.tweets.None?
    ensures r.Some? ==> r.value == ThreadText(data.value.tweets.value)
  {
    if data.None? || data.value.tweets.None? then None else Some(ThreadText(data.value.tweets.value))
  }

  /** A thread of n tweets holds its n numbered blocks and n - 1 separators. */
  lemma ThreadLength(tweets: seq<string>)
    requires |tweets| >= 1
    ensures |ThreadText(tweets)| == TotalLength(NumberedFrom(tweets, 0, |tweets|)) + (|tweets| - 1) * |ThreadSeparator|
  {
    JoinLength(NumberedFrom(tweets, 0, |tweets|), ThreadSeparator);
  }

  /** The thread starts with the first tweet's block: `1/n`, a blank line, the tweet. */
  lemma ThreadStartsWithFirstTweet(tweets: seq<string>)
    requires |tweets| >= 1
    ensures StartsWith(ThreadText(tweets), NatToString(1) + "/" + NatToString(|tweets|) + "\n\n" + tweets[0])
  {
    JoinStartsWithFirst(NumberedFrom(tweets, 0, |tweets|), ThreadSeparator);
  }

  /** A join begins with its first piece. */
  lemma JoinStartsWithFirst(xs: seq<string>, sep: string)
    requires |xs| >= 1
    ensures StartsWith(Join(xs, sep), xs[0])
  {
    if |xs| > 1 {
      var rest := sep + Join(xs[1..], sep);
      assert Join(xs, sep) == xs[0] + rest;
      assert (xs[0] + rest)[..|xs[0]|] == xs[0];
    }
  }

  /** An empty tweet list still copies, and copies ''. */
  lemma EmptyThreadCopiesEmptyText(hashtags: Option<seq<string>>)
    ensures CopyEntireThread(Some(ThreadData(Some([]), hashtags))) == Some("")
  {
  }

  /** One tweet card: its badge and its character counter. */
  datatype TweetCard = TweetCard(badge: string, text: string, counter: string)

  function CardsFrom(tweets: seq<string>, k: nat, total: nat): (r: seq<TweetCard>)
    ensures |r| == |tweets|
    ensures forall i :: 0 <= i < |tweets| ==>
      r[i] == TweetCard("Tweet " + NatToString(k + i + 1) + "/" + NatToString(total), tweets[i],
                        "Characters: " + NatToString(|tweets[i]|) + "/280")
  {
    if tweets == [] then []
    else [TweetCard("Tweet " + NatToString(k + 1) + "/" + NatToString(total), tweets[0],
                    "Characters: " + NatToString(|tweets[0]|) + "/280")]
         + CardsFrom(tweets[1..], k + 1, total)
  }

  /** The result view: `tweets || []` as cards, and the hashtag row only for a non-empty list. */
  datatype ResultView = ResultView(heading: string, cards: seq<TweetCard>, hashtags: Option<seq<string>>)

  function ResultOf(data: ThreadData): (v: ResultView)
    ensures var tweets := data.tweets.GetOr([]);
      |v.cards| == |tweets| && v.heading == "Twitter Thread (" + NatToString(|tweets|) + " tweets)"
    ensures v.hashtags.Some? <==> data.hashtags.Some? && |data.hashtags.value| > 0
    ensures v.hashtags.Some? ==> v.hashtags == data.hashtags
  {
    var tweets := data.tweets.GetOr([]);
    var hashtags := data.hashtags.GetOr([]);
    ResultView("Twitter Thread (" + NatToString(|tweets|) + " tweets)", CardsFrom(tweets, 0, |tweets|),
               if |hashtags| > 0 then Some(hashtags) else None)
  }

  /** The i-th card's badge counts from one up to the length of the list shown. */
  lemma CardBadges(data: ThreadData, i: nat)
    requires i < |data.tweets.GetOr([])|
    ensures ResultOf(data).cards[i].badge
            == "Tweet " + NatToString(i + 1) + "/" + NatToString(|data.tweets.GetOr([])|)
  {
  }
}
