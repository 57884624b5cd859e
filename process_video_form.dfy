/**
 * src/components/dashboard/ProcessVideoForm.tsx: the form that submits a
 * YouTube URL. Its check is the pattern of the server's schema without the
 * schema's URI check, a test anchored at the start only: an optional
 * `http://` or `https://`, an optional `www.`, one of the four prefixes and
 * eleven `[\w-]` characters, with anything after them accepted. Toasts are
 * recorded as the outcome of a submission; the profile is what the profile
 * query holds (None until it loads), and the create mutation is an oracle.
 */
module ProcessVideoForm {
  import opened Wrappers
  import opened Text
  import opened ClientTypes
  import VideoCard

  // ---- validateYoutubeUrl ----

  const Schemes: seq<string> := ["", "http://", "https://"]
  const Subdomains: seq<string> := ["", "www."]

  /** The pattern matches with this scheme, this subdomain and prefix number `j`. */
  predicate MatchesWith(url: string, scheme: string, sub: string, j: nat) {
    scheme in Schemes && sub in Subdomains && j < |VideoCard.ThumbnailPrefixes|
    && StartsWith(url, scheme + sub) && VideoCard.IdAfter(url, |scheme| + |sub|, VideoCard.ThumbnailPrefixes[j])
  }

  /** The length of the scheme the greedy `(https?:\/\/)?` takes. */
  function SchemeLength(url: string): nat {
    if StartsWith(url, "https://") then 8 else if StartsWith(url, "http://") then 7 else 0
  }

  /** The length the greedy `(www\.)?` takes at `p`. */
  function SubdomainLength(url: string, p: nat): nat {
    if OccursAt(url, "www.", p) then 4 else 0
  }

  /** `youtubeRegex.test(url)`. */
  function ValidateYoutubeUrl(url: string): (r: bool)
    ensures r <==> exists scheme, sub, j :: MatchesWith(url, scheme, sub, j)
  {
    var p := SchemeLength(url) + SubdomainLength(url, SchemeLength(url));
    GreedyPartsMatch(url);
    forall scheme, sub, j | MatchesWith(url, scheme, sub, j)
      ensures VideoCard.IdAtFrom(url, p, 0).Some?
    {
      GreedyPartsAreTheOnlyOnes(url, scheme, sub, j);
    }
    VideoCard.IdAtFrom(url, p, 0).Some?
  }

  /** The greedy choices spell a scheme and a subdomain of the pattern. */
  lemma GreedyPartsMatch(url: string)
    ensures var s := SchemeLength(url);
      var scheme := url[..s];
      var sub := url[s..s + SubdomainLength(url, s)];
      scheme in Schemes && sub in Subdomains && StartsWith(url, scheme + sub)
      && (VideoCard.IdAtFrom(url, s + SubdomainLength(url, s), 0).Some? ==>
            exists j :: MatchesWith(url, scheme, sub, j))
  {
    var s := SchemeLength(url);
    var w := SubdomainLength(url, s);
    assert url[..s] + url[s..s + w] == url[..s + w];
    if s == 8 { assert url[..8] == "https://"; }
    if s == 7 { assert url[..7] == "http://"; }
    if s == 0 { assert url[..0] == ""; }
    if w == 4 { assert url[s..s + 4] == "www."; } else { assert url[s..s] == ""; }
    assert url[..s] in Schemes;
    assert url[s..s + w] in Subdomains;
    assert StartsWith(url, url[..s] + url[s..s + w]);
    if VideoCard.IdAtFrom(url, s + w, 0).Some? {
      VideoCard.IdAtFromCaptures(url, s + w, 0);
      var j :| 0 <= j < |VideoCard.ThumbnailPrefixes| && VideoCard.IdAfter(url, s + w, VideoCard.ThumbnailPrefixes[j]);
      assert MatchesWith(url, url[..s], url[s..s + w], j);
    }
  }

  /**
   * Any way the pattern matches uses the greedy scheme and subdomain: no
   * prefix begins with `h` or `w`, so a shorter choice leaves a character
   * no alternative can start with.
   */
  lemma GreedyPartsAreTheOnlyOnes(url: string, scheme: string, sub: string, j: nat)
    requires MatchesWith(url, scheme, sub, j)
    ensures |scheme| == SchemeLength(url) && |sub| == SubdomainLength(url, |scheme|)
    ensures VideoCard.IdAtFrom(url, SchemeLength(url) + SubdomainLength(url, SchemeLength(url)), 0).Some?
  {
    var alt := VideoCard.ThumbnailPrefixes[j];
    var p := |scheme| + |sub|;
    CharOfOccurrence(url, alt, p, 0);
    assert alt[0] == 'y';
    SchemeIsGreedy(url, scheme, sub);
    SubdomainIsGreedy(url, scheme, sub);
    VideoCard.IdAtFromCaptures(url, p, 0);
  }

  /** A scheme followed by a subdomain and a `y` is the one the greedy `(https?:\/\/)?` takes. */
  lemma SchemeIsGreedy(url: string, scheme: string, sub: string)
    requires scheme in Schemes && sub in Subdomains && StartsWith(url, scheme + sub)
    requires |scheme| + |sub| < |url| && url[|scheme| + |sub|] == 'y'
    ensures SchemeLength(url) == |scheme|
  {
    if scheme == "" {
      if sub == "www." { CharOfOccurrence(url, scheme + sub, 0, 0); }
      if StartsWith(url, "https://") { CharOfOccurrence(url, "https://", 0, 0); }
      if StartsWith(url, "http://") { CharOfOccurrence(url, "http://", 0, 0); }
    } else if scheme == "http://" {
      CharOfOccurrence(url, scheme + sub, 0, 4);
      if StartsWith(url, "https://") { CharOfOccurrence(url, "https://", 0, 4); }
    } else {
      assert url[..8] == (scheme + sub)[..8];
    }
  }

  /** A subdomain followed by a `y` is the one the greedy `(www\.)?` takes. */
  lemma SubdomainIsGreedy(url: string, scheme: string, sub: string)
    requires sub in Subdomains && StartsWith(url, scheme + sub)
    requires |scheme| + |sub| < |url| && url[|scheme| + |sub|] == 'y'
    ensures SubdomainLength(url, |scheme|) == |sub|
  {
    if sub == "" {
      if OccursAt(url, "www.", |scheme|) { CharOfOccurrence(url, "www.", |scheme|, 0); }
    } else {
      assert url[|scheme|..|scheme| + 4] == (scheme + sub)[|scheme|..|scheme| + 4];
    }
  }

  /** A URL the form accepts always has a card thumbnail: the card's pattern is found where the form's ends. */
  lemma AcceptedHasThumbnail(url: string)
    requires ValidateYoutubeUrl(url)
    ensures VideoCard.GetYoutubeThumbnail(url) != ""
  {
    var scheme, sub, j :| MatchesWith(url, scheme, sub, j);
    var p := |scheme| + |sub|;
    assert VideoCard.MatchesAt(url, p);
  }

  // ---- handleSubmit ----

  /** How a submission ends; the toasts are named by their titles. */
  datatype Outcome =
    | Refused(message: string)          // shown under the input
    | NoCreditsToast                    // 'No credits remaining'
    | QueuedToast                       // 'Video queued!'
    | FailedToast(description: string) // 'Failed to process video'

  /** The mutation: the created row, or the message of what it threw. */
  type Create = string -> Result<ClientVideo, string>

  /** The order of the checks: blank input, the pattern, a loaded profile without credits, then the mutation. */
  function SubmitOutcome(youtubeUrl: string, credits: Option<int>, create: Create): (o: Outcome)
    ensures IsBlank(youtubeUrl) ==> o == Refused("Please enter a YouTube URL")
    ensures !IsBlank(youtubeUrl) && !ValidateYoutubeUrl(youtubeUrl) ==> o == Refused("Please enter a valid YouTube URL")
    ensures o.NoCreditsToast? <==>
      !IsBlank(youtubeUrl) && ValidateYoutubeUrl(youtubeUrl) && credits.Some? && credits.value <= 0
    ensures o.QueuedToast? <==>
      !IsBlank(youtubeUrl) && ValidateYoutubeUrl(youtubeUrl) && !(credits.Some? && credits.value <= 0)
      && create(youtubeUrl).Ok?
    ensures o.FailedToast? ==>
      o.description == if create(youtubeUrl).error != "" then create(youtubeUrl).error else "Please try again later."
  {
    TrimEmptyIffBlank(youtubeUrl);
    if Trim(youtubeUrl) == "" then Refused("Please enter a YouTube URL")
    else if !ValidateYoutubeUrl(youtubeUrl) then Refused("Please enter a valid YouTube URL")
    else if credits.Some? && credits.value <= 0 then NoCreditsToast
    else match create(youtubeUrl)
      case Ok(_) => QueuedToast
      case Err(m) => FailedToast(if m != "" then m else "Please try again later.")
  }

  /** The mutation is reached only for a URL that passes the pattern. */
  lemma MutationOnlyForValidUrls(youtubeUrl: string, credits: Option<int>, create: Create)
    requires SubmitOutcome(youtubeUrl, credits, create).QueuedToast? || SubmitOutcome(youtubeUrl, credits, create).FailedToast?
    ensures ValidateYoutubeUrl(youtubeUrl) && !IsBlank(youtubeUrl)
    ensures credits.None? || credits.value > 0
  {
  }

  /** The submit button is disabled while the mutation runs or the input is blank. */
  predicate SubmitDisabled(isPending: bool, youtubeUrl: string) {
    isPending || Trim(youtubeUrl) == ""
  }

  /** The form's state: the input text and the message under it ('' for none). */
  class Form {
    var youtubeUrl: string
    var error: string

    constructor ()
      ensures youtubeUrl == "" && error == ""
    {
      youtubeUrl := "";
      error := "";
    }

    /** `onChange`: the new text, and the message cleared. */
    method Change(value: string)
      modifies this
      ensures youtubeUrl == value && error == ""
    {
      youtubeUrl := value;
      error := "";
    }

    /**
     * `handleSubmit`: clears the message, then runs the checks; a refusal
     * shows its message and keeps the input; only a successful mutation
     * clears the input.
     */
    method Submit(credits: Option<int>, create: Create) returns (o: Outcome)
      modifies this
      ensures o == SubmitOutcome(old(youtubeUrl), credits, create)
      ensures o.Refused? ==> error == o.message && youtubeUrl == old(youtubeUrl)
      ensures !o.Refused? ==> error == ""
      ensures o.QueuedToast? ==> youtubeUrl == ""
      ensures !o.QueuedToast? ==> youtubeUrl == old(youtubeUrl)
    {
      error := "";
      TrimEmptyIffBlank(youtubeUrl);
      if Trim(youtubeUrl) == "" {
        error := "Please enter a YouTube URL";
        return Refused(error);
      }
      if !ValidateYoutubeUrl(youtubeUrl) {
        error := "Please enter a valid YouTube URL";
        return Refused(error);
      }
      if credits.Some? && credits.value <= 0 {
        return NoCreditsToast;
      }
      var created := create(youtubeUrl);
      if created.Err? {
        return FailedToast(if created.error != "" then created.error else "Please try again later.");
      }
      youtubeUrl := "";
      return QueuedToast;
    }
  }

  /** A blank input can never be submitted: the button is disabled and the check refuses it. */
  lemma BlankNeverSubmitted(youtubeUrl: string, isPending: bool, credits: Option<int>, create: Create)
    requires IsBlank(youtubeUrl)
    ensures SubmitDisabled(isPending, youtubeUrl)
    ensures SubmitOutcome(youtubeUrl, credits, create) == Refused("Please enter a YouTube URL")
  {
    TrimEmptyIffBlank(youtubeUrl);
  }
}
