/** The derived values one rate-limit card displays: percentages, colour tier, bar width,
    the relative reset time, the title and the description and documentation link. All of
    them are pure functions of the quota, the card's title and the current time. */
module RateLimitCard {
  import opened Wrappers
  import opened Text
  import opened RateLimitData

  // ---------------------------------------------------------------------------
  // Percentages and the colour tier
  // ---------------------------------------------------------------------------

  /** Per cent of the window used; 0 when the limit is not positive. Exact arithmetic. */
  function PercentageUsed(q: Quota): real {
    if q.limit > 0 then (q.used as real / q.limit as real) * 100.0 else 0.0
  }

  /** Per cent of the window remaining; 0 when the limit is not positive. */
  function PercentageRemaining(q: Quota): real {
    if q.limit > 0 then (q.remaining as real / q.limit as real) * 100.0 else 0.0
  }

  /** A zero (or negative) limit never divides: both percentages are 0. */
  lemma NoDivisionByZero(q: Quota)
    requires q.limit <= 0
    ensures PercentageUsed(q) == 0.0 && PercentageRemaining(q) == 0.0
  {
  }

  /** The bar colour: red, yellow or green. */
  datatype Tier = Red | Yellow | Green

  /** The tier as the card computes it, from the remaining percentage. */
  function ColorTier(q: Quota): Tier {
    var p := PercentageRemaining(q);
    if p < 20.0 then Red else if p < 50.0 then Yellow else Green
  }

  /** For a positive divisor, comparing `(n / d) * 100` with `k` is comparing `n * 100` with `k * d`. */
  lemma PercentBelow(n: int, d: int, k: int)
    requires d > 0
    ensures (n as real / d as real) * 100.0 < k as real <==> n * 100 < k * d
  {
  }

  /** The three tiers by integer cross-multiplication: red below 20 %, yellow from 20 %
      up to 50 %, green from 50 %. A non-positive limit counts as 0 % and so as red. */
  lemma TierByCrossMultiplication(q: Quota)
    ensures ColorTier(q) == Red <==> q.limit <= 0 || q.remaining * 100 < 20 * q.limit
    ensures ColorTier(q) == Yellow <==>
      q.limit > 0 && 20 * q.limit <= q.remaining * 100 < 50 * q.limit
    ensures ColorTier(q) == Green <==> q.limit > 0 && 50 * q.limit <= q.remaining * 100
  {
    if q.limit > 0 {
      PercentBelow(q.remaining, q.limit, 20);
      PercentBelow(q.remaining, q.limit, 50);
    }
  }

  /** The boundaries fall on the safer side: exactly 20 % is yellow, exactly 50 % is green. */
  lemma Boundaries(q: Quota)
    requires q.limit > 0
    ensures q.remaining * 100 == 20 * q.limit ==> ColorTier(q) == Yellow
    ensures q.remaining * 100 == 50 * q.limit ==> ColorTier(q) == Green
  {
    TierByCrossMultiplication(q);
  }

  /** Red, yellow, green ordered from most to least severe. */
  function Rank(t: Tier): nat {
    match t
    case Red => 0
    case Yellow => 1
    case Green => 2
  }

  /** With the limit fixed, more remaining requests never give a more severe tier. */
  lemma TierMonotone(q: Quota, q': Quota)
    requires q'.limit == q.limit && q.remaining <= q'.remaining
    ensures Rank(ColorTier(q)) <= Rank(ColorTier(q'))
  {
  }

  // ---------------------------------------------------------------------------
  // Progress bar
  // ---------------------------------------------------------------------------

  /** Width of the filled bar in per cent: the used percentage, capped at 100. */
  function BarWidth(q: Quota): (w: real)
    ensures w <= 100.0
    ensures w == PercentageUsed(q) || (w == 100.0 && PercentageUsed(q) > 100.0)
    ensures q.used >= 0 ==> w >= 0.0
  {
    var p := PercentageUsed(q);
    if p < 100.0 then p else 100.0
  }

  // ---------------------------------------------------------------------------
  // Relative reset time
  // ---------------------------------------------------------------------------

  /** `Math.ceil(ms / 60000)` for an integer number of milliseconds. */
  function CeilMinutes(ms: int): (m: int)
    ensures (m - 1) * 60000 < ms <= m * 60000
  {
    -((-ms) / 60000)
  }

  /** Whole minutes, rounded up, from `nowMs` to the reset time `reset` (in seconds). */
  function DiffMins(reset: int, nowMs: int): int {
    CeilMinutes(reset * 1000 - nowMs)
  }

  const ResettingSoon := "Resetting soon"

  /** The largest distance, in milliseconds, from the epoch that a `Date` can hold. */
  const MaxDateMs := 8_640_000_000_000_000

  /** `new Date(ms)` is a valid date; outside this range its time is NaN. */
  predicate IsValidDateMs(ms: int) {
    -MaxDateMs <= ms <= MaxDateMs
  }

  /** The text shows a minute count: the reset is a valid date and lies in the future.
      For an invalid date `diffMins` is NaN, and `NaN > 0` is false. */
  predicate ShowsCount(reset: int, nowMs: int) {
    IsValidDateMs(reset * 1000) && DiffMins(reset, nowMs) > 0
  }

  /** "in N min" / "in N mins" while the reset is in the future, else "Resetting soon". */
  function RelativeTime(reset: int, nowMs: int): string {
    var n := DiffMins(reset, nowMs);
    if ShowsCount(reset, nowMs) then "in " + NatToString(n) + " min" + (if n != 1 then "s" else "")
    else ResettingSoon
  }

  /** Reads back the minute count a relative-time text shows, if it shows one. */
  function ShownMinutes(text: string): Option<nat> {
    if |text| >= 8 && text[..3] == "in " && text[|text| - 4..] == " min"
       && AllDigits(text[3..|text| - 4])
    then Some(DigitsValue(text[3..|text| - 4]))
    else if |text| >= 9 && text[..3] == "in " && text[|text| - 5..] == " mins"
       && AllDigits(text[3..|text| - 5])
    then Some(DigitsValue(text[3..|text| - 5]))
    else None
  }

  /** The text shows exactly the rounded-up minute count when that is positive and the reset
      is a valid date, and "Resetting soon", which shows no count, otherwise: no zero or
      negative count appears. */
  lemma RelativeTimeShowsMinutes(reset: int, nowMs: int)
    ensures ShowsCount(reset, nowMs) ==>
      ShownMinutes(RelativeTime(reset, nowMs)) == Some(DiffMins(reset, nowMs) as nat)
    ensures !ShowsCount(reset, nowMs) ==>
      RelativeTime(reset, nowMs) == ResettingSoon && ShownMinutes(ResettingSoon) == None
  {
    var n := DiffMins(reset, nowMs);
    var text := RelativeTime(reset, nowMs);
    if ShowsCount(reset, nowMs) {
      var digits := NatToString(n);
      NatToStringRoundTrip(n);
      if n == 1 {
        assert text == "in " + digits + " min";
        assert text[3..|text| - 4] == digits;
      } else {
        assert text == "in " + digits + " mins";
        assert text[|text| - 4] == 'm';
        assert text[|text| - 4..][0] != " min"[0];
        assert text[3..|text| - 5] == digits;
      }
    } else {
      assert ResettingSoon[..3][0] != "in "[0];
    }
  }

  /** "min" is singular exactly when the count is 1. */
  lemma RelativeTimePlural(reset: int, nowMs: int)
    requires ShowsCount(reset, nowMs)
    ensures var text := RelativeTime(reset, nowMs);
      text[|text| - 1] == 's' <==> DiffMins(reset, nowMs) != 1
  {
  }

  /** The reset fifteen minutes ahead reads "in 15 mins"; one minute ahead, "in 1 min";
      a reset in the past, "Resetting soon". */
  lemma RelativeTimeExamples(nowSec: int)
    requires 0 <= nowSec <= 8_000_000_000_000
    ensures RelativeTime(nowSec + 15 * 60, nowSec * 1000) == "in 15 mins"
    ensures RelativeTime(nowSec + 60, nowSec * 1000) == "in 1 min"
    ensures RelativeTime(nowSec - 1, nowSec * 1000) == ResettingSoon
  {
  }

  // ---------------------------------------------------------------------------
  // Title, description and documentation link
  // ---------------------------------------------------------------------------

  /** `title.replace(/_/g, ' ')`: every underscore becomes a space. */
  function DisplayTitle(title: string): (r: string)
    ensures |r| == |title|
    ensures forall i :: 0 <= i < |r| ==> r[i] != '_'
    ensures forall i :: 0 <= i < |r| ==> r[i] == (if title[i] == '_' then ' ' else title[i])
  {
    if title == [] then []
    else [if title[0] == '_' then ' ' else title[0]] + DisplayTitle(title[1..])
  }

  const DefaultDescription := "GitHub API rate limit"

  /** The tooltip texts, by resource name. */
  const Descriptions: map<string, string> := map[
    "core" := "General API calls including most endpoints",
    "search" := "Search API for repositories, users, and code",
    "graphql" := "GraphQL API queries and mutations",
    "integration_manifest" := "Integration manifest API",
    "source_import" := "Source import API",
    "code_scanning_upload" := "Code scanning upload API",
    "code_scanning_autofix" := "Code scanning autofix API",
    "actions_runner_registration" := "Actions runner registration API",
    "scim" := "SCIM API for user management",
    "dependency_snapshots" := "Dependency snapshots API",
    "dependency_sbom" := "Dependency SBOM API",
    "audit_log" := "Audit log API",
    "audit_log_streaming" := "Audit log streaming API",
    "code_search" := "Code search API"
  ]

  /** The documentation pages, by resource name. */
  const Links: map<string, string> := map[
    "core" := "https://docs.github.com/en/rest/overview/resources-in-the-rest-api#rate-limiting",
    "search" := "https://docs.github.com/en/rest/search",
    "graphql" := "https://docs.github.com/en/graphql/overview/rate-limits-and-node-limits-for-the-graphql-api",
    "integration_manifest" := "https://docs.github.com/en/apps/creating-github-apps/setting-up-a-github-app/creating-a-github-app-from-a-manifest",
    "source_import" := "https://docs.github.com/en/migrations/using-githubs-migrations-api/migrating-repositories-to-github",
    "code_scanning_upload" := "https://docs.github.com/en/code-security/code-scanning",
    "code_scanning_autofix" := "https://docs.github.com/en/code-security/code-scanning",
    "actions_runner_registration" := "https://docs.github.com/en/actions/hosting-your-own-runners",
    "scim" := "https://docs.github.com/en/enterprise-cloud@latest/rest/scim",
    "dependency_snapshots" := "https://docs.github.com/en/code-security/supply-chain-security/understanding-your-software-supply-chain/about-dependency-review",
    "dependency_sbom" := "https://docs.github.com/en/code-security/supply-chain-security/understanding-your-software-supply-chain/about-dependency-review",
    "audit_log" := "https://docs.github.com/en/enterprise-cloud@latest/rest/enterprise-admin/audit-log",
    "audit_log_streaming" := "https://docs.github.com/en/enterprise-cloud@latest/rest/enterprise-admin/audit-log",
    "code_search" := "https://docs.github.com/en/search-github/github-code-search"
  ]

  /** `descriptions[title] || "GitHub API rate limit"`: an absent or empty entry falls back. */
  function Description(title: string): string {
    if title in Descriptions && Descriptions[title] != "" then Descriptions[title] else DefaultDescription
  }

  /** The documentation link, shown when `links[title]` is present and non-empty. */
  function DocLink(title: string): Option<string> {
    if title in Links && Links[title] != "" then Some(Links[title]) else None
  }

  /** Every entry of both tables is non-empty, so the fallbacks apply exactly to the missing keys. */
  lemma TablesHaveNoEmptyEntries(title: string)
    ensures title in Descriptions ==> Descriptions[title] != ""
    ensures title in Links ==> Links[title] != ""
  {
  }

  /** The description is the table's entry for a known resource and the fallback otherwise;
      a link is shown exactly for the resources the link table names. */
  lemma LookupWithFallback(title: string)
    ensures title in Descriptions ==> Description(title) == Descriptions[title]
    ensures title !in Descriptions ==> Description(title) == DefaultDescription
    ensures DocLink(title).Some? <==> title in Links
    ensures DocLink(title).Some? ==> DocLink(title).value == Links[title]
  {
  }

  /** Both tables cover the same resources. */
  lemma SameKeys()
    ensures Descriptions.Keys == Links.Keys
  {
  }

  // ---------------------------------------------------------------------------
  // The card as a whole
  // ---------------------------------------------------------------------------

  /** What one card shows, leaving out markup and the locale-formatted clock time. */
  datatype Card = Card(
    heading: string, description: string, docLink: Option<string>,
    remaining: int, limit: int, used: int,
    tier: Tier, barWidth: real, relativeTime: string)

  function RenderCard(title: string, q: Quota, nowMs: int): (c: Card)
    ensures |c.heading| == |title| && c.barWidth <= 100.0
  {
    Card(DisplayTitle(title), Description(title), DocLink(title),
         q.remaining, q.limit, q.used,
         ColorTier(q), BarWidth(q), RelativeTime(q.reset, nowMs))
  }
}
