/**
 * The request-matching options that test recordings use: a pathname normaliser that
 * replaces the directory id and, when a predicate allows it, the subscription id with
 * fixed placeholders, merged under the caller's own options.
 */
module Recording {
  import opened Wrappers

  datatype IntegrationConfig = IntegrationConfig(directoryId: string, subscriptionId: Option<string>)

  /** `pathname.startsWith('//subscriptions')` is false: the path was not built from an exact resource id. */
  function DefaultShouldReplaceSubscriptionId(pathname: string): (r: bool)
    ensures !r <==> |pathname| >= 15 && pathname[..15] == "//subscriptions"
  {
    !("//subscriptions" <= pathname)
  }

  /** `pat` occurs in `s` at index `k`. */
  predicate OccursAt(s: string, pat: string, k: nat) {
    k + |pat| <= |s| && s[k..k + |pat|] == pat
  }

  /** The first index at or after `from` where `pat` occurs, as `indexOf` finds it. */
  function IndexOfFrom(s: string, pat: string, from: nat): (r: Option<nat>)
    requires from <= |s|
    ensures r.Some? ==> from <= r.value && OccursAt(s, pat, r.value)
    ensures r.Some? ==> forall k :: from <= k < r.value ==> !OccursAt(s, pat, k)
    ensures r.None? ==> forall k :: from <= k ==> !OccursAt(s, pat, k)
    decreases |s| - from
  {
    if from + |pat| > |s| then None
    else if s[from..from + |pat|] == pat then Some(from)
    else if from == |s| then None
    else IndexOfFrom(s, pat, from + 1)
  }

  /**
   * `s.replace(pat, rep)` with a string pattern: only the first occurrence is replaced
   * (an empty pattern occurs at index 0). The replacements used here hold no `$`.
   */
  function ReplaceFirst(s: string, pat: string, rep: string): (r: string)
    ensures (forall k: nat :: !OccursAt(s, pat, k)) ==> r == s
    ensures (exists k: nat :: OccursAt(s, pat, k)) ==> |r| + |pat| == |s| + |rep|
  {
    match IndexOfFrom(s, pat, 0)
    case None => s
    case Some(i) => s[..i] + rep + s[i + |pat|..]
  }

  /** Without an occurrence, replacing changes nothing. */
  lemma ReplaceFirstAbsent(s: string, pat: string, rep: string)
    requires forall k: nat :: !OccursAt(s, pat, k)
    ensures ReplaceFirst(s, pat, rep) == s
  {
  }

  /** The first occurrence, and only it, is replaced. */
  lemma ReplaceFirstAt(s: string, pat: string, rep: string, i: nat)
    requires OccursAt(s, pat, i)
    requires forall k: nat :: k < i ==> !OccursAt(s, pat, k)
    ensures ReplaceFirst(s, pat, rep) == s[..i] + rep + s[i + |pat|..]
  {
  }

  /** Replacing a pattern by itself leaves the string unchanged. */
  lemma ReplaceFirstSelf(s: string, pat: string)
    ensures ReplaceFirst(s, pat, pat) == s
  {
    var r := IndexOfFrom(s, pat, 0);
    if r.Some? {
      var i := r.value;
      assert OccursAt(s, pat, i);
      assert s == s[..i] + s[i..i + |pat|] + s[i + |pat|..];
    }
  }

  /** `config.subscriptionId || 'subscription-id'`. */
  function SubscriptionPattern(config: IntegrationConfig): (p: string)
    ensures Truthy(config.subscriptionId) ==> p == config.subscriptionId.value
    ensures !Truthy(config.subscriptionId) ==> p == "subscription-id"
  {
    if Truthy(config.subscriptionId) then config.subscriptionId.value else "subscription-id"
  }

  /** The directory-id step of the normaliser: the first occurrence becomes `directory-id`. */
  function ReplaceDirectoryId(config: IntegrationConfig, pathname: string): (r: string)
    ensures (forall k: nat :: !OccursAt(pathname, config.directoryId, k)) ==> r == pathname
    ensures forall i: nat ::
      (OccursAt(pathname, config.directoryId, i)
       && (forall k: nat :: k < i ==> !OccursAt(pathname, config.directoryId, k))) ==>
        (OccursAt(r, "directory-id", i) && r[..i] == pathname[..i])
  {
    ReplaceFirst(pathname, config.directoryId, "directory-id")
  }

  /** The `pathname` normaliser. */
  function NormalizePathname(
    config: IntegrationConfig, shouldReplaceSubscriptionId: string -> bool, pathname: string): (r: string)
    ensures !shouldReplaceSubscriptionId(ReplaceDirectoryId(config, pathname)) ==>
      r == ReplaceDirectoryId(config, pathname)
    ensures shouldReplaceSubscriptionId(ReplaceDirectoryId(config, pathname)) ==>
      r == ReplaceFirst(ReplaceDirectoryId(config, pathname), SubscriptionPattern(config), "subscription-id")
  {
    var p := ReplaceDirectoryId(config, pathname);
    if shouldReplaceSubscriptionId(p) then ReplaceFirst(p, SubscriptionPattern(config), "subscription-id")
    else p
  }

  /** A path without the directory id passes the first step unchanged. */
  lemma DirectoryStepKeepsOtherPaths(config: IntegrationConfig, pathname: string)
    requires forall k: nat :: !OccursAt(pathname, config.directoryId, k)
    ensures ReplaceDirectoryId(config, pathname) == pathname
  {
    ReplaceFirstAbsent(pathname, config.directoryId, "directory-id");
  }

  /** Without a subscription id, only the directory id is ever replaced. */
  lemma NoSubscriptionIdOnlyDirectory(
    config: IntegrationConfig, shouldReplaceSubscriptionId: string -> bool, pathname: string)
    requires !Truthy(config.subscriptionId)
    ensures NormalizePathname(config, shouldReplaceSubscriptionId, pathname) == ReplaceDirectoryId(config, pathname)
  {
    ReplaceFirstSelf(ReplaceDirectoryId(config, pathname), "subscription-id");
  }

  /** With the default predicate, a directory-normalised path that starts `//subscriptions` keeps its subscription id. */
  lemma ExactResourcePathKeepsSubscription(config: IntegrationConfig, pathname: string)
    requires "//subscriptions" <= ReplaceDirectoryId(config, pathname)
    ensures NormalizePathname(config, DefaultShouldReplaceSubscriptionId, pathname)
      == ReplaceDirectoryId(config, pathname)
  {
  }

  /** How polly matches a request's URL: on or off, or by its parts. */
  datatype UrlMatch = UrlEnabled(enabled: bool) | UrlParts(pathname: Option<string -> string>)

  /** The request-matching options; a field is `None` when the object does not have it. */
  datatype MatchRequestsBy = MatchRequestsBy(
    headers: Option<bool>, url: Option<UrlMatch>, body: Option<bool>,
    httpMethod: Option<bool>, order: Option<bool>)

  /** The normaliser's predicate: the caller's, or `defaultShouldReplaceSubscriptionId`. */
  function ShouldReplace(custom: Option<string -> bool>): (f: string -> bool)
    ensures custom.Some? ==> f == custom.value
    ensures custom.None? ==> f == DefaultShouldReplaceSubscriptionId
  {
    if custom.Some? then custom.value else DefaultShouldReplaceSubscriptionId
  }

  function GetMatchRequestsBy(
    config: IntegrationConfig, shouldReplaceSubscriptionId: Option<string -> bool>,
    options: Option<MatchRequestsBy>): (r: MatchRequestsBy)
    ensures options.None? || options.value.headers.None? ==> r.headers == Some(false)
    ensures options.Some? && options.value.headers.Some? ==> r.headers == options.value.headers
    ensures options.Some? && options.value.url.Some? ==> r.url == options.value.url
    ensures options.None? || options.value.url.None? ==>
      r.url.Some? && r.url.value.UrlParts? && r.url.value.pathname.Some?
      && (forall p :: r.url.value.pathname.value(p)
           == NormalizePathname(config, ShouldReplace(shouldReplaceSubscriptionId), p))
    ensures options.None? ==> r.body.None? && r.httpMethod.None? && r.order.None?
    ensures options.Some? ==>
      r.body == options.value.body && r.httpMethod == options.value.httpMethod && r.order == options.value.order
  {
    var pred := ShouldReplace(shouldReplaceSubscriptionId);
    var normalize := (pathname: string) => NormalizePathname(config, pred, pathname);
    // `{ headers: false, url: { pathname }, ...options }`: a field the options have wins.
    var given := if options.Some? then options.value else MatchRequestsBy(None, None, None, None, None);
    MatchRequestsBy(
      if given.headers.Some? then given.headers else Some(false),
      if given.url.Some? then given.url else Some(UrlParts(Some(normalize))),
      given.body, given.httpMethod, given.order)
  }
}
