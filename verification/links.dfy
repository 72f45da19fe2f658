/** The scheme rule applied before a link is handed to the system browser. */
module Links {
  import opened Wrappers
  import opened Text

  /** `u.startsWith('http') ? u : `https://${u}``. */
  function HttpPrefixed(u: string): (r: string)
    ensures StartsWith(r, "http")
    ensures r == u || r == "https://" + u
    ensures r == u <==> StartsWith(u, "http")
  {
    if StartsWith(u, "http") then u else "https://" + u
  }

  /** Prefixing twice is prefixing once. */
  lemma HttpPrefixedIdempotent(u: string)
    ensures HttpPrefixed(HttpPrefixed(u)) == HttpPrefixed(u)
  {
  }

  /**
   * The link a play button opens: nothing without a (non-empty) link,
   * otherwise the link with the "https://" scheme added unless it starts with "http".
   */
  function OpenTarget(link: Option<string>): (r: Option<string>)
    ensures r.Some? <==> Truthy(link)
    ensures r.Some? ==> StartsWith(r.value, "http")
    ensures r.Some? ==> |r.value| >= |link.value| && r.value[|r.value| - |link.value|..] == link.value
  {
    if Truthy(link) then Some(HttpPrefixed(link.value)) else None
  }

  /**
   * What `Linking.openURL` receives after a press: the target, when there is
   * one and the system reports that it can open it (`canOpen`, the answer of
   * `Linking.canOpenURL`).
   */
  function Opened(link: Option<string>, canOpen: bool): (r: Option<string>)
    ensures r.Some? <==> Truthy(link) && canOpen
    ensures r.Some? ==> r == OpenTarget(link)
  {
    if canOpen then OpenTarget(link) else None
  }
}
