/**
 * The click handler of the Link brick. The router is an outside library:
 * the result of `parseUrl(href)` and the resource of the router's current
 * URL are inputs, and the handler's effect is recorded as the router calls
 * it makes and the error it throws.
 */
module Links {
  import opened Wrappers

  /** What `parseUrl` reports: the target resource, or that parsing failed. */
  datatype ParsedUrl = ParsedUrl(resource: string, parseFailed: bool)

  /** A call into the router. */
  datatype RouterCall = Update(href: string) | Redirect(href: string)

  /** The effect of one click. */
  datatype ClickOutcome = ClickOutcome(defaultPrevented: bool, calls: seq<RouterCall>, thrown: Option<string>)

  /**
   * `onclick`: default navigation is always prevented; a failed parse throws
   * `Cannot find <href>` before any router call; otherwise exactly one call
   * is made with `href`: `update` when the target resource is the current
   * one, `redirect` when it is not or when there is no current URL.
   */
  function OnClick(href: string, parsed: ParsedUrl, current: Option<string>): (r: ClickOutcome)
    ensures r.defaultPrevented
    ensures r.thrown.Some? <==> parsed.parseFailed
    ensures parsed.parseFailed ==> r.calls == [] && r.thrown == Some("Cannot find " + href)
    ensures !parsed.parseFailed ==> |r.calls| == 1 && r.calls[0].href == href
    ensures !parsed.parseFailed ==> (r.calls[0].Update? <==> current == Some(parsed.resource))
  {
    if parsed.parseFailed then
      ClickOutcome(true, [], Some("Cannot find " + href))
    else if current == Some(parsed.resource) then
      ClickOutcome(true, [Update(href)], None)
    else
      ClickOutcome(true, [Redirect(href)], None)
  }

  /** Update and redirect exclude each other: no click ever makes both calls. */
  lemma NeverBoth(href: string, parsed: ParsedUrl, current: Option<string>)
    ensures !(Update(href) in OnClick(href, parsed, current).calls &&
              Redirect(href) in OnClick(href, parsed, current).calls)
    ensures |OnClick(href, parsed, current).calls| <= 1
  {
  }
}
