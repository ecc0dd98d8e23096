/**
 * The analytics wrapper of src/lib/analytics/index.ts: the initialization flag, the bounded
 * polling for the analytics object, page naming and the merging of event properties.
 */
module Analytics {
  const MaxAttempts: nat := 10
  const Source := "web_app"
  const HomePath := "/"
  const StartPagePath := "/comecarpt"

  /** Event properties; their values are taken as text. */
  type Properties = map<string, string>

  /** Whether the analytics object is there at check i; checks past the given ones find none. */
  function Present(present: seq<bool>, i: nat): bool {
    i < |present| && present[i]
  }

  /** Some check among the first ten finds the analytics object. */
  predicate ReadyWithin(present: seq<bool>) {
    exists i :: 0 <= i < MaxAttempts && Present(present, i)
  }

  /** The number of checks the polling makes: up to and including the first success, and ten at most. */
  function ChecksNeeded(present: seq<bool>): (n: nat)
    ensures 1 <= n <= MaxAttempts
    ensures forall i :: 0 <= i < n - 1 ==> !Present(present, i)
    ensures Present(present, n - 1) || n == MaxAttempts
  {
    ChecksFrom(present, 0)
  }

  function ChecksFrom(present: seq<bool>, i: nat): (n: nat)
    requires i < MaxAttempts
    ensures i + 1 <= n <= MaxAttempts
    ensures forall j :: i <= j < n - 1 ==> !Present(present, j)
    ensures Present(present, n - 1) || n == MaxAttempts
    decreases MaxAttempts - i
  {
    if Present(present, i) || i + 1 == MaxAttempts then i + 1 else ChecksFrom(present, i + 1)
  }

  /** The polling succeeds exactly when its last check found the object. */
  lemma ReadyIffLastCheckSucceeds(present: seq<bool>)
    ensures ReadyWithin(present) <==> Present(present, ChecksNeeded(present) - 1)
  {
  }

  /** The page name sent with a page view. */
  function PageName(path: string): (r: string)
    ensures path == HomePath ==> r == "Homepage Viewed"
    ensures path == StartPagePath ==> r == "Portuguese Start Page Viewed"
    ensures path != HomePath && path != StartPagePath ==> r == "Page Viewed"
  {
    if path == HomePath then "Homepage Viewed"
    else if path == StartPagePath then "Portuguese Start Page Viewed"
    else "Page Viewed"
  }

  /** A caller property given with a non-empty value. */
  predicate Given(props: Properties, key: string) {
    key in props && props[key] != ""
  }

  /** The page's path: the caller's `path` when given, the browser location's otherwise. */
  function PagePath(props: Properties, pathname: string): (r: string)
    ensures Given(props, "path") ==> r == props["path"]
    ensures !Given(props, "path") ==> r == pathname
  {
    if Given(props, "path") then props["path"] else pathname
  }

  /** The keys an event's own defaults claim. */
  const EventDefaults: set<string> := {"timestamp", "environment", "source"}

  /** `trackEvent`'s properties: the caller's, then the defaults, so the defaults win. */
  function EventProperties(props: Properties, timestamp: string, environment: string): (r: Properties)
    ensures r.Keys == props.Keys + EventDefaults
    ensures r["timestamp"] == timestamp && r["environment"] == environment && r["source"] == Source
    ensures forall k :: k in props && k !in EventDefaults ==> r[k] == props[k]
  {
    props + map["timestamp" := timestamp, "environment" := environment, "source" := Source]
  }

  /** `identifyUser`'s traits: the caller's, then the defaults, so the defaults win. */
  function IdentifyTraits(traits: Properties, lastIdentified: string, environment: string): (r: Properties)
    ensures r.Keys == traits.Keys + {"lastIdentified", "environment", "source"}
    ensures r["lastIdentified"] == lastIdentified && r["environment"] == environment && r["source"] == Source
    ensures forall k :: k in traits && k !in {"lastIdentified", "environment", "source"} ==> r[k] == traits[k]
  {
    traits + map["lastIdentified" := lastIdentified, "environment" := environment, "source" := Source]
  }

  /** What the browser shows of the current page. */
  datatype Location = Location(href: string, pathname: string, search: string, referrer: string, title: string)

  /** The keys of a page view's defaults. */
  const PageDefaults: set<string> := {"url", "path", "referrer", "title", "search", "timestamp", "environment", "source"}

  function PageDefaultsFor(loc: Location, path: string, timestamp: string, environment: string, format: string -> string): (r: Properties)
    ensures r.Keys == PageDefaults
  {
    map["url" := format(loc.href), "path" := path, "referrer" := loc.referrer, "title" := loc.title,
        "search" := loc.search, "timestamp" := timestamp, "environment" := environment, "source" := Source]
  }

  /**
   * `trackPage`'s properties: the defaults, then the caller's, so the caller wins; a given `url`
   * is formatted again. `format` stands for `formatUrl`.
   */
  function PageProperties(props: Properties, loc: Location, timestamp: string, environment: string,
                          format: string -> string): (r: Properties)
    ensures r.Keys == props.Keys + PageDefaults
    ensures forall k :: k in props && k != "url" ==> r[k] == props[k]
    ensures forall k :: k in PageDefaults && k !in props ==>
      r[k] == PageDefaultsFor(loc, PagePath(props, loc.pathname), timestamp, environment, format)[k]
    ensures Given(props, "url") ==> r["url"] == format(props["url"])
    ensures !Given(props, "url") && "url" in props ==> r["url"] == ""
    ensures "url" !in props ==> r["url"] == format(loc.href)
  {
    var merged := PageDefaultsFor(loc, PagePath(props, loc.pathname), timestamp, environment, format) + props;
    if Given(props, "url") then merged["url" := format(props["url"])] else merged
  }

  /**
   * An empty caller `path` is overridden for the page name by the location's path, but is still
   * sent as the `path` property.
   */
  lemma EmptyPathNamesByLocation(loc: Location, timestamp: string, environment: string, format: string -> string)
    requires loc.pathname == HomePath
    ensures var props := map["path" := ""];
      PageName(PagePath(props, loc.pathname)) == "Homepage Viewed" &&
      PageProperties(props, loc, timestamp, environment, format)["path"] == ""
  {
  }

  datatype Effect =
    | Track(event: string, properties: Properties)
    | Page(name: string, properties: Properties)
    | Identify(userId: string, traits: Properties)
    | ErrorToast(message: string)

  /** The module's `analyticsInitialized` flag. */
  class Client {
    var initialized: bool

    constructor ()
      ensures !initialized
    {
      initialized := false;
    }

    /** `initializeAnalytics`: succeeds and sets the flag only when the window and its analytics object exist. */
    method Initialize(hasWindow: bool, hasAnalytics: bool) returns (ok: bool)
      modifies this
      ensures ok <==> hasWindow && hasAnalytics
      ensures initialized == (old(initialized) || ok)
    {
      if !hasWindow || !hasAnalytics {
        return false;
      }
      initialized := true;
      ok := true;
    }

    /**
     * `waitForAnalytics` in a browser: resolves at once when the flag is set; otherwise checks
     * up to ten times, resolving at the first check that finds the analytics object and
     * rejecting after the tenth that does not. `present[i]` says what check i finds.
     */
    method WaitForAnalytics(present: seq<bool>) returns (resolved: bool, checks: nat)
      modifies this
      ensures old(initialized) ==> resolved && checks == 0
      ensures !old(initialized) ==> checks == ChecksNeeded(present) && (resolved <==> ReadyWithin(present))
      ensures initialized == (old(initialized) || resolved)
    {
      if initialized {
        return true, 0;
      }
      resolved := false;
      checks := 0;
      while !resolved && checks < MaxAttempts
        invariant 0 <= checks <= MaxAttempts
        invariant initialized == resolved
        invariant resolved ==> checks >= 1 && Present(present, checks - 1)
        invariant forall i :: 0 <= i < checks && !(resolved && i == checks - 1) ==> !Present(present, i)
        decreases MaxAttempts - checks
      {
        checks := checks + 1;
        resolved := Initialize(true, Present(present, checks - 1));
      }
    }

    /**
     * `trackEvent`: after the wait, one track call with the merged properties. A wait that
     * rejects, or a `track` call that throws (`callThrows`), is caught and only reported; a call
     * that throws delivers nothing.
     */
    method TrackEvent(eventName: string, props: Properties, present: seq<bool>, timestamp: string, environment: string,
                      callThrows: bool)
      returns (effects: seq<Effect>)
      modifies this
      ensures (old(initialized) || ReadyWithin(present)) && !callThrows ==>
        effects == [Track(eventName, EventProperties(props, timestamp, environment))]
      ensures !(old(initialized) || ReadyWithin(present)) || callThrows ==>
        effects == [ErrorToast("Analytics Error: Failed to track " + eventName)]
      ensures initialized == (old(initialized) || ReadyWithin(present))
    {
      var ready, _ := WaitForAnalytics(present);
      if ready && !callThrows {
        effects := [Track(eventName, EventProperties(props, timestamp, environment))];
      } else {
        effects := [ErrorToast("Analytics Error: Failed to track " + eventName)];
      }
    }

    /** `identifyUser`: after the wait, one identify call with the merged traits; a rejected wait or a throwing call is only reported. */
    method IdentifyUser(userId: string, traits: Properties, present: seq<bool>, lastIdentified: string, environment: string,
                        callThrows: bool)
      returns (effects: seq<Effect>)
      modifies this
      ensures (old(initialized) || ReadyWithin(present)) && !callThrows ==>
        effects == [Identify(userId, IdentifyTraits(traits, lastIdentified, environment))]
      ensures !(old(initialized) || ReadyWithin(present)) || callThrows ==>
        effects == [ErrorToast("Analytics Error: Failed to identify user")]
      ensures initialized == (old(initialized) || ReadyWithin(present))
    {
      var ready, _ := WaitForAnalytics(present);
      if ready && !callThrows {
        effects := [Identify(userId, IdentifyTraits(traits, lastIdentified, environment))];
      } else {
        effects := [ErrorToast("Analytics Error: Failed to identify user")];
      }
    }

    /** `trackPage`: after the wait, one page call named after the path with the merged properties; a rejected wait or a throwing call is only reported. */
    method TrackPage(props: Properties, loc: Location, present: seq<bool>, timestamp: string, environment: string,
                     format: string -> string, callThrows: bool)
      returns (effects: seq<Effect>)
      modifies this
      ensures (old(initialized) || ReadyWithin(present)) && !callThrows ==>
        effects == [Page(PageName(PagePath(props, loc.pathname)), PageProperties(props, loc, timestamp, environment, format))]
      ensures !(old(initialized) || ReadyWithin(present)) || callThrows ==>
        effects == [ErrorToast("Analytics Error: Failed to track page view")]
      ensures initialized == (old(initialized) || ReadyWithin(present))
    {
      var ready, _ := WaitForAnalytics(present);
      if ready && !callThrows {
        var path := PagePath(props, loc.pathname);
        effects := [Page(PageName(path), PageProperties(props, loc, timestamp, environment, format))];
      } else {
        effects := [ErrorToast("Analytics Error: Failed to track page view")];
      }
    }
  }
}
