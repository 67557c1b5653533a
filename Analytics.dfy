/**
 * The analytics helper of analytics/utils/analytics.ts: the configured-or-not
 * guard, the conversion of attributes to strings, the enrichment of every
 * event with the session id, a timestamp and the user agent, and the typed
 * trackers with the attribute sets they send.
 *
 * `record` from the Amplify analytics library is a sink: the model keeps the
 * list of events handed to it. The build-time environment, the clock, the
 * `navigator` global and the random session id are parameters.
 */
module Analytics {
  import opened Outcomes
  import opened Strings

  // ------------------------------------------------------------ events

  datatype EventType =
    | PageView | UserSignup | UserSignin | StartTrial | OnboardingComplete | FileUpload
    | ChatMessageSent | DashboardVisit | DataExport | DataSearch | DataFilter | NavigationClick
    | FeatureUsage

  /** The string literal of each event type, as handed to `record`. */
  function EventName(e: EventType): string {
    match e
    case PageView => "page_view"
    case UserSignup => "user_signup"
    case UserSignin => "user_signin"
    case StartTrial => "start_trial"
    case OnboardingComplete => "onboarding_complete"
    case FileUpload => "file_upload"
    case ChatMessageSent => "chat_message_sent"
    case DashboardVisit => "dashboard_visit"
    case DataExport => "data_export"
    case DataSearch => "data_search"
    case DataFilter => "data_filter"
    case NavigationClick => "navigation_click"
    case FeatureUsage => "feature_usage"
  }

  type Attributes = map<string, Value>

  /** One call of a tracker: the event type and the attribute object it passes on. */
  datatype Event = Event(eventType: EventType, attributes: Attributes)

  /** What one call of `record` receives. */
  datatype RecordedEvent = RecordedEvent(name: string, attributes: map<string, string>)

  // ------------------------------------------------------ configuration

  /** The two build-time variables; `None` is an unset variable. */
  datatype Env = Env(endUserMessagingAppId: Option<string>, pinpointAppId: Option<string>)

  /** JavaScript truthiness of a possibly unset string. */
  predicate Truthy(v: Option<string>) {
    v.Some? && v.value != ""
  }

  /** `EUM_ID || PINPOINT_ID || ''`: the End-User-Messaging id wins whenever it is set and non-empty. */
  function AppId(env: Env): (id: string)
    ensures id != "" <==> Truthy(env.endUserMessagingAppId) || Truthy(env.pinpointAppId)
    ensures Truthy(env.endUserMessagingAppId) ==> id == env.endUserMessagingAppId.value
    ensures !Truthy(env.endUserMessagingAppId) && Truthy(env.pinpointAppId) ==> id == env.pinpointAppId.value
  {
    if Truthy(env.endUserMessagingAppId) then env.endUserMessagingAppId.value
    else if Truthy(env.pinpointAppId) then env.pinpointAppId.value
    else ""
  }

  /** `isAnalyticsConfigured`: `appId && appId !== ''`. */
  predicate IsConfigured(env: Env) {
    AppId(env) != ""
  }

  // --------------------------------------------------------- conversion

  /** `String(value)` for the values an attribute object holds. */
  function StringOf(v: Value): string {
    match v
    case Undefined => "undefined"
    case Null => "null"
    case Str(s) => s
    case Num(n) => IntToString(n)
    case Bool(b) => if b then "true" else "false"
  }

  /** The attribute object `convertAttributesToStrings` builds, as a value. */
  function StringAttributes(attributes: Attributes): map<string, string> {
    map k | k in attributes && IsPresent(attributes[k]) :: StringOf(attributes[k])
  }

  /**
   * `convertAttributesToStrings`: the loop over the entries keeps exactly
   * the keys whose value is neither `undefined` nor `null`, each mapped to
   * `String(value)`.
   */
  method ConvertAttributesToStrings(attributes: Attributes) returns (r: map<string, string>)
    ensures forall k :: k in r <==> k in attributes && IsPresent(attributes[k])
    ensures forall k :: k in r ==> r[k] == StringOf(attributes[k])
    ensures r == StringAttributes(attributes)
  {
    r := map[];
    var pending := attributes.Keys;
    while pending != {}
      invariant pending <= attributes.Keys
      invariant forall k :: k in r <==> k in attributes && k !in pending && IsPresent(attributes[k])
      invariant forall k :: k in r ==> r[k] == StringOf(attributes[k])
      decreases |pending|
    {
      var key :| key in pending;
      if IsPresent(attributes[key]) {
        r := r[key := StringOf(attributes[key])];
      }
      pending := pending - {key};
    }
    assert r.Keys == StringAttributes(attributes).Keys;
  }

  // --------------------------------------------------------- enrichment

  const EnrichmentKeys: set<string> := {"sessionId", "timestamp", "userAgent"}

  /** `typeof navigator !== 'undefined' ? navigator.userAgent : 'unknown'` */
  function UserAgentOf(navigator: Option<string>): (ua: string)
    ensures navigator.None? ==> ua == "unknown"
    ensures navigator.Some? ==> ua == navigator.value
  {
    if navigator.Some? then navigator.value else "unknown"
  }

  /**
   * `{...attributes, sessionId, timestamp, userAgent}`: the caller's
   * attributes, with the three enrichment fields added last so that they
   * override any value the caller passed under the same key.
   */
  function Enrich(attributes: Attributes, sessionId: string, timestamp: string, userAgent: string): (e: Attributes)
    ensures e.Keys == attributes.Keys + EnrichmentKeys
    ensures e["sessionId"] == Str(sessionId) && e["timestamp"] == Str(timestamp) && e["userAgent"] == Str(userAgent)
    ensures forall k :: k in attributes && k !in EnrichmentKeys ==> e[k] == attributes[k]
  {
    attributes["sessionId" := Str(sessionId)]["timestamp" := Str(timestamp)]["userAgent" := Str(userAgent)]
  }

  /**
   * What reaches `record`: always the three enrichment strings, and of the
   * caller's other attributes exactly the present ones.
   */
  lemma EnrichedStrings(attributes: Attributes, sessionId: string, timestamp: string, userAgent: string)
    ensures var r := StringAttributes(Enrich(attributes, sessionId, timestamp, userAgent));
            && r["sessionId"] == sessionId && r["timestamp"] == timestamp && r["userAgent"] == userAgent
            && (forall k :: k !in EnrichmentKeys ==>
                  (k in r <==> k in attributes && IsPresent(attributes[k])))
            && (forall k :: k !in EnrichmentKeys && k in r ==> r[k] == StringOf(attributes[k]))
  {
    var e := Enrich(attributes, sessionId, timestamp, userAgent);
    assert "sessionId" in e && "timestamp" in e && "userAgent" in e;
  }

  // ------------------------------------------------------------ screen name

  /** `screenName || route.replace('/', '') || 'home'` */
  function ScreenNameFallback(route: string, screenName: Option<string>): (name: string)
    ensures name != ""
    ensures Truthy(screenName) ==> name == screenName.value
    ensures !Truthy(screenName) && RemoveFirst(route, '/') != "" ==> name == RemoveFirst(route, '/')
    ensures !Truthy(screenName) && RemoveFirst(route, '/') == "" ==> name == "home"
  {
    if Truthy(screenName) then screenName.value
    else if RemoveFirst(route, '/') != "" then RemoveFirst(route, '/')
    else "home"
  }

  /** Without a screen name, a route that starts with '/' loses exactly that slash; '/' itself gives 'home'. */
  lemma ScreenNameOfRoute(route: string)
    requires |route| > 0 && route[0] == '/'
    ensures ScreenNameFallback(route, None) == if |route| == 1 then "home" else route[1..]
  {
    RemoveFirstLeading(route, '/');
  }

  lemma ScreenNameExamples()
    ensures ScreenNameFallback("/", None) == "home"
    ensures ScreenNameFallback("/a/b", None) == "a/b"
    ensures ScreenNameFallback("/a/b", Some("")) == "a/b"
  {
    ScreenNameOfRoute("/");
    ScreenNameOfRoute("/a/b");
  }

  // -------------------------------------------------------------- trackers

  datatype PlanType = Free | Premium | Enterprise

  function PlanName(p: PlanType): string {
    match p
    case Free => "free"
    case Premium => "premium"
    case Enterprise => "enterprise"
  }

  /** A plan-type parameter with the default `'free'`. */
  function PlanOrFree(p: Option<PlanType>): (name: string)
    ensures p.None? ==> name == "free"
    ensures p.Some? ==> name == PlanName(p.value)
  {
    if p.Some? then PlanName(p.value) else "free"
  }

  /** An optional string parameter as an attribute value: `undefined` when absent. */
  function OptionalValue(v: Option<string>): (value: Value)
    ensures IsPresent(value) <==> v.Some?
  {
    if v.Some? then Str(v.value) else Undefined
  }

  /** `trackPageView(route, screenName)` */
  function PageViewEvent(route: string, screenName: Option<string>): (ev: Event)
    ensures ev.eventType == PageView && ev.attributes.Keys == {"route", "screenName"}
    ensures ev.attributes["route"] == Str(route)
    ensures ev.attributes["screenName"] == Str(ScreenNameFallback(route, screenName))
  {
    Event(PageView, map["route" := Str(route), "screenName" := Str(ScreenNameFallback(route, screenName))])
  }

  /** `trackUserSignup(email, name)`: an absent name leaves `username` undefined. */
  function UserSignupEvent(email: string, name: Option<string>): (ev: Event)
    ensures ev.eventType == UserSignup && ev.attributes.Keys == {"email", "username", "planType"}
    ensures ev.attributes["email"] == Str(email) && ev.attributes["planType"] == Str("free")
    ensures IsPresent(ev.attributes["username"]) <==> name.Some?
    ensures name.Some? ==> ev.attributes["username"] == Str(name.value)
  {
    Event(UserSignup, map["email" := Str(email), "username" := OptionalValue(name), "planType" := Str("free")])
  }

  function UserSigninEvent(email: string): (ev: Event)
    ensures ev.eventType == UserSignin && ev.attributes == map["email" := Str(email)]
  {
    Event(UserSignin, map["email" := Str(email)])
  }

  /** `trackStartTrial(planType = 'free')` */
  function StartTrialEvent(planType: Option<PlanType>): (ev: Event)
    ensures ev.eventType == StartTrial && ev.attributes.Keys == {"planType"}
    ensures planType.None? ==> ev.attributes["planType"] == Str("free")
    ensures planType.Some? ==> ev.attributes["planType"] == Str(PlanName(planType.value))
  {
    Event(StartTrial, map["planType" := Str(PlanOrFree(planType))])
  }

  /** `trackOnboardingComplete(email, planType = 'free')` */
  function OnboardingCompleteEvent(email: string, planType: Option<PlanType>): (ev: Event)
    ensures ev.eventType == OnboardingComplete && ev.attributes.Keys == {"email", "planType"}
    ensures ev.attributes["email"] == Str(email)
    ensures planType.None? ==> ev.attributes["planType"] == Str("free")
    ensures planType.Some? ==> ev.attributes["planType"] == Str(PlanName(planType.value))
  {
    Event(OnboardingComplete, map["email" := Str(email), "planType" := Str(PlanOrFree(planType))])
  }

  /** `trackFileUpload(fileName, fileSize, fileType = 'unknown')`: the file name is not sent. */
  function FileUploadEvent(fileName: string, fileSize: int, fileType: Option<string>): (ev: Event)
    ensures ev.eventType == FileUpload
    ensures ev.attributes.Keys == {"screenName", "planType", "fileType", "fileSize"}
    ensures ev.attributes["screenName"] == Str("dashboard") && ev.attributes["planType"] == Str("free")
    ensures ev.attributes["fileSize"] == Num(fileSize)
    ensures ev.attributes["fileType"] == Str(if fileType.Some? then fileType.value else "unknown")
  {
    Event(FileUpload, map["screenName" := Str("dashboard"), "planType" := Str("free"),
                          "fileType" := Str(if fileType.Some? then fileType.value else "unknown"),
                          "fileSize" := Num(fileSize)])
  }

  /** The file name does not influence what is tracked for an upload. */
  lemma FileUploadIgnoresFileName(a: string, b: string, fileSize: int, fileType: Option<string>)
    ensures FileUploadEvent(a, fileSize, fileType) == FileUploadEvent(b, fileSize, fileType)
  {
  }

  /** `trackChatMessage(messageType)`: the message type is not sent. */
  function ChatMessageEvent(fromUser: bool): (ev: Event)
    ensures ev.eventType == ChatMessageSent && ev.attributes == map["screenName" := Str("dashboard")]
  {
    Event(ChatMessageSent, map["screenName" := Str("dashboard")])
  }

  function DashboardVisitEvent(email: string): (ev: Event)
    ensures ev.eventType == DashboardVisit && ev.attributes.Keys == {"email", "screenName"}
    ensures ev.attributes["email"] == Str(email) && ev.attributes["screenName"] == Str("dashboard")
  {
    Event(DashboardVisit, map["email" := Str(email), "screenName" := Str("dashboard")])
  }

  /** `trackDataExport(exportFormat, recordCount)`: the record count is not sent. */
  function DataExportEvent(exportFormat: string, recordCount: int): (ev: Event)
    ensures ev.eventType == DataExport && ev.attributes.Keys == {"exportFormat", "screenName"}
    ensures ev.attributes["exportFormat"] == Str(exportFormat) && ev.attributes["screenName"] == Str("data_viewer")
  {
    Event(DataExport, map["exportFormat" := Str(exportFormat), "screenName" := Str("data_viewer")])
  }

  /** The record count does not influence what is tracked for an export. */
  lemma DataExportIgnoresCount(exportFormat: string, m: int, n: int)
    ensures DataExportEvent(exportFormat, m) == DataExportEvent(exportFormat, n)
  {
  }

  function DataSearchEvent(searchTerm: string): (ev: Event)
    ensures ev.eventType == DataSearch && ev.attributes.Keys == {"searchTerm", "screenName"}
    ensures ev.attributes["searchTerm"] == Str(searchTerm) && ev.attributes["screenName"] == Str("data_viewer")
  {
    Event(DataSearch, map["searchTerm" := Str(searchTerm), "screenName" := Str("data_viewer")])
  }

  function DataFilterEvent(filterType: string): (ev: Event)
    ensures ev.eventType == DataFilter && ev.attributes.Keys == {"filterType", "screenName"}
    ensures ev.attributes["filterType"] == Str(filterType) && ev.attributes["screenName"] == Str("data_viewer")
  {
    Event(DataFilter, map["filterType" := Str(filterType), "screenName" := Str("data_viewer")])
  }

  function NavigationClickEvent(navigationTarget: string): (ev: Event)
    ensures ev.eventType == NavigationClick && ev.attributes == map["navigationTarget" := Str(navigationTarget)]
  {
    Event(NavigationClick, map["navigationTarget" := Str(navigationTarget)])
  }

  function FeatureUsageEvent(featureName: string, screenName: string): (ev: Event)
    ensures ev.eventType == FeatureUsage && ev.attributes.Keys == {"featureName", "screenName"}
    ensures ev.attributes["featureName"] == Str(featureName) && ev.attributes["screenName"] == Str(screenName)
  {
    Event(FeatureUsage, map["featureName" := Str(featureName), "screenName" := Str(screenName)])
  }

  // ------------------------------------------------------------- the client

  /** The static `Analytics` class: one session id per page load, and the events handed to `record`. */
  class AnalyticsClient {
    const env: Env
    const sessionId: string
    var recorded: seq<RecordedEvent>

    constructor (env: Env, sessionId: string)
      ensures this.env == env && this.sessionId == sessionId && recorded == []
    {
      this.env := env;
      this.sessionId := sessionId;
      recorded := [];
    }

    /**
     * `trackEvent`: when configured, `record` is called exactly once with the
     * event's name and the converted, enriched attributes; otherwise it is
     * not called. A failure of `record` (`recordOutcome`) is caught, so the
     * call never fails and nothing else changes.
     */
    method TrackEvent(eventType: EventType, attributes: Attributes, timestamp: string,
                      navigator: Option<string>, recordOutcome: Call<()>)
      modifies this`recorded
      ensures recorded == old(recorded) +
                (if IsConfigured(env)
                 then [RecordedEvent(EventName(eventType),
                                     StringAttributes(Enrich(attributes, sessionId, timestamp, UserAgentOf(navigator))))]
                 else [])
    {
      var enriched := Enrich(attributes, sessionId, timestamp, UserAgentOf(navigator));
      if IsConfigured(env) {
        var converted := ConvertAttributesToStrings(enriched);
        recorded := recorded + [RecordedEvent(EventName(eventType), converted)];
      }
    }

    /** A typed tracker: `trackEvent` with the event the tracker builds. */
    method Track(ev: Event, timestamp: string, navigator: Option<string>, recordOutcome: Call<()>)
      modifies this`recorded
      ensures recorded == old(recorded) +
                (if IsConfigured(env)
                 then [RecordedEvent(EventName(ev.eventType),
                                     StringAttributes(Enrich(ev.attributes, sessionId, timestamp, UserAgentOf(navigator))))]
                 else [])
    {
      TrackEvent(ev.eventType, ev.attributes, timestamp, navigator, recordOutcome);
    }
  }
}
