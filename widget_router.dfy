/**
 * The widget procedures of the tRPC router: the public content endpoint that
 * an embedding page calls, guarded by the widget's allow-list of domains, and
 * the dashboard procedures that read and overwrite a widget's configuration.
 */
module WidgetRouter {
  import opened Wrappers
  import opened Records
  import opened Datastore
  import opened TestimonieWidget

  const NO_ACTIVE_PROJECT: Failure := Trpc(BadRequest, "No active project selected")
  const WIDGET_NOT_FOUND: Failure := Trpc(NotFound, "Widget not found")
  const NO_ALLOWED_DOMAINS: Failure := Trpc(Forbidden, "No allowed domains registered for this widget.")
  const NOT_AUTHORIZED: Failure := Trpc(Forbidden, "Widget is not authorized for this domain.")

  // ----- Hostname normalisation -----

  predicate HasWww(host: string) {
    |host| >= 4 && host[..4] == "www."
  }

  /** `.replace(/^www\./, "")`: at most one leading "www." removed. */
  function StripWww(host: string): (r: string)
    ensures HasWww(host) ==> host == "www." + r
    ensures !HasWww(host) ==> r == host
  {
    if HasWww(host) then host[4..] else host
  }

  /** Only one "www." goes: a doubled prefix keeps its second copy. */
  lemma StripsOnlyOnce(host: string)
    ensures StripWww("www.www." + host) == "www." + host
  {
    assert ("www.www." + host)[..4] == "www.";
    assert ("www.www." + host)[4..] == "www." + host;
  }

  /**
   * `new URL(url).hostname` without its "www.": None where the URL parser
   * throws. Scheme, port and path never reach the comparison.
   */
  function Normalize(env: Env, url: string): (r: Option<string>)
    ensures r.None? <==> env.hostname(url).None?
    ensures r.Some? ==> r.value == StripWww(env.hostname(url).value)
  {
    match env.hostname(url)
    case None => None
    case Some(host) => Some(StripWww(host))
  }

  /** Two URLs whose hostnames differ only by a leading "www." normalise alike. */
  lemma WwwIsIgnored(env: Env, a: string, b: string, host: string)
    requires env.hostname(a) == Some("www." + host) && env.hostname(b) == Some(host) && !HasWww(host)
    ensures Normalize(env, a) == Normalize(env, b) == Some(host)
  {
    assert ("www." + host)[..4] == "www.";
    assert ("www." + host)[4..] == host;
  }

  /** The allow-list entries before `i` all parse. */
  predicate ParsesBefore(env: Env, allowed: seq<string>, i: int)
    requires 0 <= i <= |allowed|
  {
    forall j :: 0 <= j < i ==> Normalize(env, allowed[j]).Some?
  }

  /**
   * `allowedDomains.some(allowed => normalize(allowed) === embed)`, which
   * stops at the first match and throws (None) at the first entry the URL
   * parser rejects before it. An absent embed domain matches nothing.
   */
  function AnyAllowed(env: Env, allowed: seq<string>, embed: Option<string>): (r: Option<bool>)
    ensures r == Some(true) <==>
              exists i :: 0 <= i < |allowed| && ParsesBefore(env, allowed, i)
                          && Normalize(env, allowed[i]).Some? && Normalize(env, allowed[i]) == embed
    ensures r == Some(false) <==>
              forall i :: 0 <= i < |allowed| ==> Normalize(env, allowed[i]).Some? && Normalize(env, allowed[i]) != embed
  {
    if allowed == [] then Some(false)
    else
      match Normalize(env, allowed[0])
      case None => None
      case Some(host) =>
        if Some(host) == embed then Some(true)
        else
          var rest := AnyAllowed(env, allowed[1..], embed);
          assert forall i :: 1 <= i <= |allowed| ==>
                   (ParsesBefore(env, allowed, i) <==> ParsesBefore(env, allowed[1..], i - 1));
          assert forall i :: 1 <= i < |allowed| ==> allowed[1..][i - 1] == allowed[i];
          rest
  }

  /** Where every entry parses, the gate is plain membership of the embed host among the normalised entries. */
  lemma ExactMatch(env: Env, allowed: seq<string>, embed: Option<string>)
    requires forall i :: 0 <= i < |allowed| ==> Normalize(env, allowed[i]).Some?
    ensures AnyAllowed(env, allowed, embed).Some?
    ensures AnyAllowed(env, allowed, embed) == Some(true) <==>
              exists i :: 0 <= i < |allowed| && Normalize(env, allowed[i]) == embed
  {
    if exists i :: 0 <= i < |allowed| && Normalize(env, allowed[i]) == embed {
      var i :| 0 <= i < |allowed| && Normalize(env, allowed[i]) == embed;
      assert ParsesBefore(env, allowed, i);
    }
  }

  // ----- The domain gate of getWidgetContent -----

  datatype Gate = WidgetMissing | MalformedUrl | NoAllowedDomains | DomainRefused | Allowed

  /** The embed domain's host, when one is claimed (an empty string claims none). */
  function EmbedHost(env: Env, domain: Option<string>): Option<string> {
    if Truthy(domain) then Normalize(env, domain.value) else None
  }

  predicate EmbedMalformed(env: Env, domain: Option<string>) {
    Truthy(domain) && env.hostname(domain.value).None?
  }

  predicate HasAllowList(w: WidgetConfig) {
    w.allowedDomains.Some? && |w.allowedDomains.value| > 0
  }

  /**
   * The gate in the handler's order: an unknown widget first; then the
   * embed domain is parsed; then an absent or empty allow-list refuses every
   * request; then the allow-list is searched.
   */
  function DomainGate(env: Env, widget: Option<WidgetConfig>, domain: Option<string>): (g: Gate)
    ensures g == WidgetMissing <==> widget.None?
    ensures g == MalformedUrl <==>
              widget.Some? && (EmbedMalformed(env, domain) ||
                               (HasAllowList(widget.value)
                                && AnyAllowed(env, widget.value.allowedDomains.value, EmbedHost(env, domain)).None?))
    ensures g == NoAllowedDomains <==> widget.Some? && !EmbedMalformed(env, domain) && !HasAllowList(widget.value)
    ensures g == Allowed <==>
              && widget.Some? && HasAllowList(widget.value) && Truthy(domain)
              && !EmbedMalformed(env, domain)
              && AnyAllowed(env, widget.value.allowedDomains.value, EmbedHost(env, domain)) == Some(true)
  {
    if widget.None? then WidgetMissing
    else if EmbedMalformed(env, domain) then MalformedUrl
    else if !HasAllowList(widget.value) then NoAllowedDomains
    else
      match AnyAllowed(env, widget.value.allowedDomains.value, EmbedHost(env, domain))
      case None => MalformedUrl
      case Some(allowed) => if allowed then Allowed else DomainRefused
  }

  /** With an allow-list, a request that claims no domain is never served. */
  lemma MissingDomainRefused(env: Env, widget: WidgetConfig, domain: Option<string>)
    requires HasAllowList(widget) && !Truthy(domain)
    ensures DomainGate(env, Some(widget), domain) in {DomainRefused, MalformedUrl}
  {
  }

  /** `orderBy: { createdAt: displayOrder === "newest" ? "desc" : "asc" }`. */
  function OrderOf(config: Option<WidgetConfig>): (d: Direction)
    ensures d == Descending <==> config.Some? && config.value.displayOrder == "newest"
  {
    if config.Some? && config.value.displayOrder == "newest" then Descending else Ascending
  }

  function CreatedAt(t: Testimonial): int { t.createdAt }

  function OfProject(projectId: Id): Testimonial -> bool {
    (t: Testimonial) => t.projectId == projectId
  }

  function WidgetById(widgets: map<Id, WidgetConfig>, id: Id): Option<WidgetConfig> {
    if id in widgets then Some(widgets[id]) else None
  }

  /** The zod schema of the public endpoint: a UUID widget id and, when given, a URL. */
  function ContentInputErrors(env: Env, widgetId: Id, domain: Option<string>): (errs: set<string>)
    ensures "widgetId" in errs <==> !env.isUuid(widgetId)
    ensures "domain" in errs <==> domain.Some? && !env.isUrl(domain.value)
    ensures errs <= {"widgetId", "domain"}
  {
    (if env.isUuid(widgetId) then {} else {"widgetId"})
    + (if domain.Some? && !env.isUrl(domain.value) then {"domain"} else {})
  }

  /**
   * `getWidgetContent`: the gate, then all of the widget's project's
   * testimonials (approved or not) in the configured order, rendered by the
   * widget component with the project's configuration; `shown` is the list
   * handed to the renderer.
   */
  method GetWidgetContent(db: Db, env: Env, widgetId: Id, domain: Option<string>)
    returns (r: Procedure<Rendered>, shown: seq<Testimonial>)
    requires db.Valid()
    ensures ContentInputErrors(env, widgetId, domain) != {} ==>
              r == Threw(InvalidInput(ContentInputErrors(env, widgetId, domain)))
    ensures ContentInputErrors(env, widgetId, domain) == {} ==>
              match DomainGate(env, WidgetById(db.widgets, widgetId), domain)
              case WidgetMissing => r == Threw(WIDGET_NOT_FOUND)
              case MalformedUrl => r == Threw(UrlError)
              case NoAllowedDomains => r == Threw(NO_ALLOWED_DOMAINS)
              case DomainRefused => r == Threw(NOT_AUTHORIZED)
              case Allowed =>
                var widget := db.widgets[widgetId];
                && Lists(shown, db.testimonials, OfProject(widget.projectId))
                && SortedBy(shown, CreatedAt, OrderOf(Some(widget)))
                && r == Returned(Render(Some(shown), widget))
  {
    shown := [];
    var errs := ContentInputErrors(env, widgetId, domain);
    if errs != {} {
      return Threw(InvalidInput(errs)), shown;
    }
    if widgetId !in db.widgets {
      return Threw(WIDGET_NOT_FOUND), shown;
    }
    var widget := db.widgets[widgetId];
    var isDomainAllowed := false;
    var normalizedEmbedDomain: Option<string> := None;
    if Truthy(domain) {
      normalizedEmbedDomain := Normalize(env, domain.value);
      if normalizedEmbedDomain.None? {
        return Threw(UrlError), shown;
      }
    }
    if widget.allowedDomains.Some? && |widget.allowedDomains.value| > 0 {
      var found := AnyAllowed(env, widget.allowedDomains.value, normalizedEmbedDomain);
      if found.None? {
        return Threw(UrlError), shown;
      }
      isDomainAllowed := found.value;
    } else {
      return Threw(NO_ALLOWED_DOMAINS), shown;
    }
    if !isDomainAllowed {
      return Threw(NOT_AUTHORIZED), shown;
    }
    var widgetConfig := WidgetOfProject(db.widgets, widget.projectId);
    assert widgetConfig == Some(widget);
    var keep := OfProject(widget.projectId);
    var rows := FindMany(db.testimonials, keep);
    SortedListing(rows, db.testimonials, keep, CreatedAt, OrderOf(widgetConfig));
    shown := SortBy(rows, CreatedAt, OrderOf(widgetConfig));
    r := Returned(Render(Some(shown), widgetConfig.value));
  }

  // ----- Dashboard procedures -----

  /** `getWidgetConfig`: the active project's widget configuration, if any. */
  method GetWidgetConfig(db: Db, user: User) returns (r: Procedure<Option<WidgetConfig>>)
    requires db.Valid()
    ensures !Truthy(user.activeProjectId) ==> r == Threw(NO_ACTIVE_PROJECT)
    ensures Truthy(user.activeProjectId) ==> r.Returned?
    ensures Truthy(user.activeProjectId) && r.value.Some? ==>
              r.value.value.id in db.widgets && db.widgets[r.value.value.id] == r.value.value
              && r.value.value.projectId == user.activeProjectId.value
    ensures Truthy(user.activeProjectId) && r.value.None? ==>
              forall k :: k in db.widgets ==> db.widgets[k].projectId != user.activeProjectId.value
  {
    if !Truthy(user.activeProjectId) {
      return Threw(NO_ACTIVE_PROJECT);
    }
    r := Returned(WidgetOfProject(db.widgets, user.activeProjectId.value));
  }

  /** `getWidgetDomains`: the allow-list of the active project's widget, if it has a widget. */
  method GetWidgetDomains(db: Db, user: User) returns (r: Procedure<Option<Option<seq<string>>>>)
    requires db.Valid()
    ensures !Truthy(user.activeProjectId) ==> r == Threw(NO_ACTIVE_PROJECT)
    ensures Truthy(user.activeProjectId) ==>
              var w := WidgetOfProject(db.widgets, user.activeProjectId.value);
              r == Returned(if w.Some? then Some(w.value.allowedDomains) else None)
  {
    if !Truthy(user.activeProjectId) {
      return Threw(NO_ACTIVE_PROJECT);
    }
    var w := WidgetOfProject(db.widgets, user.activeProjectId.value);
    r := Returned(if w.Some? then Some(w.value.allowedDomains) else None);
  }

  /**
   * `widgetConfig.update({ where: { id, projectId }, data: { allowedDomains: { set } } })`:
   * the allow-list replaced wholesale; None where no widget matches both keys
   * (the datastore throws).
   */
  function SetAllowedDomains(widgets: map<Id, WidgetConfig>, projectId: Id, widgetId: Id, domains: seq<string>)
    : (r: Option<map<Id, WidgetConfig>>)
    requires WidgetsValid(widgets)
    ensures r.None? <==> widgetId !in widgets || widgets[widgetId].projectId != projectId
    ensures r.Some? ==> WidgetsValid(r.value) && r.value.Keys == widgets.Keys
    ensures r.Some? ==> r.value[widgetId].allowedDomains == Some(domains)
    ensures r.Some? ==> r.value[widgetId] == widgets[widgetId].(allowedDomains := Some(domains))
    ensures r.Some? ==> forall k :: k in widgets && k != widgetId ==> r.value[k] == widgets[k]
  {
    if widgetId !in widgets || widgets[widgetId].projectId != projectId then None
    else Some(widgets[widgetId := widgets[widgetId].(allowedDomains := Some(domains))])
  }

  /** Registering replaces the list: only the last registration counts. */
  lemma LastRegistrationWins(widgets: map<Id, WidgetConfig>, projectId: Id, widgetId: Id,
                             first: seq<string>, second: seq<string>)
    requires WidgetsValid(widgets)
    requires SetAllowedDomains(widgets, projectId, widgetId, first).Some?
    ensures var once := SetAllowedDomains(widgets, projectId, widgetId, first).value;
            SetAllowedDomains(once, projectId, widgetId, second) == SetAllowedDomains(widgets, projectId, widgetId, second)
  {
    var once := SetAllowedDomains(widgets, projectId, widgetId, first).value;
    assert once[widgetId := once[widgetId].(allowedDomains := Some(second))]
        == widgets[widgetId := widgets[widgetId].(allowedDomains := Some(second))];
  }

  /** After registering, the gate admits exactly the domains of the new list. */
  lemma RegisteredListGates(env: Env, widgets: map<Id, WidgetConfig>, projectId: Id, widgetId: Id,
                            domains: seq<string>, domain: Option<string>)
    requires WidgetsValid(widgets)
    requires SetAllowedDomains(widgets, projectId, widgetId, domains).Some?
    requires |domains| > 0 && Truthy(domain) && !EmbedMalformed(env, domain)
    requires forall i :: 0 <= i < |domains| ==> Normalize(env, domains[i]).Some?
    ensures var after := SetAllowedDomains(widgets, projectId, widgetId, domains).value;
            DomainGate(env, WidgetById(after, widgetId), domain) == Allowed <==>
              exists i :: 0 <= i < |domains| && Normalize(env, domains[i]) == Normalize(env, domain.value)
  {
    ExactMatch(env, domains, EmbedHost(env, domain));
  }

  /** The zod schema of `registerWidgetDomains`: a UUID widget id and a list of URLs. */
  function DomainsInputErrors(env: Env, widgetId: Id, domains: seq<string>): (errs: set<string>)
    ensures "widgetId" in errs <==> !env.isUuid(widgetId)
    ensures "domains" in errs <==> exists i :: 0 <= i < |domains| && !env.isUrl(domains[i])
    ensures errs <= {"widgetId", "domains"}
  {
    (if env.isUuid(widgetId) then {} else {"widgetId"})
    + (if exists i :: 0 <= i < |domains| && !env.isUrl(domains[i]) then {"domains"} else {})
  }

  /** `registerWidgetDomains`: replace the allow-list of a widget of the active project. */
  method RegisterWidgetDomains(db: Db, env: Env, user: User, widgetId: Id, domains: seq<string>)
    returns (r: Procedure<WidgetConfig>)
    requires db.Valid()
    modifies db`widgets
    ensures db.Valid()
    ensures DomainsInputErrors(env, widgetId, domains) != {} ==>
              r == Threw(InvalidInput(DomainsInputErrors(env, widgetId, domains))) && db.widgets == old(db.widgets)
    ensures DomainsInputErrors(env, widgetId, domains) == {} && !Truthy(user.activeProjectId) ==>
              r == Threw(NO_ACTIVE_PROJECT) && db.widgets == old(db.widgets)
    ensures DomainsInputErrors(env, widgetId, domains) == {} && Truthy(user.activeProjectId) ==>
              var s := SetAllowedDomains(old(db.widgets), user.activeProjectId.value, widgetId, domains);
              && (s.None? ==> r == Threw(StoreError) && db.widgets == old(db.widgets))
              && (s.Some? ==> db.widgets == s.value && r == Returned(s.value[widgetId]))
  {
    var errs := DomainsInputErrors(env, widgetId, domains);
    if errs != {} {
      return Threw(InvalidInput(errs));
    }
    if !Truthy(user.activeProjectId) {
      return Threw(NO_ACTIVE_PROJECT);
    }
    if widgetId !in db.widgets || db.widgets[widgetId].projectId != user.activeProjectId.value {
      return Threw(StoreError);
    }
    var updatedWidget := db.widgets[widgetId].(allowedDomains := Some(domains));
    db.widgets := db.widgets[widgetId := updatedWidget];
    r := Returned(updatedWidget);
  }

  /** The `config` object of `updateWidgetConfig`. */
  datatype ConfigInput = ConfigInput(
    primaryColor: string,
    backgroundColor: string,
    textColor: string,
    displayLayout: string,
    displayOrder: string,
    showRating: bool,
    showAvatar: bool,
    gridColumns: int,
    gridGap: int)

  /** The bounds of the schema: 1..6 columns and a gap of 0..48. */
  function ConfigErrors(c: ConfigInput): (errs: set<string>)
    ensures "gridColumns" in errs <==> !(1 <= c.gridColumns <= 6)
    ensures "gridGap" in errs <==> !(0 <= c.gridGap <= 48)
    ensures errs <= {"gridColumns", "gridGap"}
  {
    (if 1 <= c.gridColumns <= 6 then {} else {"gridColumns"})
    + (if 0 <= c.gridGap <= 48 then {} else {"gridGap"})
  }

  /** The configuration with the nine given fields overwritten; id, project and allow-list kept. */
  function ApplyConfig(w: WidgetConfig, c: ConfigInput): (u: WidgetConfig)
    ensures u.id == w.id && u.projectId == w.projectId && u.allowedDomains == w.allowedDomains
    ensures u.gridColumns == c.gridColumns && u.gridGap == c.gridGap && u.displayOrder == c.displayOrder
    ensures u.primaryColor == c.primaryColor && u.backgroundColor == c.backgroundColor && u.textColor == c.textColor
    ensures u.displayLayout == c.displayLayout && u.showRating == c.showRating && u.showAvatar == c.showAvatar
  {
    w.(primaryColor := c.primaryColor, backgroundColor := c.backgroundColor, textColor := c.textColor,
       displayLayout := c.displayLayout, displayOrder := c.displayOrder, showRating := c.showRating,
       showAvatar := c.showAvatar, gridColumns := c.gridColumns, gridGap := c.gridGap)
  }

  /** Applying the same configuration twice is applying it once. */
  lemma ApplyConfigIdempotent(w: WidgetConfig, c: ConfigInput)
    ensures ApplyConfig(ApplyConfig(w, c), c) == ApplyConfig(w, c)
  {
  }

  /**
   * `updateWidgetConfig`: overwrite the active project's widget configuration.
   * A missing widget makes the update throw, which the handler's `.catch`
   * swallows: it then returns nothing and writes nothing.
   */
  method UpdateWidgetConfig(db: Db, user: User, config: ConfigInput) returns (r: Procedure<Option<WidgetConfig>>)
    requires db.Valid()
    modifies db`widgets
    ensures db.Valid()
    ensures ConfigErrors(config) != {} ==> r == Threw(InvalidInput(ConfigErrors(config))) && db.widgets == old(db.widgets)
    ensures ConfigErrors(config) == {} && !Truthy(user.activeProjectId) ==>
              r == Threw(NO_ACTIVE_PROJECT) && db.widgets == old(db.widgets)
    ensures ConfigErrors(config) == {} && Truthy(user.activeProjectId) ==>
              var w := WidgetOfProject(old(db.widgets), user.activeProjectId.value);
              && (w.None? ==> r == Returned(None) && db.widgets == old(db.widgets))
              && (w.Some? ==> r == Returned(Some(ApplyConfig(w.value, config)))
                              && db.widgets == old(db.widgets)[w.value.id := ApplyConfig(w.value, config)])
    ensures r.Returned? && r.value.Some? ==> 1 <= r.value.value.gridColumns <= 6 && 0 <= r.value.value.gridGap <= 48
  {
    var errs := ConfigErrors(config);
    if errs != {} {
      return Threw(InvalidInput(errs));
    }
    if !Truthy(user.activeProjectId) {
      return Threw(NO_ACTIVE_PROJECT);
    }
    var w := WidgetOfProject(db.widgets, user.activeProjectId.value);
    if w.None? {
      return Returned(None);
    }
    var updatedWidgetConfig := ApplyConfig(w.value, config);
    db.widgets := db.widgets[w.value.id := updatedWidgetConfig];
    r := Returned(Some(updatedWidgetConfig));
  }
}
