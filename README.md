# testimony.io core, modelled in Dafny

testimony.io collects customer testimonials for a project. Its core logic is modelled here:

- **Single-use collection tokens.** A customer's submission runs an ordered guard chain against the token: unknown, cancelled, used, expired. It then writes the testimonial and marks the token used. The tRPC router and the server action both do this (`TokenLifecycle`, `TestimonieRouter`, `TestimonialAction`).
- **Issuing, cancelling and counting tokens** (`TokenRouter`, `TokenAction`).
- **Moderation.** The dashboard's listings: all testimonials, and paginated with a filter and a cursor. Plus the featured/approved toggles (`TestimonieRouter`).
- **The public widget endpoint.** It is guarded by the widget's allow-list of embedding domains (compared by hostname, leading `www.` ignored) and renders the testimonials with the widget's colours (`WidgetRouter`, `TestimonieWidget`, `WidgetCard`, `RatingStars`).
- **Projects.** Creating a project with its owner membership and default collection link (`ProjectRouter`, `ProjectAction`). Members and invitations (`MemberAction`, `InvitationAction`). The active project held on the session (`AuthServer`). Collection links (`CollectLinkRouter`).
- **Client-side logic.** The request proxy that sends visitors without a session to sign-in (`Proxy`). The project settings dialog with its slug generator and availability check (`ProjectSettings`). The sidebar project switcher (`ProjectSwitcher`). The settings page's member list (`MembersList`).

The datastore is one object, `Datastore.Db`, holding one map per table. Each table is keyed by record id. Its invariant `Valid` states the uniqueness of every column a handler looks up with `findUnique`:

- a token's value;
- a project's slug;
- a widget's project;
- a collection link's project.

A handler that writes is a method whose `modifies` names exactly the tables it writes. Each such method is proved equal to a pure function that specifies the whole operation: its outcome and every table after it. The properties of the operation are then proved about that function: single use, idempotence, invariants kept, round trips.

Neither the handlers nor the model use transactions. Each datastore write either succeeds or is refused, and a refusal leaves the earlier writes in place. A refusal is a clash on a generated id or on a unique column.

Refusals surface in one of two ways:
- in a tRPC procedure, as `Threw(StoreError)`;
- in a server action, as its "Failed to …" reply.

The inputs to the model are:
- the time (`now`);
- generated ids;
- the two random token fragments;
- the session;
- the URL parser and the input validators (fields of `Records.Env`).

## Model

| member | source | states |
|---|---|---|
| Datastore.Db.constructor | src/server/api/routers/token.ts:16-19 | An empty datastore satisfies the table invariants and carries the schema's column defaults. |
| Datastore.TokenByValue | src/server/api/routers/testimonie.ts:110-113 | The unique lookup by token value finds the one record with that value, and finds nothing exactly when no record has it. |
| Datastore.ProjectBySlug | src/server/api/routers/project.ts:33-37 | The unique lookup by slug finds the project with that slug, and finds nothing exactly when no project has it. |
| Datastore.WidgetOfProject | src/server/api/routers/widget.ts:43-47 | The lookup by project finds that project's widget configuration, and finds nothing exactly when the project has none. |
| Datastore.LinkOfProject | src/server/api/routers/collect-link.ts:12-16 | The unique lookup by project finds that project's link, and finds nothing exactly when the project has none. |
| Datastore.FindMany | src/server/api/routers/token.ts:16-19 | `findMany` returns each record that passes the filter exactly once, and nothing else. The table is visited in an order the datastore picks. |
| Datastore.SortBy | src/server/api/routers/token.ts:18 | `orderBy` returns the same rows as a permutation, sorted ascending or descending on the key. |
| Datastore.SortedListing | src/server/api/routers/testimonie.ts:24-31 | Ordering a listing keeps it a listing of the same selected records. |
| Datastore.ListingSize | src/server/api/routers/token.ts:48-49 | A listing's length is the number of selected records in the table. |
| Datastore.CountListing | src/server/api/routers/token.ts:50-52 | Counting the rows of a listing that satisfy a predicate counts the matching records in the table, whatever order the listing is in. |
| TokenLifecycle.CheckToken | src/server/api/routers/testimonie.ts:115-129 | The guard chain in its order. Unknown iff there is no record; cancelled iff cancelled; used iff used and not cancelled; expired iff past `expiresAt` and neither used nor cancelled. Accepted iff the token is consumable. |
| TokenLifecycle.PayloadErrors | src/server/api/routers/testimonie.ts:96-104 | The submission schema rejects exactly an empty name, a rating outside 1..5 and a text shorter than 10 characters. |
| TokenLifecycle.Submit | src/server/api/routers/testimonie.ts:110-149 | The outcome is decided by the token check and the new id alone. A failed check is reported as that check and writes nothing. An accepted check with a clashing id is a store failure and writes nothing. An accepted check with a fresh id always submits: one testimonial carrying the payload is created for the token's project, and that token is marked used. An accepted check is never reported as a rejection. |
| TokenLifecycle.SubmitAddsOne | src/server/api/routers/testimonie.ts:132-141 | A successful submission adds exactly one testimonial: for the token's project, with the submitted text and rating. |
| TokenLifecycle.SubmitMarksUsed | src/server/api/routers/testimonie.ts:144-147 | A successful submission changes only the consumed token, and only its `used` flag. |
| TokenLifecycle.SingleUse | src/server/api/routers/testimonie.ts:123-125 | After one successful submission, every later submission with the same token is refused as already used. |
| TokenLifecycle.Consume | src/server/actions/testimonial.ts:32-71 | The lookup, guards and two writes leave the tables and the outcome exactly as `Submit` specifies, and keep the table invariants. |
| TokenLifecycle.SubmitEvolves | src/server/api/routers/testimonie.ts:144-147 | A submission never deletes a token, never changes its project or value, and never clears `used` or `cancelled`. |
| TokenLifecycle.Cancel | src/server/api/routers/token.ts:100-128 | An unknown id, or a token of another project, is refused and writes nothing. Otherwise only the token's `cancelled` flag is set; `used` is neither checked nor changed. |
| TokenLifecycle.CancelIdempotent | src/server/api/routers/token.ts:125-128 | Cancelling twice succeeds both times and leaves the table as cancelling once does. |
| TokenLifecycle.CancelEvolves | src/server/api/routers/token.ts:125-128 | Cancelling never brings a token back to active and never removes one. |
| TokenLifecycle.TokenValue | src/server/api/routers/token.ts:76-78 | The token value joins the two random fragments. It is at most 26 base-36 characters. |
| TokenLifecycle.CreatedBy | src/server/actions/token.ts:52 | `createdBy` is the user's name, or the e-mail when the name is empty. |
| TokenLifecycle.Issue | src/server/api/routers/token.ts:71-79 | The insert is refused exactly on an id clash or a duplicate value, and then writes nothing. Otherwise the one new row is the whole token: the given id, value, project, description and creator, the schema's defaults for used and cancelled, no expiry, and `now` as its creation time. |
| TokenLifecycle.IssueEvolves | src/server/api/routers/token.ts:71-79 | Issuing a token changes no existing token. |
| TokenLifecycle.GetStats | src/server/api/routers/token.ts:48-53 | total is the number of tokens. active + (used or cancelled) = total. By inclusion-exclusion, active + used + cancelled = total + (used and cancelled). Each counter is at most total. |
| TokenLifecycle.StatsOfListing | src/server/api/routers/token.ts:40-53 | Each counter equals the number of the project's tokens in the table with that property, whatever order the datastore lists them in. |
| TokenRouter.GetAll | src/server/api/routers/token.ts:6-29 | Without an active project it throws BAD_REQUEST. Otherwise it returns exactly the active project's tokens, newest first. |
| TokenRouter.GetProjectStats | src/server/api/routers/token.ts:30-54 | Without an active project it throws. Otherwise each of the four counters is the number of the project's tokens in the table with that property, and active ≤ total. |
| TokenRouter.Create | src/server/api/routers/token.ts:55-90 | Without an active project it throws. Otherwise the table and the returned token are those of `Issue`, and a refused insert throws. |
| TokenRouter.CancelToken | src/server/api/routers/token.ts:91-131 | The order is: empty id (input error), no active project, unknown token (NOT_FOUND), other project (UNAUTHORIZED). Then the token is cancelled as `Cancel` specifies. |
| TokenAction.CreateToken | src/server/actions/token.ts:14-72 | The order is: no session, then no active project, then the insert as `Issue` specifies. A refused insert replies "Failed to create token". |
| TokenAction.CancelReply | src/server/actions/token.ts:100-115 | The reply succeeds exactly when the token was cancelled. |
| TokenAction.CancelToken | src/server/actions/token.ts:74-120 | The order is: no session, then no active project. Then the table and reply follow `Cancel`: "Token not found", "Unauthorized", or success. |
| TestimonieRouter.FilterConditions | src/server/api/routers/testimonie.ts:56-67 | A testimonial passes the filter's condition iff it is approved (approved), not approved (pending), featured (featured), or always (all). |
| TestimonieRouter.FromCursor | src/server/api/routers/testimonie.ts:69-79 | The window starts at the first row with the cursor's id and runs to the end. It is empty exactly when no row has that id. |
| TestimonieRouter.TakePage | src/server/api/routers/testimonie.ts:74-85 | At most `limit` items, a prefix of the window. A next cursor exists iff more than `limit` rows were left, and it is the id of the row after the page. |
| TestimonieRouter.Limit | src/server/api/routers/testimonie.ts:38 | `limit` defaults to 10 and is accepted iff it lies in 1..50. |
| TestimonieRouter.Infinite | src/server/api/routers/testimonie.ts:35-91 | An invalid limit throws, and so does a missing active project. Otherwise the page is `TakePage` of the filtered project testimonials (newest first), read from the cursor on. |
| TestimonieRouter.Paginate | src/server/api/routers/testimonie.ts:74-85 | Fetching `limit + 1` rows and popping the last one gives exactly `TakePage`. |
| TestimonieRouter.PageWithinWindow | src/server/api/routers/testimonie.ts:81-85 | Every item of a page is a row of its window. |
| TestimonieRouter.CursorWithinRows | src/server/api/routers/testimonie.ts:69-79 | Every row of a cursor window is a row of the listing. |
| TestimonieRouter.PageItemsMatch | src/server/api/routers/testimonie.ts:69-79 | Every item of a page is a stored testimonial of the active project that passes the filter. |
| TestimonieRouter.AllTestimonials | src/server/api/routers/testimonie.ts:14-34 | Without an active project it throws. Otherwise it returns exactly the project's testimonials, newest first. |
| TestimonieRouter.SubmitInputErrors | src/server/api/routers/testimonie.ts:94-105 | The input is accepted iff the token is non-empty and the testimonial passes the schema. |
| TestimonieRouter.SubmitReply | src/server/api/routers/testimonie.ts:110-149 | The procedure returns `{ success: true }` exactly when the testimonial was submitted. It throws exactly on a datastore refusal. A refused check returns that check's message. |
| TestimonieRouter.SubmitTestimonie | src/server/api/routers/testimonie.ts:92-150 | Invalid input throws and writes nothing. Otherwise the tables are those of `Submit`, each refused check returns its message, and a datastore refusal throws. |
| TestimonieRouter.FlipFeatured | src/server/api/routers/testimonie.ts:170-173 | `isFeatured` of the named testimonial is negated. Nothing else changes, and an unknown id yields nothing. |
| TestimonieRouter.FlipApproved | src/server/api/routers/testimonie.ts:197-200 | `isApproved` of the named testimonial is negated. Nothing else changes, and an unknown id yields nothing. |
| TestimonieRouter.ToggleTwiceRestores | src/server/api/routers/testimonie.ts:151-202 | Toggling either flag twice restores the table. |
| TestimonieRouter.ToggleFeatured | src/server/api/routers/testimonie.ts:151-177 | An empty id is an input error and an unknown id throws NOT_FOUND; neither writes. Otherwise the table becomes `FlipFeatured` of the old one. |
| TestimonieRouter.ToggleApproved | src/server/api/routers/testimonie.ts:178-202 | An empty id is an input error and an unknown id throws NOT_FOUND; neither writes. Otherwise the table becomes `FlipApproved` of the old one. |
| TestimonialAction.ActionReply | src/server/actions/testimonial.ts:37-75 | The action reports success exactly when the testimonial was submitted. A refused check is reported with that check's message. |
| TestimonialAction.SubmitTestimonial | src/server/actions/testimonial.ts:15-76 | Invalid data is refused before the token is looked up, with the failing fields, and writes nothing. Otherwise the tables follow `Submit`, and a datastore refusal replies "Failed to submit testimonial". |
| TestimonialAction.ExpiryIsStrict | src/server/actions/testimonial.ts:49-51 | A token that expires exactly now is still accepted. |
| WidgetRouter.StripWww | src/server/api/routers/widget.ts:126-128 | At most one leading "www." is removed. |
| WidgetRouter.StripsOnlyOnce | src/server/api/routers/widget.ts:126-128 | A doubled "www.www." keeps its second "www.". |
| WidgetRouter.Normalize | src/server/api/routers/widget.ts:126-137 | A URL normalises to its hostname without "www.". It is none where the URL parser throws. |
| WidgetRouter.WwwIsIgnored | src/server/api/routers/widget.ts:126-137 | Hostnames differing only by a leading "www." normalise alike. |
| WidgetRouter.AnyAllowed | src/server/api/routers/widget.ts:130-139 | `some` is true iff an entry matches the embed host and every entry before it parses. It is false iff every entry parses and none matches. Otherwise the URL parser throws. |
| WidgetRouter.ExactMatch | src/server/api/routers/widget.ts:130-139 | When every entry parses, the gate is membership of the embed host among the normalised entries. |
| WidgetRouter.DomainGate | src/server/api/routers/widget.ts:110-159 | The gate checks, in order: unknown widget; malformed embed URL; no allow-list (refused whatever the domain); the allow-list search. A request is allowed iff a domain is claimed and it is found in a non-empty allow-list. |
| WidgetRouter.MissingDomainRefused | src/server/api/routers/widget.ts:124-159 | With an allow-list, a request that claims no domain is never served. |
| WidgetRouter.OrderOf | src/server/api/routers/widget.ts:171-173 | Descending iff the configuration says "newest". |
| WidgetRouter.ContentInputErrors | src/server/api/routers/widget.ts:92-97 | The widget id must be a UUID, and a given domain must be a URL. |
| WidgetRouter.GetWidgetContent | src/server/api/routers/widget.ts:90-190 | Each refusal of the gate throws its own error. When allowed, it renders every testimonial of the widget's project (approved or not), in the configured order, with the project's configuration. |
| WidgetRouter.GetWidgetConfig | src/server/api/routers/widget.ts:35-50 | Without an active project it throws. Otherwise it returns the stored configuration of that project, or none exactly when the project has none. |
| WidgetRouter.GetWidgetDomains | src/server/api/routers/widget.ts:191-209 | Without an active project it throws. Otherwise it returns the allow-list of the project's widget, or none when there is no widget. |
| WidgetRouter.SetAllowedDomains | src/server/api/routers/widget.ts:21-31 | The allow-list of the named widget is replaced wholesale, and nothing else changes. It is refused iff no widget of the active project has that id. |
| WidgetRouter.LastRegistrationWins | src/server/api/routers/widget.ts:21-31 | A second registration overwrites the first. |
| WidgetRouter.RegisteredListGates | src/server/api/routers/widget.ts:21-31 | After registering, the gate admits a claimed domain iff its host is among the new list's hosts. |
| WidgetRouter.DomainsInputErrors | src/server/api/routers/widget.ts:8-11 | The widget id must be a UUID, and every domain must be a URL. |
| WidgetRouter.RegisterWidgetDomains | src/server/api/routers/widget.ts:6-34 | The order is: input errors, no active project, an update that matches no widget (throws). Otherwise the table is `SetAllowedDomains` and the updated widget is returned. |
| WidgetRouter.ConfigErrors | src/server/api/routers/widget.ts:62-63 | 1..6 grid columns and a gap of 0..48. |
| WidgetRouter.ApplyConfig | src/server/api/routers/widget.ts:77-83 | The nine given fields are overwritten; id, project and allow-list are kept. |
| WidgetRouter.ApplyConfigIdempotent | src/server/api/routers/widget.ts:77-83 | Applying the same configuration twice is applying it once. |
| WidgetRouter.UpdateWidgetConfig | src/server/api/routers/widget.ts:51-89 | Bounds are checked, then the active project. A missing widget is swallowed by `.catch`: nothing is returned or written. Otherwise the widget is overwritten and returned. |
| TestimonieWidget.ItemOf | src/components/widgets/testimonie-widget.tsx:26-50 | One card keyed by the testimonial id. It has fixed border and background colours, the configured text colour, the quoted text and the footer. |
| TestimonieWidget.Items | src/components/widgets/testimonie-widget.tsx:25-52 | One card per testimonial, in input order. |
| TestimonieWidget.Render | src/components/widgets/testimonie-widget.tsx:16-18 | A null or empty list gives the empty-state message; any other list gives its cards. |
| TestimonieWidget.ItemsAppend | src/components/widgets/testimonie-widget.tsx:25-52 | The cards of a concatenation are the cards of its parts. |
| TestimonieWidget.KeysInOrder | src/components/widgets/testimonie-widget.tsx:27 | The card keys are the testimonial ids, in order. |
| WidgetCard.OptionalPart | src/components/widgets/widget-card.tsx:34-35 | An absent or empty part shows nothing; otherwise ", part". |
| WidgetCard.Footer | src/components/widgets/widget-card.tsx:32-36 | The dash and name come first. Then comes a space, the title part (", title" or nothing) and another space. The company part (", company" or nothing) ends the line. |
| WidgetCard.FooterWithoutParts | src/components/widgets/widget-card.tsx:32-36 | With neither title nor company, the footer is the name followed by the two separating spaces. |
| WidgetCard.Quote | src/components/widgets/widget-card.tsx:30 | The text in double quotes. |
| WidgetCard.CardOf | src/components/widgets/widget-card.tsx:11-39 | The border, background and text colours come from the configuration. |
| RatingStars.Stars | src/components/rating-stars.tsx:7-14 | Star k is filled iff k ≤ value. |
| RatingStars.FilledPrefix | src/components/rating-stars.tsx:7-14 | The filled stars form a prefix. |
| RatingStars.FilledCount | src/components/rating-stars.tsx:7-14 | The number of filled stars is the value clamped to 0..5. |
| RatingStars.Label | src/components/rating-stars.tsx:19 | The label ends in "/5". |
| RatingStars.LabelRoundTrip | src/components/rating-stars.tsx:19 | The numeral before "/5" reads back as the value. |
| MemberAction.Remove | src/server/actions/member.ts:13-40 | Unauthenticated iff there is no session; not found iff the id is unknown. The member is removed iff the caller owns its project or is the member (and the project exists). |
| MemberAction.RemovesExactlyOne | src/server/actions/member.ts:38-40 | A removal deletes exactly the named member. |
| MemberAction.MayLeave | src/server/actions/member.ts:32-36 | A signed-in member may always remove their own membership. |
| MemberAction.RemoveReply | src/server/actions/member.ts:13-47 | The reply succeeds exactly on removal. |
| MemberAction.RemoveMember | src/server/actions/member.ts:8-48 | The table and reply are those of `Remove`. |
| InvitationAction.RoleOf | src/server/actions/invitation.ts:27 | The role is the given one, or "member" when absent or empty. |
| InvitationAction.InviteErrors | src/server/actions/invitation.ts:9-13 | A valid e-mail and a project id are required. |
| InvitationAction.Invite | src/server/actions/invitation.ts:15-101 | The guards are checked in order: session, data, member-or-owner permission, not already a member, no pending invitation. Each refusal happens exactly when the guards before it pass and it fails. A clash on the new id is a store failure exactly when all guards pass. Only when every guard passes and the id is fresh is one invitation inserted, expiring seven days after now. |
| InvitationAction.InvitePreservesOnePending | src/server/actions/invitation.ts:74-85 | Inviting never creates a second pending invitation for the same project and address. |
| InvitationAction.InviteReply | src/server/actions/invitation.ts:20-108 | The reply succeeds exactly when an invitation was sent. |
| InvitationAction.InviteUser | src/server/actions/invitation.ts:15-110 | The table and reply are those of `Invite`. |
| InvitationAction.Cancel | src/server/actions/invitation.ts:112-129 | Any signed-in user deletes the invitation; a missing one fails and changes nothing. |
| InvitationAction.CancelInvitation | src/server/actions/invitation.ts:112-129 | The table and reply are those of `Cancel`. |
| InvitationAction.Accept | src/server/actions/invitation.ts:131-171 | The order is: unauthenticated, then invalid (missing or not pending), then not for you, then expired, then a clash on the new member id. Each refusal happens exactly when the checks before it pass and it fails. Otherwise the member is added with the invitation's role, and the invitation is marked accepted. |
| InvitationAction.AcceptOnce | src/server/actions/invitation.ts:145-147 | An accepted invitation cannot be accepted again. |
| InvitationAction.AcceptAtExpiry | src/server/actions/invitation.ts:153-155 | An invitation can still be accepted at exactly its expiry instant. |
| InvitationAction.AcceptReply | src/server/actions/invitation.ts:136-176 | The reply succeeds exactly on acceptance. |
| InvitationAction.AcceptInvitation | src/server/actions/invitation.ts:131-177 | The tables and reply are those of `Accept`. |
| ProjectRouter.All | src/server/api/routers/project.ts:6-22 | Exactly the projects the caller owns or is a member of. |
| ProjectRouter.NameSlugErrors | src/server/api/routers/project.ts:26-29 | Name and slug must each be 3..50 characters. |
| ProjectRouter.Create | src/server/api/routers/project.ts:30-86 | The slug is taken iff some project has it, and then nothing is written. Creation succeeds exactly when the slug is free, the project, member and link ids are fresh, no link exists for the project, and the caller has a user row. A clash on the project id writes nothing. A later refusal leaves the project written, plus the writes `AfterProject` states. On success come the project, the owner membership, the inactive link with the thank-you message, and the caller's active project. |
| ProjectRouter.AfterProject | src/server/api/routers/project.ts:54-79 | The membership, link and active-project writes follow the project's and succeed exactly when no write is refused. A member-id clash writes nothing more. A link clash (its id, or a link already on the project) keeps the membership. A missing user row keeps the membership and the link. |
| ProjectRouter.CreatedIsVisible | src/server/api/routers/project.ts:6-86 | After creation the caller sees the project, it is their active project, and its link is found by project. |
| ProjectRouter.SlugStaysUnique | src/server/api/routers/project.ts:33-44 | A second creation with the same slug is refused. |
| ProjectRouter.CreateProject | src/server/api/routers/project.ts:23-86 | Invalid input throws. Otherwise the tables are those of `Create`, with "Project with this slug already exists" when the slug is taken and a throw on a datastore refusal. |
| ProjectRouter.AddOwnerLinkUser | src/server/api/routers/project.ts:54-79 | The three writes leave the tables and the outcome exactly as `AfterProject` specifies. |
| ProjectRouter.GetCollectLink | src/server/api/routers/project.ts:87-106 | The active project's link, or "No collect link found". Without an active project the unique lookup has no key and the datastore throws. |
| ProjectAction.FormErrors | src/server/actions/project.ts:8-11 | Name and slug must both be present, each 3..50 characters. |
| ProjectAction.Owners | src/server/actions/project.ts:55-63 | An organisation's project has no owning user; a personal project is the caller's and has no organisation. |
| ProjectAction.Create | src/server/actions/project.ts:13-86 | The guards are: session, data, free slug. After them the action fails exactly when the project id, the link id or the project's link is taken, and succeeds otherwise. A project-id clash writes nothing. A link clash leaves the project in place and adds no link. On success come the project and its inactive default link. |
| ProjectAction.DefaultLinkInactive | src/server/actions/project.ts:66-73 | A created project's link carries its slug and starts inactive. |
| ProjectAction.CreateReply | src/server/actions/project.ts:18-84 | The reply succeeds exactly on creation. |
| ProjectAction.CreateProject | src/server/actions/project.ts:13-86 | The tables, reply and returned project are those of `Create`. |
| ProjectAction.AddDefaultLink | src/server/actions/project.ts:66-73 | The default link is inserted exactly when neither its id nor its project has a link yet; otherwise the links are unchanged. |
| CollectLinkRouter.CurrentProject | src/server/api/routers/collect-link.ts:5-23 | Null without an active project; otherwise the project's link, or null when it has none. |
| CollectLinkRouter.Flip | src/server/api/routers/collect-link.ts:43-50 | `isActive` of the named link is negated, and nothing else changes. |
| CollectLinkRouter.FlipTwice | src/server/api/routers/collect-link.ts:43-50 | Toggling twice restores the link. |
| CollectLinkRouter.ToggleStatus | src/server/api/routers/collect-link.ts:24-53 | An empty id is an input error, and an unknown link fails without writing. Otherwise the table becomes `Flip` of the old one. |
| AuthServer.GetActiveProjectId | src/server/better-auth/server.ts:12-16 | The session user's active project, or none without a session. |
| AuthServer.SetActiveProjectId | src/server/better-auth/server.ts:18-31 | Refused iff the project is not among the caller's projects. Otherwise the caller's active project is set. |
| Proxy.PublicRoutes | src/proxy.ts:7-11 | A path is public iff it is "/" or starts with one of the three prefixes. |
| Proxy.PrefixNotSegment | src/proxy.ts:11 | Any path that starts with a public route is public ("/sign-inx", "/api/authority"). Matching is by prefix, not by path segment. |
| Proxy.Decide | src/proxy.ts:9-27 | Redirect to "/sign-in" iff the path is not public and there is no session; otherwise pass. |
| Proxy.PublicIgnoresSession | src/proxy.ts:9-14 | A public path passes whatever the session. |
| ProjectSwitcher.Find | src/components/sidebar/project-switcher.tsx:36-37 | The first project with the active id, or none iff no project has it. |
| ProjectSwitcher.ActiveProject | src/components/sidebar/project-switcher.tsx:36-37 | The matching project, else the first, else none (exactly when the list is empty). |
| ProjectSwitcher.ActiveIsListed | src/components/sidebar/project-switcher.tsx:36-37 | The active project is always one of the listed projects. |
| ProjectSwitcher.Label | src/components/sidebar/project-switcher.tsx:58 | The project's name, or "Select Project" when there is no project or the name is empty. |
| ProjectSwitcher.MenuItems | src/components/sidebar/project-switcher.tsx:74-85 | One entry per project, keyed by id and titled by name, in order. |
| MembersList.MirrorsServerRule | src/components/settings/members-list.tsx:78 | The remove control is shown iff the server's owner-or-self rule permits the removal. |
| MembersList.CanRemove | src/components/settings/members-list.tsx:78 | The owner may remove any member, and anyone may remove their own membership; nobody else may remove anyone. |
| MembersList.AvatarFallback | src/components/settings/members-list.tsx:89 | The first character of the name, or "U". |
| MembersList.MemberRow | src/components/settings/members-list.tsx:77-129 | " (You)" marks the viewer's row. The action is shown iff removal is allowed, and it is "Leave" on one's own row and "Remove" otherwise. |
| MembersList.MemberRows | src/components/settings/members-list.tsx:77-133 | One row per member, in order. |
| MembersList.Render | src/components/settings/members-list.tsx:137 | The pending section appears iff there are invitations. |
| MembersList.OnlyOwnRowsForNonOwner | src/components/settings/members-list.tsx:78-106 | A viewer who is not the owner can act only on their own rows. |
| ProjectSettings.LowerChar | src/components/project-settings.tsx:75 | ASCII capitals become lower case; other characters are kept. |
| ProjectSettings.Lower | src/components/project-settings.tsx:75 | Lowercasing keeps the length; `LowerEach` states it character by character. |
| ProjectSettings.LowerEach | src/components/project-settings.tsx:75 | Lowercasing works character by character. |
| ProjectSettings.Dashify | src/components/project-settings.tsx:76 | The result is never longer than the input, and is empty only for an empty input. |
| ProjectSettings.DashifyKeeps | src/components/project-settings.tsx:76 | Replacing each run outside `[a-z0-9]` by "-" keeps every slug character, in order. |
| ProjectSettings.DashifyShape | src/components/project-settings.tsx:76 | The result holds only slug characters and single dashes. |
| ProjectSettings.DashifyAppend | src/components/project-settings.tsx:76 | After a slug character the replacement works piecewise: the two parts are replaced independently. |
| ProjectSettings.DashifySeparates | src/components/project-settings.tsx:76 | A run of characters outside `[a-z0-9]` between two slug characters becomes exactly one "-". |
| ProjectSettings.TrimStart | src/components/project-settings.tsx:77 | No longer than its input, and never starts with "-". |
| ProjectSettings.TrimStartDrops | src/components/project-settings.tsx:77 | What `^-+` leaves is a suffix of the input, and everything it removed is "-". |
| ProjectSettings.TrimEnd | src/components/project-settings.tsx:77 | No longer than its input, and never ends with "-". |
| ProjectSettings.TrimEndDrops | src/components/project-settings.tsx:77 | What `-+$` leaves is a prefix of the input, and everything it removed is "-". |
| ProjectSettings.TrimIsSlug | src/components/project-settings.tsx:77 | Trimming the dashes at both ends leaves a well-formed slug. |
| ProjectSettings.GenerateSlug | src/components/project-settings.tsx:74-77 | Every generated slug is well formed: `[a-z0-9-]` only, no dash at either end, never "--". Its non-dash characters are exactly the `[a-z0-9]` characters of the lowercased name. |
| ProjectSettings.SlugIsFixpoint | src/components/project-settings.tsx:74-77 | A well-formed slug is its own slug. |
| ProjectSettings.GenerateIdempotent | src/components/project-settings.tsx:74-77 | Generating a slug from a generated slug gives it back. |
| ProjectSettings.SettingsForm.constructor | src/components/project-settings.tsx:43-61 | The form starts with the project's name and slug as values and defaults, validated, not checking. |
| ProjectSettings.SettingsForm.GenerateAndCheckSlug | src/components/project-settings.tsx:65-111 | An empty name clears the slug and un-validates it. Otherwise the slug is regenerated. An unchanged slug is validated. A changed slug is validated iff the check answers available, or the check action refuses. "Taken" sets the error, and a thrown call keeps the old error. After an empty name, a taken slug or a thrown check, submit stays disabled. |
| ProjectSettings.SettingsForm.RecordAnswer | src/components/project-settings.tsx:92-107 | The availability answer decides validation and the slug error as above. |
| ProjectSettings.SettingsForm.HandleCloseDialog | src/components/project-settings.tsx:131-145 | Opening restores the project's values as validated. Closing resets the form to its defaults and un-validates. Either way the error and checking state are cleared. |
| ProjectSettings.SettingsForm.SubmitEnabled | src/components/project-settings.tsx:218-223 | Submit is enabled exactly when the form is not submitting, name and slug both have 3 to 50 characters, no slug check is running, and the slug is validated. |

## Left out

- Concurrency: each handler is one atomic step. The check-then-write races between concurrent requests (two submissions with one token, two creations with one slug) are not modelled. In the source, only the datastore's unique columns stop them.
- No transactions: writes refused part-way keep the earlier ones. This is modelled, but what the datastore's own error reporting says is not.
- The table invariants assume the unique columns that the handlers look up with `findUnique`: token value, project slug, widget project, link project. The datastore schema is not part of this model.
- The WHATWG URL parser and the zod validators (`z.url`, `z.uuid`, `z.email`) are uninterpreted functions in `Records.Env`.
- `getWidgetContent` builds its HTML with React server rendering. The model stops at the rendered values (`TestimonieWidget.Rendered`) and does not produce markup or escape HTML.
- `Math.random().toString(36)` is modelled as two given base-36 fragments of at most 13 characters. `new Date()` is the parameter `now`, in milliseconds.
- JavaScript numbers are modelled as unbounded integers. Ratings, grid sizes and limits are never fractional here.
- ProjectSettings.LowerChar: `toLowerCase` is modelled on ASCII capitals only. Other cased characters (accented Latin, the Kelvin sign, U+0130) are kept as they are, which is where the browser and the model differ.
- String lengths in the zod schemas are counted in characters, not UTF-16 code units.
- InvitationAction.Invite: "seven days later" is `now + 7 * DAY`. `setDate` in local time differs across a daylight-saving change.
- TestimonieRouter.FromCursor: a cursor naming no row of the listing gives an empty page. The datastore's behaviour for an unknown cursor is not modelled.
- TestimonieRouter.Infinite: the cursor is passed without `skip`, so the cursor row is the first item of the page it opens. This is what the model states; the datastore's cursor semantics beyond that are not modelled.
- The `include: { project: true }` of the token lookups and the project relation on tokens (getAll/create) are not modelled; the project fields of those results are dropped.
- Datastore.SortBy: rows with equal keys come out in some order. The datastore's tie order is not modelled.
- TokenAction.CancelToken: the "Failed to cancel token" catch is unreachable in the model, because the update targets a record just read.
- Toast messages, navigation (`router.refresh`, `revalidatePath`), logging, and the e-mail that is never sent are left out.
- Where the component sources are purely presentational (styles, icons, the dialog's markup), only the values they show are modelled.
- `src/proxy.ts:30-37`: the matcher configuration that decides which requests reach the proxy is not modelled.
- ProjectSettings.SettingsForm.SubmitEnabled: `formState.isValid` is modelled as the schema on the current values; react-hook-form's manual errors are not part of it.
- ProjectSettings.SettingsForm.GenerateAndCheckSlug: the availability check is a parameter (answered, refused, or thrown). `src/server/actions/check-slug.ts` is not part of this model. A refusal (`success: false`) validates the slug, because the component treats anything other than "success and not available" as available.
- ProjectSettings.SettingsForm: the debounce and the React effect scheduling are not modelled; each settled name is one call.
- WidgetCard.Footer: the dash at the head of the footer is the three characters U+00E2 U+20AC U+201D, exactly as in the component sources. It is an em dash whose UTF-8 encoding was decoded as Windows-1252.
- ProjectRouter.GetCollectLink: without an active project, the key `undefined` makes the lookup throw. This is modelled as `Threw(StoreError)`; what the datastore client really reports is not modelled.
- `src/server/api/root.ts` does not register the widget router. The widget procedures are modelled as written anyway.
