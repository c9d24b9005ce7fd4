/** `notion_webhook`: the decision of what to do with one inbound Notion webhook,
    as a function of what the request and the outside world answer, and the
    endpoint itself over the shared dedup store and the Discord channel. */
module Webhook {
  import opened Wrappers
  import opened Notion
  import opened Extract
  import opened Validate
  import opened IssueMessage
  import opened Dedup
  import opened Discord

  /** Seven days, the marker's `ex` in seconds. */
  const IssueTtl: int := 60 * 60 * 24 * 7

  const RelevantEvents: seq<string> := ["page.created", "page.properties_updated"]

  function IssueKey(pageId: string): string {
    "issue_" + pageId
  }

  /** The body after `json.loads`: either not JSON, or JSON together with the
      outcome of validating it as `NotionWebhook` and as `NotionVerifyData`. */
  datatype Body =
    | MalformedJson
    | Json(asWebhook: Option<NotionWebhook>, asVerification: Option<string>)

  /** The page fetch: it raised (timeout, network), or gave a status and, for a
      body that validates as `NotionPage`, the page. */
  datatype FetchResult =
    | FetchRaised
    | Fetched(status: int, page: Option<Page>)

  /** One call of the endpoint: the body, and what the outside world answers
      while it runs: the fetch, the `NOTION_ISSUES_DATABASE_ID` environment
      variable, the loaded configuration (`None` when loading raised), whether
      the Discord post succeeds, and the clock. */
  datatype Request = Request(
    body: Body,
    fetch: FetchResult,
    target: Option<string>,
    config: Option<Config>,
    discordReachable: bool,
    now: int)

  /** `{"status": "verified"}`, a bare `return` (JSON `null`), or the `HealthResponse`. */
  datatype Response = Verified | NullBody | Health

  /** What one call does: its response, the message it delivers, and the store after it. */
  datatype Outcome = Outcome(response: Response, delivered: Option<string>, store: map<string, int>)

  predicate IsRelevant(event: NotionWebhook) {
    event.entity.kind == "page" && event.eventType in RelevantEvents
  }

  function Lookup(m: map<string, string>, key: string): Option<string> {
    if key in m then Some(m[key]) else None
  }

  /** `page.parent and page.parent.get("database_id") == os.getenv(...)`. */
  predicate IsIssuePage(page: Page, target: Option<string>) {
    |page.parent| > 0 && Lookup(page.parent, "database_id") == target
  }

  /** The page the pipeline works on, once the fetch answered 200 with a valid page. */
  function FetchedPage(req: Request): Option<Page> {
    if req.fetch.Fetched? && req.fetch.status == 200 then req.fetch.page else None
  }

  /** The outcome of one call on a store, following the branches of the source. */
  function Handle(req: Request, store: map<string, int>): (o: Outcome)
    ensures o.delivered.Some? ==>
              o.response == Health && FetchedPage(req).Some?
              && o.store.Keys == store.Keys + {IssueKey(FetchedPage(req).value.id)}
    ensures o.response != Health ==> o.delivered.None? && o.store == store
  {
    match req.body
    case MalformedJson =>
      // the HTTPException(400) raised for bad JSON is caught by the outer handler
      Outcome(Health, None, store)
    case Json(webhook, verification) =>
      if webhook.None? then
        // the 400 for a payload that is neither shape is caught the same way
        Outcome(if verification.Some? then Verified else Health, None, store)
      else if !IsRelevant(webhook.value) then Outcome(Health, None, store)
      else
        match req.fetch
        case FetchRaised => Outcome(Health, None, store)
        case Fetched(status, parsed) =>
          if status != 200 then Outcome(NullBody, None, store)
          else if parsed.None? then Outcome(Health, None, store)
          else
            var page := parsed.value;
            if !IsIssuePage(page, req.target) then Outcome(NullBody, None, store)
            else if req.config.None? then Outcome(Health, None, store)
            else if !AllRequiredPresent(page, req.config.value.required) then Outcome(NullBody, None, store)
            else if Live(store, IssueKey(page.id), req.now) then Outcome(NullBody, None, store)
            else if !req.discordReachable then Outcome(Health, None, store)
            else Outcome(Health, Some(Message(page, req.config.value)), store[IssueKey(page.id) := req.now + IssueTtl])
  }

  /** Everything a call needs to notify, apart from the dedup store and Discord. */
  predicate Eligible(req: Request) {
    && req.body.Json?
    && req.body.asWebhook.Some?
    && IsRelevant(req.body.asWebhook.value)
    && FetchedPage(req).Some?
    && IsIssuePage(FetchedPage(req).value, req.target)
    && req.config.Some?
    && AllRequiredPresent(FetchedPage(req).value, req.config.value.required)
  }

  /** A message goes out exactly when the call is eligible, the page's marker is
      not live and Discord accepts the post; the message is the page's message. */
  lemma DispatchIff(req: Request, store: map<string, int>)
    ensures Handle(req, store).delivered.Some? <==>
              Eligible(req) && !Live(store, IssueKey(FetchedPage(req).value.id), req.now) && req.discordReachable
    ensures Handle(req, store).delivered.Some? ==>
              Handle(req, store).delivered.value == Message(FetchedPage(req).value, req.config.value)
  {
  }

  /** A delivered message starts with the header, ends with the page link, and
      carries exactly one line per required property, in configuration order,
      before the optional lines. */
  lemma DeliveredMessageShape(req: Request, store: map<string, int>)
    requires Handle(req, store).delivered.Some?
    ensures var page := FetchedPage(req).value;
      var config := req.config.value;
      var m := Handle(req, store).delivered.value;
      && Header <= m
      && m == Text.Concat([Header] + RenderedLines(page, config.required) + RenderedLines(page, config.optional)
                          + [LinkLine(page.url)])
      && |RenderedLines(page, config.required)| == |config.required|
      && forall i :: 0 <= i < |config.required| ==>
           RenderedLines(page, config.required)[i]
           == PropertyLine(config.required[i].name,
                           ExtractPropertyValue(page, config.required[i].name, config.required[i].kind).value)
  {
    DispatchIff(req, store);
    var page := FetchedPage(req).value;
    MessageLayout(page, req.config.value);
    AllRequiredRendered(page, req.config.value.required);
  }

  /** The store changes only when a message goes out, and then only at the
      page's key, which now expires seven days later. */
  lemma StoreChangesOnlyOnDelivery(req: Request, store: map<string, int>)
    ensures var o := Handle(req, store);
      (o.delivered.None? ==> o.store == store) &&
      (o.delivered.Some? ==>
         FetchedPage(req).Some? &&
         o.store == store[IssueKey(FetchedPage(req).value.id) := req.now + IssueTtl])
  {
  }

  /** A page whose marker is live is never notified again, whatever else the call carries. */
  lemma AlreadyNotifiedSkips(req: Request, store: map<string, int>)
    requires FetchedPage(req).Some? && Live(store, IssueKey(FetchedPage(req).value.id), req.now)
    ensures Handle(req, store).delivered == None
    ensures Handle(req, store).store == store
  {
  }

  /** Idempotence: replaying a call that notified, on the store it left and
      before the marker expires, notifies nothing and leaves the store alone. */
  lemma ReplayDispatchesNothing(req: Request, store: map<string, int>, later: int)
    requires Handle(req, store).delivered.Some?
    requires later < req.now + IssueTtl
    ensures var after := Handle(req, store).store;
      Handle(req.(now := later), after).delivered == None &&
      Handle(req.(now := later), after).store == after
  {
    StoreChangesOnlyOnDelivery(req, store);
    AlreadyNotifiedSkips(req.(now := later), Handle(req, store).store);
  }

  /** Once the marker has expired, the same call notifies again and renews the marker. */
  lemma ReplayAfterExpiryRenotifies(req: Request, store: map<string, int>, later: int)
    requires Handle(req, store).delivered.Some?
    requires later >= req.now + IssueTtl
    ensures var after := Handle(req, store).store;
      Handle(req.(now := later), after).delivered == Handle(req, store).delivered &&
      Handle(req.(now := later), after).store == store[IssueKey(FetchedPage(req).value.id) := later + IssueTtl]
  {
    DispatchIff(req, store);
    var key := IssueKey(FetchedPage(req).value.id);
    var after := Handle(req, store).store;
    assert after == store[key := req.now + IssueTtl];
    assert !Live(after, key, later);
    DispatchIff(req.(now := later), after);
  }

  /** The verification answer is given exactly for a body that is not a webhook
      event but is a verification payload, and it touches neither Discord nor the store. */
  lemma VerificationIff(req: Request, store: map<string, int>)
    ensures Handle(req, store).response == Verified <==>
              req.body.Json? && req.body.asWebhook.None? && req.body.asVerification.Some?
    ensures Handle(req, store).response == Verified ==>
              Handle(req, store).delivered == None && Handle(req, store).store == store
  {
  }

  /** A body that is not JSON, or JSON of neither shape, gets the health response
      (the 400 is swallowed) and has no effect. */
  lemma MalformedPayloadSwallowed(req: Request, store: map<string, int>)
    requires req.body == MalformedJson || req.body == Json(None, None)
    ensures Handle(req, store) == Outcome(Health, None, store)
  {
  }

  /** The bare `return` answers exactly the silent skips: a non-200 fetch, a page
      outside the issues database, a missing required field, an existing marker. */
  lemma NullBodyIff(req: Request, store: map<string, int>)
    ensures Handle(req, store).response == NullBody <==>
              && req.body.Json? && req.body.asWebhook.Some? && IsRelevant(req.body.asWebhook.value)
              && req.fetch.Fetched?
              && (|| req.fetch.status != 200
                  || (&& req.fetch.page.Some?
                      && (|| !IsIssuePage(req.fetch.page.value, req.target)
                          || (&& req.config.Some?
                              && (|| !AllRequiredPresent(req.fetch.page.value, req.config.value.required)
                                  || Live(store, IssueKey(req.fetch.page.value.id), req.now))))))
  {
  }

  /** A failed Discord post raises before the marker is written: nothing is
      delivered, the store is unchanged, and the health response is returned. */
  lemma DiscordFailureSkipsMarker(req: Request, store: map<string, int>)
    requires Eligible(req) && !Live(store, IssueKey(FetchedPage(req).value.id), req.now)
    requires !req.discordReachable
    ensures Handle(req, store) == Outcome(Health, None, store)
  {
  }

  /** With `NOTION_ISSUES_DATABASE_ID` unset, `None == None` admits every page
      whose non-empty parent has no `database_id` (a page under a page, say). */
  lemma UnsetTargetAdmitsNonDatabaseParent(page: Page)
    requires |page.parent| > 0 && "database_id" !in page.parent
    ensures IsIssuePage(page, None)
  {
  }

  /** The page of the worked example, with the given people as `Assignee`. */
  function ExamplePage(assignees: seq<User>): Page {
    Page("p1",
         map["type" := "database_id", "database_id" := "issues-db"],
         map["Name" := Title([TitleText(TextContent("Fix bug", None), "Fix bug")]),
             "Assignee" := People(assignees),
             "Priority" := Select(Some(SelectOption("o1", Some("High"), "red")))],
         "https://www.notion.so/p1")
  }

  /** A `page.created` event for page p1, fetched with status 200. */
  function ExampleRequest(page: Page, config: Config): Request {
    var event := NotionWebhook("e1", "2024-01-01T00:00:00.000Z", "w1", "s1", 1, "page.created", Entity("p1", "page"));
    Request(Json(Some(event), None), Fetched(200, Some(page)), Some("issues-db"), Some(config), true, 1000)
  }

  const Alice := User("u1", Some("Alice"))

  /** The configuration of the worked example: a title and an assignee required, a priority optional. */
  function ExampleConfig(): Config {
    Config([PropSpec("Name", "title"), PropSpec("Assignee", "people")], [PropSpec("Priority", "select")])
  }

  /** The values the worked example's properties extract to. */
  lemma ExampleValues(assignees: seq<User>)
    ensures ExtractPropertyValue(ExamplePage(assignees), "Name", "title") == Some("Fix bug")
    ensures ExtractPropertyValue(ExamplePage(assignees), "Priority", "select") == Some("High")
    ensures assignees == [Alice] ==> ExtractPropertyValue(ExamplePage(assignees), "Assignee", "people") == Some("Alice")
    ensures assignees == [] ==> ExtractPropertyValue(ExamplePage(assignees), "Assignee", "people") == None
  {
  }

  /** The worked example passes validation. */
  lemma ExampleValidates()
    ensures AllRequiredPresent(ExamplePage([Alice]), ExampleConfig().required)
  {
    ExampleValues([Alice]);
  }

  /** The required block of the worked example. */
  lemma ExampleRequiredLines()
    ensures Text.Concat(RenderedLines(ExamplePage([Alice]), ExampleConfig().required))
            == "**Name:** Fix bug\n" + "**Assignee:** Alice\n"
  {
    var page := ExamplePage([Alice]);
    var required := ExampleConfig().required;
    ExampleValues([Alice]);
    var name := "**Name:** Fix bug\n";
    var assignee := "**Assignee:** Alice\n";
    assert PropertyLine("Name", "Fix bug") == name;
    assert PropertyLine("Assignee", "Alice") == assignee;
    assert LinesFor(page, required[0]) == [name];
    assert LinesFor(page, required[1]) == [assignee];
    assert required[..0] == [] && required[..2] == required;
    CollectSnoc(LineOf(page), required, 0);
    CollectSnoc(LineOf(page), required, 1);
    assert RenderedLines(page, required) == [name] + [assignee];
    Text.ConcatAppend([name], [assignee]);
    Text.ConcatSingle(name);
    Text.ConcatSingle(assignee);
  }

  /** The optional block of the worked example. */
  lemma ExampleOptionalLines()
    ensures Text.Concat(RenderedLines(ExamplePage([Alice]), ExampleConfig().optional)) == "**Priority:** High\n"
  {
    var page := ExamplePage([Alice]);
    var optional := ExampleConfig().optional;
    ExampleValues([Alice]);
    assert optional[..0] == [];
    assert RenderedLines(page, []) == [];
    assert PropertyLine("Priority", "High") == "**Priority:** High\n";
    assert LinesFor(page, optional[0]) == ["**Priority:** High\n"];
    Text.ConcatSingle("**Priority:** High\n");
  }

  /** The message of the worked example, line by line. */
  lemma ExampleMessage()
    ensures Message(ExamplePage([Alice]), ExampleConfig())
            == Header + "**Name:** Fix bug\n" + "**Assignee:** Alice\n" + "**Priority:** High\n"
               + LinkLine("https://www.notion.so/p1")
  {
    ExampleRequiredLines();
    ExampleOptionalLines();
  }

  /** A new issue with title, assignee and priority on an empty store: one
      message with all three lines and the link, and the marker `issue_p1`. */
  lemma ExampleNotifiesOnce()
    ensures var o := Handle(ExampleRequest(ExamplePage([Alice]), ExampleConfig()), map[]);
      && o.delivered == Some(Header + "**Name:** Fix bug\n" + "**Assignee:** Alice\n" + "**Priority:** High\n"
                             + LinkLine("https://www.notion.so/p1"))
      && o.store == map["issue_p1" := 1000 + IssueTtl]
  {
    var page := ExamplePage([Alice]);
    var req := ExampleRequest(page, ExampleConfig());
    ExampleValidates();
    assert IsIssuePage(page, req.target);
    assert Eligible(req);
    DispatchIff(req, map[]);
    StoreChangesOnlyOnDelivery(req, map[]);
    ExampleMessage();
    assert IssueKey("p1") == "issue_p1";
    assert map[][IssueKey("p1") := 1000 + IssueTtl] == map["issue_p1" := 1000 + IssueTtl];
  }

  /** The worked example's configuration with `Assignee` moved to the optional list. */
  function OptionalAssigneeConfig(): Config {
    Config([PropSpec("Name", "title")], [PropSpec("Assignee", "people")])
  }

  /** The same page with no assignee, and `Assignee` required: nothing is sent. */
  lemma ExampleUnassignedRequired()
    ensures var required := Config([PropSpec("Name", "title"), PropSpec("Assignee", "people")], []);
      Handle(ExampleRequest(ExamplePage([]), required), map[]) == Outcome(NullBody, None, map[])
  {
    var page := ExamplePage([]);
    ExampleValues([]);
    var required := Config([PropSpec("Name", "title"), PropSpec("Assignee", "people")], []);
    assert !Truthy(ExtractPropertyValue(page, required.required[1].name, required.required[1].kind));
  }

  /** The message for the page with no assignee when `Assignee` is optional: no `Assignee` line. */
  lemma ExampleUnassignedMessage()
    ensures Message(ExamplePage([]), OptionalAssigneeConfig()) == Header + "**Name:** Fix bug\n" + LinkLine("https://www.notion.so/p1")
  {
    var page := ExamplePage([]);
    var optional := OptionalAssigneeConfig();
    ExampleValues([]);
    assert RenderedLines(page, optional.required) == ["**Name:** Fix bug\n"] by {
      assert optional.required[..0] == [];
      assert RenderedLines(page, []) == [];
      assert PropertyLine("Name", "Fix bug") == "**Name:** Fix bug\n";
      assert LinesFor(page, optional.required[0]) == ["**Name:** Fix bug\n"];
    }
    assert RenderedLines(page, optional.optional) == [] by {
      assert optional.optional[..0] == [];
      assert RenderedLines(page, []) == [];
      assert LinesFor(page, optional.optional[0]) == [];
    }
    Text.ConcatSingle("**Name:** Fix bug\n");
    assert Text.Concat([]) == "";
    assert Header + "**Name:** Fix bug\n" + "" == Header + "**Name:** Fix bug\n";
  }

  /** With `Assignee` optional, the page with no assignee is sent without an `Assignee` line. */
  lemma ExampleUnassignedOptional()
    ensures Handle(ExampleRequest(ExamplePage([]), OptionalAssigneeConfig()), map[]).delivered
            == Some(Header + "**Name:** Fix bug\n" + LinkLine("https://www.notion.so/p1"))
  {
    var page := ExamplePage([]);
    ExampleValues([]);
    assert AllRequiredPresent(page, OptionalAssigneeConfig().required);
    assert IsIssuePage(page, Some("issues-db"));
    ExampleUnassignedMessage();
  }

  /** The process state the endpoint shares between requests. */
  class App {
    const store: DedupStore
    const discord: DiscordChannel

    constructor (store: DedupStore, discord: DiscordChannel)
      ensures this.store == store && this.discord == discord
    {
      this.store := store;
      this.discord := discord;
    }

    /** The endpoint, with its early returns. */
    method HandleNotionWebhook(req: Request) returns (response: Response)
      modifies store, discord
      ensures var o := Handle(req, old(store.entries));
        && response == o.response
        && store.entries == o.store
        && discord.sent == old(discord.sent) + (if o.delivered.Some? then [o.delivered.value] else [])
    {
      if req.body.MalformedJson? {
        return Health;
      }
      var webhook := req.body.asWebhook;
      if webhook.None? {
        if req.body.asVerification.Some? {
          return Verified;
        }
        return Health;
      }
      var event := webhook.value;
      if !(event.entity.kind == "page" && event.eventType in RelevantEvents) {
        return Health;
      }
      if req.fetch.FetchRaised? {
        return Health;
      }
      if req.fetch.status != 200 {
        return NullBody;
      }
      if req.fetch.page.None? {
        return Health;
      }
      var page := req.fetch.page.value;
      if !(|page.parent| > 0 && Lookup(page.parent, "database_id") == req.target) {
        return NullBody;
      }
      if req.config.None? {
        return Health;
      }
      var config := req.config.value;
      var valid := ValidateRequiredProperties(page, config);
      if !valid {
        return NullBody;
      }
      var key := IssueKey(page.id);
      var seen := store.Get(key, req.now);
      if seen {
        return NullBody;
      }
      var message := ConstructDiscordMessage(page, config);
      var raised := discord.Send(message, req.discordReachable);
      if raised {
        return Health;
      }
      store.Set(key, IssueTtl, req.now);
      response := Health;
    }
  }
}
