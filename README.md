# Notion → Discord issue notifier, modelled in Dafny

The service receives Notion webhooks and checks that each one is a page event.
It fetches the page and checks that the page belongs to the issues database.
It then checks the page's required properties, as the YAML configuration lists them.
It posts one formatted message per page to a Discord channel.
A Redis key `issue_<page id>` with a seven-day expiry stops the same page from being announced twice.

The model covers the logic of `app.py`:

- `Extract` (`extract_property_value`): a Notion property is a tagged union over the kinds the service reads.
  Reading it under a declared type gives `Option<string>`, faithful to Python's `str`, `", ".join` and truthiness.
- `Validate` (`validate_required_properties`): a loop with an early exit.
  It is proved equal to "every required property extracts to a non-empty string".
- `IssueMessage` (`construct_discord_message`): the two appending loops.
  They are proved equal to a specification built from the lines each property contributes.
- `Webhook` (`notion_webhook`): the pure decision function `Handle` follows every branch and exit of the endpoint.
  The class `App` holds the Redis store (`Dedup.DedupStore`, key → expiry time) and the Discord channel (`Discord.DiscordChannel`, the messages posted).
  Its method `HandleNotionWebhook` is the endpoint with its early returns, proved to do what `Handle` says.
  The lemmas about `Handle` state when a message goes out, what the store becomes, idempotence, expiry, and which response each path gives.
- `Text`: Python's `str(int)` (proved invertible), `str(bool)`, `sep.join` and the repeated `+=`.

Everything the endpoint gets from outside is an input of `Webhook.Request`:
- the result of `json.loads` and of the two pydantic validations;
- the page fetch (raised, or a status code and a page);
- the `NOTION_ISSUES_DATABASE_ID` environment variable;
- the loaded configuration (`None` when loading raises or the file is not a mapping; an absent list is the empty list);
- whether the Discord post succeeds;
- the current time.

Behaviours of the code worth knowing, each stated by a lemma:

- The `HTTPException(400)` raised for bad JSON (app.py:92) is caught by the outer `except Exception` (app.py:150).
  So is the one raised for a payload that is neither a webhook nor a verification (app.py:104).
  Both answer with the `HealthResponse`, not a client error (`MalformedPayloadSwallowed`).
- `send_discord_message` does not catch errors, so a failed post raises before `redis_client.set` (app.py:142-145) and no marker is written (`DiscordFailureSkipsMarker`).
- A checkbox renders with Python's `str`, so it gives `"True"` or `"False"`; an unticked box is a value, not a missing one (`ExtractCheckbox`).
- The skip branches at app.py:121, 129, 134 and 139 `return` nothing, which FastAPI answers with a JSON `null` body (`Response.NullBody`), not the health object.
  The irrelevant-event branch at app.py:148 and the success path do return the health object.
- When `NOTION_ISSUES_DATABASE_ID` is unset, `None == None` holds (app.py:126). Every page whose non-empty parent has no `database_id` then counts as an issue page (`UnsetTargetAdmitsNonDatabaseParent`).

## Model

| member | source | states |
|---|---|---|
| `Text.NatToString` | app.py:47-48 | Python `str` of a non-negative int is non-empty, all decimal digits, no leading zero |
| `Text.IntToString` | app.py:47-48 | Python `str` of any int is never the empty string, so a number is always truthy |
| `Text.ParseIntToString` | app.py:47-48 | reading the rendered number back gives the number: `str` loses nothing |
| `Text.BoolToString` | app.py:49-50 | Python `str` of a bool is non-empty and is `"True"` exactly for `True` |
| `Text.JoinEmptyIff` | app.py:40 | joining non-empty names gives `""` only for no names |
| `Text.ConcatAppend` | app.py:62-74 | building a string by appending parts is a homomorphism over concatenation of part lists |
| `Extract.KindMatchesHandled` | app.py:35-50 | a declared type that matches a property's kind is one of the nine handled type names |
| `Extract.NamedPeople` | app.py:40 | the names kept are non-empty, at most one per entry, and none are kept exactly when no entry has a name |
| `Extract.NamedPeopleMembers` | app.py:40 | every kept name is some entry's name, and every entry with a non-empty name has it kept |
| `Extract.NamedPeopleSplit` | app.py:40 | the names keep list order: the names of `a + b` are those of `a` followed by those of `b` |
| `Extract.PropertyValue` | app.py:32-51 | a value exists only when the declared type matches the property's kind; a present number or checkbox always gives a truthy value |
| `Extract.ExtractPropertyValue` | app.py:30-51 | a value exists only for a name the page has, with a declared type matching its kind |
| `Extract.ExtractAbsent` | app.py:31-33 | no value for a missing name, an empty entry, or an unhandled type name |
| `Extract.ExtractText` | app.py:35-38 | `title`/`rich_text` give the first segment's `text.content`, and nothing for an empty segment list |
| `Extract.ExtractPeople` | app.py:39-40 | `people` gives the `", "`-join of the named entries; nothing for an empty list; a truthy value exactly when some entry has a name |
| `Extract.ExtractOptionAndDate` | app.py:41-44 | `select`/`status` give the option's `name`, `date` gives its `start` |
| `Extract.ExtractCreatedTime` | app.py:45-46 | `created_time` gives the raw timestamp string, and nothing when it is empty |
| `Extract.ExtractNumber` | app.py:47-48 | a number (including 0) always gives a truthy string that reads back as the number |
| `Extract.ExtractCheckbox` | app.py:49-50 | a checkbox gives `"True"` or `"False"`; an unticked box is still a value |
| `Validate.AllRequiredPresent` | app.py:54-58 | the reference definition of a valid page: every required property extracts to a non-empty string, so each is on the page under an entry of its declared kind |
| `Validate.ValidateRequiredProperties` | app.py:54-58 | the loop answers true exactly when every required property extracts to a non-empty string |
| `Validate.NoRequiredValidates` | app.py:55 | an empty (or absent) required list always validates |
| `Validate.FillingMissingValidates` | app.py:54-58 | a page whose required property is absent or extracts to nothing or `""` fails; giving that property a truthy value makes it pass when the rest already did |
| `IssueMessage.Message` | app.py:61-75 | the reference definition of the message: header, the lines of the required then the optional properties with non-empty values, then the link; it starts with the header and ends with the link |
| `IssueMessage.ConstructDiscordMessage` | app.py:61-75 | the two appending loops build exactly the specified message |
| `IssueMessage.AppendOne` | app.py:64-72 | one loop step appends the property's line when its value is truthy, and nothing otherwise |
| `IssueMessage.CollectSnoc` | app.py:64-72 | collecting one more property adds its lines at the end |
| `IssueMessage.CollectSplit` | app.py:64-72 | collecting over `a + b` gives the lines of `a` followed by those of `b` |
| `IssueMessage.RenderedLinesSplit` | app.py:64-72 | property lines keep configuration order: the lines of `a + b` are those of `a`, then those of `b` |
| `IssueMessage.RenderedLinesSound` | app.py:64-72 | every line of the message body shows a configured property whose value is non-empty |
| `IssueMessage.RenderedLinesComplete` | app.py:64-72 | every configured property with a non-empty value has its `**name:** value` line |
| `IssueMessage.AllRequiredRendered` | app.py:64-67 | after validation the required block is exactly one line per required property, in configuration order |
| `IssueMessage.MessageLayout` | app.py:61-75 | the message is the header, the required lines, the optional lines, then the link line; it starts with the header and ends with the link |
| `Dedup.DedupStore.constructor` | app.py:18-22 | the store starts empty |
| `Dedup.DedupStore.Get` | app.py:137 | `GET` finds the key exactly when it is stored and not yet expired |
| `Dedup.DedupStore.Set` | app.py:145 | `SET ... ex` stores the key with expiry `now + ttl`, makes it live, and changes no other key |
| `Discord.DiscordChannel.constructor` | discord_client.py:5-6 | the channel configured by the webhook URL starts with no messages posted |
| `Discord.DiscordChannel.Send` | discord_client.py:8-17 | a successful post appends the message; a failed one raises and delivers nothing |
| `Webhook.Handle` | app.py:84-153 | the reference definition of one call, branch by branch; a delivery answers with the health response and adds only the page's key to the store, and every other answer (verified, bare return) has no effect |
| `Webhook.DispatchIff` | app.py:107-145 | a message goes out exactly when the event is a relevant page event, the fetch is 200, the page is in the target database, the required fields are present, the marker is not live and Discord accepts; the message is the page's message |
| `Webhook.DeliveredMessageShape` | app.py:132-142 | a delivered message has the header, one line per required property in order, the optional lines, and the link |
| `Webhook.StoreChangesOnlyOnDelivery` | app.py:136-145 | the store changes only on delivery, and then only at `issue_<page id>`, set to expire 604800 s later |
| `Webhook.AlreadyNotifiedSkips` | app.py:136-139 | a page whose marker is live is never announced, and the store is untouched |
| `Webhook.ReplayDispatchesNothing` | app.py:136-145 | replaying a call that announced, before its marker expires, announces nothing and changes nothing |
| `Webhook.ReplayAfterExpiryRenotifies` | app.py:137-145 | after the marker expires, the same call announces again and renews the marker |
| `Webhook.VerificationIff` | app.py:94-101 | `{"status": "verified"}` is answered exactly for a verification payload that is not a webhook event, with no delivery and no store change |
| `Webhook.MalformedPayloadSwallowed` | app.py:88-104 | bad JSON, or JSON of neither shape, gets the health response with no effect |
| `Webhook.NullBodyIff` | app.py:119-139 | the bare return answers exactly a non-200 fetch, a page outside the database, a missing required field, or a live marker |
| `Webhook.DiscordFailureSkipsMarker` | app.py:141-145 | a failed Discord post leaves the store unchanged and answers with the health response |
| `Webhook.UnsetTargetAdmitsNonDatabaseParent` | app.py:126 | with the target database unset, any non-empty parent without `database_id` passes the database check |
| `Webhook.ExampleValues` | app.py:35-44 | the worked example's title, assignee and priority extract to "Fix bug", "Alice" and "High" |
| `Webhook.ExampleValidates` | app.py:54-58 | the worked example passes validation |
| `Webhook.ExampleRequiredLines` | app.py:64-67 | the worked example's required block is the Name line then the Assignee line |
| `Webhook.ExampleOptionalLines` | app.py:69-72 | the worked example's optional block is the Priority line |
| `Webhook.ExampleMessage` | app.py:61-75 | the worked example's full message text |
| `Webhook.ExampleNotifiesOnce` | app.py:107-145 | a new page on an empty store yields that message and the single key `issue_p1` |
| `Webhook.ExampleUnassignedRequired` | app.py:132-134 | with no assignee and `Assignee` required, nothing is sent and the store stays empty |
| `Webhook.ExampleUnassignedMessage` | app.py:61-75 | with `Assignee` optional and empty, the message has no Assignee line |
| `Webhook.ExampleUnassignedOptional` | app.py:107-145 | with `Assignee` optional and empty, the page is still announced |
| `Webhook.App.constructor` | app.py:17-22 | the endpoint's shared state is the given store and channel |
| `Webhook.App.HandleNotionWebhook` | app.py:84-153 | the endpoint's response, the store after it and the messages posted are exactly those of `Handle` |

## Left out

- HTTP server, routing and startup (`main.py`, `run_server.py`, the FastAPI object) and `constants.py`: bootstrap and configuration strings with no logic.
- The `httpx` page fetch (app.py:112-117): its URL and headers are not modelled; its outcome is the `FetchResult` input.
- The Redis client (app.py:18-22): errors from `get` or `set` are not modelled. Real-time expiry is an abstract clock `now`. An expired key stays in the map but is no longer live.
- The check-then-act race between concurrent requests for one page (app.py:137-145): concurrency is out of scope.
- The Discord `SyncWebhook` call and its executor (discord_client.py): a send either delivers or raises. A post that lands and then raises is not modelled.
- YAML loading (app.py:25-27, app.py:131) is the `config` input: `None` when loading raises or the file is not a mapping, otherwise two lists of well-formed entries. A configuration whose lists are `null`, or whose entries lack `name` or `type`, is not modelled. Such a file raises only when a loop reaches the bad part: a bad required entry only if the entries before it all pass (app.py:55-57), a `null` optional list only after validation and the dedup check (app.py:69). Before that point the call can still end in a bare return. So folding such a file into `config == None`, which always answers with the health response, would be inexact, and the model does not do it.
- `json.loads` and the pydantic validations of `models.py` (app.py:89, 96, 99, 123) are the `Body` and `FetchResult` inputs. Page fields the code never reads are not part of `Notion.Page`.
- Logging, `print` and `traceback` formatting.
- `Extract.PropertyValue`: number properties are integers. Python's `str` of a float is not modelled.
- `Extract.PropertyValue`: every rich-text segment is modelled as carrying `text`. A mention or equation segment first in a title would raise `KeyError` at app.py:36 and end with the health response. This is not modelled.
- `Extract.PropertyValue`: a `select`, `status` or `date` payload that is the empty object `{}` gives the same `None` as a payload without `name`/`start`. The two are one case.
- The `HealthResponse` fields (`"200"`, `"Success"`, `"1.0"`) are constants, so `Response.Health` stands for the whole object.
