# Telegram bridge controller, modelled in Dafny

This project models `TelegramIntegration::ApiController`, the controller of a forum
plugin that bridges a Telegram bot to the forum. It covers four parts:

- **Identity bindings.** `bind_user` writes a chat-user-to-account binding into the
  plugin store under two keys, `"binding_" + telegram id` and
  `"binding_reverse_" + account id`.
- **Registration.** `register_user` creates an account and writes only the forward key,
  holding the new account's integer id.
- **Webhook.** `telegram_webhook` parses an inbound message and looks up the sender's
  forward key. It then sends exactly one message back: an acknowledgement that echoes
  the text, or a prompt to bind first.
- **Admission.** Every action first passes the `before_action` chain, in this order:
  `ensure_enabled`, `verify_api_token`, `check_ip_whitelist`.

Files:

- `options.dfy`: `Option`, standing for Ruby's `nil` or a present value.
- `ruby_string.dfy`: the Ruby core semantics of `String#strip` and `String#split(",")`.
  This includes dropping trailing empty fields, so `"".split(",")` is `[]`.
- `api_guards.dfy`: the three guards and the ordered chain.
  - `secure_compare` is modelled as a comparison over every position and proved to be
    string equality.
  - The allow-list is split on commas and each piece is stripped.
- `api_controller.dfy`: class `ApiController` with three fields.
  - `store`: the plugin-store rows, as a map.
  - `outbox`: every message handed to the send API, in order.
  - `users`: the ids of existing accounts.

  One method per action, each stated against a specification function (`AfterBind`,
  `AfterRegister`, `Reply`). `Handle` runs the guard chain and then the action. Three
  client methods replay concrete request sequences.

Outside collaborators become parameters:

- Site settings: `Settings`.
- The `Authorization` header and the client address: `Credentials`.
- `User.create!`: a function `Accounts` from username, email and password to
  `CreationFailed | Created(id)`. A created id must be fresh.
- The parsed JSON body: `Option<Event>`. `None` means `JSON.parse` or `dig` raised.
  An `Event` whose `message.from.id` or `message.text` is missing holds `None` there.
- Sending a message: an append to `outbox`.

## Behaviour of the code worth knowing

- A rebind does not clear the old reverse key. After binding `t` to `d1` and then to `d2`,
  the reverse key of `d1` still names `t`, unless the chat id `t` is `"reverse_" + d1`. Two
  accounts then resolve to one chat user (`RebindKeepsStaleReverse`).
- `register_user` writes no reverse key, apart from the key the chat id aliases when it is
  `"reverse_" + d` (`RegisterCreatesNoReverseKey`).
- Nothing in the controller reads the reverse key. It is written on line 15 and never
  looked up; `LookupExternal` is only an observer used to state the binding lemmas.
- The forward and reverse keys collide when the chat id is `"reverse_" + account id`. The
  second write wins, so the forward key then holds the chat id (`AfterBind`, `KeysCoincide`).
- Empty ids are accepted. Binding the empty chat id writes key `"binding_"`. A webhook
  without `message.from.id` looks up that same key.
- A body that does not parse raises (`ParseError`): nothing is looked up or sent, and no
  success body is rendered.

## Model

| member | source | states |
|---|---|---|
| RubyString.StripLeading | telegram_integration/api_controller.rb:111 | the result is a suffix of the input, everything before it is whitespace, and it does not start with whitespace |
| RubyString.StripTrailing | telegram_integration/api_controller.rb:111 | the result is a prefix of the input, everything after it is whitespace, and it does not end with whitespace |
| RubyString.Strip | telegram_integration/api_controller.rb:111 | the result is the infix between a leading and a trailing run of whitespace and has no whitespace at either end |
| RubyString.StripOfPadded | telegram_integration/api_controller.rb:111 | a trimmed core surrounded by whitespace strips to exactly that core |
| RubyString.StripIdempotent | telegram_integration/api_controller.rb:111 | stripping a stripped string changes nothing |
| RubyString.Fields | telegram_integration/api_controller.rb:111 | splitting on commas gives at least one field, and no field holds a comma |
| RubyString.FieldsCount | telegram_integration/api_controller.rb:111 | there is one more field than there are commas |
| RubyString.JoinFields | telegram_integration/api_controller.rb:111 | joining the fields with commas gives back the setting |
| RubyString.FieldsJoin | telegram_integration/api_controller.rb:111 | splitting the comma-join of a non-empty list of comma-free parts gives back the parts |
| RubyString.DropTrailingEmpty | telegram_integration/api_controller.rb:111 | the kept fields are a prefix, all dropped fields are empty, and the last kept field is not empty |
| RubyString.Split | telegram_integration/api_controller.rb:111 | `split(",")` keeps the comma-separated fields except trailing empty ones: the result is a prefix of the fields, everything dropped is empty, no field holds a comma, the last field is not empty, and the empty string gives no fields |
| RubyString.SplitEmpty | telegram_integration/api_controller.rb:111 | an empty setting splits into no fields at all |
| RubyString.SplitJoin | telegram_integration/api_controller.rb:111 | `split(",")` inverts the join of comma-free parts whose last part is not empty, including the empty list |
| ApiGuards.NoMismatchIffEqual | telegram_integration/api_controller.rb:106 | `Mismatches`, the count of differing positions that stands for the position-by-position loop of `secure_compare`, is zero for two equally long strings iff they are equal |
| ApiGuards.SecureCompare | telegram_integration/api_controller.rb:106 | the comparison, which looks at every position, accepts iff the two strings are equal |
| ApiGuards.TokenAccepted | telegram_integration/api_controller.rb:103-107 | the token check passes iff the header is present and equals the configured token; a missing header is rejected |
| ApiGuards.WhitelistEntries | telegram_integration/api_controller.rb:111 | every entry of the stripped allow-list is comma-free and has no whitespace at either end |
| ApiGuards.IpWhitelisted | telegram_integration/api_controller.rb:112-113 | only a comma-free, trimmed address can be admitted, and an empty setting admits none |
| ApiGuards.WhitelistedIffSomeField | telegram_integration/api_controller.rb:110-114 | a non-empty address passes iff some comma-separated field of the setting strips to it |
| ApiGuards.WhitelistOfJoin | telegram_integration/api_controller.rb:110-114 | for a setting written as a comma-join of addresses, a non-empty address passes iff one of them strips to it |
| ApiGuards.SingleAddressWhitelist | telegram_integration/api_controller.rb:110-114 | a setting holding one trimmed address admits that address and no other |
| ApiGuards.BlankWhitelistRejects | telegram_integration/api_controller.rb:110-114 | a setting made only of commas and whitespace, the empty one included, rejects every non-empty address |
| ApiGuards.EmptyWhitelistRejects | telegram_integration/api_controller.rb:111-113 | the empty setting yields no entries and rejects every address, even the empty one |
| ApiGuards.Passes | telegram_integration/api_controller.rb:103-114 | the enabled guard (`ensure_enabled`, lines 133-135 of the same file) passes iff the plugin is enabled, the token guard iff the header equals the configured token, the address guard iff the address is whitelisted |
| ApiGuards.RunChain | telegram_integration/api_controller.rb:5-7 | the chain admits iff every guard passes; a rejection names a failing guard before which all guards passed |
| ApiGuards.AdmitOrder | telegram_integration/api_controller.rb:5-7 | admitted iff enabled, the token matches and the address is listed; otherwise the first failing check in declaration order is named |
| ApiGuards.Admit | telegram_integration/api_controller.rb:5-7 | a request is admitted iff the plugin is enabled, the token matches and the address is whitelisted; an empty allow-list admits no request |
| ApiGuards.EmptyWhitelistFailsClosed | telegram_integration/api_controller.rb:110-114 | with an empty allow-list no request is admitted, whatever its token |
| TelegramIntegration.KeysCoincide | telegram_integration/api_controller.rb:14-15 | for `ForwardKey` (`"binding_#{telegram id}"`) and `ReverseKey` (`"binding_reverse_#{account id}"`): forward keys are injective, reverse keys are injective, and a forward key equals a reverse key iff the chat id is `"reverse_"` + account id |
| TelegramIntegration.LookupLocal | telegram_integration/api_controller.rb:90 | the forward lookup finds a value iff the chat user's forward key is stored, and then gives that row |
| TelegramIntegration.LookupExternal | telegram_integration/api_controller.rb:15 | an observer of the row line 15 writes, which the controller itself never reads: the reverse lookup finds a value iff the account's reverse key is stored, and then gives that row |
| TelegramIntegration.AfterBind | telegram_integration/api_controller.rb:14-15 | after a bind both keys are present; the reverse key holds the chat id; the forward key holds the account id, or the chat id when the keys coincide; every other key is unchanged and none is removed |
| TelegramIntegration.AfterRegister | telegram_integration/api_controller.rb:28 | after a registration exactly the forward key is added or overwritten, with the new account's integer id, and every other key is unchanged |
| TelegramIntegration.BindThenLookup | telegram_integration/api_controller.rb:14-15 | after a bind whose keys do not coincide, the forward lookup gives the account and the reverse lookup gives the chat user |
| TelegramIntegration.RebindKeepsStaleReverse | telegram_integration/api_controller.rb:14-15 | rebinding a chat user to a second account moves the forward key but leaves the first account's reverse key naming the chat user, unless the chat id is `"reverse_"` + the first account id; a repeated bind to the same account is included |
| TelegramIntegration.RegisterCreatesNoReverseKey | telegram_integration/api_controller.rb:27-28 | registration leaves every reverse key as it was (present or absent, same value) unless the chat id reads as that key |
| TelegramIntegration.Reply | telegram_integration/api_controller.rb:90-95 | the one message sent for a parsed event is addressed to the sender id |
| TelegramIntegration.ReplyReportsBinding | telegram_integration/api_controller.rb:90-94 | the reply is an acknowledgement iff `SenderBound` holds (the `if discourse_user_id` test: the sender's forward key is stored), and an acknowledgement carries the sender's text, rendered by `Interpolate` as `"#{…}"` renders it (`nil` becomes the empty string), after the fixed prefix |
| TelegramIntegration.UnboundReplyIgnoresText | telegram_integration/api_controller.rb:93-94 | an unbound sender gets the fixed bind prompt, whatever the text |
| TelegramIntegration.ApiController.constructor | telegram_integration/api_controller.rb:2 | a controller starts with the given store and accounts and an empty outbox |
| TelegramIntegration.ApiController.BindUser | telegram_integration/api_controller.rb:10-18 | the store becomes `AfterBind` of the old store; the outbox and accounts are unchanged; the bind success body is rendered |
| TelegramIntegration.ApiController.RegisterUser | telegram_integration/api_controller.rb:21-31 | when creation raises, nothing changes and `RecordInvalid` is raised; otherwise the fresh id joins the accounts, the store becomes `AfterRegister`, and the id is rendered; the outbox is never touched |
| TelegramIntegration.ApiController.TelegramWebhook | telegram_integration/api_controller.rb:85-98 | a parse failure raises and sends nothing; a parsed event appends exactly its `Reply`, decided by the store before the call, to the outbox; the store and accounts are never modified |
| TelegramIntegration.ApiController.Dispatch | telegram_integration/api_controller.rb:10-98 | an admitted bind, registration or webhook has exactly the effect its method states, collected in `ActionEffect` |
| TelegramIntegration.ApiController.Handle | telegram_integration/api_controller.rb:5-7 | a request rejected by the guard chain raises the failing guard and changes neither store, outbox nor accounts; an admitted one has exactly the effect of its action |
| TelegramIntegration.ScenarioBoundSender | telegram_integration/api_controller.rb:85-98 | binding "tg123" to "u55" and then receiving "hi" from "tg123" sends exactly one acknowledgement to "tg123" that carries "hi" |
| TelegramIntegration.ScenarioUnboundSender | telegram_integration/api_controller.rb:85-98 | a message from an unbound sender sends exactly one bind prompt to that sender and leaves the store as it was |
| TelegramIntegration.ScenarioDisallowedOrigin | telegram_integration/api_controller.rb:110-114 | from an address that is not listed, every action is rejected by the address check and changes neither store nor outbox |

## Left out

- `create_post`, `reply_post`, `categories`, `topics`, `search`, `like_post` and
  `ensure_logged_in_user`: each hands the request to a forum service (topic and post
  creation, category listing, search, likes, user lookup) whose behaviour is not part of
  this model.
- `send_telegram_message`: the HTTP POST to the bot API is network I/O and is reduced to
  an append to `outbox`. The bot token and any delivery failure are not modelled.
- `secure_compare` timing: the comparison looks at every position, but the model says
  nothing about time. The library compares byte lengths, while the model compares
  `seq<char>` lengths. Both decide the same equality.
- `secure_compare` on a missing header: it raises `NoMethodError` rather than
  `InvalidAccess`. The model records both as a rejection by `VerifyApiToken`.
- Empty configured token: if the token setting is empty, an empty `Authorization` header
  is accepted. The model keeps this behaviour and proves nothing further about it.
- `requires_plugin` (line 3) tests the same enabled setting before `ensure_enabled` does.
  The two are modelled as the single check `EnsureEnabled`.
- The host's own `ApplicationController` callbacks are not modelled. This includes CSRF
  and session handling, and the rescue that turns exceptions into HTTP statuses.
- JSON parsing and `dig`: they are reduced to an optional `Event`. Telegram's numeric
  sender id is taken as already rendered by interpolation into its decimal string.
- `User.create!` validation rules: they are reduced to the `Accounts` outcome. Username,
  email and password reach only that function.
- Request parameters that are missing (`nil`) in `bind_user` and `register_user` are not
  modelled. Those parameters are strings here.
- Rendered response bodies are reduced to the `Body` datatype with the fixed success texts.
- Plugin-store durability, transactions and concurrent requests racing on the same key are
  not modelled. Requests are handled one at a time.
- The `webhook` route in `plugin.rb` and the route tables in `plugin.rb` and
  `telegram_integration/engine.rb` are routing glue.
