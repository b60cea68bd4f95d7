/**
 * The bridge controller: identity bindings kept in the plugin's key-value
 * store, account registration, and the inbound webhook that answers the
 * sender through the chat platform's send API.
 */
module TelegramIntegration {
  import opened Options
  import opened ApiGuards

  /** A row of the plugin store keeps the type of what was stored: a string
      parameter, or the integer id of a newly created account. */
  datatype Value = Text(s: string) | Number(n: nat)

  /** The rows of the plugin store under the plugin's name, by key. */
  type Store = map<string, Value>

  const FORWARD_PREFIX := "binding_"
  const REVERSE_PREFIX := "binding_reverse_"

  /** The key under which a chat user's local account is kept. */
  function ForwardKey(telegramUserId: string): string {
    FORWARD_PREFIX + telegramUserId
  }

  /** The key under which a local account's chat user is kept. */
  function ReverseKey(discourseUserId: string): string {
    REVERSE_PREFIX + discourseUserId
  }

  lemma PrefixCancel(p: string, a: string, b: string)
    ensures p + a == p + b <==> a == b
  {
    if p + a == p + b {
      assert a == (p + a)[|p|..];
      assert b == (p + b)[|p|..];
    }
  }

  /** Forward keys tell chat users apart, reverse keys tell accounts apart,
      and a forward key is a reverse key exactly when the chat id is
      "reverse_" followed by the account id. */
  lemma KeysCoincide(t: string, t': string, d: string, d': string)
    ensures ForwardKey(t) == ForwardKey(t') <==> t == t'
    ensures ReverseKey(d) == ReverseKey(d') <==> d == d'
    ensures ForwardKey(t) == ReverseKey(d) <==> t == "reverse_" + d
  {
    PrefixCancel(FORWARD_PREFIX, t, t');
    PrefixCancel(REVERSE_PREFIX, d, d');
    assert REVERSE_PREFIX == FORWARD_PREFIX + "reverse_";
    assert ReverseKey(d) == FORWARD_PREFIX + ("reverse_" + d);
    PrefixCancel(FORWARD_PREFIX, t, "reverse_" + d);
  }

  /** `PluginStore.get` of the forward key. */
  function LookupLocal(store: Store, telegramUserId: string): (r: Option<Value>)
    ensures r.Some? <==> ForwardKey(telegramUserId) in store
    ensures r.Some? ==> r.value == store[ForwardKey(telegramUserId)]
  {
    if ForwardKey(telegramUserId) in store then Some(store[ForwardKey(telegramUserId)]) else None
  }

  /** `PluginStore.get` of the reverse key that `bind_user` writes. */
  function LookupExternal(store: Store, discourseUserId: string): (r: Option<Value>)
    ensures r.Some? <==> ReverseKey(discourseUserId) in store
    ensures r.Some? ==> r.value == store[ReverseKey(discourseUserId)]
  {
    if ReverseKey(discourseUserId) in store then Some(store[ReverseKey(discourseUserId)]) else None
  }

  /** The store after `bind_user`: the forward key is written first, then the
      reverse key, so when the two keys coincide the reverse write wins;
      nothing else is touched and nothing is removed. */
  function AfterBind(store: Store, t: string, d: string): (r: Store)
    ensures r.Keys == store.Keys + {ForwardKey(t), ReverseKey(d)}
    ensures r[ReverseKey(d)] == Text(t)
    ensures r[ForwardKey(t)] == if t == "reverse_" + d then Text(t) else Text(d)
    ensures forall k :: k in store && k != ForwardKey(t) && k != ReverseKey(d) ==> r[k] == store[k]
  {
    KeysCoincide(t, t, d, d);
    store[ForwardKey(t) := Text(d)][ReverseKey(d) := Text(t)]
  }

  /** The store after `register_user` with a created account: only the
      forward key is written, to the account's integer id. */
  function AfterRegister(store: Store, t: string, userId: nat): (r: Store)
    ensures r.Keys == store.Keys + {ForwardKey(t)}
    ensures r[ForwardKey(t)] == Number(userId)
    ensures forall k :: k in store && k != ForwardKey(t) ==> r[k] == store[k]
  {
    store[ForwardKey(t) := Number(userId)]
  }

  /** After a bind whose keys do not coincide, both directions resolve. */
  lemma BindThenLookup(store: Store, t: string, d: string)
    requires t != "reverse_" + d
    ensures LookupLocal(AfterBind(store, t, d), t) == Some(Text(d))
    ensures LookupExternal(AfterBind(store, t, d), d) == Some(Text(t))
  {
  }

  /** Rebinding a chat user to a second account overwrites the forward key
      but leaves the first account's reverse key pointing at the chat user:
      two accounts then resolve to the same chat user. This holds unless the
      chat id is the first account's reverse key suffix, and it covers a
      repeated bind to the same account. */
  lemma RebindKeepsStaleReverse(store: Store, t: string, d1: string, d2: string)
    requires t != "reverse_" + d1
    ensures var s := AfterBind(AfterBind(store, t, d1), t, d2);
      && LookupExternal(s, d1) == Some(Text(t))
      && LookupExternal(s, d2) == Some(Text(t))
      && LookupLocal(s, t) == Some(if t == "reverse_" + d2 then Text(t) else Text(d2))
  {
    KeysCoincide(t, t, d1, d2);
  }

  /** Registration creates no reverse key unless the chat id happens to read
      as one: every reverse key is present and valued as before. */
  lemma RegisterCreatesNoReverseKey(store: Store, t: string, userId: nat, d: string)
    requires t != "reverse_" + d
    ensures var r := AfterRegister(store, t, userId);
      && (ReverseKey(d) in r <==> ReverseKey(d) in store)
      && (ReverseKey(d) in store ==> r[ReverseKey(d)] == store[ReverseKey(d)])
  {
    KeysCoincide(t, t, d, d);
  }

  /** The parsed webhook: `message.from.id` and `message.text`; either may be
      missing (`nil`) without the parse failing. */
  datatype Event = Event(fromId: Option<string>, text: Option<string>)

  /** One call of the chat platform's send API. */
  datatype Message = Message(chatId: Option<string>, text: string)

  /** Ruby's string interpolation: `nil` is rendered as the empty string. */
  function Interpolate(o: Option<string>): string {
    match o
    case None => ""
    case Some(s) => s
  }

  const ACK_PREFIX := "收到您的消息: "
  const BIND_PROMPT := "请先绑定您的账户。"

  /** Whether the store holds a forward binding for the sender. */
  predicate SenderBound(store: Store, ev: Event) {
    LookupLocal(store, Interpolate(ev.fromId)).Some?
  }

  /** The one message the webhook sends for a parsed event. */
  function Reply(store: Store, ev: Event): (m: Message)
    ensures m.chatId == ev.fromId
  {
    if SenderBound(store, ev) then Message(ev.fromId, ACK_PREFIX + Interpolate(ev.text))
    else Message(ev.fromId, BIND_PROMPT)
  }

  /** Whether a sent text is an acknowledgement rather than the bind prompt. */
  predicate IsAcknowledgement(text: string) {
    |text| >= |ACK_PREFIX| && text[..|ACK_PREFIX|] == ACK_PREFIX
  }

  /** The reply tells the sender whether they are bound, and an
      acknowledgement gives back the text they sent. */
  lemma ReplyReportsBinding(store: Store, ev: Event)
    ensures IsAcknowledgement(Reply(store, ev).text) <==> SenderBound(store, ev)
    ensures SenderBound(store, ev) ==> Reply(store, ev).text[|ACK_PREFIX|..] == Interpolate(ev.text)
  {
    var m := Reply(store, ev);
    if SenderBound(store, ev) {
      assert (ACK_PREFIX + Interpolate(ev.text))[..|ACK_PREFIX|] == ACK_PREFIX;
      assert (ACK_PREFIX + Interpolate(ev.text))[|ACK_PREFIX|..] == Interpolate(ev.text);
    } else {
      assert m.text == BIND_PROMPT;
      assert |BIND_PROMPT| >= |ACK_PREFIX| ==> BIND_PROMPT[0] != ACK_PREFIX[0];
    }
  }

  /** An unbound sender gets the bind prompt whatever they wrote. */
  lemma UnboundReplyIgnoresText(store: Store, from: Option<string>, x: Option<string>, y: Option<string>)
    requires !SenderBound(store, Event(from, x))
    ensures Reply(store, Event(from, x)) == Reply(store, Event(from, y)) == Message(from, BIND_PROMPT)
  {
  }

  /** The account-creation capability of the host (`User.create!`). */
  datatype Creation = CreationFailed | Created(userId: nat)

  type Accounts = (string, string, string) -> Creation

  const BIND_SUCCEEDED := "用户绑定成功"
  const REGISTER_SUCCEEDED := "用户注册成功"

  datatype Body = BindOk(message: string) | RegisterOk(message: string, userId: nat) | WebhookOk

  datatype Failure =
    | AccessDenied(guard: Guard)   // a `before_action` raised
    | RecordInvalid                // `User.create!` raised
    | ParseError                   // `JSON.parse` or `dig` raised

  datatype Response = Rendered(body: Body) | Raised(failure: Failure)

  datatype Action =
    | BindRequest(telegramUserId: string, discourseUserId: string)
    | RegisterRequest(username: string, email: string, password: string, telegramUserId: string)
    | WebhookRequest(payload: Option<Event>)   // None: the body does not parse

  datatype Request = Request(credentials: Credentials, action: Action)

  /** The id a successful registration would receive. */
  predicate FreshFor(accounts: Accounts, action: Action, users: set<nat>) {
    action.RegisterRequest? ==>
      var c := accounts(action.username, action.email, action.password);
      c.Created? ==> c.userId !in users
  }

  /** What an admitted action does, from the state before (`store`,
      `outbox`, `users`) to the state after (the primed names) and the
      response: each action's effect as its method states it. */
  predicate ActionEffect(accounts: Accounts, action: Action,
                         store: Store, outbox: seq<Message>, users: set<nat>,
                         store': Store, outbox': seq<Message>, users': set<nat>, resp: Response)
  {
    match action
    case BindRequest(t, d) =>
      && store' == AfterBind(store, t, d)
      && outbox' == outbox && users' == users
      && resp == Rendered(BindOk(BIND_SUCCEEDED))
    case RegisterRequest(u, e, p, t) =>
      && outbox' == outbox
      && (match accounts(u, e, p)
          case CreationFailed =>
            resp == Raised(RecordInvalid) && store' == store && users' == users
          case Created(id) =>
            && users' == users + {id}
            && store' == AfterRegister(store, t, id)
            && resp == Rendered(RegisterOk(REGISTER_SUCCEEDED, id)))
    case WebhookRequest(payload) =>
      && store' == store && users' == users
      && (payload.None? ==> resp == Raised(ParseError) && outbox' == outbox)
      && (payload.Some? ==> resp == Rendered(WebhookOk) && outbox' == outbox + [Reply(store, payload.value)])
  }

  class ApiController {
    var store: Store            // the plugin's rows of the plugin store
    var outbox: seq<Message>    // every message handed to the send API, in order
    var users: set<nat>         // ids of the host's existing accounts; kept only
                                // to state that a created account's id is fresh

    constructor (initialStore: Store, initialUsers: set<nat>)
      ensures store == initialStore && outbox == [] && users == initialUsers
    {
      store := initialStore;
      outbox := [];
      users := initialUsers;
    }

    /** `bind_user`: two successive writes into the store. */
    method BindUser(telegramUserId: string, discourseUserId: string) returns (resp: Response)
      modifies this
      ensures store == AfterBind(old(store), telegramUserId, discourseUserId)
      ensures outbox == old(outbox) && users == old(users)
      ensures resp == Rendered(BindOk(BIND_SUCCEEDED))
    {
      store := store[ForwardKey(telegramUserId) := Text(discourseUserId)];
      store := store[ReverseKey(discourseUserId) := Text(telegramUserId)];
      resp := Rendered(BindOk(BIND_SUCCEEDED));
    }

    /** `register_user`: create the account, then write the forward key;
        nothing is written when creation raises. */
    method RegisterUser(accounts: Accounts, username: string, email: string, password: string,
                        telegramUserId: string) returns (resp: Response)
      requires FreshFor(accounts, RegisterRequest(username, email, password, telegramUserId), users)
      modifies this
      ensures outbox == old(outbox)
      ensures match accounts(username, email, password)
        case CreationFailed =>
          resp == Raised(RecordInvalid) && store == old(store) && users == old(users)
        case Created(id) =>
          && id !in old(users) && users == old(users) + {id}
          && store == AfterRegister(old(store), telegramUserId, id)
          && resp == Rendered(RegisterOk(REGISTER_SUCCEEDED, id))
    {
      var creation := accounts(username, email, password);
      match creation
      case CreationFailed =>
        resp := Raised(RecordInvalid);
      case Created(id) =>
        users := users + {id};
        store := store[ForwardKey(telegramUserId) := Number(id)];
        resp := Rendered(RegisterOk(REGISTER_SUCCEEDED, id));
    }

    /** `telegram_webhook`: parse, look up the sender's forward key, send
        exactly one message; the store is only read. */
    method TelegramWebhook(payload: Option<Event>) returns (resp: Response)
      modifies this`outbox
      ensures payload.None? ==> resp == Raised(ParseError) && outbox == old(outbox)
      ensures payload.Some? ==>
        && resp == Rendered(WebhookOk)
        && outbox == old(outbox) + [Reply(old(store), payload.value)]
    {
      if payload.None? {
        resp := Raised(ParseError);
        return;
      }
      var ev := payload.value;
      var bound := LookupLocal(store, Interpolate(ev.fromId));
      if bound.Some? {
        outbox := outbox + [Message(ev.fromId, ACK_PREFIX + Interpolate(ev.text))];
      } else {
        outbox := outbox + [Message(ev.fromId, BIND_PROMPT)];
      }
      resp := Rendered(WebhookOk);
    }

    /** Runs an admitted action. */
    method Dispatch(accounts: Accounts, action: Action) returns (resp: Response)
      requires FreshFor(accounts, action, users)
      modifies this
      ensures ActionEffect(accounts, action, old(store), old(outbox), old(users), store, outbox, users, resp)
    {
      match action
      case BindRequest(t, d) =>
        resp := BindUser(t, d);
      case RegisterRequest(u, e, p, t) =>
        resp := RegisterUser(accounts, u, e, p, t);
      case WebhookRequest(payload) =>
        resp := TelegramWebhook(payload);
    }

    /** One request: the `before_action` chain, then the action. A rejected
        request raises and changes nothing. */
    method Handle(settings: Settings, accounts: Accounts, req: Request) returns (resp: Response)
      requires FreshFor(accounts, req.action, users)
      modifies this
      ensures Admit(settings, req.credentials).Rejected? ==>
        && resp == Raised(AccessDenied(Admit(settings, req.credentials).guard))
        && store == old(store) && outbox == old(outbox) && users == old(users)
      ensures Admit(settings, req.credentials) == Admitted ==>
        ActionEffect(accounts, req.action, old(store), old(outbox), old(users), store, outbox, users, resp)
    {
      var admission := Admit(settings, req.credentials);
      if admission.Rejected? {
        resp := Raised(AccessDenied(admission.guard));
        return;
      }
      resp := Dispatch(accounts, req.action);
    }
  }

  /** No account is ever created (for requests that do not register). */
  function NoAccounts(): Accounts {
    (u: string, e: string, p: string) => CreationFailed
  }

  /** Bind "tg123" to "u55" from an allowed origin with the right token, then
      receive "hi" from "tg123": exactly one acknowledgement echoing "hi". */
  method ScenarioBoundSender() returns (bind: Response, webhook: Response, sent: seq<Message>)
    ensures bind == Rendered(BindOk(BIND_SUCCEEDED)) && webhook == Rendered(WebhookOk)
    ensures sent == [Message(Some("tg123"), ACK_PREFIX + "hi")]
  {
    var settings := Settings(true, "S1", "10.0.0.1");
    var cred := Credentials(Some("S1"), "10.0.0.1");
    SingleAddressWhitelist("10.0.0.1", "10.0.0.1");
    AdmitOrder(settings, cred);
    var c := new ApiController(map[], {});
    bind := c.Handle(settings, NoAccounts(), Request(cred, BindRequest("tg123", "u55")));
    assert "tg123" != "reverse_" + "u55";
    BindThenLookup(map[], "tg123", "u55");
    webhook := c.Handle(settings, NoAccounts(), Request(cred, WebhookRequest(Some(Event(Some("tg123"), Some("hi"))))));
    sent := c.outbox;
  }

  /** An unbound sender "tg999" gets exactly one bind prompt and the store
      is not modified. */
  method ScenarioUnboundSender(initial: Store) returns (webhook: Response, sent: seq<Message>, after: Store)
    requires ForwardKey("tg999") !in initial
    ensures webhook == Rendered(WebhookOk)
    ensures sent == [Message(Some("tg999"), BIND_PROMPT)]
    ensures after == initial
  {
    var settings := Settings(true, "S1", "10.0.0.1");
    var cred := Credentials(Some("S1"), "10.0.0.1");
    SingleAddressWhitelist("10.0.0.1", "10.0.0.1");
    AdmitOrder(settings, cred);
    var c := new ApiController(initial, {});
    webhook := c.Handle(settings, NoAccounts(), Request(cred, WebhookRequest(Some(Event(Some("tg999"), Some("hello"))))));
    sent := c.outbox;
    after := c.store;
  }

  /** From the disallowed origin "10.0.0.2" every action is rejected by the
      address check and neither the store nor the outbox changes. */
  method ScenarioDisallowedOrigin(initial: Store, action: Action) returns (resp: Response, sent: seq<Message>, after: Store)
    ensures resp == Raised(AccessDenied(CheckIpWhitelist))
    ensures sent == [] && after == initial
  {
    var settings := Settings(true, "S1", "10.0.0.1");
    var cred := Credentials(Some("S1"), "10.0.0.2");
    SingleAddressWhitelist("10.0.0.1", "10.0.0.2");
    AdmitOrder(settings, cred);
    var c := new ApiController(initial, {});
    resp := c.Handle(settings, NoAccounts(), Request(cred, action));
    sent := c.outbox;
    after := c.store;
  }
}
