/** The fan-out to the optional push channels: which clients are enabled, the per-client
    results the manager collects, and the message every client formats. The HTTP
    requests themselves are a parameter. */
module Notifications {
  import opened Wrappers

  datatype Channel = Ntfy | Telegram | Bark | Webhook {
    /** The client class name, the key of the channel's entry in the results. */
    function ClassName(): string {
      match this
      case Ntfy => "NtfyClient"
      case Telegram => "TelegramClient"
      case Bark => "BarkClient"
      case Webhook => "WebhookClient"
    }
  }

  /** The clients in the order the manager creates them. */
  const Channels: seq<Channel> := [Ntfy, Telegram, Bark, Webhook]

  /** A client: its channel and whether its settings were present when it was built. */
  datatype Client = Client(channel: Channel, enabled: bool)

  /** A client built without an explicit flag is disabled. */
  function DefaultClient(channel: Channel): (c: Client)
    ensures !c.enabled && c.channel == channel
  {
    Client(channel, false)
  }

  /** Different channels have different class names. */
  lemma ClassNameInjective(a: Channel, b: Channel)
    ensures a.ClassName() == b.ClassName() <==> a == b
  {
    if a != b {
      assert a.ClassName()[0] != b.ClassName()[0];
    }
  }

  /** The manager: its clients, and the enabled ones picked out once when it is built. */
  datatype Manager = Manager(clients: seq<Client>, enabledClients: seq<Client>) {
    predicate Valid() {
      enabledClients == EnabledOf(clients)
    }
  }

  /** The enabled clients of a list, in their order. */
  function EnabledOf(clients: seq<Client>): (r: seq<Client>)
    ensures |r| <= |clients|
    ensures forall c :: c in r <==> c in clients && c.enabled
  {
    if |clients| == 0 then []
    else
      var rest := EnabledOf(clients[1..]);
      assert forall c :: c in clients <==> c == clients[0] || c in clients[1..];
      if clients[0].enabled then [clients[0]] + rest else rest
  }

  /** The manager built once at start-up: one client per channel, each enabled when its
      settings are configured; the enabled subset is fixed from then on. */
  function NewManager(configured: Channel -> bool): (m: Manager)
    ensures |m.clients| == |Channels|
    ensures forall i :: 0 <= i < |Channels| ==> m.clients[i] == Client(Channels[i], configured(Channels[i]))
    ensures forall c: Channel :: Client(c, true) in m.enabledClients <==> configured(c)
    ensures m.Valid()
  {
    var clients := seq(|Channels|, i requires 0 <= i < |Channels| => Client(Channels[i], configured(Channels[i])));
    AllChannelsListed(configured, clients);
    Manager(clients, EnabledOf(clients))
  }

  /** Every channel has its client in the list built from `Channels`. */
  lemma AllChannelsListed(configured: Channel -> bool, clients: seq<Client>)
    requires |clients| == |Channels|
    requires forall i :: 0 <= i < |Channels| ==> clients[i] == Client(Channels[i], configured(Channels[i]))
    ensures forall c: Channel :: Client(c, configured(c)) in clients
  {
    forall c: Channel ensures Client(c, configured(c)) in clients {
      var i := match c case Ntfy => 0 case Telegram => 1 case Bark => 2 case Webhook => 3;
      assert clients[i] == Client(c, configured(c));
    }
  }

  /** The class names of the enabled clients, in order. */
  function EnabledChannels(m: Manager): (names: seq<string>)
    ensures |names| == |m.enabledClients|
    ensures forall i :: 0 <= i < |names| ==> names[i] == m.enabledClients[i].channel.ClassName()
  {
    seq(|m.enabledClients|, i requires 0 <= i < |m.enabledClients| => m.enabledClients[i].channel.ClassName())
  }

  /** What one client's `send` did: returned a value, or raised. */
  datatype ChannelOutcome = Returned(ok: bool) | Threw(message: string)

  /** The value recorded for one outcome: an exception is recorded as `False`, a returned
      value unchanged. */
  function Recorded(o: ChannelOutcome): (b: bool)
    ensures o.Threw? ==> !b
    ensures o.Returned? ==> b == o.ok
  {
    match o
    case Returned(ok) => ok
    case Threw(_) => false
  }

  /** A client's `send`: a disabled client returns `False` without trying; an enabled one
      does whatever its channel does. */
  function ClientSend(c: Client, outcome: Channel -> ChannelOutcome): (o: ChannelOutcome)
    ensures !c.enabled ==> o == Returned(false)
    ensures c.enabled ==> o == outcome(c.channel)
  {
    if !c.enabled then Returned(false) else outcome(c.channel)
  }

  /** The results of sending through `clients` in order, each recorded under its class
      name. */
  function Collect(clients: seq<Client>, outcome: Channel -> ChannelOutcome): (r: map<string, bool>)
    requires forall c <- clients :: c.enabled
    ensures r.Keys == set c <- clients :: c.channel.ClassName()
    ensures forall c <- clients :: r[c.channel.ClassName()] == Recorded(ClientSend(c, outcome))
    decreases |clients|
  {
    if |clients| == 0 then map[]
    else
      var init := clients[..|clients| - 1];
      var last := clients[|clients| - 1];
      var r0 := Collect(init, outcome);
      assert forall c :: c in clients <==> c in init || c == last;
      SameNameSameValue(clients, last, outcome);
      r0[last.channel.ClassName() := Recorded(ClientSend(last, outcome))]
  }

  /** Clients with the same class name record the same value. */
  lemma SameNameSameValue(clients: seq<Client>, last: Client, outcome: Channel -> ChannelOutcome)
    requires last.enabled && forall c <- clients :: c.enabled
    ensures forall c <- clients | c.channel.ClassName() == last.channel.ClassName() ::
              Recorded(ClientSend(c, outcome)) == Recorded(ClientSend(last, outcome))
  {
    forall c <- clients | c.channel.ClassName() == last.channel.ClassName()
      ensures Recorded(ClientSend(c, outcome)) == Recorded(ClientSend(last, outcome))
    {
      ClassNameInjective(c.channel, last.channel);
      assert c == last;
    }
  }

  /** `send_to_all`: nothing when no client is enabled; otherwise one entry per enabled
      client, keyed by its class name, holding what its send returned or `False` when it
      raised. One client failing has no effect on the others' entries. */
  function SendToAll(m: Manager, outcome: Channel -> ChannelOutcome): (r: map<string, bool>)
    requires m.Valid()
    ensures |m.enabledClients| == 0 ==> r == map[]
    ensures r.Keys == set c <- m.enabledClients :: c.channel.ClassName()
    ensures forall c <- m.enabledClients :: r[c.channel.ClassName()] == Recorded(outcome(c.channel))
  {
    if |m.enabledClients| == 0 then map[] else Collect(m.enabledClients, outcome)
  }

  /** Through a manager built from settings, a channel has an entry exactly when it is
      configured, and the entry is what that channel alone did. */
  lemma SendToAllByChannel(configured: Channel -> bool, outcome: Channel -> ChannelOutcome, c: Channel)
    ensures var r := SendToAll(NewManager(configured), outcome);
            (c.ClassName() in r <==> configured(c)) &&
            (configured(c) ==> r[c.ClassName()] == Recorded(outcome(c)))
  {
    var m := NewManager(configured);
    var r := SendToAll(m, outcome);
    if c.ClassName() in r {
      var d :| d in m.enabledClients && d.channel.ClassName() == c.ClassName();
      ClassNameInjective(d.channel, c);
      assert d == Client(c, true);
    }
    if configured(c) {
      assert Client(c, true) in m.enabledClients;
    }
  }

  /** A channel that raises changes its own entry to `False` and no other entry. */
  lemma FailureIsIsolated(configured: Channel -> bool, outcome: Channel -> ChannelOutcome,
                          failing: Channel, message: string, other: Channel)
    requires configured(failing) && configured(other) && other != failing
    ensures var broken := (c: Channel) => if c == failing then Threw(message) else outcome(c);
            var r := SendToAll(NewManager(configured), outcome);
            var r' := SendToAll(NewManager(configured), broken);
            r'.Keys == r.Keys && !r'[failing.ClassName()] && r'[other.ClassName()] == r[other.ClassName()]
  {
    var broken := (c: Channel) => if c == failing then Threw(message) else outcome(c);
    SendToAllByChannel(configured, outcome, failing);
    SendToAllByChannel(configured, broken, failing);
    SendToAllByChannel(configured, outcome, other);
    SendToAllByChannel(configured, broken, other);
  }

  /** The values of the product record the clients are given. */
  datatype PValue =
    | PText(text: string)
    | PNumber(number: real)
    /** A price rendered as `¥` and the amount with thousands separators and two decimals. */
    | PMoney(amount: real)
    | PCount(count: Option<int>)
    | PTags(tags: seq<string>)

  /** `dict.get(key, default)`. */
  function GetOr(d: map<string, PValue>, key: string, default: PValue): (v: PValue)
    ensures key in d ==> v == d[key]
    ensures key !in d ==> v == default
  {
    if key in d then d[key] else default
  }

  /** `_format_message`: the title, the displayed price and the link from the record, with
      "N/A", "N/A" and "#" for missing ones, and the reason. */
  function FormatMessage(product: map<string, PValue>, reason: string): (r: map<string, PValue>)
    ensures r.Keys == {"title", "price", "link", "reason"}
    ensures r["title"] == GetOr(product, "title", PText("N/A"))
    ensures r["price"] == GetOr(product, "price_str", PText("N/A"))
    ensures r["link"] == GetOr(product, "detail_url", PText("#"))
    ensures r["reason"] == PText(reason)
  {
    map["title" := GetOr(product, "title", PText("N/A")),
        "price" := GetOr(product, "price_str", PText("N/A")),
        "link" := GetOr(product, "detail_url", PText("#")),
        "reason" := PText(reason)]
  }

  /** An empty record formats to the placeholders. */
  lemma FormatEmptyRecord(reason: string)
    ensures FormatMessage(map[], reason)
         == map["title" := PText("N/A"), "price" := PText("N/A"), "link" := PText("#"), "reason" := PText(reason)]
  {
  }
}
