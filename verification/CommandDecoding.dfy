/** Reading commands back: what the node manager's side recovers from the words that
    the runner wrote, and exactly when the runner writes none. */
module CommandDecoding {
  import opened Types
  import opened Patterns
  import opened Decimals
  import opened ArgvEncoder
  import opened FieldTables
  import opened Commands

  datatype Action = Action(name: string, args: Args)

  const NAMES := ["node.add", "node.set", "traffic.set", "health.configure", "realm.enable"]

  function Argv(a: Action, goodURL: string -> bool): Result<seq<string>>
    requires a.name in NAMES
  {
    if a.name == "node.add" then NodeAdd(a.args)
    else if a.name == "node.set" then NodeSet(a.args)
    else if a.name == "traffic.set" then TrafficSet(a.args)
    else if a.name == "health.configure" then HealthConfigure(a.args)
    else RealmEnable(a.args, goodURL)
  }

  // ---------- when there is a command ----------

  predicate NothingRefused(fields: seq<Field>, args: Args) {
    forall f <- fields :: !Refused(f, args)
  }

  predicate SomethingGiven(fields: seq<Field>, args: Args) {
    exists f <- fields :: Given(f, args)
  }

  predicate Acceptable(a: Action, goodURL: string -> bool)
    requires a.name in NAMES
  {
    if a.name == "node.add" then
      && TextOf(a.args, "protocol") in
         ["vmess", "ss", "anytls", "hy2", "trojan", "tuic", "vless", "naive", "shadowtls", "snell"]
      && SafeID(TextOf(a.args, "id")) && NothingRefused(NODE_ADD, a.args)
    else if a.name == "node.set" then
      SafeID(TextOf(a.args, "id")) && NothingRefused(NODE_SET, a.args) && SomethingGiven(NODE_SET, a.args)
    else if a.name == "traffic.set" then
      SafeID(TextOf(a.args, "node_id")) && NothingRefused(TRAFFIC, a.args) && SomethingGiven(TRAFFIC, a.args)
    else if a.name == "health.configure" then
      NothingRefused(HEALTH, a.args) && SomethingGiven(HEALTH, a.args)
    else
      PortGiven(a.args) && goodURL(TextOf(a.args, "public_url")) && NothingRefused(REALM, WithListen(a.args))
  }

  lemma TableAccepts(fields: seq<Field>, args: Args)
    ensures Encode(fields, args).Ok? <==> NothingRefused(fields, args)
    ensures Encode(fields, args).Ok? ==> (Encode(fields, args).value != [] <==> SomethingGiven(fields, args))
  {
  }

  /** An action becomes a command exactly when its required arguments are well
      formed, no given one is refused, and - where nothing is required - there is one. */
  lemma CommandExists(a: Action, goodURL: string -> bool)
    requires a.name in NAMES
    ensures Argv(a, goodURL).Ok? <==> Acceptable(a, goodURL)
  {
    hide Encode, NothingRefused, SomethingGiven, SafeID, NODE_ADD, NODE_SET, TRAFFIC, HEALTH, REALM;
    TableAccepts(NODE_ADD, a.args);
    TableAccepts(NODE_SET, a.args);
    TableAccepts(TRAFFIC, a.args);
    TableAccepts(HEALTH, a.args);
    TableAccepts(REALM, WithListen(a.args));
  }

  // ---------- reading a command ----------

  function Recovered(name: string, head: Args, fields: seq<Field>, tail: seq<string>): Option<Action> {
    match Decode(fields, tail)
    case None => None
    case Some(args) => Some(Action(name, head + args))
  }

  function Decoded(argv: seq<string>): Option<Action> {
    if |argv| >= 5 && argv[0] == "node" && argv[1] == "add" && argv[3] == "--id" then
      Recovered("node.add", map["protocol" := Text(argv[2]), "id" := Text(argv[4])], NODE_ADD, argv[5..])
    else if |argv| >= 3 && argv[0] == "node" && argv[1] == "set" then
      Recovered("node.set", map["id" := Text(argv[2])], NODE_SET, argv[3..])
    else if |argv| >= 3 && argv[0] == "traffic" && argv[1] == "set" then
      Recovered("traffic.set", map["node_id" := Text(argv[2])], TRAFFIC, argv[3..])
    else if |argv| >= 2 && argv[0] == "health" && argv[1] == "configure" then
      Recovered("health.configure", map[], HEALTH, argv[2..])
    else if |argv| >= 4 && argv[0] == "realm" && argv[1] == "enable" && ParseDecimal(argv[2]).Some? then
      Recovered("realm.enable",
                map["port" := Number(ParseDecimal(argv[2]).value as real), "public_url" := Text(argv[3])],
                REALM, argv[4..])
    else None
  }

  /** The positional arguments of a Realm command. */
  function RealmHead(args: Args): Args
    requires PortGiven(args)
  {
    map["port" := args["port"], "public_url" := Text(TextOf(args, "public_url"))]
  }

  /** The arguments that a command stands for: those of the table, with unused,
      empty and switched-off ones dropped and the listen address filled in. */
  function Meant(a: Action): Action
    requires a.name in NAMES
    requires a.name == "realm.enable" ==> PortGiven(a.args)
  {
    if a.name == "node.add" then
      a.(args := map["protocol" := Text(TextOf(a.args, "protocol")), "id" := Text(TextOf(a.args, "id"))]
                 + Carried(NODE_ADD, a.args))
    else if a.name == "node.set" then
      a.(args := map["id" := Text(TextOf(a.args, "id"))] + Carried(NODE_SET, a.args))
    else if a.name == "traffic.set" then
      a.(args := map["node_id" := Text(TextOf(a.args, "node_id"))] + Carried(TRAFFIC, a.args))
    else if a.name == "health.configure" then
      a.(args := map[] + Carried(HEALTH, a.args))
    else
      a.(args := RealmHead(a.args) + Carried(REALM, WithListen(a.args)))
  }

  lemma TailDecodes(fields: seq<Field>, args: Args)
    requires Distinct(fields) && Encode(fields, args).Ok?
    ensures Decode(fields, Encode(fields, args).value) == Some(Carried(fields, args))
  {
    assert fields[0..] == fields;
    TableRoundTrip(fields, 0, args);
    hide Distinct, Encode, Decode, Carried;
  }

  lemma TablesDistinct()
    ensures Distinct(NODE_ADD) && Distinct(NODE_SET) && Distinct(TRAFFIC) && Distinct(HEALTH) && Distinct(REALM)
  {
    NodeAddDistinct();
    NodeSetDistinct();
    TrafficDistinct();
    HealthDistinct();
    RealmDistinct();
    hide Distinct, NODE_ADD, NODE_SET, TRAFFIC, HEALTH, REALM;
  }

  lemma WordsBehind(head: seq<string>, tail: seq<string>)
    ensures (head + tail)[|head|..] == tail
    ensures forall i :: 0 <= i < |head| ==> (head + tail)[i] == head[i]
  {
  }

  /** Reading back what was written gives the action and exactly the arguments it
      means, whatever the values look like. */
  lemma CommandRoundTrip(a: Action, goodURL: string -> bool)
    requires a.name in NAMES && Argv(a, goodURL).Ok?
    ensures Decoded(Argv(a, goodURL).value) == Some(Meant(a))
  {
    hide Encode, Decode, Carried, Distinct, SafeID, PROTOCOLS, NODE_ADD, NODE_SET, TRAFFIC, HEALTH, REALM, Decimal,
         ParseDecimal;
    TablesDistinct();
    if a.name == "node.add" {
      TailDecodes(NODE_ADD, a.args);
      WordsBehind(["node", "add", TextOf(a.args, "protocol"), "--id", TextOf(a.args, "id")],
                  Encode(NODE_ADD, a.args).value);
    } else if a.name == "node.set" {
      TailDecodes(NODE_SET, a.args);
      WordsBehind(["node", "set", TextOf(a.args, "id")], Encode(NODE_SET, a.args).value);
    } else if a.name == "traffic.set" {
      TailDecodes(TRAFFIC, a.args);
      WordsBehind(["traffic", "set", TextOf(a.args, "node_id")], Encode(TRAFFIC, a.args).value);
    } else if a.name == "health.configure" {
      TailDecodes(HEALTH, a.args);
      WordsBehind(["health", "configure"], Encode(HEALTH, a.args).value);
    } else {
      var port := a.args["port"].number.Floor;
      DecimalRoundTrip(port);
      TailDecodes(REALM, WithListen(a.args));
      WordsBehind(["realm", "enable", Decimal(port), TextOf(a.args, "public_url")],
                  Encode(REALM, WithListen(a.args)).value);
    }
  }

  /** So two actions share a command only if they mean the same. */
  lemma CommandsAreUnambiguous(a: Action, b: Action, goodURL: string -> bool)
    requires a.name in NAMES && b.name in NAMES
    requires Argv(a, goodURL).Ok? && Argv(a, goodURL) == Argv(b, goodURL)
    ensures a.name == b.name && Meant(a) == Meant(b)
  {
    CommandRoundTrip(a, goodURL);
    CommandRoundTrip(b, goodURL);
    MeantKeepsName(a, goodURL);
    MeantKeepsName(b, goodURL);
    hide *;
  }

  lemma MeantKeepsName(a: Action, goodURL: string -> bool)
    requires a.name in NAMES && Argv(a, goodURL).Ok?
    ensures Meant(a).name == a.name
  {
  }

  // ---------- nothing but the meaning matters ----------

  predicate KeyAbsent(fields: seq<Field>, key: string) {
    forall i :: 0 <= i < |fields| ==> fields[i].key != key
  }

  lemma AddTextsNotPositional()
    ensures KeyAbsent(NODE_ADD_TEXTS, "protocol") && KeyAbsent(NODE_ADD_TEXTS, "id")
  {
  }

  lemma SetTextsNotPositional()
    ensures KeyAbsent(NODE_SET_TEXTS, "id")
  {
  }

  lemma OtherFieldsNotPositional()
    ensures KeyAbsent(PORTS, "protocol") && KeyAbsent(NODE_ADD_SWITCHES, "protocol")
    ensures KeyAbsent(PORTS, "id") && KeyAbsent(NODE_ADD_SWITCHES, "id") && KeyAbsent(NODE_SET_SWITCHES, "id")
  {
  }

  lemma SmallTablesNotPositional()
    ensures KeyAbsent(TRAFFIC, "node_id") && KeyAbsent(REALM, "port") && KeyAbsent(REALM, "public_url")
  {
  }

  lemma AbsentTogether(a: seq<Field>, b: seq<Field>, c: seq<Field>, key: string)
    requires KeyAbsent(a, key) && KeyAbsent(b, key) && KeyAbsent(c, key)
    ensures KeyAbsent(a + b + c, key)
  {
  }

  /** No table uses the key of a positional argument. */
  lemma NoPositionalFields()
    ensures KeyAbsent(NODE_ADD, "protocol") && KeyAbsent(NODE_ADD, "id") && KeyAbsent(NODE_SET, "id")
  {
    hide KeyAbsent, NODE_ADD_TEXTS, NODE_SET_TEXTS, PORTS, NODE_ADD_SWITCHES, NODE_SET_SWITCHES;
    AddTextsNotPositional();
    SetTextsNotPositional();
    OtherFieldsNotPositional();
    AbsentTogether(NODE_ADD_TEXTS, PORTS, NODE_ADD_SWITCHES, "protocol");
    AbsentTogether(NODE_ADD_TEXTS, PORTS, NODE_ADD_SWITCHES, "id");
    AbsentTogether(NODE_SET_TEXTS, PORTS, NODE_SET_SWITCHES, "id");
  }

  /** The positional arguments of `more` stay readable beside the carried ones. */
  lemma PositionalStays(fields: seq<Field>, args: Args, more: Args, key: string)
    requires key in more && KeyAbsent(fields, key)
    ensures (more + Carried(fields, args))[key] == more[key]
  {
  }

  lemma Absent(fields: seq<Field>, key: string, other: string)
    requires KeyAbsent(fields, key) && KeyAbsent(fields, other)
    ensures forall f <- fields :: f.key != key && f.key != other
  {
  }

  /** Writing the recovered arguments gives the same words, so a command can be
      read and written again any number of times. */
  lemma MeaningSuffices(a: Action, goodURL: string -> bool)
    requires a.name in NAMES && Argv(a, goodURL).Ok?
    ensures Argv(Meant(a), goodURL) == Argv(a, goodURL)
  {
    hide Encode, Carried, Distinct, SafeID, PROTOCOLS, NODE_ADD, NODE_SET, TRAFFIC, HEALTH, REALM, Decimal, KeyAbsent;
    TablesDistinct();
    NoPositionalFields();
    SmallTablesNotPositional();
    MeantKeepsName(a, goodURL);
    if a.name == "node.add" {
      var more: Args := map["protocol" := Text(TextOf(a.args, "protocol")), "id" := Text(TextOf(a.args, "id"))];
      PositionalStays(NODE_ADD, a.args, more, "protocol");
      PositionalStays(NODE_ADD, a.args, more, "id");
      Absent(NODE_ADD, "protocol", "id");
      CarriedEncodesAlike(NODE_ADD, a.args, more);
    } else if a.name == "node.set" {
      var more: Args := map["id" := Text(TextOf(a.args, "id"))];
      PositionalStays(NODE_SET, a.args, more, "id");
      Absent(NODE_SET, "id", "id");
      CarriedEncodesAlike(NODE_SET, a.args, more);
    } else if a.name == "traffic.set" {
      var more: Args := map["node_id" := Text(TextOf(a.args, "node_id"))];
      PositionalStays(TRAFFIC, a.args, more, "node_id");
      Absent(TRAFFIC, "node_id", "node_id");
      CarriedEncodesAlike(TRAFFIC, a.args, more);
    } else if a.name == "health.configure" {
      CarriedEncodesAlike(HEALTH, a.args, map[]);
    } else {
      RealmMeaningSuffices(a.args, goodURL);
    }
  }

  lemma RealmReadAgain(args: Args)
    requires PortGiven(args)
    ensures var again := RealmHead(args) + Carried(REALM, WithListen(args));
            && again["port"] == args["port"]
            && TextOf(again, "public_url") == TextOf(args, "public_url")
            && WithListen(again) == again
  {
    hide Carried, REALM, KeyAbsent, Whole;
    SmallTablesNotPositional();
    ListenCarried(args);
    PositionalStays(REALM, WithListen(args), RealmHead(args), "port");
    PositionalStays(REALM, WithListen(args), RealmHead(args), "public_url");
    var again := RealmHead(args) + Carried(REALM, WithListen(args));
    assert again["listen"] == Text(Listen(args));
  }

  lemma RealmMeaningSuffices(args: Args, goodURL: string -> bool)
    requires RealmEnable(args, goodURL).Ok?
    ensures RealmEnable(Meant(Action("realm.enable", args)).args, goodURL) == RealmEnable(args, goodURL)
  {
    hide Encode, Carried, Distinct, REALM, KeyAbsent, Whole, WithListen;
    SmallTablesNotPositional();
    Absent(REALM, "port", "public_url");
    RealmDistinct();
    CarriedEncodesAlike(REALM, WithListen(args), RealmHead(args));
    RealmReadAgain(args);
    SameRealm(RealmHead(args) + Carried(REALM, WithListen(args)), args, goodURL);
  }

  lemma SameRealm(again: Args, args: Args, goodURL: string -> bool)
    requires "port" in args && "port" in again && again["port"] == args["port"]
    requires TextOf(again, "public_url") == TextOf(args, "public_url")
    requires Encode(REALM, WithListen(again)) == Encode(REALM, WithListen(args))
    ensures RealmEnable(again, goodURL) == RealmEnable(args, goodURL)
  {
  }

  lemma ListenCarried(args: Args)
    ensures var carried := Carried(REALM, WithListen(args));
            "listen" in carried && carried["listen"] == Text(Listen(args))
  {
    var w := WithListen(args);
    CarriedExactly(REALM, w);
    assert REALM[0] in REALM && Given(REALM[0], w);
    hide Carried;
  }
}
