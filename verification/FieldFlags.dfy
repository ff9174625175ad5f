/** The flags of the field tables say their keys, so an argument that is given stands in
    the command behind the flag that is called after it. */
module FieldFlags {
  import opened Types
  import opened Patterns
  import opened Decimals
  import opened ArgvEncoder
  import opened FieldTables
  import opened Commands
  import opened CommandDecoding

  // ---------- flags say keys ----------

  function Dashed(c: char): char { if c == '_' then '-' else c }

  /** The flag is the key behind two dashes, with dashes for its underscores. */
  predicate SaysKey(flag: string, key: string) {
    && |flag| == |key| + 2 && flag[0] == '-' && flag[1] == '-'
    && forall i :: 0 <= i < |key| ==> flag[i + 2] == Dashed(key[i])
  }

  lemma FlagsFromName()
    ensures SaysKey("--name", "name")
    ensures SaysKey("--domain", "domain")
    ensures SaysKey("--address", "address")
    ensures SaysKey("--path", "path")
    ensures SaysKey("--method", "method")
    ensures SaysKey("--network", "network")
    ensures SaysKey("--obfs", "obfs")
    ensures SaysKey("--obfs-host", "obfs_host")
    ensures SaysKey("--snell-version", "snell_version")
    ensures SaysKey("--snell-mode", "snell_mode")
    ensures SaysKey("--bbr-profile", "bbr_profile")
  {
  }

  lemma FlagsFromMasquerade()
    ensures SaysKey("--masquerade", "masquerade")
    ensures SaysKey("--security", "security")
    ensures SaysKey("--flow", "flow")
    ensures SaysKey("--handshake-server", "handshake_server")
    ensures SaysKey("--congestion-control", "congestion_control")
  {
  }

  lemma FlagsFromStrictMode()
    ensures SaysKey("--strict-mode", "strict_mode")
    ensures SaysKey("--wildcard-sni", "wildcard_sni")
    ensures SaysKey("--realm-id", "realm_id")
    ensures SaysKey("--realm-ip-version", "realm_ip_version")
    ensures SaysKey("--port", "port")
  {
  }

  lemma FlagsFromObfsMinPacketSize()
    ensures SaysKey("--obfs-min-packet-size", "obfs_min_packet_size")
    ensures SaysKey("--obfs-max-packet-size", "obfs_max_packet_size")
  {
  }

  lemma FlagsFromHandshakePort()
    ensures SaysKey("--handshake-port", "handshake_port")
    ensures SaysKey("--disable-chrome-parrot", "disable_chrome_parrot")
    ensures SaysKey("--brutal-debug", "brutal_debug")
  {
  }

  lemma FlagsFromRealmPortMapping()
    ensures SaysKey("--realm-port-mapping", "realm_port_mapping")
    ensures SaysKey("--quic", "quic")
    ensures SaysKey("--disabled", "disabled")
    ensures SaysKey("--remark", "remark")
    ensures SaysKey("--region", "region")
    ensures SaysKey("--purpose", "purpose")
    ensures SaysKey("--line", "line")
    ensures SaysKey("--tags", "tags")
    ensures SaysKey("--clear-realm", "clear_realm")
  {
  }

  lemma FlagsFromQuota()
    ensures SaysKey("--quota", "quota")
    ensures SaysKey("--reset-day", "reset_day")
    ensures SaysKey("--rate", "rate")
    ensures SaysKey("--upload-rate", "upload_rate")
    ensures SaysKey("--download-rate", "download_rate")
    ensures SaysKey("--quota-mode", "quota_mode")
    ensures SaysKey("--disk-free", "disk_free")
    ensures SaysKey("--memory-max", "memory_max")
  {
  }

  lemma FlagsFromLoadPerCore()
    ensures SaysKey("--load-per-core", "load_per_core")
    ensures SaysKey("--inode-max", "inode_max")
    ensures SaysKey("--fd-max", "fd_max")
    ensures SaysKey("--banned-warn", "banned_warn")
    ensures SaysKey("--restart-warn", "restart_warn")
    ensures SaysKey("--listen", "listen")
    ensures SaysKey("--tls-domain", "tls_domain")
  {
  }

  lemma FlagsFromMaxRealms()
    ensures SaysKey("--max-realms", "max_realms")
  {
  }

  predicate FlagsSayKeys(fields: seq<Field>) {
    forall i :: 0 <= i < |fields| ==> SaysKey(fields[i].flag, fields[i].key)
  }

  lemma AddTextsSay()
    ensures FlagsSayKeys(NODE_ADD_TEXTS)
  {
    hide SaysKey;
    FlagsFromName();
    FlagsFromMasquerade();
    FlagsFromStrictMode();
  }

  lemma SetTextsSay()
    ensures FlagsSayKeys(NODE_SET_TEXTS)
  {
    hide SaysKey;
    FlagsFromName();
    FlagsFromRealmPortMapping();
    FlagsFromMasquerade();
    FlagsFromStrictMode();
  }

  lemma PortsSay()
    ensures FlagsSayKeys(PORTS)
  {
    hide SaysKey;
    FlagsFromStrictMode();
    FlagsFromObfsMinPacketSize();
    FlagsFromHandshakePort();
  }

  lemma AddSwitchesSay()
    ensures FlagsSayKeys(NODE_ADD_SWITCHES)
  {
    hide SaysKey;
    FlagsFromHandshakePort();
    FlagsFromRealmPortMapping();
  }

  lemma SetSwitchesSay()
    ensures FlagsSayKeys(NODE_SET_SWITCHES)
  {
    hide SaysKey;
    FlagsFromHandshakePort();
    FlagsFromRealmPortMapping();
  }

  lemma TrafficSays()
    ensures FlagsSayKeys(TRAFFIC)
  {
    hide SaysKey;
    FlagsFromQuota();
  }

  lemma HealthSays()
    ensures FlagsSayKeys(HEALTH)
  {
    hide SaysKey;
    FlagsFromQuota();
    FlagsFromLoadPerCore();
  }

  lemma RealmSays()
    ensures FlagsSayKeys(REALM)
  {
    hide SaysKey;
    FlagsFromLoadPerCore();
    FlagsFromMaxRealms();
  }

  /** In every table, each flag says its key. */
  lemma TablesSayKeys()
    ensures FlagsSayKeys(NODE_ADD_TEXTS) && FlagsSayKeys(NODE_SET_TEXTS) && FlagsSayKeys(PORTS)
    ensures FlagsSayKeys(NODE_ADD_SWITCHES) && FlagsSayKeys(NODE_SET_SWITCHES)
    ensures FlagsSayKeys(TRAFFIC) && FlagsSayKeys(HEALTH) && FlagsSayKeys(REALM)
  {
    hide FlagsSayKeys;
    AddTextsSay();
    SetTextsSay();
    PortsSay();
    AddSwitchesSay();
    SetSwitchesSay();
    TrafficSays();
    HealthSays();
    RealmSays();
  }

  // ---------- what a command says ----------

  const TEXT_COMMANDS := ["node.add", "node.set", "traffic.set", "health.configure"]

  /** The texts that an action can be given. */
  function TextKeys(name: string): seq<string> {
    if name == "node.add" then
      ["name", "domain", "address", "path", "method", "network", "obfs", "obfs_host", "snell_version", "snell_mode",
       "bbr_profile", "masquerade", "security", "flow", "handshake_server", "congestion_control", "strict_mode",
       "wildcard_sni", "realm_id", "realm_ip_version"]
    else if name == "node.set" then
      ["name", "address", "domain", "path", "remark", "region", "purpose", "line", "tags", "method", "network",
       "obfs", "obfs_host", "bbr_profile", "masquerade", "security", "flow", "handshake_server", "congestion_control",
       "strict_mode", "wildcard_sni", "snell_version", "snell_mode", "realm_id", "realm_ip_version"]
    else if name == "traffic.set" then
      ["quota", "reset_day", "rate", "upload_rate", "download_rate", "quota_mode"]
    else
      ["disk_free", "memory_max", "load_per_core", "inode_max", "fd_max", "banned_warn", "restart_warn"]
  }

  function TextLimit(name: string): nat {
    if name == "node.add" then 253 else if name == "node.set" then 512 else if name == "traffic.set" then 64 else 32
  }

  function TextTable(name: string): seq<Field> {
    if name == "node.add" then NODE_ADD_TEXTS
    else if name == "node.set" then NODE_SET_TEXTS
    else if name == "traffic.set" then TRAFFIC
    else HEALTH
  }

  predicate TextsAre(table: seq<Field>, name: string) {
    && |table| == |TextKeys(name)|
    && forall i :: 0 <= i < |table| ==>
         && table[i].TextField? && table[i].key == TextKeys(name)[i] && table[i].check == Line(TextLimit(name))
         && table[i].keepEmpty == (name == "node.set")
  }

  lemma AddTextsAre()
    ensures TextsAre(NODE_ADD_TEXTS, "node.add")
  {
  }

  lemma SetTextsAre()
    ensures TextsAre(NODE_SET_TEXTS, "node.set")
  {
  }

  lemma SmallTextsAre()
    ensures TextsAre(TRAFFIC, "traffic.set") && TextsAre(HEALTH, "health.configure")
  {
  }

  lemma TextTableIs(name: string)
    requires name in TEXT_COMMANDS
    ensures TextsAre(TextTable(name), name) && FlagsSayKeys(TextTable(name))
  {
    hide TextsAre, FlagsSayKeys;
    AddTextsAre();
    SetTextsAre();
    SmallTextsAre();
    TablesSayKeys();
  }

  /** What a field puts into the command stands in it. */
  lemma {:induction false} WordsInside(fields: seq<Field>, f: Field, args: Args) returns (at: nat)
    requires f in fields && Encode(fields, args).Ok?
    ensures !Refused(f, args)
    ensures at + |Words(f, args)| <= |Encode(fields, args).value|
    ensures Encode(fields, args).value[at..at + |Words(f, args)|] == Words(f, args)
  {
    hide Refused, Words;
    var head, tail := Words(fields[0], args), Encode(fields[1..], args).value;
    if f == fields[0] {
      at := 0;
      assert (head + tail)[0..|head|] == head;
    } else {
      var i := WordsInside(fields[1..], f, args);
      at := |head| + i;
      assert (head + tail)[at..at + |Words(f, args)|] == tail[i..i + |Words(f, args)|];
    }
  }

  lemma Behead(head: seq<string>, tail: seq<string>, i: nat, n: nat)
    requires i + n <= |tail|
    ensures (head + tail)[|head| + i..|head| + i + n] == tail[i..i + n]
  {
  }

  /** All fields of a command, and the arguments that they read. */
  function Table(name: string): seq<Field> {
    if name == "node.add" then NODE_ADD
    else if name == "node.set" then NODE_SET
    else if name == "traffic.set" then TRAFFIC
    else if name == "health.configure" then HEALTH
    else REALM
  }

  function Read(a: Action): Args {
    if a.name == "realm.enable" then WithListen(a.args) else a.args
  }

  /** The words of a field in the whole command. */
  lemma FieldWords(a: Action, goodURL: string -> bool, f: Field) returns (at: nat)
    requires a.name in NAMES && f in Table(a.name) && Argv(a, goodURL).Ok?
    ensures !Refused(f, Read(a)) && at + |Words(f, Read(a))| <= |Argv(a, goodURL).value|
    ensures Argv(a, goodURL).value[at..at + |Words(f, Read(a))|] == Words(f, Read(a))
  {
    hide Encode, Refused, Words, SafeID, PROTOCOLS, NODE_ADD, NODE_SET, TRAFFIC, HEALTH, REALM, WithListen, Decimal;
    var head := if a.name == "node.add" then ["node", "add", TextOf(a.args, "protocol"), "--id", TextOf(a.args, "id")]
                else if a.name == "node.set" then ["node", "set", TextOf(a.args, "id")]
                else if a.name == "traffic.set" then ["traffic", "set", TextOf(a.args, "node_id")]
                else if a.name == "health.configure" then ["health", "configure"]
                else ["realm", "enable", Decimal(a.args["port"].number.Floor), TextOf(a.args, "public_url")];
    assert Argv(a, goodURL) == Behind(head, Encode(Table(a.name), Read(a)));
    hide Argv;
    var i := WordsInside(Table(a.name), f, Read(a));
    Behead(head, Encode(Table(a.name), Read(a)).value, i, |Words(f, Read(a))|);
    at := |head| + i;
  }

  lemma TextsInTable(name: string, f: Field)
    requires name in TEXT_COMMANDS && f in TextTable(name)
    ensures name in NAMES && f in Table(name)
  {
    hide NODE_ADD_TEXTS, NODE_SET_TEXTS, PORTS, NODE_ADD_SWITCHES, NODE_SET_SWITCHES, TRAFFIC, HEALTH;
  }

  /** A text that is given - by `node.set` also an empty one - is within the limit and on
      one line, or the action is refused; and it stands in the command behind the flag
      that is called after its key. */
  lemma GivenTextIsSaid(a: Action, goodURL: string -> bool, key: string) returns (at: nat)
    requires a.name in TEXT_COMMANDS && Argv(a, goodURL).Ok?
    requires key in TextKeys(a.name) && key in a.args && a.args[key].Text?
    requires a.name == "node.set" || a.args[key].text != ""
    ensures |a.args[key].text| <= TextLimit(a.name) && SingleLine(a.args[key].text)
    ensures var argv := Argv(a, goodURL).value;
            at + 1 < |argv| && SaysKey(argv[at], key) && argv[at + 1] == a.args[key].text
  {
    hide TextKeys, TextTable, SaysKey, SingleLine, Argv, Table;
    TextTableIs(a.name);
    var i :| 0 <= i < |TextKeys(a.name)| && TextKeys(a.name)[i] == key;
    var f := TextTable(a.name)[i];
    TextsInTable(a.name, f);
    at := FieldWords(a, goodURL, f);
    TextSaid(f, a.args);
    hide Words, Refused, TextsAre;
    TwoWords(Argv(a, goodURL).value, at, f.flag, a.args[key].text);
  }

  lemma TextSaid(f: Field, args: Args)
    requires f.TextField? && f.check.Line? && f.key in args && args[f.key].Text?
    requires (f.keepEmpty || args[f.key].text != "") && !Refused(f, args)
    ensures Words(f, args) == [f.flag, args[f.key].text]
    ensures |args[f.key].text| <= f.check.max && SingleLine(args[f.key].text)
  {
    hide SingleLine;
  }

  lemma TwoWords(argv: seq<string>, at: nat, first: string, second: string)
    requires at + 2 <= |argv| && argv[at..at + 2] == [first, second]
    ensures argv[at] == first && argv[at + 1] == second
  {
    assert argv[at] == argv[at..at + 2][0] && argv[at + 1] == argv[at..at + 2][1];
  }

  const PORT_KEYS := ["port", "obfs_min_packet_size", "obfs_max_packet_size", "handshake_port"]

  lemma PortsAre(name: string)
    requires name == "node.add" || name == "node.set"
    ensures |PORTS| == 4
    ensures forall i :: 0 <= i < 4 ==> PORTS[i] in Table(name) && PORTS[i] == PortField(PORT_KEYS[i], PORTS[i].flag)
  {
    hide NODE_ADD_TEXTS, NODE_SET_TEXTS, NODE_ADD_SWITCHES, NODE_SET_SWITCHES;
  }

  /** A number that is given is whole and from 1 to 65535, or the action is refused; and it
      stands in decimal behind its flag. */
  lemma GivenNumberIsSaid(a: Action, goodURL: string -> bool, key: string) returns (at: nat)
    requires a.name == "node.add" || a.name == "node.set"
    requires key in PORT_KEYS && key in a.args && a.args[key].Number? && Argv(a, goodURL).Ok?
    ensures var n := a.args[key].number.Floor; 1 <= n <= 65535 && a.args[key].number == n as real
    ensures var argv := Argv(a, goodURL).value;
            at + 1 < |argv| && SaysKey(argv[at], key) && argv[at + 1] == Decimal(a.args[key].number.Floor)
  {
    PortsAre(a.name);
    TablesSayKeys();
    hide SaysKey, Argv, Decimal, Table, PORTS;
    var i :| 0 <= i < 4 && PORT_KEYS[i] == key;
    var f := PORTS[i];
    assert SaysKey(f.flag, key);
    at := FieldWords(a, goodURL, f);
    NumberSaid(f, a.args);
    hide Words, Refused, FlagsSayKeys;
    TwoWords(Argv(a, goodURL).value, at, f.flag, Decimal(a.args[key].number.Floor));
  }

  lemma NumberSaid(f: Field, args: Args)
    requires f.PortField? && f.key in args && args[f.key].Number? && !Refused(f, args)
    ensures Words(f, args) == [f.flag, Decimal(args[f.key].number.Floor)]
    ensures var n := args[f.key].number.Floor; 1 <= n <= 65535 && args[f.key].number == n as real
  {
    hide Decimal;
  }

  /** The switches of `node.set` that can be set either way, and the flag for off. */
  const TOGGLES := [("disable_chrome_parrot", "--enable-chrome-parrot"), ("brutal_debug", "--no-brutal-debug"),
                    ("realm_port_mapping", "--no-realm-port-mapping")]

  lemma TogglesAre()
    ensures |NODE_SET_SWITCHES| == 4
    ensures forall i :: 0 <= i < 3 ==>
              NODE_SET_SWITCHES[i] in NODE_SET
              && NODE_SET_SWITCHES[i] == ToggleField(TOGGLES[i].0, NODE_SET_SWITCHES[i].flag, TOGGLES[i].1)
  {
    hide NODE_SET_TEXTS, PORTS;
  }

  /** A switch of `node.set` that is given stands in the command by the flag for its
      position. */
  lemma GivenSwitchIsSaid(a: Action, goodURL: string -> bool, i: nat, on: bool) returns (at: nat)
    requires a.name == "node.set" && Argv(a, goodURL).Ok?
    requires i < 3 && TOGGLES[i].0 in a.args && a.args[TOGGLES[i].0] == Switch(on)
    ensures var argv := Argv(a, goodURL).value;
            at < |argv| && if on then SaysKey(argv[at], TOGGLES[i].0) else argv[at] == TOGGLES[i].1
  {
    TogglesAre();
    TablesSayKeys();
    hide SaysKey, Argv, NODE_SET, NODE_SET_SWITCHES, TOGGLES;
    var f := NODE_SET_SWITCHES[i];
    at := FieldWords(a, goodURL, f);
    assert Argv(a, goodURL).value[at] == Argv(a, goodURL).value[at..at + 1][0];
  }

  /** Exactly which given arguments make a command fail, by kind of field. */
  lemma RefusedIs(f: Field, args: Args)
    ensures Refused(f, args) <==>
            f.key in args &&
            match f
            case TextField(key, _, Line(max), _) =>
              args[key].Text? && (|args[key].text| > max || '\r' in args[key].text || '\n' in args[key].text
                                  || '\0' in args[key].text)
            case TextField(key, _, Domain, keepEmpty) =>
              args[key].Text? && (keepEmpty || args[key].text != "") && !SafeDomain(args[key].text)
            case PortField(key, _) =>
              args[key].Number? && var r := args[key].number; !(1.0 <= r <= 65535.0 && r == r.Floor as real)
            case CountField(key, _, max) =>
              !(args[key].Number? && var r := args[key].number; 0.0 <= r <= max as real && r == r.Floor as real)
            case _ => false
  {
    hide SafeDomain;
  }

  /** The whole Realm command, and exactly when there is one. */
  lemma RealmCommandIs(args: Args, goodURL: string -> bool)
    ensures var url, listen, domain := TextOf(args, "public_url"), TextOf(args, "listen"), TextOf(args, "tls_domain");
            var limited := "max_realms" in args && args["max_realms"] != Number(0.0);
            var r := RealmEnable(args, goodURL);
            && (r.Ok? <==>
                  && "port" in args && args["port"].Number? && Whole(args["port"].number, 1, 65535) && goodURL(url)
                  && |listen| <= 128 && SingleLine(listen) && (domain == "" || SafeDomain(domain))
                  && (limited ==> args["max_realms"].Number? && Whole(args["max_realms"].number, 0, 1_000_000)))
            && (r.Ok? ==>
                  var head := ["realm", "enable", Decimal(args["port"].number.Floor), url, "--listen",
                               if listen == "" then "::" else listen];
                  var tls := if domain == "" then [] else ["--tls-domain", domain];
                  var max := if limited then ["--max-realms", Decimal(args["max_realms"].number.Floor)] else [];
                  r.value == head + tls + max)
  {
    hide Decimal, SafeDomain, Encode;
    RealmFields(args);
  }
}
