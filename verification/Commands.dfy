/** The five commands with field tables, appended word by word as the runner does,
    and what can be read back from them. */
module Commands {
  import opened Types
  import opened Patterns
  import opened Decimals
  import opened ArgvEncoder
  import opened FieldTables

  const PROTOCOLS := ["vmess", "ss", "anytls", "hy2", "trojan", "tuic", "vless", "naive", "shadowtls", "snell"]

  // ---------- what each command is ----------

  function NodeAdd(args: Args): Result<seq<string>> {
    var protocol, id := TextOf(args, "protocol"), TextOf(args, "id");
    if protocol !in PROTOCOLS || !SafeID(id) then Err(Rejected)
    else Behind(["node", "add", protocol, "--id", id], Encode(NODE_ADD, args))
  }

  /** A command that must carry something. */
  function NonEmpty(head: seq<string>, tail: Result<seq<string>>): Result<seq<string>> {
    if tail == Ok([]) then Err(Rejected) else Behind(head, tail)
  }

  function NodeSet(args: Args): Result<seq<string>> {
    var id := TextOf(args, "id");
    if !SafeID(id) then Err(Rejected) else NonEmpty(["node", "set", id], Encode(NODE_SET, args))
  }

  function TrafficSet(args: Args): Result<seq<string>> {
    var nodeID := TextOf(args, "node_id");
    if !SafeID(nodeID) then Err(Rejected) else NonEmpty(["traffic", "set", nodeID], Encode(TRAFFIC, args))
  }

  function HealthConfigure(args: Args): Result<seq<string>> {
    NonEmpty(["health", "configure"], Encode(HEALTH, args))
  }

  predicate PortGiven(args: Args) {
    "port" in args && args["port"].Number? && Whole(args["port"].number, 1, 65535)
  }

  function Listen(args: Args): string {
    if TextOf(args, "listen") == "" then "::" else TextOf(args, "listen")
  }

  function WithListen(args: Args): Args {
    args["listen" := Text(Listen(args))]
  }

  /** `goodURL` stands for the URL parser of the library: an http or https URL with
      a host and nothing behind it. */
  function RealmEnable(args: Args, goodURL: string -> bool): Result<seq<string>> {
    var url := TextOf(args, "public_url");
    if !PortGiven(args) || !goodURL(url) then Err(Rejected)
    else Behind(["realm", "enable", Decimal(args["port"].number.Floor), url], Encode(REALM, WithListen(args)))
  }

  // ---------- building them ----------

  /** A table with one more field. */
  lemma OneMore(fields: seq<Field>, f: Field, args: Args)
    ensures Encode(fields + [f], args) ==
            if Encode(fields, args).Err? || Refused(f, args) then Err(Rejected)
            else Ok(Encode(fields, args).value + Words(f, args))
    ensures Encode([], args) == Ok([])
  {
    hide Refused, Words;
    EncodeConcat(fields, [f], args);
    assert [f][1..] == [];
    EncodeRefuses([f], args);
    if !Refused(f, args) {
      assert Words(f, args) + [] == Words(f, args);
    }
  }

  /** One round of a loop over a table. */
  lemma EncodeStep(command: seq<string>, fields: seq<Field>, i: nat, args: Args, argv: seq<string>)
    requires i < |fields| && Behind(command, Encode(fields[..i], args)) == Ok(argv)
    ensures Refused(fields[i], args) ==> Encode(fields, args) == Err(Rejected)
    ensures !Refused(fields[i], args) ==>
              Behind(command, Encode(fields[..i + 1], args)) == Ok(argv + Words(fields[i], args))
    ensures argv + [] == argv
  {
    hide Refused, Words, Encode;
    assert fields[..i + 1] == fields[..i] + [fields[i]];
    OneMore(fields[..i], fields[i], args);
    EncodeRefuses(fields, args);
    assert fields[i] in fields;
    if !Refused(fields[i], args) {
      assert command + (Encode(fields[..i], args).value + Words(fields[i], args)) == argv + Words(fields[i], args);
    }
  }

  lemma WholeTable(command: seq<string>, fields: seq<Field>, args: Args)
    ensures fields[..|fields|] == fields
    ensures Encode(fields[..0], args) == Ok([]) && command + [] == command
  {
  }

  method AppendTexts(command: seq<string>, fields: seq<Field>, args: Args) returns (r: Result<seq<string>>)
    requires forall f <- fields :: f.TextField?
    ensures r == Behind(command, Encode(fields, args))
  {
    WholeTable(command, fields, args);
    var argv := command;
    for i := 0 to |fields|
      invariant Behind(command, Encode(fields[..i], args)) == Ok(argv)
    {
      EncodeStep(command, fields, i, args, argv);
      var field := fields[i];
      assert field in fields;
      if field.key in args && args[field.key].Text? && (field.keepEmpty || args[field.key].text != "") {
        var value := args[field.key].text;
        if !Allowed(field.check, value) {
          return Err(Rejected);
        }
        argv := argv + [field.flag, value];
      }
    }
    r := Ok(argv);
  }

  method AppendPorts(command: seq<string>, fields: seq<Field>, args: Args) returns (r: Result<seq<string>>)
    requires forall f <- fields :: f.PortField?
    ensures r == Behind(command, Encode(fields, args))
  {
    WholeTable(command, fields, args);
    var argv := command;
    for i := 0 to |fields|
      invariant Behind(command, Encode(fields[..i], args)) == Ok(argv)
    {
      EncodeStep(command, fields, i, args, argv);
      var field := fields[i];
      assert field in fields;
      if field.key in args && args[field.key].Number? {
        var value := args[field.key].number;
        if value < 1.0 || value > 65535.0 || value != value.Floor as real {
          return Err(Rejected);
        }
        argv := argv + [field.flag, Decimal(value.Floor)];
      }
    }
    r := Ok(argv);
  }

  method AppendSwitches(command: seq<string>, fields: seq<Field>, args: Args) returns (argv: seq<string>)
    requires forall f <- fields :: f.OnField? || f.ToggleField?
    ensures Ok(argv) == Behind(command, Encode(fields, args))
  {
    WholeTable(command, fields, args);
    argv := command;
    for i := 0 to |fields|
      invariant Behind(command, Encode(fields[..i], args)) == Ok(argv)
    {
      EncodeStep(command, fields, i, args, argv);
      var field := fields[i];
      assert field in fields;
      if field.key in args && args[field.key].Switch? {
        if args[field.key].on {
          argv := argv + [field.flag];
        } else if field.ToggleField? {
          argv := argv + [field.off];
        }
      }
    }
  }

  lemma ThreeTables(head: seq<string>, a: seq<Field>, b: seq<Field>, c: seq<Field>, args: Args)
    ensures var first := Behind(head, Encode(a, args));
            Behind(head, Encode(a + b + c, args)) ==
            if first.Err? || Encode(b, args).Err? then Err(Rejected)
            else Behind(Behind(first.value, Encode(b, args)).value, Encode(c, args))
  {
    EncodeConcat(a + b, c, args);
    EncodeConcat(a, b, args);
    EncodeRefuses(a, args);
    EncodeRefuses(b, args);
    EncodeRefuses(c, args);
    hide Refused, Encode;
    if Encode(a + b + c, args).Ok? {
      var x, y, z := Encode(a, args).value, Encode(b, args).value, Encode(c, args).value;
      assert head + (x + y + z) == head + x + y + z;
    }
  }

  /** Which kind of field a table holds. */
  lemma TableKinds()
    ensures forall f <- NODE_ADD_TEXTS :: f.TextField?
    ensures forall f <- NODE_SET_TEXTS :: f.TextField?
    ensures forall f <- PORTS :: f.PortField?
    ensures forall f <- NODE_ADD_SWITCHES + NODE_SET_SWITCHES :: f.OnField? || f.ToggleField?
    ensures forall f <- TRAFFIC + HEALTH :: f.TextField?
  {
  }

  method NodeAddCommand(args: Args) returns (r: Result<seq<string>>)
    ensures r == NodeAdd(args)
  {
    hide NODE_ADD_TEXTS, PORTS, NODE_ADD_SWITCHES, Encode;
    TableKinds();
    var protocol, id := TextOf(args, "protocol"), TextOf(args, "id");
    if protocol !in PROTOCOLS || !SafeID(id) {
      return Err(Rejected);
    }
    var command := ["node", "add", protocol, "--id", id];
    ThreeTables(command, NODE_ADD_TEXTS, PORTS, NODE_ADD_SWITCHES, args);
    r := AppendTexts(command, NODE_ADD_TEXTS, args);
    if r.Err? {
      return Err(Rejected);
    }
    r := AppendPorts(r.value, PORTS, args);
    if r.Err? {
      return Err(Rejected);
    }
    command := AppendSwitches(r.value, NODE_ADD_SWITCHES, args);
    r := Ok(command);
  }

  method NodeSetCommand(args: Args) returns (r: Result<seq<string>>)
    ensures r == NodeSet(args)
  {
    hide NODE_SET_TEXTS, PORTS, NODE_SET_SWITCHES, Encode;
    TableKinds();
    var id := TextOf(args, "id");
    if !SafeID(id) {
      return Err(Rejected);
    }
    var command := ["node", "set", id];
    ThreeTables(command, NODE_SET_TEXTS, PORTS, NODE_SET_SWITCHES, args);
    r := AppendTexts(command, NODE_SET_TEXTS, args);
    if r.Err? {
      return Err(Rejected);
    }
    r := AppendPorts(r.value, PORTS, args);
    if r.Err? {
      return Err(Rejected);
    }
    command := AppendSwitches(r.value, NODE_SET_SWITCHES, args);
    if |command| == 3 {
      return Err(Rejected);
    }
    r := Ok(command);
  }

  method TrafficSetCommand(args: Args) returns (r: Result<seq<string>>)
    ensures r == TrafficSet(args)
  {
    hide TRAFFIC, Encode;
    TableKinds();
    var nodeID := TextOf(args, "node_id");
    if !SafeID(nodeID) {
      return Err(Rejected);
    }
    r := AppendTexts(["traffic", "set", nodeID], TRAFFIC, args);
    if r.Ok? && |r.value| == 3 {
      r := Err(Rejected);
    }
  }

  method HealthConfigureCommand(args: Args) returns (r: Result<seq<string>>)
    ensures r == HealthConfigure(args)
  {
    hide HEALTH, Encode;
    TableKinds();
    r := AppendTexts(["health", "configure"], HEALTH, args);
    if r.Ok? && |r.value| == 2 {
      r := Err(Rejected);
    }
  }

  method RealmEnableCommand(args: Args, goodURL: string -> bool) returns (r: Result<seq<string>>)
    ensures r == RealmEnable(args, goodURL)
  {
    hide Decimal, SafeDomain, SingleLine;
    if "port" !in args || !args["port"].Number? {
      return Err(Rejected);
    }
    var port := args["port"].number;
    if port < 1.0 || port > 65535.0 || port != port.Floor as real {
      return Err(Rejected);
    }
    var publicURL := TextOf(args, "public_url");
    if !goodURL(publicURL) {
      return Err(Rejected);
    }
    var listen := TextOf(args, "listen");
    if listen == "" {
      listen := "::";
    }
    RealmFields(args);
    if |listen| > 128 || !SingleLine(listen) {
      return Err(Rejected);
    }
    var command := ["realm", "enable", Decimal(port.Floor), publicURL, "--listen", listen];
    ghost var head, w := ["realm", "enable", Decimal(port.Floor), publicURL], WithListen(args);
    assert command == head + Words(REALM[0], w);
    var domain := TextOf(args, "tls_domain");
    if domain != "" {
      if !SafeDomain(domain) {
        return Err(Rejected);
      }
      command := command + ["--tls-domain", domain];
    }
    assert command == head + Words(REALM[0], w) + Words(REALM[1], w);
    var max := 0.0;
    if "max_realms" in args {
      if !args["max_realms"].Number? {
        return Err(Rejected);
      }
      max := args["max_realms"].number;
      if max < 0.0 || max > 1_000_000.0 || max != max.Floor as real {
        return Err(Rejected);
      }
    }
    if max > 0.0 {
      command := command + ["--max-realms", Decimal(max.Floor)];
    }
    assert command == head + Words(REALM[0], w) + Words(REALM[1], w) + Words(REALM[2], w);
    assert command == head + (Words(REALM[0], w) + Words(REALM[1], w) + Words(REALM[2], w));
    r := Ok(command);
  }

  /** The realm table, field by field. */
  lemma RealmFields(args: Args)
    ensures var w := WithListen(args);
            Encode(REALM, w) ==
            if Refused(REALM[0], w) || Refused(REALM[1], w) || Refused(REALM[2], w) then Err(Rejected)
            else Ok(Words(REALM[0], w) + Words(REALM[1], w) + Words(REALM[2], w))
  {
    var w := WithListen(args);
    hide Refused, Words;
    var a, b, c := REALM[0], REALM[1], REALM[2];
    OneMore([], a, w);
    OneMore([a], b, w);
    OneMore([a, b], c, w);
    assert [a] + [b] == [a, b] && [a, b] + [c] == REALM;
    if !Refused(a, w) {
      assert [] + Words(a, w) == Words(a, w);
    }
  }
}
