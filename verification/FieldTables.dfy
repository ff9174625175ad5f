/** The field tables of the five commands that have them. */
module FieldTables {
  import opened ArgvEncoder

  // ---------- the tables ----------

  function AddText(key: string, flag: string): Field { TextField(key, flag, Line(253), false) }
  function SetText(key: string, flag: string): Field { TextField(key, flag, Line(512), true) }
  function TrafficText(key: string, flag: string): Field { TextField(key, flag, Line(64), false) }
  function HealthText(key: string, flag: string): Field { TextField(key, flag, Line(32), false) }

  const NODE_ADD_TEXTS: seq<Field> := [
    AddText("name", "--name"), AddText("domain", "--domain"), AddText("address", "--address"),
    AddText("path", "--path"),
    AddText("method", "--method"), AddText("network", "--network"), AddText("obfs", "--obfs"),
    AddText("obfs_host", "--obfs-host"), AddText("snell_version", "--snell-version"),
    AddText("snell_mode", "--snell-mode"),
    AddText("bbr_profile", "--bbr-profile"), AddText("masquerade", "--masquerade"), AddText("security", "--security"),
    AddText("flow", "--flow"), AddText("handshake_server", "--handshake-server"),
    AddText("congestion_control", "--congestion-control"), AddText("strict_mode", "--strict-mode"),
    AddText("wildcard_sni", "--wildcard-sni"), AddText("realm_id", "--realm-id"),
    AddText("realm_ip_version", "--realm-ip-version")]

  const PORTS: seq<Field> := [
    PortField("port", "--port"), PortField("obfs_min_packet_size", "--obfs-min-packet-size"),
    PortField("obfs_max_packet_size", "--obfs-max-packet-size"), PortField("handshake_port", "--handshake-port")]

  const NODE_ADD_SWITCHES: seq<Field> := [
    OnField("disable_chrome_parrot", "--disable-chrome-parrot"), OnField("brutal_debug", "--brutal-debug"),
    OnField("realm_port_mapping", "--realm-port-mapping"), OnField("quic", "--quic"), OnField("disabled", "--disabled")]

  const NODE_SET_TEXTS: seq<Field> := [
    SetText("name", "--name"), SetText("address", "--address"), SetText("domain", "--domain"),
    SetText("path", "--path"),
    SetText("remark", "--remark"), SetText("region", "--region"), SetText("purpose", "--purpose"),
    SetText("line", "--line"),
    SetText("tags", "--tags"), SetText("method", "--method"), SetText("network", "--network"),
    SetText("obfs", "--obfs"),
    SetText("obfs_host", "--obfs-host"), SetText("bbr_profile", "--bbr-profile"), SetText("masquerade", "--masquerade"),
    SetText("security", "--security"), SetText("flow", "--flow"), SetText("handshake_server", "--handshake-server"),
    SetText("congestion_control", "--congestion-control"), SetText("strict_mode", "--strict-mode"),
    SetText("wildcard_sni", "--wildcard-sni"), SetText("snell_version", "--snell-version"),
    SetText("snell_mode", "--snell-mode"), SetText("realm_id", "--realm-id"),
    SetText("realm_ip_version", "--realm-ip-version")]

  const NODE_SET_SWITCHES: seq<Field> := [
    ToggleField("disable_chrome_parrot", "--disable-chrome-parrot", "--enable-chrome-parrot"),
    ToggleField("brutal_debug", "--brutal-debug", "--no-brutal-debug"),
    ToggleField("realm_port_mapping", "--realm-port-mapping", "--no-realm-port-mapping"),
    OnField("clear_realm", "--clear-realm")]

  const TRAFFIC: seq<Field> := [
    TrafficText("quota", "--quota"), TrafficText("reset_day", "--reset-day"), TrafficText("rate", "--rate"),
    TrafficText("upload_rate", "--upload-rate"), TrafficText("download_rate", "--download-rate"),
    TrafficText("quota_mode", "--quota-mode")]

  const HEALTH: seq<Field> := [
    HealthText("disk_free", "--disk-free"), HealthText("memory_max", "--memory-max"),
    HealthText("load_per_core", "--load-per-core"), HealthText("inode_max", "--inode-max"),
    HealthText("fd_max", "--fd-max"), HealthText("banned_warn", "--banned-warn"),
    HealthText("restart_warn", "--restart-warn")]

  const REALM: seq<Field> := [
    TextField("listen", "--listen", Line(128), false), TextField("tls_domain", "--tls-domain", Domain, false),
    CountField("max_realms", "--max-realms", 1_000_000)]

  const NODE_ADD := NODE_ADD_TEXTS + PORTS + NODE_ADD_SWITCHES
  const NODE_SET := NODE_SET_TEXTS + PORTS + NODE_SET_SWITCHES

  // ---------- no two fields of a table share a key or a flag ----------

  lemma AddTextKeys()
    ensures forall i, j :: 0 <= i < j < |NODE_ADD_TEXTS| ==> NODE_ADD_TEXTS[i].key != NODE_ADD_TEXTS[j].key
  {
  }

  lemma AddTextFlags()
    ensures forall i, j :: 0 <= i < j < |NODE_ADD_TEXTS| ==> NODE_ADD_TEXTS[i].flag != NODE_ADD_TEXTS[j].flag
  {
  }

  lemma AddTextsPlain()
    ensures NoToggles(NODE_ADD_TEXTS)
  {
  }

  lemma SetTextKeysFront()
    ensures forall i, j :: 0 <= i < j < |NODE_SET_TEXTS| && i < 8 ==> NODE_SET_TEXTS[i].key != NODE_SET_TEXTS[j].key
  {
  }

  lemma SetTextKeysBack()
    ensures forall i, j :: 8 <= i < j < |NODE_SET_TEXTS| ==> NODE_SET_TEXTS[i].key != NODE_SET_TEXTS[j].key
  {
  }

  lemma SetTextKeys()
    ensures forall i, j :: 0 <= i < j < |NODE_SET_TEXTS| ==> NODE_SET_TEXTS[i].key != NODE_SET_TEXTS[j].key
  {
    hide NODE_SET_TEXTS;
    SetTextKeysFront();
    SetTextKeysBack();
  }

  lemma SetTextFlagsFront()
    ensures forall i, j :: 0 <= i < j < |NODE_SET_TEXTS| && i < 8 ==> NODE_SET_TEXTS[i].flag != NODE_SET_TEXTS[j].flag
  {
  }

  lemma SetTextFlagsBack()
    ensures forall i, j :: 8 <= i < j < |NODE_SET_TEXTS| ==> NODE_SET_TEXTS[i].flag != NODE_SET_TEXTS[j].flag
  {
  }

  lemma SetTextFlags()
    ensures forall i, j :: 0 <= i < j < |NODE_SET_TEXTS| ==> NODE_SET_TEXTS[i].flag != NODE_SET_TEXTS[j].flag
  {
    hide NODE_SET_TEXTS;
    SetTextFlagsFront();
    SetTextFlagsBack();
  }

  lemma SetTextsPlain()
    ensures NoToggles(NODE_SET_TEXTS)
  {
  }

  lemma AddTextsPortsKeys()
    ensures KeysDiffer(NODE_ADD_TEXTS, PORTS)
  {
  }

  lemma AddTextsPortsFlags()
    ensures FlagsDiffer(NODE_ADD_TEXTS, PORTS)
  {
  }

  lemma SetTextsPortsKeys()
    ensures KeysDiffer(NODE_SET_TEXTS, PORTS)
  {
  }

  lemma SetTextsPortsFlags()
    ensures FlagsDiffer(NODE_SET_TEXTS, PORTS)
  {
  }

  lemma AddTextsSwitchesKeys()
    ensures KeysDiffer(NODE_ADD_TEXTS, NODE_ADD_SWITCHES)
  {
  }

  lemma AddTextsSwitchesFlags()
    ensures FlagsDiffer(NODE_ADD_TEXTS, NODE_ADD_SWITCHES)
  {
  }

  lemma SetTextsSwitchesKeys()
    ensures KeysDiffer(NODE_SET_TEXTS, NODE_SET_SWITCHES)
  {
  }

  lemma SetTextsSwitchesFlags()
    ensures FlagsDiffer(NODE_SET_TEXTS, NODE_SET_SWITCHES)
  {
  }

  lemma SetTextsSwitchesOffs()
    ensures OffsDiffer(NODE_SET_TEXTS, NODE_SET_SWITCHES)
  {
  }

  lemma PortsAddSwitchesKeys()
    ensures KeysDiffer(PORTS, NODE_ADD_SWITCHES)
  {
  }

  lemma PortsAddSwitchesFlags()
    ensures FlagsDiffer(PORTS, NODE_ADD_SWITCHES)
  {
  }

  lemma PortsSetSwitchesKeys()
    ensures KeysDiffer(PORTS, NODE_SET_SWITCHES)
  {
  }

  lemma PortsSetSwitchesFlags()
    ensures FlagsDiffer(PORTS, NODE_SET_SWITCHES)
  {
  }

  lemma PortsSetSwitchesOffs()
    ensures OffsDiffer(PORTS, NODE_SET_SWITCHES)
  {
  }

  lemma PortsDistinct()
    ensures Distinct(PORTS) && NoToggles(PORTS)
  {
  }

  lemma AddSwitchesDistinct()
    ensures Distinct(NODE_ADD_SWITCHES) && NoToggles(NODE_ADD_SWITCHES)
  {
  }

  lemma SetSwitchesDistinct()
    ensures Distinct(NODE_SET_SWITCHES)
  {
  }

  lemma NodeAddDistinct()
    ensures Distinct(NODE_ADD)
  {
    hide Distinct, NoToggles, KeysDiffer, FlagsDiffer, OffsDiffer, NODE_ADD_TEXTS, PORTS, NODE_ADD_SWITCHES;
    AddTextKeys();
    AddTextFlags();
    AddTextsPlain();
    DistinctTable(NODE_ADD_TEXTS);
    PortsDistinct();
    AddTextsPortsKeys();
    AddTextsPortsFlags();
    PlainOffs(NODE_ADD_TEXTS, PORTS);
    DistinctTogether(NODE_ADD_TEXTS, PORTS);
    AddSwitchesDistinct();
    AddTextsSwitchesKeys();
    AddTextsSwitchesFlags();
    PortsAddSwitchesKeys();
    PortsAddSwitchesFlags();
    PlainOffs(NODE_ADD_TEXTS + PORTS, NODE_ADD_SWITCHES);
    DiffersTogether(NODE_ADD_TEXTS, PORTS, NODE_ADD_SWITCHES);
    DistinctTogether(NODE_ADD_TEXTS + PORTS, NODE_ADD_SWITCHES);
  }

  lemma NodeSetDistinct()
    ensures Distinct(NODE_SET)
  {
    hide Distinct, NoToggles, KeysDiffer, FlagsDiffer, OffsDiffer, NODE_SET_TEXTS, PORTS, NODE_SET_SWITCHES;
    SetTextKeys();
    SetTextFlags();
    SetTextsPlain();
    DistinctTable(NODE_SET_TEXTS);
    PortsDistinct();
    SetTextsPortsKeys();
    SetTextsPortsFlags();
    PlainOffs(NODE_SET_TEXTS, PORTS);
    DistinctTogether(NODE_SET_TEXTS, PORTS);
    SetSwitchesDistinct();
    SetTextsSwitchesKeys();
    SetTextsSwitchesFlags();
    SetTextsSwitchesOffs();
    PortsSetSwitchesKeys();
    PortsSetSwitchesFlags();
    PortsSetSwitchesOffs();
    OffsTogether(NODE_SET_TEXTS, PORTS, NODE_SET_SWITCHES);
    DiffersTogether(NODE_SET_TEXTS, PORTS, NODE_SET_SWITCHES);
    DistinctTogether(NODE_SET_TEXTS + PORTS, NODE_SET_SWITCHES);
  }

  lemma TrafficDistinct()
    ensures Distinct(TRAFFIC)
  {
    hide Distinct;
    assert forall i, j :: 0 <= i < j < |TRAFFIC| ==> TRAFFIC[i].key != TRAFFIC[j].key;
    assert forall i, j :: 0 <= i < j < |TRAFFIC| ==> TRAFFIC[i].flag != TRAFFIC[j].flag;
    DistinctTable(TRAFFIC);
  }

  lemma HealthDistinct()
    ensures Distinct(HEALTH)
  {
    hide Distinct;
    assert forall i, j :: 0 <= i < j < |HEALTH| ==> HEALTH[i].key != HEALTH[j].key;
    assert forall i, j :: 0 <= i < j < |HEALTH| ==> HEALTH[i].flag != HEALTH[j].flag;
    DistinctTable(HEALTH);
  }

  lemma RealmDistinct()
    ensures Distinct(REALM)
  {
  }
}
