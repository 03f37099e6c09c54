/**
 ForemanAnsible::InventoryCreator: builds the Ansible dynamic-inventory hash
   { "all"   => { "hosts" => [address, ...], "vars" => { input name => value } },
     "_meta" => { "hostvars" => { address => host vars } } }
 for a list of hosts and a template invocation.

 What the builder asks of other components (address resolution, the global
 settings store, the attribute renderer) is passed in as `Collaborators`.
 Functions named `...Of` are the specifications; the methods that mirror the
 source's in-place hash updates are proved equal to them.
 */
module InventoryCreator {
  import opened RubyValues

  datatype AnsibleRole = AnsibleRole(name: string)

  /** A host record: its parameters (`host.host_params`) and its roles (`host.all_ansible_roles`). */
  datatype Host = Host(id: nat, hostParams: map<string, Value>, allAnsibleRoles: seq<AnsibleRole>)

  datatype TemplateInput = TemplateInput(name: string)

  /** One filled-in input of a job invocation: `input.template_input.name` and `input.value`. */
  datatype InputValue = InputValue(templateInput: TemplateInput, value: Value)

  datatype TemplateInvocation = TemplateInvocation(inputValues: seq<InputValue>)

  /**
   The outside world as the builder sees it: the address resolver
   (`RemoteExecutionProvider.find_ip_or_hostname`), a read-only snapshot of
   the settings store (`Setting[key]`, Nil for nil) and the Rabl renderer
   (`Rabl.render(host, template, :format => 'hash')`).
   */
  datatype Collaborators = Collaborators(
    findIpOrHostname: Host -> string,
    setting: string -> Value,
    renderRabl: (Host, string) -> Value)

  const HostTemplate: string := "api/v2/hosts/main"
  const TopLevelVarsSetting: string := "top_level_ansible_vars"
  const AnsiblePattern: string := "ansible_"

  /**
   The seven connection settings, in the order `ansible_settings` lists
   them: "ansible_" followed by port, user, ssh_pass, connection,
   ssh_private_key_file, become and winrm_server_cert_validation.
   */
  const AnsibleSettingNames: seq<string> :=
    ["ansible_port", "ansible_user", "ansible_ssh_pass", "ansible_connection",
     "ansible_ssh_private_key_file", "ansible_become",
     "ansible_winrm_server_cert_validation"]

  const AnsibleSettingKeys: set<string> :=
    {"ansible_port", "ansible_user", "ansible_ssh_pass", "ansible_connection",
     "ansible_ssh_private_key_file", "ansible_become",
     "ansible_winrm_server_cert_validation"}

  /** The keys written after the merge for Ansible 1.x. */
  const SshAliasKeys: set<string> := {"ansible_ssh_port", "ansible_ssh_user"}

  const BaseKeys: set<string> := {"foreman", "foreman_params", "foreman_ansible_roles"}

  // ---------------------------------------------------------------------
  // Addresses and roles
  // ---------------------------------------------------------------------

  /** `@hosts.map { |h| find_ip_or_hostname(h) }`: one address per host, in order, duplicates kept. */
  function HostAddresses(env: Collaborators, hosts: seq<Host>): (addresses: seq<string>)
    ensures |addresses| == |hosts|
    ensures forall i :: 0 <= i < |hosts| ==> addresses[i] == env.findIpOrHostname(hosts[i])
  {
    if hosts == [] then []
    else [env.findIpOrHostname(hosts[0])] + HostAddresses(env, hosts[1..])
  }

  /** `roles.map(&:name)` */
  function RoleNames(roles: seq<AnsibleRole>): (names: seq<string>)
    ensures |names| == |roles|
    ensures forall i :: 0 <= i < |roles| ==> names[i] == roles[i].name
  {
    if roles == [] then [] else [roles[0].name] + RoleNames(roles[1..])
  }

  /** `host_roles`: the names of all the host's Ansible roles, in order. */
  function HostRoles(host: Host): (names: seq<string>)
  {
    RoleNames(host.allAnsibleRoles)
  }

  /** `host_params` */
  function HostParams(host: Host): (params: map<string, Value>)
  {
    host.hostParams
  }

  /** `host_attributes`: the host rendered through the "api/v2/hosts/main" Rabl template. */
  function HostAttributes(env: Collaborators, host: Host): (attributes: Value)
  {
    env.renderRabl(host, HostTemplate)
  }

  // ---------------------------------------------------------------------
  // Connection parameters
  // ---------------------------------------------------------------------

  /** `/ansible_/.match(key)`: the unanchored pattern, i.e. "ansible_" occurs somewhere in `key`. */
  predicate MatchesAnsible(key: string) {
    exists i :: 0 <= i <= |key| && OccursAt(key, i)
  }

  /** "ansible_" occurs in `key` starting at index `i`. */
  predicate OccursAt(key: string, i: nat) {
    i + |AnsiblePattern| <= |key| && key[i..i + |AnsiblePattern|] == AnsiblePattern
  }

  /** The block of `select` in `ansible_extra_options`. */
  predicate IsExtraOption(env: Collaborators, key: string) {
    MatchesAnsible(key) || Truthy(env.setting(key))
  }

  /** `Setting['top_level_ansible_vars']` is truthy. */
  predicate TopLevelVars(env: Collaborators) {
    Truthy(env.setting(TopLevelVarsSetting))
  }

  /** `Hash[names.map { |name| [name, Setting[name]] }]`, built pair by pair. */
  function SettingsHash(env: Collaborators, names: seq<string>): (h: map<string, Value>)
    ensures h.Keys == set n | n in names
    ensures forall k :: k in h ==> h[k] == env.setting(k)
  {
    if names == [] then map[]
    else
      var name := names[|names| - 1];
      var h := SettingsHash(env, names[..|names| - 1]);
      assert forall n :: n in names <==> n in names[..|names| - 1] || n == name;
      h[name := env.setting(name)]
  }

  /** `ansible_settings` */
  function AnsibleSettings(env: Collaborators): (settings: map<string, Value>)
  {
    SettingsHash(env, AnsibleSettingNames)
  }

  /** `ansible_extra_options`: the host parameters whose key matches /ansible_/ or names a truthy setting. */
  function AnsibleExtraOptions(env: Collaborators, host: Host): (options: map<string, Value>)
    ensures forall k :: k in options <==> k in host.hostParams && (MatchesAnsible(k) || Truthy(env.setting(k)))
    ensures forall k :: k in options ==> options[k] == host.hostParams[k]
  {
    map k | k in host.hostParams && IsExtraOption(env, k) :: host.hostParams[k]
  }

  /**
   `connection_params`: the settings overlaid by the host's extra options,
   then the two Ansible 1.x keys copied from the final port and user.
   */
  function ConnectionParamsOf(env: Collaborators, host: Host): (params: map<string, Value>)
  {
    var merged := Merge(AnsibleSettings(env), AnsibleExtraOptions(env, host));
    var withPort := merged["ansible_ssh_port" := Get(merged, "ansible_port")];
    withPort["ansible_ssh_user" := Get(withPort, "ansible_user")]
  }

  /** The in-place version that `connection_params` is. */
  method ConnectionParams(env: Collaborators, host: Host) returns (params: map<string, Value>)
    ensures params == ConnectionParamsOf(env, host)
  {
    params := Merge(AnsibleSettings(env), AnsibleExtraOptions(env, host));
    params := params["ansible_ssh_port" := Get(params, "ansible_port")];
    params := params["ansible_ssh_user" := Get(params, "ansible_user")];
  }

  // ---------------------------------------------------------------------
  // Host vars
  // ---------------------------------------------------------------------

  /** The literal hash at the start of `host_vars`. */
  function BaseVars(env: Collaborators, host: Host): (base: map<string, Value>)
  {
    map["foreman" := HostAttributes(env, host),
        "foreman_params" := Hash(HostParams(host)),
        "foreman_ansible_roles" := StrList(HostRoles(host))]
  }

  /**
   `host_vars`: the base keys, overridden by the connection parameters, and
   - when `top_level_ansible_vars` is truthy - every host parameter on top.
   */
  function HostVarsOf(env: Collaborators, host: Host): (vars: map<string, Value>)
  {
    var result := Merge(BaseVars(env, host), ConnectionParamsOf(env, host));
    if TopLevelVars(env) then Merge(result, HostParams(host)) else result
  }

  /** The version of `host_vars` that reassigns its local `result`. */
  method HostVars(env: Collaborators, host: Host) returns (result: map<string, Value>)
    ensures result == HostVarsOf(env, host)
  {
    var connection := ConnectionParams(env, host);
    result := Merge(BaseVars(env, host), connection);
    if TopLevelVars(env) {
      result := Merge(result, HostParams(host));
    }
  }

  // ---------------------------------------------------------------------
  // Folds: hosts_vars and template_inputs
  // ---------------------------------------------------------------------

  /** The value `hosts_vars` writes for a host: its `host_vars` hash. */
  function HostVarsEntry(env: Collaborators): (entry: Host -> Value)
  {
    (h: Host) => Hash(HostVarsOf(env, h))
  }

  /** `hosts_vars`: `reduce({})` with `hash.update(find_ip_or_hostname(host) => host_vars(host))`. */
  function HostsVarsOf(env: Collaborators, hosts: seq<Host>): (hash: map<string, Value>)
  {
    UpdateFold(hosts, env.findIpOrHostname, HostVarsEntry(env))
  }

  method HostsVars(env: Collaborators, hosts: seq<Host>) returns (hash: map<string, Value>)
    ensures hash == HostsVarsOf(env, hosts)
  {
    hash := map[];
    var i := 0;
    while i < |hosts|
      invariant 0 <= i <= |hosts|
      invariant hash == HostsVarsOf(env, hosts[..i])
    {
      var host := hosts[i];
      var vars := HostVars(env, host);
      assert hosts[..i + 1][..i] == hosts[..i];
      hash := hash[env.findIpOrHostname(host) := Hash(vars)];
      i := i + 1;
    }
    assert hosts[..i] == hosts;
  }

  /** `input.template_input.name` */
  function InputName(input: InputValue): (name: string)
  {
    input.templateInput.name
  }

  /** `input.value` */
  function InputValueOf(input: InputValue): (value: Value)
  {
    input.value
  }

  /** `template_inputs`: `vars_hash[input.template_input.name] = input.value` for each input in turn. */
  function TemplateVarsOf(inputs: seq<InputValue>): (vars: map<string, Value>)
  {
    UpdateFold(inputs, InputName, InputValueOf)
  }

  method TemplateInputs(invocation: TemplateInvocation) returns (result: map<string, Value>)
    ensures result == TemplateVarsOf(invocation.inputValues)
  {
    var inputValues := invocation.inputValues;
    result := map[];
    var i := 0;
    while i < |inputValues|
      invariant 0 <= i <= |inputValues|
      invariant result == TemplateVarsOf(inputValues[..i])
    {
      var input := inputValues[i];
      assert inputValues[..i + 1][..i] == inputValues[..i];
      result := result[input.templateInput.name := input.value];
      i := i + 1;
    }
    assert inputValues[..i] == inputValues;
  }

  // ---------------------------------------------------------------------
  // The inventory
  // ---------------------------------------------------------------------

  /** The hash literal `to_hash` returns. */
  function Document(addresses: seq<string>, vars: map<string, Value>, hostvars: map<string, Value>): (doc: Value)
  {
    Hash(map["all" := Hash(map["hosts" := StrList(addresses), "vars" := Hash(vars)]),
             "_meta" := Hash(map["hostvars" := Hash(hostvars)])])
  }

  /** `to_hash`: a single "all" group plus the per-host variables under "_meta". */
  method ToHash(env: Collaborators, hosts: seq<Host>, templateInvocation: TemplateInvocation)
    returns (inventory: Value)
    ensures HashWithKeys(Dig(inventory, []), {"all", "_meta"})
    ensures HashWithKeys(Dig(inventory, ["all"]), {"hosts", "vars"})
    ensures HashWithKeys(Dig(inventory, ["_meta"]), {"hostvars"})
    ensures Dig(inventory, ["all", "hosts"]) == Some(StrList(HostAddresses(env, hosts)))
    ensures Dig(inventory, ["all", "vars"]) == Some(Hash(TemplateVarsOf(templateInvocation.inputValues)))
    ensures Dig(inventory, ["_meta", "hostvars"]) == Some(Hash(HostsVarsOf(env, hosts)))
  {
    var addresses := HostAddresses(env, hosts);
    var vars := TemplateInputs(templateInvocation);
    var hostvars := HostsVars(env, hosts);
    inventory := Document(addresses, vars, hostvars);
    DocumentLayout(addresses, vars, hostvars);
  }

  // ---------------------------------------------------------------------
  // Lemmas
  // ---------------------------------------------------------------------

  /** The pattern is unanchored: "ansible_" anywhere in a key matches. */
  lemma AnsiblePatternAnywhere(prefix: string, suffix: string)
    ensures MatchesAnsible(prefix + AnsiblePattern + suffix)
  {
    var key := prefix + AnsiblePattern + suffix;
    assert key[|prefix|..|prefix| + |AnsiblePattern|] == AnsiblePattern;
    assert OccursAt(key, |prefix|);
  }

  /** Conversely, a key that matches splits around an occurrence of "ansible_". */
  lemma AnsiblePatternSplits(key: string) returns (prefix: string, suffix: string)
    requires MatchesAnsible(key)
    ensures key == prefix + AnsiblePattern + suffix
  {
    var i :| 0 <= i <= |key| && OccursAt(key, i);
    assert i + |AnsiblePattern| <= |key| && key[i..i + |AnsiblePattern|] == AnsiblePattern;
    prefix, suffix := key[..i], key[i + |AnsiblePattern|..];
    assert key == key[..i] + key[i..i + |AnsiblePattern|] + key[i + |AnsiblePattern|..];
  }

  /** Every connection-setting key matches /ansible_/, so a host parameter of that name is always an extra option. */
  lemma SettingKeysMatch()
    ensures forall k :: k in AnsibleSettingKeys ==> MatchesAnsible(k)
  {
    forall k | k in AnsibleSettingKeys
      ensures OccursAt(k, 0)
    {
      assert k[..|AnsiblePattern|] == AnsiblePattern;
    }
  }

  lemma SettingKeysAreNotAliases()
    ensures forall k :: k in AnsibleSettingKeys ==> k !in SshAliasKeys
  {
  }

  lemma SettingKeysCount()
    ensures |AnsibleSettingKeys| == 7
  {
  }

  lemma SettingKeysFromNames()
    ensures (set n | n in AnsibleSettingNames) == AnsibleSettingKeys
  {
  }

  /** `ansible_settings` has exactly the seven connection keys, each bound to its setting, nil ones included. */
  lemma AnsibleSettingsContents(env: Collaborators)
    ensures AnsibleSettings(env).Keys == AnsibleSettingKeys
    ensures |AnsibleSettings(env)| == 7
    ensures forall k :: k in AnsibleSettings(env) ==> AnsibleSettings(env)[k] == env.setting(k)
  {
    SettingKeysFromNames();
    SettingKeysCount();
  }

  /** The keys of `connection_params`: the settings, the extra options and the two Ansible 1.x keys. */
  lemma ConnectionParamsKeys(env: Collaborators, host: Host)
    ensures ConnectionParamsOf(env, host).Keys
            == AnsibleSettingKeys + AnsibleExtraOptions(env, host).Keys + SshAliasKeys
  {
    AnsibleSettingsContents(env);
  }

  /** ansible_ssh_port and ansible_ssh_user always copy the final ansible_port and ansible_user. */
  lemma ConnectionParamsSshAliases(env: Collaborators, host: Host)
    ensures var params := ConnectionParamsOf(env, host);
      && "ansible_port" in params && "ansible_user" in params
      && params["ansible_ssh_port"] == params["ansible_port"]
      && params["ansible_ssh_user"] == params["ansible_user"]
  {
    ConnectionParamsKeys(env, host);
  }

  /**
   A host parameter wins over the global setting of the same name; every
   other extra option is passed through unchanged.
   */
  lemma ConnectionParamsPrecedence(env: Collaborators, host: Host)
    ensures forall k :: k in AnsibleSettingKeys ==>
      && k in ConnectionParamsOf(env, host)
      && ConnectionParamsOf(env, host)[k] == if k in host.hostParams then host.hostParams[k] else env.setting(k)
    ensures forall k :: k in AnsibleExtraOptions(env, host) && k !in SshAliasKeys ==>
      k in ConnectionParamsOf(env, host) && ConnectionParamsOf(env, host)[k] == host.hostParams[k]
  {
    AnsibleSettingsContents(env);
    SettingKeysMatch();
    SettingKeysAreNotAliases();
  }

  /** The keys of `host_vars`. */
  lemma HostVarsKeys(env: Collaborators, host: Host)
    ensures HostVarsOf(env, host).Keys
            == BaseKeys + ConnectionParamsOf(env, host).Keys
               + (if TopLevelVars(env) then host.hostParams.Keys else {})
  {
  }

  /**
   Precedence in `host_vars`: host parameters (only with top-level vars),
   then connection parameters, then the three base keys.
   */
  lemma HostVarsPrecedence(env: Collaborators, host: Host)
    ensures TopLevelVars(env) ==> forall k :: k in host.hostParams ==>
      k in HostVarsOf(env, host) && HostVarsOf(env, host)[k] == host.hostParams[k]
    ensures forall k :: k in ConnectionParamsOf(env, host) && !(TopLevelVars(env) && k in host.hostParams) ==>
      k in HostVarsOf(env, host) && HostVarsOf(env, host)[k] == ConnectionParamsOf(env, host)[k]
    ensures forall k :: k in BaseKeys && k !in ConnectionParamsOf(env, host) && !(TopLevelVars(env) && k in host.hostParams) ==>
      k in HostVarsOf(env, host) && HostVarsOf(env, host)[k] == BaseVars(env, host)[k]
  {
  }

  /** Without top-level vars, `host_vars` is exactly the base hash merged with the connection parameters. */
  lemma HostVarsWithoutTopLevelVars(env: Collaborators, host: Host)
    requires !TopLevelVars(env)
    ensures HostVarsOf(env, host) == Merge(BaseVars(env, host), ConnectionParamsOf(env, host))
  {
  }

  /** Where a reader of the Ansible inventory format finds each part of the document. */
  lemma DocumentLayout(addresses: seq<string>, vars: map<string, Value>, hostvars: map<string, Value>)
    ensures var doc := Document(addresses, vars, hostvars);
      && HashWithKeys(Dig(doc, []), {"all", "_meta"})
      && HashWithKeys(Dig(doc, ["all"]), {"hosts", "vars"})
      && HashWithKeys(Dig(doc, ["_meta"]), {"hostvars"})
      && Dig(doc, ["all", "hosts"]) == Some(StrList(addresses))
      && Dig(doc, ["all", "vars"]) == Some(Hash(vars))
      && Dig(doc, ["_meta", "hostvars"]) == Some(Hash(hostvars))
  {
  }

  /**
   `hosts_vars` has one entry per distinct address, and the last host with
   an address decides its value.
   */
  lemma HostsVarsContents(env: Collaborators, hosts: seq<Host>)
    ensures HostsVarsOf(env, hosts).Keys == set h | h in hosts :: env.findIpOrHostname(h)
    ensures forall j :: 0 <= j < |hosts| && LastWithKey(hosts, env.findIpOrHostname, j) ==>
      && env.findIpOrHostname(hosts[j]) in HostsVarsOf(env, hosts)
      && HostsVarsOf(env, hosts)[env.findIpOrHostname(hosts[j])] == Hash(HostVarsOf(env, hosts[j]))
  {
    forall j | 0 <= j < |hosts| && LastWithKey(hosts, env.findIpOrHostname, j)
      ensures HostsVarsOf(env, hosts)[env.findIpOrHostname(hosts[j])] == Hash(HostVarsOf(env, hosts[j]))
    {
      LastWriteWins(hosts, env.findIpOrHostname, HostVarsEntry(env), j);
    }
  }

  /**
   `template_inputs` has one entry per distinct input name, and the last
   input with a name decides its value.
   */
  lemma TemplateVarsContents(inputs: seq<InputValue>)
    ensures TemplateVarsOf(inputs).Keys == set input | input in inputs :: input.templateInput.name
    ensures forall j :: 0 <= j < |inputs| && LastWithKey(inputs, InputName, j) ==>
      && inputs[j].templateInput.name in TemplateVarsOf(inputs)
      && TemplateVarsOf(inputs)[inputs[j].templateInput.name] == inputs[j].value
  {
    forall j | 0 <= j < |inputs| && LastWithKey(inputs, InputName, j)
      ensures TemplateVarsOf(inputs)[inputs[j].templateInput.name] == inputs[j].value
    {
      LastWriteWins(inputs, InputName, InputValueOf, j);
    }
  }

  /** Every address listed under "all" has an entry under "_meta" and vice versa. */
  lemma HostsListMatchesHostvars(env: Collaborators, hosts: seq<Host>)
    ensures (set a | a in HostAddresses(env, hosts)) == HostsVarsOf(env, hosts).Keys
  {
    HostsVarsContents(env, hosts);
    var addresses := HostAddresses(env, hosts);
    forall a | a in addresses ensures a in HostsVarsOf(env, hosts).Keys {
      var i :| 0 <= i < |addresses| && addresses[i] == a;
      assert hosts[i] in hosts;
    }
    forall a | a in HostsVarsOf(env, hosts).Keys ensures a in addresses {
      var h :| h in hosts && env.findIpOrHostname(h) == a;
      var i :| 0 <= i < |hosts| && hosts[i] == h;
      assert addresses[i] == a;
    }
  }

  /** Without top-level vars, the Ansible 1.x keys of every host agree with the final port and user. */
  lemma SshAliasesWithoutTopLevelVars(env: Collaborators, host: Host)
    requires !TopLevelVars(env)
    ensures var vars := HostVarsOf(env, host);
      && "ansible_port" in vars && "ansible_ssh_port" in vars && "ansible_user" in vars && "ansible_ssh_user" in vars
      && vars["ansible_ssh_port"] == vars["ansible_port"]
      && vars["ansible_ssh_user"] == vars["ansible_user"]
  {
    ConnectionParamsKeys(env, host);
    ConnectionParamsSshAliases(env, host);
  }

  /**
   With top-level vars, a host parameter named ansible_ssh_port is merged
   after the compatibility copy and so can differ from the final port.
   */
  lemma TopLevelVarsOverrideSshPort(env: Collaborators, host: Host)
    requires TopLevelVars(env)
    requires "ansible_ssh_port" in host.hostParams && "ansible_port" !in host.hostParams
    requires host.hostParams["ansible_ssh_port"] != env.setting("ansible_port")
    ensures var vars := HostVarsOf(env, host);
      && "ansible_port" in vars && "ansible_ssh_port" in vars
      && vars["ansible_ssh_port"] == host.hostParams["ansible_ssh_port"]
      && vars["ansible_port"] == env.setting("ansible_port")
      && vars["ansible_ssh_port"] != vars["ansible_port"]
  {
    ConnectionParamsKeys(env, host);
    ConnectionParamsPrecedence(env, host);
  }

  /**
   One host at 10.0.0.5 whose only parameter is ansible_user = "deploy",
   with the global ansible_port setting 22.
   */
  lemma SingleHostExample(env: Collaborators, host: Host)
    requires env.findIpOrHostname(host) == "10.0.0.5"
    requires host.hostParams == map["ansible_user" := Str("deploy")]
    requires env.setting("ansible_port") == Int(22)
    ensures "10.0.0.5" in HostsVarsOf(env, [host])
    ensures var vars := HostVarsOf(env, host);
      && HostsVarsOf(env, [host])["10.0.0.5"] == Hash(vars)
      && "ansible_user" in vars && "ansible_ssh_user" in vars && "ansible_port" in vars && "ansible_ssh_port" in vars
      && vars["ansible_user"] == Str("deploy") && vars["ansible_ssh_user"] == Str("deploy")
      && vars["ansible_port"] == Int(22) && vars["ansible_ssh_port"] == Int(22)
  {
    HostsVarsContents(env, [host]);
    ConnectionParamsKeys(env, host);
    ConnectionParamsSshAliases(env, host);
    ConnectionParamsPrecedence(env, host);
    HostVarsPrecedence(env, host);
  }
}
