# ForemanAnsible inventory builder in Dafny

`ForemanAnsible::InventoryCreator` turns a list of Foreman hosts and a job
template invocation into an Ansible dynamic inventory:

    { "all"   => { "hosts" => [address, ...], "vars" => { input name => value } },
      "_meta" => { "hostvars" => { address => host vars } } }

It does little work of its own. It asks its collaborators for each host's
address, for global settings and for the rendered host attributes. Then it
merges their answers into hashes in a fixed order of precedence. This
project models all of that and proves the precedence rules, the key sets
and the last-write-wins behaviour of its two folds.

- `ruby_values.dfy` (module `RubyValues`) models the Ruby values an
  inventory is made of. A Ruby hash is a `map<string, Value>`. It also
  gives the hash operations the builder uses:
  - `hash[key]`, where a missing key gives nil;
  - `merge`, where the right-hand side wins;
  - Ruby truthiness;
  - `UpdateFold`: the "write one entry per element, in order" fold that
    both `reduce`/`update` and `each_with_object` with `[]=` perform.

  The builder never calls `dig`. `Dig` is there only so that contracts can
  say where each part of the finished document sits.
- `inventory_creator.dfy` (module `InventoryCreator`) holds one member per
  method of the class.
  - The expression-only methods are functions: `to_hash`'s address list,
    `host_roles`, `ansible_settings` and `ansible_extra_options`.
  - The methods that update a hash in place or reassign a local are Dafny
    methods: `hosts_vars`, `template_inputs`, `connection_params` and
    `host_vars`. Each is proved equal to a specification function named
    `...Of`, and the properties are lemmas about those functions.

The collaborators are fields of the `Collaborators` datatype:
- `findIpOrHostname` for `RemoteExecutionProvider.find_ip_or_hostname`;
- `setting` for `Setting[...]`, with `Nil` for nil;
- `renderRabl` for `Rabl.render(..., :format => 'hash')`.

## Model

| member | source | states |
|---|---|---|
| RubyValues.Merge | app/services/foreman_ansible/inventory_creator.rb:50 | `a.merge(b)` has the keys of both hashes; on a clash the value from `b` wins, otherwise the value from `a` is kept |
| RubyValues.UpdateFold | app/services/foreman_ansible/inventory_creator.rb:29-35 | folding hash updates over a list yields exactly one key per distinct key of the elements |
| RubyValues.LastWriteWins | app/services/foreman_ansible/inventory_creator.rb:29-35 | for every key, the folded hash holds the value written by the last element with that key |
| InventoryCreator.HostAddresses | app/services/foreman_ansible/inventory_creator.rb:20-22 | the address list has one entry per host, in host order, duplicates kept; entry i is the address of host i |
| InventoryCreator.RoleNames | app/services/foreman_ansible/inventory_creator.rb:57-59 | `host_roles` (`all_ansible_roles.map(&:name)`) keeps the length and order of the roles; entry i is the name of role i |
| InventoryCreator.SettingsHash | app/services/foreman_ansible/inventory_creator.rb:70-76 | `Hash[...]` over setting names has exactly those names as keys, each bound to its setting value |
| InventoryCreator.SettingKeysCount | app/services/foreman_ansible/inventory_creator.rb:71-73 | the seven setting suffixes give seven distinct keys |
| InventoryCreator.AnsibleSettingsContents | app/services/foreman_ansible/inventory_creator.rb:69-77 | `ansible_settings` has exactly the seven `ansible_*` keys, each bound to `Setting[key]`, nil included |
| InventoryCreator.AnsibleExtraOptions | app/services/foreman_ansible/inventory_creator.rb:79-83 | a host parameter is kept iff its key matches /ansible_/ or its setting is truthy; kept values are unchanged |
| InventoryCreator.AnsiblePatternAnywhere | app/services/foreman_ansible/inventory_creator.rb:81 | the pattern is unanchored: any key containing "ansible_" matches |
| InventoryCreator.AnsiblePatternSplits | app/services/foreman_ansible/inventory_creator.rb:81 | conversely, every matching key is some prefix, then "ansible_", then some suffix |
| InventoryCreator.SettingKeysMatch | app/services/foreman_ansible/inventory_creator.rb:74-81 | every setting key matches /ansible_/, so a host parameter of that name is always an extra option |
| InventoryCreator.ConnectionParams | app/services/foreman_ansible/inventory_creator.rb:49-55 | the in-place merge and the two writes produce the specified connection parameters |
| InventoryCreator.ConnectionParamsKeys | app/services/foreman_ansible/inventory_creator.rb:49-55 | the keys are the seven settings, the host's extra options and `ansible_ssh_port`/`ansible_ssh_user` |
| InventoryCreator.ConnectionParamsSshAliases | app/services/foreman_ansible/inventory_creator.rb:51-53 | `ansible_ssh_port` equals the final `ansible_port` and `ansible_ssh_user` equals the final `ansible_user`, whatever the host parameters say |
| InventoryCreator.ConnectionParamsPrecedence | app/services/foreman_ansible/inventory_creator.rb:50 | for each setting key, the host parameter wins if present, otherwise the setting's value; every other extra option except the two ssh keys passes through unchanged |
| InventoryCreator.HostVars | app/services/foreman_ansible/inventory_creator.rb:37-47 | the method's conditional reassignment produces the specified host vars |
| InventoryCreator.HostVarsKeys | app/services/foreman_ansible/inventory_creator.rb:38-46 | the keys are the three base keys, the connection keys and, with top-level vars, every host parameter |
| InventoryCreator.HostVarsPrecedence | app/services/foreman_ansible/inventory_creator.rb:38-46 | host parameters (top-level vars only) beat connection parameters, which beat the three base keys |
| InventoryCreator.HostVarsWithoutTopLevelVars | app/services/foreman_ansible/inventory_creator.rb:43-46 | with the flag off, host vars are exactly the base hash merged with the connection parameters |
| InventoryCreator.SshAliasesWithoutTopLevelVars | app/services/foreman_ansible/inventory_creator.rb:43-53 | with the flag off, the host vars' ssh port and user agree with port and user |
| InventoryCreator.TopLevelVarsOverrideSshPort | app/services/foreman_ansible/inventory_creator.rb:43-53 | with the flag on, a host's own `ansible_ssh_port` survives and can differ from `ansible_port` |
| InventoryCreator.HostsVars | app/services/foreman_ansible/inventory_creator.rb:29-35 | the loop of in-place updates produces the specified hosts vars |
| InventoryCreator.HostsVarsContents | app/services/foreman_ansible/inventory_creator.rb:29-35 | the keys are exactly the hosts' addresses; the last host with an address supplies that address's host vars |
| InventoryCreator.TemplateInputs | app/services/foreman_ansible/inventory_creator.rb:85-91 | the `each_with_object` loop produces the specified input hash |
| InventoryCreator.TemplateVarsContents | app/services/foreman_ansible/inventory_creator.rb:85-91 | the keys are exactly the input names; the last input with a name supplies its value |
| InventoryCreator.ToHash | app/services/foreman_ansible/inventory_creator.rb:19-27 | the inventory has the `all`/`_meta` layout, with the address list, the input hash and the hosts vars in their places |
| InventoryCreator.DocumentLayout | app/services/foreman_ansible/inventory_creator.rb:24-26 | each part of the literal can be found under its `dig` path, and each level has exactly its keys |
| InventoryCreator.HostsListMatchesHostvars | app/services/foreman_ansible/inventory_creator.rb:19-35 | every address in `all.hosts` has a `_meta.hostvars` entry, and vice versa |
| InventoryCreator.SingleHostExample | app/services/foreman_ansible/inventory_creator.rb:37-55 | one host with `ansible_user = "deploy"` and the port setting 22 gets user, ssh user, port and ssh port deploy/deploy/22/22 under its address |

## Left out

- `Rabl.render` and `host_attributes` are renderer calls, modelled as the uninterpreted `renderRabl` field. The model says nothing about the rendered hash.
- `find_ip_or_hostname` is address resolution in another plugin. It is a function field, so both calls see the same address for a host.
- `Setting[...]` is a database-backed store, modelled as the read-only snapshot `setting`. Changes to settings during a run are not modelled.
- Ruby hashes keep insertion order; maps do not. The model says nothing about key order in the produced hashes.
- `/ansible_/.match(key)` is modelled as "contains the substring `ansible_`". No other regex behaviour is involved.
- The constructor and the `hosts` reader become the `hosts` and `templateInvocation` parameters of `ToHash`.
- Hosts, roles and template inputs are plain records, not ActiveRecord objects. `host_params` and `host_attributes` have no contract of their own.
- `require 'securerandom'` is unused. Turning the hash into JSON or YAML happens outside this class.
- Collaborator failures and nil inputs are not modelled. In Ruby, an exception from `find_ip_or_hostname`, `Setting[...]` or `Rabl.render` propagates out of `to_hash`, and a nil template invocation raises `NoMethodError`. In the model every collaborator is a total function and every record is present, so the model covers only runs in which every collaborator returns.
- `ansible_ssh_port` is not always equal to `ansible_port` in the final host vars. The compatibility copy in `connection_params` (:51-53) runs before `host_vars` merges the host parameters on top (:43-44). So with `top_level_ansible_vars` on, a host's own `ansible_ssh_port` survives. `TopLevelVarsOverrideSshPort` exhibits the case, and `SshAliasesWithoutTopLevelVars` proves equality when the flag is off.
