# Ansible dynamic inventory builder, modelled in Dafny

This project models the core of `inventory`, a tool that lists EC2 instances across AWS accounts.
By default it prints them as a tab-separated table (src/bin/inventory/main.rs:61-96). Its `--ansible`
mode builds an Ansible dynamic-inventory JSON document, but `ansible_inventory` as written never calls
`add_group`, `add_group_var` or `add_host`: it binds each instance's `host` and does nothing with it
(main.rs:142-146), so it prints the unchanged `new()` document (main.rs:150). The model covers two
parts of the tool:

- **The inventory builder** (`src/ansible.rs`) is the `Inventory` struct. It holds one JSON document
  and changes it in place:
  - `new` builds the minimum valid document;
  - `add_group` inserts a group if its name is not a top-level key yet, and lists it under
    `all.children`;
  - `add_group_var` ensures the group exists, then sets one var;
  - `add_host` ensures the target group (by default `ungrouped`) exists, creates its `hosts` array
    on first use, and pushes an entry onto it.
- **Two pure helpers** come from `src/aws.rs`. `Arn::make_string` formats an IAM role ARN.
  `extract_tag_by_key` returns the value of the first EC2 tag that has a given key.

Files:

- `wrappers.dfy`: `Option`.
- `ansible.dfy`, module `Ansible`:
  - a typed model of the document: `Document`, `Group` and `Json`;
  - `Invariant`, the shape the builder keeps;
  - one function per operation: `Empty`, `WithGroup`, `WithGroupVar` and `WithHostEntry`;
  - lemmas about those functions;
  - the class `Inventory`. Its methods change its fields in place. Each method's contract ties the
    new document to the function that describes it.
- `ansible_examples.dfy`, module `AnsibleExamples`: the expected documents of the unit tests in
  `src/ansible.rs`, stated as lemmas, and three client methods that drive `Inventory`.
- `aws.dfy`, module `Aws`: `MakeArn` with its inverse `ParseRoleArn`, and `ExtractTagByKey`.

How the document is modelled:

- In the source, the document is an untyped `serde_json::Value`. Here it is `Document(entries,
  hostvars)`.
- `entries` maps every top-level key to the object stored under it, including `_meta`. The source
  looks every name up in that one object, so `add_group("_meta")` and `add_group("all")` find an
  existing key and do nothing. No reserved-name validation is added.
- `hostvars` is the one member of `_meta` that no group has.
- A member that a JSON object may lack is an `Option`:
  - `all` and `ungrouped` start without `vars`. `add_group_var` creates `vars` on first use, because
    `serde_json` turns an indexed `Null` into an empty object.
  - No group has `hosts` until `add_host` first targets it.
  - `_meta` has no `children`.
- `add_group` asserts that `all.children` is an array (line 55), and `add_host` asserts that the
  target's `hosts` is an array (line 83). In this typed model the second assertion always holds.
  The first is the `WellShaped` precondition of the document functions.

## Model

| member | source | states |
|---|---|---|
| `Ansible.Empty` | src/ansible.rs:23-40 | The new document satisfies the invariant. Its only top-level keys are `_meta`, `all` and `ungrouped`. `all.children` is `["ungrouped"]`, no entry has `vars` or `hosts`, and `hostvars` is empty. This pins the `EMPTY` fixture of lines 211-228. |
| `Ansible.WithGroup` | src/ansible.rs:43-60 | If the name is already a key, the document is unchanged, including that group's children, vars and hosts. Otherwise the name gets `{children: [], vars: {}}` and is appended once, at the end of `all.children`. No other entry changes, and `hostvars` is untouched. |
| `Ansible.WithGroupVar` | src/ansible.rs:63-69 | The result equals `add_group(group)` followed by `vars[key] := value`. The group ends up with `vars`, and `key` maps to `value`. Every other key of that group's vars, the group's children and hosts, all other entries and `hostvars` are unchanged. |
| `Ansible.Target` | src/ansible.rs:76 | With no group given, `add_host` targets `ungrouped`. Otherwise it targets the group given. |
| `Ansible.WithHostEntry` | src/ansible.rs:75-87 | `add_host` with the pushed string as a parameter. The target group is added if absent. Its `hosts` becomes its old hosts (empty if absent) plus exactly one entry at the end. Its children and vars, all other entries and `hostvars` are unchanged. |
| `Ansible.WithGroups` | src/ansible.rs:106-111 | A run of `add_group` calls, one after the other, keeps `all.children` an array and leaves `hostvars` unchanged. |
| `Ansible.WithGroupPreservesInvariant` | src/ansible.rs:43-60 | `add_group` keeps the invariant. The reserved keys stay present. `all.children` starts with `ungrouped`, has no duplicates, and lists exactly the groups other than `all` and `_meta`. |
| `Ansible.WithGroupVarPreservesInvariant` | src/ansible.rs:63-69 | `add_group_var` keeps the invariant. |
| `Ansible.WithHostEntryPreservesInvariant` | src/ansible.rs:75-88 | `add_host` keeps the invariant, whatever entry it pushes. |
| `Ansible.WithGroupsPreservesInvariant` | src/ansible.rs:43-60 | Any run of `add_group` calls keeps the invariant. |
| `Ansible.WithGroupsKeys` | src/ansible.rs:45-52 | After any run of `add_group` calls, the top-level keys are the old keys plus the added names. |
| `Ansible.WithGroupsExtendsChildren` | src/ansible.rs:54-59 | After any run of `add_group` calls, `all.children` is the old list followed by the names that were not yet keys. Each such name appears once, in the order of its first occurrence. |
| `Ansible.FirstOccurrencesDistinct` | src/ansible.rs:127-132 | The first-occurrence list has no duplicates. A name is in it exactly when the name was added and was not already present. |
| `Ansible.NewThenGroups` | src/ansible.rs:106-143 | Start from `new()` and make any run of `add_group` calls. `all.children` is then `ungrouped` followed by the added names in first-occurrence order, with no duplicates. Every added name other than `_meta` and `all` is listed. |
| `Ansible.GroupVarOverwrites` | src/ansible.rs:68 | A second `add_group_var` with the same group and key replaces the first value. The result is the same as making only the second call. |
| `Ansible.GroupVarListedOnce` | src/ansible.rs:145-190 | After `add_group_var`, the invariant holds. `all.children` is what `add_group` alone gives, and it lists the group exactly once (lines 174-179). |
| `Ansible.DefaultHostKeepsGroups` | src/ansible.rs:76-78 | `add_host(None, _)` on a valid document leaves the keys, `all.children` and every entry other than `ungrouped` unchanged. `ungrouped.hosts` grows by one entry at the end, and `ungrouped`'s vars stay as they were. |
| `Ansible.Inventory.constructor` | src/ansible.rs:23-40 | The builder starts valid, holding the `new()` document. |
| `Ansible.Inventory.AddGroup` | src/ansible.rs:43-60 | Updates the fields in place. The new document is `WithGroup` of the old one, and the invariant is kept. |
| `Ansible.Inventory.AddGroupVar` | src/ansible.rs:63-69 | Calls `AddGroup`, then sets the var in place. The new document is `WithGroupVar` of the old one, and the invariant is kept. |
| `Ansible.Inventory.PushHost` | src/ansible.rs:75-87 | The body of `add_host` with the pushed string as a parameter. It adds the group, creates `hosts` if absent, then pushes. The new document is `WithHostEntry` of the old one. |
| `Ansible.Inventory.AddHostAsWritten` | src/ansible.rs:75-88 | `add_host` as written. Whatever host it is given, it pushes the placeholder `"host"`. |
| `Ansible.Inventory.AddHost` | src/ansible.rs:75-88 | `add_host` as intended. It pushes the host it is given onto the target group's `hosts`. |
| `AnsibleExamples.AddGroupFixture` | src/ansible.rs:106-143 | `add_group` of foo, baz, foo on a new inventory gives the expected document. `all.children` is `["ungrouped","foo","baz"]`, and foo and baz are each `{children: [], vars: {}}`. |
| `AnsibleExamples.GroupVarFixtureCreates` | src/ansible.rs:146-149 | The first two `add_group_var` calls of `test_add_group_var` each create their group and set one var. |
| `AnsibleExamples.GroupVarFixtureExtends` | src/ansible.rs:150-152 | The last three calls add vars to groups that already exist. Earlier vars stay. |
| `AnsibleExamples.AddGroupVarFixture` | src/ansible.rs:145-190 | The five calls of `test_add_group_var` give the expected document. foo's vars are no/in/champagne, baz's vars are hello/favorite, and `all.children` is `["ungrouped","foo","baz"]`. |
| `AnsibleExamples.HostPlaceholderCounterexample` | src/ansible.rs:87 | The as-written push on a new inventory leaves `ungrouped.hosts == ["host"]`, not `["web1"]`. |
| `AnsibleExamples.AddHostScenario` | src/ansible.rs:75-88 | With the host pushed as intended, `add_host(None, "web1")` then `add_host(Some("db"), "db1")` give these results. `ungrouped.hosts` is `["web1"]`, `db.hosts` is `["db1"]`, and `all.children` is `["ungrouped","db"]`. |
| `AnsibleExamples.AddGroupClient` | src/ansible.rs:106-143 | `test_add_group` through the `Inventory` methods. Their contracts alone give `all.children == ["ungrouped","foo","baz"]`, with foo and baz each `{children: [], vars: {}}`. |
| `AnsibleExamples.AddHostClient` | src/ansible.rs:75-88 | The corrected `add_host` through the `Inventory` methods. `db.hosts` keeps `db1` before `db2`, `ungrouped.hosts` is `["web1"]`, and `all.children` is `["ungrouped","db"]`. |
| `AnsibleExamples.AddHostAsWrittenClient` | src/ansible.rs:87 | `AddHostAsWritten(None, "web1")` on a new `Inventory` leaves `ungrouped.hosts == ["host"]`. |
| `Aws.MakeArn` | src/aws.rs:10-12 | The ARN is the `arn:aws:iam::` prefix, then the account, then `:role/`, then the role. The contract states the length and where each of the four parts sits, for every account and role. |
| `Aws.ArnRoundTrip` | src/aws.rs:10-12 | If the account has no `:`, parsing the built ARN gives back exactly that account and role. |
| `Aws.ParsedArnRebuilds` | src/aws.rs:10-12 | Any string that parses as a role ARN is `make_string` of the account and role it parses to. |
| `Aws.ArnInjective` | src/aws.rs:10-12 | Two colon-free accounts build the same ARN only if the accounts are equal and the roles are equal. |
| `Aws.ExtractTagByKey` | src/aws.rs:92-107 | With no tags, the result is `None`. If no tag's key is `key`, the result is `None`. Otherwise the result is the value of the first tag whose key is `Some(key)`. That value may be `None`, and then the search stops there. Tags with no key or another key are skipped. |
| `Aws.ExtractTagIgnoresLater` | src/aws.rs:95-99 | Once a tag with the key has been seen, appending more tags does not change the result. |

## Left out

- `Inventory::to_string` (src/ansible.rs:92-94) calls `serde_json` to produce text. The document is modelled structurally instead. The tests compare parsed values, so key order does not matter.
- `add_group_vars`, `add_group_child` and `add_host_var` are only comments in the source (src/ansible.rs:71-73, 90). Nothing writes `_meta.hostvars` after `new`, and every function's contract says it is unchanged.
- `test_add_host` (src/ansible.rs:192-210) declares an expected string but asserts nothing, so it has no counterpart here.
- Var values are `Json`, whose numbers are integers. Floating-point JSON numbers are not modelled.
- The panics of the `assert!` calls at src/ansible.rs:55 and 83 are not modelled. In the typed model the line-83 assertion cannot fail. The line-55 assertion is the `WellShaped` precondition, and `Invariant` implies it for every document the builder produces.
- `Aws.ArnRoundTrip`: the round trip holds only for accounts without `:`. AWS account ids are digits, and `make_string` itself accepts any string.
- `credentials_provider`, `get_vpcs` and `get_ec2_instances` (src/aws.rs:15-90) make STS and EC2 calls over the network through the rusoto SDK.
- `AwsError`, its `From` impls, `src/error.rs` and `src/config.rs` are error plumbing, TOML parsing and environment lookups.
- `src/bin/inventory/main.rs` is left out. It covers CLI parsing, table printing, the embedded Tcl interpreter and filesystem calls.

## Findings

| source | as written | input that shows it | evidently intended | confidence | as-written member | corrected member |
|---|---|---|---|---|---|---|
| src/ansible.rs:87 | `add_host` pushes the literal string `"host"`, whatever its `host` argument is | `add_host(None, "web1")` on `new()` leaves `ungrouped.hosts == ["host"]` | push the `host` argument, so `ungrouped.hosts == ["web1"]` | high; not executed | `AnsibleExamples.HostPlaceholderCounterexample` | `AnsibleExamples.AddHostScenario` |

The as-written behaviour is `Ansible.Inventory.AddHostAsWritten`, and `AnsibleExamples.AddHostAsWrittenClient` shows the counterexample through it. The corrected one is
`Ansible.Inventory.AddHost`. Both call `PushHost`, so they differ only in the string they push.
The defect cannot be reached from the command line as written, because `ansible_inventory` never
calls `add_host` (src/bin/inventory/main.rs:142-146).
