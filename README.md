# fuoco, modelled in Dafny

fuoco is a command line tool that deploys a throw-away virtual machine on AWS,
GCP or Hetzner through a Terraform template and tears it down again when the
user presses Ctrl+C or sends SIGTERM. This project models the logic of
`src/main.rs` that does not depend on the outside world, and proves
properties of it:

- the parser of `--inbound-rule protocol:port` arguments, including Rust's
  `u16` parsing rules (module `InboundRules`);
- the per-provider defaults: the provider's name, its default instance type,
  its fixed region list and the random choice of a region (module
  `Providers`);
- the template path `<manifest>/templates/<provider>/main.tf` and the path
  operations it uses (module `Paths`);
- the compact JSON text of the inbound rule list (module `Json`);
- the variable maps sent to the provisioning engine for deploy and for
  undeploy (module `VarMaps`);
- the deploy and undeploy control flow, as a sequential state machine over
  the host (module `Lifecycle`). The host's state is the set of cached engine
  workspaces on disk plus a ghost log of engine calls with apply and destroy
  counters. The answers of the engine, the removal of a directory and the
  installation of the signal listener are nondeterministic.

`Wrappers` holds the `Option`, `Result` and `Outcome` datatypes used
throughout.

Two kinds of randomness and I/O are parameters rather than behaviour:

- the random region is a nondeterministic pick from the provider's list;
- the values of `CARGO_MANIFEST_DIR` and of the temporary directory, and the
  SHA-256 hex digest, are fields of `Lifecycle.Host`.

Two places where the code behaves differently from what one would expect,
modelled as the code is written:

- The teardown map is not always the applied map. The panic hook destroys
  with the map that apply received (`src/main.rs:359-360`), but the guard
  rebuilds the map when it is dropped (`src/main.rs:399`) instead of reusing
  the map given to apply (`src/main.rs:342-343`). Without `--region`, the
  rebuild draws a new random region.
  - `VarMaps.DeployMapRandomRegion` shows that two builds may differ.
  - `Lifecycle.TeardownMayDiffer` exhibits a deployment trace whose teardown
    map differs from its applied map.
  - `Lifecycle.TeardownVars` shows that the two maps agree on every other
    key, and on the region too when the user gave one.
- The command line help text names `t4g.nano` and `e2-micro` as the default
  instance types for AWS and GCP (`src/main.rs:34`, `src/main.rs:63`). The
  code uses `t3.micro` and `f1-micro`, and so does
  `Providers.DefaultInstanceType`.

## Model

| member | source | states |
|---|---|---|
| Providers.ProviderString | src/main.rs:271-275 | the provider's name is non-empty and has no `/`, so it is a single path component |
| Providers.ProviderStringInjective | src/main.rs:271-275 | two providers have the same name iff they are the same provider |
| Providers.DefaultInstanceType | src/main.rs:483-489 | every provider has a non-empty default instance type; its values are stated by DefaultInstanceTypes |
| Providers.DefaultInstanceTypes | src/main.rs:483-489 | the defaults are `t3.micro` for AWS, `f1-micro` for GCP and `cx11` for Hetzner |
| Providers.Regions | src/main.rs:406-459 | every provider's region list is non-empty |
| Providers.RegionCounts | src/main.rs:407-459 | the lists have 17 (AWS), 31 (GCP) and 5 (Hetzner) entries |
| Providers.RegionsOffer | src/main.rs:406-474 | each list holds two different names, so the drawn region is not determined by the provider |
| Providers.RegionsShaped | src/main.rs:407-459 | every name in a provider's list has that provider's shape (AWS: a dash before the last character; GCP: long and no dash there; Hetzner: at most four characters) |
| Providers.RegionListsDisjoint | src/main.rs:407-459 | no name occurs in the lists of two different providers |
| Providers.ResolveRandomRegion | src/main.rs:406-474 | the drawn region is always in the provider's own list; a pick always exists, so the `expect` calls never fail |
| Paths.PushText | src/main.rs:319-321 | pushing a component keeps the old text as a prefix and puts the component at the end; exactly one `/` is inserted between them iff the old text is non-empty and does not end in `/`, otherwise nothing is |
| Paths.Display | src/main.rs:334 | the text of a path starts with its base text and ends with its last component |
| Paths.Join | src/main.rs:336 | joining appends exactly one component, and the text of the result is the push of the component onto the old text |
| Paths.Parent | src/main.rs:329-332 | a parent exists iff the path has a component; joining the last component back onto the parent gives the path |
| Paths.TemplatePath | src/main.rs:315-323 | the error "CARGO_MANIFEST_DIR is not set" occurs iff looking the variable up fails (it is unset, or its value is not valid Unicode); otherwise the path is the manifest directory followed by `templates`, the provider's name and `main.tf` |
| Paths.TemplatePathParent | src/main.rs:315-332 | every template path has the parent directory `<manifest>/templates/<provider>` |
| Paths.TemplatePathSuffix | src/main.rs:315-323 | the text of every template path ends in `templates/<provider>/main.tf` |
| InboundRules.Split | src/main.rs:236 | `split(':')` gives one piece more than there are colons, no piece has a colon, and joining the pieces with colons gives the input back |
| InboundRules.SplitFirst | src/main.rs:236 | the text before the first colon is the first piece, and the rest is split on its own |
| InboundRules.ParseU16 | src/main.rs:241-243 | an accepted port text is non-empty, is not a lone `+`, has only ASCII digits apart from an optional leading `+`, and is an optional `+`, some zeros and the decimal text of the returned value |
| InboundRules.Decimal | src/main.rs:165-166 | the decimal text of a number is non-empty, all digits, and one digit long exactly below 10 |
| InboundRules.DecimalDigits | src/main.rs:165-166 | the decimal text does not start with `+` and reads back to the number |
| InboundRules.ZerosValue | src/main.rs:241-243 | leading zeros do not change the value of a digit text |
| InboundRules.DigitsCanonical | src/main.rs:241-243 | every non-empty digit text is some zeros followed by the decimal text of its value |
| InboundRules.ParseU16Digits | src/main.rs:241-243 | an optional `+`, any number of zeros and the decimal text of `n` parse to `n` iff `n` is below 65536, and are rejected otherwise; with ParseU16's contract and DigitsCanonical this is every accepted text |
| InboundRules.ParseU16Decimal | src/main.rs:241-243 | the decimal text of every value 0..65535 parses back to that value |
| InboundRules.ParseU16Rejects | src/main.rs:241-243 | the empty text, and any text containing `-`, a space, a tab or a newline, is rejected |
| InboundRules.ParseInboundRule | src/main.rs:232-249 | the format error occurs iff the input does not contain exactly one colon; every error is the format error or "Invalid port number"; on success the protocol is exactly the text before the colon and the port is the `u16` parse of the text after it |
| InboundRules.ParseInboundRuleAccepts | src/main.rs:235-247 | for a colon-free protocol and port text, `protocol:port` parses to that protocol and the parsed port, or fails with "Invalid port number" exactly when the port text does not parse |
| InboundRules.ParseInboundRuleRoundTrip | src/main.rs:235-247 | writing a rule with a colon-free protocol as `protocol:decimal(port)` and parsing it gives the rule back |
| InboundRules.DefaultInboundRules | src/main.rs:476-481 | the default rule list is exactly one rule, `tcp` on port 22 |
| Json.EscapeJson | src/main.rs:165-166 | escaping never shortens the text |
| Json.UnescapeFirst | src/main.rs:165-166 | a reference JSON string reader that the program never runs, against which the escaping is proved invertible: reading the first character of a string body consumes at least one and at most all of the characters |
| Json.UnescapeEscapeChar | src/main.rs:165-166 | reading back the escape of any one character gives that character and consumes exactly its escape |
| Json.UnescapeEscape | src/main.rs:165-166 | round trip: reading an escaped text back gives the text |
| Json.EscapeJsonInjective | src/main.rs:165-166 | two texts have the same escaped form iff they are equal |
| Json.HexRoundTrip | src/main.rs:165-166 | the hexadecimal digit written for a value below 16 reads back to that value |
| Json.EscapeJsonPlain | src/main.rs:165-166 | text without quotes, backslashes or control characters is written unchanged |
| Json.EscapeJsonNoControl | src/main.rs:165-166 | the escaped text holds no raw control character |
| Json.RuleJson | src/main.rs:165-166 | one rule is written as a JSON object, between `{` and `}` |
| Json.RuleListBody | src/main.rs:165-166 | the list body is empty iff there are no rules, and otherwise starts with `{` and ends with `}` |
| Json.RulesJson | src/main.rs:165-166 | the serialised rule list is a bracketed JSON array |
| Json.RuleJsonPlain | src/main.rs:165-166 | a rule with a plain protocol is written as `{"protocol":"<protocol>","port_number":<port>}` |
| Json.RulesJsonSingle | src/main.rs:165-166 | a one-rule list is that rule's object in brackets |
| Wrappers.Option.GetOr | src/main.rs:142-150 | `map_or` with a default: the held value when there is one, the default otherwise |
| VarMaps.RunDeployParams.ToAtarMap | src/main.rs:136-177 | the map has exactly the five deploy keys; each value is the supplied option, or else the provider's default instance type, a region from the provider's list, `""`, the JSON of the default rules, or `"none"` |
| VarMaps.DeployMapsAgreeOffRegion | src/main.rs:136-177 | two deploy maps for the same parameters agree on every key but the region, and are equal when they agree on the region |
| VarMaps.DeployMapFixedByRegion | src/main.rs:147-151 | with a region supplied, every build of the deploy map gives the same map, carrying that region |
| VarMaps.DeployMapRandomRegion | src/main.rs:147-151 | without a region, two different maps are both valid builds, and every valid build's region is from the provider's own list |
| VarMaps.DefaultRulesJson | src/main.rs:160-167 | the default rules are sent as `[{"protocol":"tcp","port_number":22}]` |
| VarMaps.DeployMapDefaults | src/main.rs:136-177 | with every option left out, the map holds the provider's default instance type, `""`, the default rules' JSON and `"none"` |
| VarMaps.RunUndeployParams.ToAtarMap | src/main.rs:202-215 | the undeploy map has exactly the keys `instance_type` (given or the provider's default) and `region` (verbatim) |
| VarMaps.UndeployMapDetermined | src/main.rs:202-215 | the undeploy map is a function of its parameters; `us-east-1` with `t3.micro` gives exactly those two entries |
| Lifecycle.ApplyTraceCounts | src/main.rs:342-383 | the engine calls from apply on hold one apply, and one destroy exactly when the apply succeeded |
| Lifecycle.DeployTraceCounts | src/main.rs:328-383 | a deployment's engine calls hold exactly one apply, no destroy after a failed apply, and exactly one destroy after a successful one |
| Lifecycle.TeardownVars | src/main.rs:342-343 | the teardown map agrees with the applied map on every key but the region, and on the region too when one was supplied |
| Lifecycle.TeardownMayDiffer | src/main.rs:397-404 | without a region, some deployment trace is torn down with a map other than the one it applied |
| Lifecycle.StaleWorkspaceGoneAtApply | src/main.rs:328-343 | invalidation comes before apply: the apply is the first event after at most one removal of the stale workspace, and when it starts the stale workspace is gone and every other cached workspace is in place |
| Lifecycle.DeployStopsEarly | src/main.rs:328-341 | a failed invalidation ends the deployment before apply, with no change to the workspaces or the log; a removal failure happens only on a cached workspace |
| Lifecycle.DeployCompose | src/main.rs:328-383 | a successful invalidation followed by apply and release is a deployment: its removal comes before the engine calls, and apply starts with the stale workspace gone |
| Lifecycle.Host.WorkspaceDir | src/main.rs:333-336 | the cached workspace is `<temp>/atar/<digest of the template directory's text>` |
| Lifecycle.Host.WorkspaceOf | src/main.rs:329-336 | a workspace exists to invalidate iff the template path has a parent directory |
| Lifecycle.Host.RemoveStaleWorkspace | src/main.rs:337-340 | a missing workspace is not an error and changes nothing; a present one is removed and the removal is logged; a failed removal gives "Failed to remove stale Terraform workspace" and changes nothing |
| Lifecycle.Host.Apply | src/main.rs:343 | one apply call is logged with its template, map, debug flag, the cached workspaces it starts over and its answer; the engine may change the cached workspaces |
| Lifecycle.Host.Destroy | src/main.rs:400 | one destroy call is logged with its template, map, debug flag and answer; the engine may change the cached workspaces |
| Lifecycle.Host.DropGuard | src/main.rs:397-404 | dropping the guard makes exactly one destroy call, with a freshly built deploy map, and never fails |
| Lifecycle.Host.InvalidateWorkspace | src/main.rs:328-341 | no parent directory gives "Cannot determine Terraform directory" and changes nothing; otherwise the stale workspace is removed as in RemoveStaleWorkspace |
| Lifecycle.Host.ApplyAndRelease | src/main.rs:342-383 | apply once; a failed apply returns its error with no destroy; after a successful apply, a failed signal setup ("Failed to set signal handler") and a returned wait each drop the guard, making exactly one destroy |
| Lifecycle.Host.RunDeploy | src/main.rs:325-384 | success exactly when the wait returned; each failure with its own message; a failure before apply changes nothing, and the removal error occurs only on a cached workspace; otherwise the removal (if any) precedes apply, apply starts with the stale workspace gone and the other cached workspaces in place, and the calls are one apply and, exactly when it succeeded, one destroy |
| Lifecycle.Host.RunUndeploy | src/main.rs:386-391 | exactly one destroy call with the undeploy map and no apply; its answer is returned unchanged |
| Lifecycle.Host.DeployCommand | src/main.rs:287 | the deploy arm makes at most one apply and one destroy, destroys only after it applied, and a successful deploy applied once and destroyed once |
| Lifecycle.Host.Run | src/main.rs:258-312 | a failed manifest directory lookup fails with "CARGO_MANIFEST_DIR is not set" and changes nothing; undeploy never applies and destroys once; deploy destroys only after it applied, and a successful deploy applied once and destroyed once |

## Left out

- Command line parsing and its help text (clap) are not modelled. `Lifecycle.Command` is the already-resolved subcommand.
- The `Debug` impls and every console print (parameters, outputs, progress messages, the final `Error:` line and exit code) are not modelled. They only write to the console.
- Lifecycle.DestroyGuard is a datatype holding the guard's fields; what its `Drop` does is `Lifecycle.Host.DropGuard`.
- The panic hook is not modelled. It destroys with the applied map, and unwinding then drops the guard, which destroys a second time. No exactly-once claim is made for the panic path.
- The signal listener thread and its channel are collapsed into one nondeterministic step. Either `Signals::new` fails, or the wait returns. The time spent waiting is not modelled.
- SHA-256 and its hex formatting are not modelled. `Lifecycle.Host.digest` is an arbitrary function of the template directory's text, so it is not proved that different template directories get different workspaces.
- The random draw is a nondeterministic choice from the provider's list. Uniformity is not modelled.
- `serde_json` is modelled by its compact output for this type. The output is an array of objects with the fields in declaration order and strings escaped as serde_json escapes them. Its `unwrap` cannot fail for this type.
- The environment variable `CARGO_MANIFEST_DIR` and `env::temp_dir()` are fields of `Lifecycle.Host`.
- `fs::remove_dir_all` either removes the whole workspace or fails and leaves it in place. Partial removal is not modelled, and neither are other directories under the temporary directory.
- Paths.Parent: only pushed components are stripped; a path with none has no parent in the model, while Rust's `Path::parent` would strip the base text's own last component (`/a/b` gives `/a`). So "Cannot determine Terraform directory" is reachable in the model for such paths, but from `run` it never is in the code, because the template path always has pushed components (`Paths.TemplatePathParent`).
- Paths are a base text plus pushed components. Pushing an absolute component, `..`, and `to_string_lossy` on non-UTF-8 paths are not modelled. The template path only ever pushes fixed relative names.
- The provisioning engine (`atar::deploy`, `atar::undeploy`) is external. Each call is logged, and its answer is nondeterministic. What it does to the cached workspaces under the temporary directory is unconstrained, so nothing is promised about the workspaces after apply. The engine's outputs are not interpreted.
- Lifecycle.Host.RunDeploy: nothing is stated about the cached workspaces after a deployment that reached apply, because the engine may recreate the workspace it was just cleared of. What is stated is the state when apply starts (`Lifecycle.StaleWorkspaceGoneAtApply`).
- Lifecycle.Host.Run: its contract states only the missing manifest directory and the call counts, including those of a successful deploy. The full behaviour of each subcommand is the contract of `Lifecycle.Host.RunDeploy` and `Lifecycle.Host.RunUndeploy`. Run reaches them with the template path from `Paths.TemplatePath`, through `Lifecycle.Host.DeployCommand` for deploy.
- Lifecycle.Host.DeployCommand: it returns `RunDeploy`'s result unchanged but forwards only the call counts of `RunDeploy`'s contract, not the exit, the messages or the log; those are stated by `Lifecycle.Host.RunDeploy`. Forwarding the whole deployment outcome makes `Run` too costly to verify.
