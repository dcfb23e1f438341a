# Wings Docker network set-up and HTTP middleware rules, in Dafny

This project models two parts of the Pterodactyl Wings daemon.

The first is the set-up of the daemon's Docker network (`environment/docker.go`). At start-up the daemon inspects the configured network. When Docker reports that the network is not found, the daemon creates it with driver-specific options and an IPAM configuration holding the IPv4 and the IPv6 subnet and gateway. It then writes the driver Docker reported back into the shared configuration. From that driver it derives the interface address and the `ISPN` flag, which is true for the multi-host drivers overlay and weavemesh.

The second is a set of decision rules in the HTTP middleware (`router/middleware/middleware.go`):
- how a filesystem error becomes an HTTP status and message;
- which status and message `RequestError.Abort` and `CaptureErrors` answer with;
- which origin the CORS headers allow;
- that OPTIONS requests end with 204.

Layout:
- `support.dfy` (module `Support`): `Option`, and Go's `strings.Contains`, `strings.HasSuffix` and `strconv.FormatBool`.
- `docker.dfy` (module `DockerNetwork`): the configuration section as a class whose fields the update closures assign in place. Snapshots of it are `NetworkSettings` values. `ConfigureDocker` and `createDockerNetwork` are methods proved against the specification functions `Reconcile`, `CreateRequest`, `AfterCreate` and `ObservedDriverApplied`.
- `middleware.dfy` (module `Middleware`): `RequestError` as a class with `SetStatus`, `SetMessage` and `Abort`. Filesystem-error classification is a function, with an ordered rule table as its reference. The CORS origin choice is a first-match loop proved against `FirstAllowed`.

Docker is an oracle. `inspect` maps a network name to the resource and the optional error that `NetworkInspect` returns together. `create` maps a create request to an optional error. A failure to construct the Docker client is the input `clientErr`. Requests sent to Docker are returned as values, so "create was never called" is a statement about the result.

## Behaviour as written

The code is modelled as written. These behaviours may be unexpected:
- On the create path, `ConfigureDocker` stores the driver of the resource that came back with the not-found error (environment/docker.go:41, 54). The Docker client returns an empty resource with that error. So a freshly created network is recorded with driver `""` and `ISPN` false. This holds even when an overlay network was created, for which the switch at environment/docker.go:59-63 would otherwise set `ISPN` true. The bridge gateway written after the create is kept. The lemma `CreatedNetworkRecordsInspectedDriver` states this.
- The three option blocks test the same driver string, so at most one of them applies. No merge of two blocks can happen.
- `Abort` answers with its `status` argument. `CaptureErrors` passes 500 when the writer status is 200, so a request whose deadline was exceeded gets status 500 with the timeout message. The 504 set by `SetStatus` is recorded in the error but never sent.
- The disk-space rule answers with the same message as the is-a-directory rule.
- `NewError` wraps the captured error with a stack trace before `asFilesystemError` sees it. A bare `*os.SyscallError` therefore fails the direct type assertion at router/middleware/middleware.go:137, and through `CaptureErrors` the readdirent rule never answers.

## Model

| member | source | states |
|---|---|---|
| `Support.Contains` | router/middleware/middleware.go:122-131 | `strings.Contains`: true exactly when the needle occurs at some index of the text. |
| `Support.HasSuffix` | router/middleware/middleware.go:134 | `strings.HasSuffix`: true exactly when the suffix occurs where the text ends, and then the text contains it. |
| `Support.FormatBool` | environment/docker.go:80 | `strconv.FormatBool`: always "true" or "false", and "true" exactly for true. |
| `DockerNetwork.ExpectedOptions` | environment/docker.go:75-94 | bridge gives exactly the seven keys with their values, including enable_icc = FormatBool(EnableICC) and mtu 1500. overlay gives exactly encryption "true" and mtu 9216. macvlan gives exactly `parent` = the configured interface. Encryption is set only for bridge and overlay. The map is empty exactly for every other driver. |
| `DockerNetwork.DriverOptions` | environment/docker.go:75-94 | Filling the map key by key through three independent driver tests yields exactly the reference table `ExpectedOptions`. |
| `DockerNetwork.CreateRequest` | environment/docker.go:96-110 | The request carries the configured name and driver. IPv6 is on and Internal = IsInternal. IPAM is exactly two entries, V4 first and V6 second. The options are those of `ExpectedOptions` for the configured driver, ICC flag and interface. |
| `DockerNetwork.AfterCreate` | environment/docker.go:115-119 | After a create, Interface becomes the IPv4 gateway exactly when the driver is not host, overlay, weavemesh or macvlan. Otherwise the configuration is unchanged. No other field changes. |
| `DockerNetwork.ObservedDriverApplied` | environment/docker.go:53-67 | Driver := the reported driver. host gives Interface 127.0.0.1 and ISPN false. overlay and weavemesh give Interface "" and ISPN true. Any other driver gives ISPN false with Interface kept. The result satisfies the driver/interface/ISPN invariant `Consistent`. Nothing else changes. |
| `DockerNetwork.ObservedDriverIdempotent` | environment/docker.go:53-67 | Applying the same reported driver twice equals applying it once. |
| `DockerNetwork.Reconcile` | environment/docker.go:33-68 | A client error is returned first, with nothing else done. The pass succeeds exactly when there is no client error and either inspect returns no error (the network exists) or inspect says not-found and create succeeds. Any returned error leaves the configuration unchanged. An inspect error other than not-found is returned and create is never called. Create is called exactly when inspect says not-found, with `CreateRequest` of the configuration, and its error is returned. On success the driver is the inspected resource's driver and `Consistent` holds. For drivers other than host, overlay and weavemesh, the interface is the V4 gateway when a locally scoped network was just created, and otherwise the previous interface. Only Driver, Interface and ISPN ever change. |
| `DockerNetwork.CreatedNetworkRecordsInspectedDriver` | environment/docker.go:41-54 | With the empty resource Docker returns beside not-found and a successful create, the pass succeeds and records driver "" with ISPN false. For an overlay request nothing else changes. For a bridge request the interface is the V4 gateway. |
| `DockerNetwork.NetworkConfiguration.UseGatewayAsInterface` | environment/docker.go:116-118 | Interface := Interfaces.V4.Gateway, in place. No other field changes. |
| `DockerNetwork.NetworkConfiguration.ApplyObservedDriver` | environment/docker.go:53-67 | The in-place update leaves the configuration equal to `ObservedDriverApplied` of its old value. |
| `DockerNetwork.CreateDockerNetwork` | environment/docker.go:72-121 | It sends `CreateRequest` of the current configuration and returns create's error. On error the configuration is unchanged. Otherwise it becomes `AfterCreate` of the old configuration. |
| `DockerNetwork.ConfigureDocker` | environment/docker.go:33-69 | Its error, the request it sent and the configuration it leaves are exactly `Reconcile` of the old configuration and the oracle answers. |
| `Middleware.SetHeader` | router/middleware/middleware.go:201-209 | After gin's `c.Header`, reading the header gives the value set. An empty value removes the header; any other value is stored under the key. Every other header is untouched. |
| `Middleware.FilesystemError` | router/middleware/middleware.go:117-141 | nil gives (0, ""). The status is 0 exactly when the message is empty, and is one of 0, 400, 403, 404. A denylist code or text gives 403 with the denylist message whatever else the error matches, and 403 arises only that way. |
| `Middleware.FirstRule` | router/middleware/middleware.go:122-140 | With no matching rule the result is (0, ""). Any other result is the outcome of a rule of the table. |
| `Middleware.FirstRuleAt` | router/middleware/middleware.go:122-140 | When rule i matches and no earlier rule does, the table answers rule i's outcome: first match wins. |
| `Middleware.FilesystemErrorFollowsRules` | router/middleware/middleware.go:117-141 | For every non-nil error, the if-chain of `asFilesystemError` equals the ordered rule table: denylist, outside root, is-a-directory, disk space, name-too-long suffix, readdirent syscall. |
| `Middleware.DiskSpaceReportsDirectoryMessage` | router/middleware/middleware.go:131-133 | A disk-space error that no earlier rule matches answers 400 with the is-a-directory message. |
| `Middleware.WithStack` | router/middleware/middleware.go:33 | The wrapped error is nil exactly when the error is; it keeps the text, the filesystem code and the deadline flag, and is never an `*os.SyscallError`. |
| `Middleware.RequestError.constructor` | router/middleware/middleware.go:28-35 | `NewError` holds the stack-wrapped error (`WithStack`) with status 0 and an empty message. |
| `Middleware.RequestError.SetMessage` | router/middleware/middleware.go:39-41 | The message becomes the given one, in place. |
| `Middleware.RequestError.SetStatus` | router/middleware/middleware.go:45-47 | The status becomes the given one, in place. |
| `Middleware.RequestError.Abort` | router/middleware/middleware.go:52-96 | The response status is always the `status` argument, and the response carries the request id header. With writer status 200, an exceeded deadline sets 504 and the timeout message. Otherwise, with writer status 200, a cause containing "context canceled" sets 400 and "Request aborted by client.". In every other case the status is kept and the message is kept, or becomes the generic text when it was empty. The error is required only when the writer status is 200, where it is read. |
| `Middleware.CaptureErrors` | router/middleware/middleware.go:169-192 | No error means no response. An "EOF" error gives 400 with the parse message and no request id. Otherwise a filesystem error recognised in the stack-wrapped error answers its own status and message, whatever the writer status; the readdirent message is never answered. Anything else answers the writer status when it is not 200 and 500 when it is, with the timeout, aborted-by-client or generic message. |
| `Middleware.FirstAllowed` | router/middleware/middleware.go:216-222 | Some entry is found exactly when some allowed-origins entry is "*" or equals the origin. The entry found is such an entry. |
| `Middleware.FirstAllowedAt` | router/middleware/middleware.go:216-222 | The entry found is the first admitting one. |
| `Middleware.AllowedOrigin` | router/middleware/middleware.go:208-223 | It is the panel location when the origin equals it, or when no entry is "*" or equals the origin. Otherwise it is the first entry that is "*" or equals the origin (so "*" when the wildcard comes first). It is always the location or an admitting entry. |
| `Middleware.SetAccessControlHeaders` | router/middleware/middleware.go:196-230 | The credentials ("true"), methods, max-age ("7200") and allowed-headers headers are always present with their values. Allow-Origin reads as `AllowedOrigin`, through a first-match loop that stops at the first admitting entry. It is present exactly when that origin is non-empty, since gin deletes a header set to "". Every other header is untouched. OPTIONS aborts with 204 and every other method continues. |

## Left out

- `Docker()` and its `sync.Once` client singleton (environment/docker.go:18-30): client construction is outside the model. Its outcome is the input `clientErr`.
- `NetworkInspect` and `NetworkCreate` are oracles. Their wire protocol, contexts, deadlines and cancellation are not modelled.
- `client.IsErrNotFound` is the `notFound` tag of `ApiError`.
- `config.Get` and `config.Update` locking: the configuration is modelled sequentially. Only the fields this code reads or writes are modelled. The config package is not part of this model.
- All `log` calls, including the create-failure line with the network name and driver (environment/docker.go:44, 112) and the logging in `Abort` (router/middleware/middleware.go:53-65, 84-88).
- `AttachRequestID`: it writes a random UUID, which is nondeterministic.
- `CaptureAndAbort`: it is gin plumbing (`c.Abort`, `c.Error`).
- gin's `c.Next`, JSON serialisation and header-name canonicalisation. Responses are `Response` values and headers are a map with `HeaderValue`.
- The stack trace attached by `errors.WithStackDepthIf`, and the `errors.Is` chain walk. An error is its text plus a `deadlineExceeded` flag; `WithStack` models only the wrap's effect on the type assertion.
- `filesystem.IsErrorCode` is the optional `code` of a `Cause`. An `*os.SyscallError` is the optional `syscall` name.
- `RequestError.Cause` and `RequestError.Error`: they only read the error field, which the model reads directly.
- `Support.Contains` and `Support.HasSuffix` compare characters, where Go compares UTF-8 bytes. They agree with Go whenever the needle is ASCII, as every needle in the modelled code is: "context canceled", the four filesystem phrases and "file name too long" (router/middleware/middleware.go:75, 122-134).
- `Middleware.RequestError.Abort`: its requires (an error is present when the writer status is 200) stands for the nil dereference at router/middleware/middleware.go:75, where `re.Cause().Error()` panics on a nil error. The panic itself is not modelled.
- `Middleware.FirstRule`: its own contract does not name the first matching rule. `FirstRuleAt` states that.
