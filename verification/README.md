# Session supervisor of a GraphQL reverse proxy

This project models the supervisor at the front of a GraphQL reverse proxy.
The supervisor keeps three pieces of module-level state:

- a registry from session uid to worker (`uidToPort`);
- a port counter starting at 4001 (`serverPort`);
- a uid counter starting at 1000 (`serverUid`).

Two request handlers use that state:

- `/handshake` hands out the current port and uid and advances both counters by one.
  It starts a worker bound to that port, registers the worker under the uid's decimal rendering, and answers 200 with `{"uid":<uid>}`.
- `/graphql` reads the `X-Serv-Uid` header.
  A missing or empty header, or one that is not a registered key, gets 403 with an empty body.
  Otherwise the request is forwarded to `http://localhost:<port>/graphql`, using the port registered for that uid.

The model has three modules:

- `Wrappers`: an `Option` type.
- `Decimal`: the decimal rendering `NatToString` that a template literal produces, and its inverse `ParseNat`.
- `Supervisor`: the class `Supervisor`, whose fields are the three pieces of state and whose methods are the two handlers.
  Beside it is the function `Registered(n)`, the registry after `n` handshakes, with the lemmas about it.

No handler ever removes a registry entry. The invariant `Supervisor.Valid()` therefore pins the registry exactly:

- both counters have advanced by the same number `n` of handshakes;
- the registry equals `Registered(n)`.

The allocation properties are lemmas about `Registered(n)`:

- ports and uids lie below their counters;
- ports are distinct and increasing;
- there are exactly `n` entries;
- the keys are exactly the renderings of the uids handed out.

Only the exact rendering of a uid matches a key.
`Graphql` also has no `modifies` clause, so a rejected or forwarded request leaves the registry and both counters unchanged.

The method `Supervisor.TwoSessions` is a client of these specifications.
It runs two handshakes, routes both uids to different targets, and rejects a missing header and an unissued uid.

## Model

| member | source | states |
|---|---|---|
| `Decimal.NatToString` | proxy.ts:32 | a uid's key is a non-empty string of digits with no leading zero (only `0` itself starts with `0`) |
| `Decimal.ParseNatToString` | proxy.ts:32 | reading a key back as a decimal number gives the uid it was built from |
| `Decimal.NatToStringInjective` | proxy.ts:32 | two uids have the same key if and only if they are equal, so no two sessions share a key |
| `Supervisor.Supervisor.constructor` | proxy.ts:9-12 | the supervisor starts with an empty registry, port counter 4001 and uid counter 1000, and satisfies the invariant |
| `Supervisor.Supervisor.Handshake` | proxy.ts:15-35 | hands out the old port and uid and advances each counter by exactly 1; the new key was absent before, and the registry gains exactly that key, mapped to a worker started with `-p <port>` on that port, with every other entry unchanged; the reply is 200 with body `{"uid":<uid>}`, naming the key just inserted; the invariant is kept |
| `Supervisor.Supervisor.Graphql` | proxy.ts:37-49 | rejects with 403 and an empty body exactly when the header is missing, empty or not a key of the registry; otherwise forwards to `http://localhost:<p>/graphql`, where `p` is the port registered for that header; changes no state |
| `Supervisor.TargetInjective` | proxy.ts:45-48 | two ports give the same forward target if and only if they are equal, so requests for different sessions reach different workers |
| `Supervisor.RegisteredKeys` | proxy.ts:31-32 | after `n` handshakes a string is a key if and only if it is the rendering of a uid in `[1000, 1000+n)` |
| `Supervisor.RegisteredWorker` | proxy.ts:16-17 | the session with uid `u` is registered on port `4001 + (u - 1000)`, and its worker was started with that port |
| `Supervisor.NextKeyFresh` | proxy.ts:31-32 | the key a handshake is about to insert is not yet in the registry, so no entry is overwritten |
| `Supervisor.RegisteredCount` | proxy.ts:27-32 | no entry is ever removed, so after `n` handshakes the registry holds exactly `n` entries |
| `Supervisor.RegisteredAllocation` | proxy.ts:11-16 | every registered port lies in `[4001, 4001+n)`, every key parses to a uid in `[1000, 1000+n)`, and distinct keys map to distinct ports |
| `Supervisor.PortsIncrease` | proxy.ts:16 | a session with a greater uid has a strictly greater port |
| `Supervisor.PaddedUidRejected` | proxy.ts:39 | a zero-padded uid is never a key, so the header must be the exact rendering of the uid |
| `Supervisor.PortsLeaveTcpRange` | proxy.ts:16 | the port counter is never bounded: handshake number 61535 (counting from 0) gives its worker port 65536 |

## Left out

- Spawning the worker, its stdout and stderr listeners and its exit log (proxy.ts:17-29) are process I/O and logging.
  The process handle is represented by the command and arguments the worker is started with.
  A spawn that fails is not modelled.
- The proxying itself through `http-proxy` (proxy.ts:46) and `app.listen(4000)` (proxy.ts:51) are network I/O.
  The model computes only the forward target.
- The response of a forwarded request, including a worker that cannot be reached, is not modelled.
- Express routing details are not modelled: `app.use` matches every method and sub-path, and header names are matched case-insensitively.
- JavaScript numbers are doubles. The counters are modelled as unbounded naturals, which matches the source below 2^53.
- Nothing bounds the ports handed out, as `Supervisor.PortsLeaveTcpRange` shows. The model keeps that behaviour.
- server.ts is not part of this model. It is the worker: schema building, argument parsing, and an `info` resolver that formats wall-clock times.
- client.ts is not part of this model. It is a command-line client that makes network calls, and its `ping` command is empty.
- The source has no readiness probing, no idle-timeout eviction, no `/ping` endpoint, and no removal of sessions when a worker exits.
  The model does not add them.
