# Lock service Clerk, modelled in Dafny

This project models the client side of a primary/backup lock service: the `Clerk` of
`lockservice/client.go` and the RPC records of `lockservice/common.go`.

A Clerk holds two server addresses, primary first. It also holds a flag saying whether the
primary is believed reachable, and an identifier made from one random draw. `Lock` and `Unlock`
both build a request tagged with a fresh request identifier. A call tries the primary only
while the flag is set, and then writes into the flag whether the primary answered. If the
primary was skipped or failed, the call tries the backup once. It returns false when no
server answered, and otherwise the `OK` of the reply.

Files:

- `decimal.dfy` (module `Decimal`): the decimal rendering `Itoa` of naturals, as `strconv.Itoa`
  does for the non-negative values the Clerk renders. It is paired with its inverse `Atoi`,
  and both round trips are proved.
- `request_ids.dfy` (module `RequestIds`): the bound of `nrand` and the request identifier
  `uuid + "-" + Itoa(draw)` of `getReqUuid`. A parser splits an identifier at its dash. The
  lemmas prove that parsing recovers the clerk identifier and the draw, that exactly one dash
  occurs, and that the construction is injective.
- `common.dfy` (module `Common`): `LockArgs`, `LockReply`, `UnlockArgs` and `UnlockReply`. It
  also writes the documented reply contract of `Lock`/`Unlock` as functions over a lock table,
  which is the set of held names.
- `client.dfy` (module `Client`): the failover protocol as a case table (`Failover`) and its
  replay over a sequence of calls (`Replay`), with lemmas about how the flag evolves. It also
  has the `Clerk` class. The class's `Lock` and `Unlock` follow the Go code step by step and
  are proved against `Failover`. The network is an oracle parameter
  `(Server, Call<A>) -> Outcome<R>`. It answers each attempt on its own: the primary attempt
  and the backup attempt are separate questions, because every attempt dials afresh. An
  attempt either fails or yields a reply. So when both addresses are the same, the first
  attempt can fail and the second still succeed. Each method also returns the calls it sent,
  in order.

The random draws of `nrand` are parameters bounded by 2^62. The RPC primitive `call` is
the oracle.

## Model

| member | source | states |
|---|---|---|
| `Decimal.Itoa` | lockservice/client.go:24 | the rendering of a natural is a canonical numeral: non-empty, only digits, and a leading `0` exactly for zero |
| `Decimal.AtoiItoa` | lockservice/client.go:24 | reading a rendering back gives the number rendered |
| `Decimal.ItoaAtoi` | lockservice/client.go:24 | every canonical numeral is the rendering of the number it denotes |
| `Decimal.ItoaInjective` | lockservice/client.go:66 | distinct draws render to distinct strings |
| `RequestIds.ReqUuidOneDash` | lockservice/client.go:65-67 | a request identifier built on a dash-free clerk identifier contains exactly one `-` |
| `RequestIds.ReqUuidSplits` | lockservice/client.go:65-67 | splitting a request identifier at its first `-` gives the clerk's identifier and the draw's rendering |
| `RequestIds.ParseReqUuidRoundTrip` | lockservice/client.go:57-67 | parsing the request identifier of a clerk whose identifier is a numeral recovers that identifier and the draw |
| `RequestIds.ParseReqUuidSound` | lockservice/client.go:65-67 | whatever the parser accepts is exactly `uuid + "-" + Itoa(draw)` for the numeral `uuid` and the draw it returns |
| `RequestIds.ReqUuidInjective` | lockservice/client.go:64-67 | two request identifiers are equal only if both the clerk identifiers and the draws are equal |
| `Common.ServeLock` | lockservice/common.go:5-17 | a Lock request carries a name and an identifier; it is granted exactly when the name is not held and is answered at once, without blocking; afterwards the name is held and no other name changes |
| `Common.ServeUnlock` | lockservice/common.go:19-29 | an Unlock answers `OK = true` exactly when the name was held; afterwards the name is not held and no other name changes |
| `Common.LockThenUnlockRestores` | lockservice/common.go:5-20 | on a table where a name is free, a Lock and then an Unlock of it both answer true, and the table is restored |
| `Common.GrantedLockExcludes` | lockservice/common.go:5-6 | once a name is granted, a second Lock of it is refused |
| `Client.Failover` | lockservice/client.go:80-94 | with the flag down, only the backup is contacted. With the flag up, the primary is contacted first. The backup is contacted iff the primary was skipped or failed. Exactly two calls are made when the flag is up and the primary fails, and one call otherwise. The new flag is "was up and the primary answered". The result is a failure iff no contacted server answered, and otherwise it is the answering server's reply |
| `Client.Replay` | lockservice/client.go:82-89 | each call in a sequence takes the failover step from the flag the previous call left |
| `Client.DownStaysDown` | lockservice/client.go:82-85 | from the flag down, every later call contacts only the backup and the flag stays down |
| `Client.UpWhilePrimaryAnswers` | lockservice/client.go:82-85 | from the flag up, the flag after call k is up iff the primary answered every call up to k |
| `Client.StaysDownAfter` | lockservice/client.go:82-89 | after a call leaves the flag down, every later call goes to the backup alone and the flag stays down |
| `Client.PrimaryFailsAtMostOnce` | lockservice/client.go:82-89 | after a primary call fails, the clerk never contacts the primary again |
| `Client.LockThenUnlockSucceeds` | lockservice/client.go:69-123 | on a table where a name is free, Lock then Unlock returns true and then true whenever each call reaches a server that answers from the table, and the table is restored |
| `Client.Clerk.MakeClerk` | lockservice/client.go:18-26 | the servers are `[primary, backup]`, the flag is up, and the identifier is the rendering of a draw in [0, 2^62) |
| `Client.Clerk.Lock` | lockservice/client.go:72-95 | the calls sent, the new flag and the result are those of `Failover` applied to the old flag and to what the primary attempt and the backup attempt answer to the same `LockArgs(name, uuid + "-" + Itoa(draw))`, where the draw is in [0, 2^62). The servers and identifier are unchanged, and a down flag stays down |
| `Client.Clerk.Unlock` | lockservice/client.go:100-123 | the same as `Lock`, for `UnlockArgs` and `LockServer.Unlock` |

## Left out

- `call` (lockservice/client.go:41-54): dialling, the RPC and closing the connection are network
  I/O. They are replaced by the oracle `rpc`, which answers each attempt of a call on its own.
  Transport timeouts are part of that oracle.
- `nrand` (lockservice/client.go:57-61): `crypto/rand` and the `big.Int` conversion are not
  modelled. Each draw is a parameter with `0 <= draw < 2^62`. Nothing is claimed about
  collisions between draws. `ReqUuidInjective` only says that distinct draws give distinct
  identifiers.
- `int(nrand())` is taken to be lossless, as it is with 64-bit `int`. On a 32-bit platform the
  conversion would truncate the draw, and that case is not modelled.
- Concurrent use of one Clerk: the unsynchronised read and write of `primaryActive` is not
  modelled. Every call is assumed to come from a single caller.
- The lock server itself is not part of this model. That covers its table, its deduplication
  by identifier and its primary/backup replication. Only the reply contract documented in
  `lockservice/common.go` is modelled, by `ServeLock`/`ServeUnlock` over one table shared by
  both replicas.
- The `UUID` field of the replies: which value the server writes there is not shown in these
  files. `ServeLock`/`ServeUnlock` echo the request identifier, and the Clerk never reads the
  field.
- The Go `reply` variable is shared by the primary and the backup attempt. A failed call could
  leave it partly decoded, but the model treats each attempt's outcome as a whole and does not
  capture partial decoding.
