# Payload generator of the eBPF-training demo server

The demo server (`workshop2/demo-server/main.go`) answers `POST /customResponse`
with `{"answer": s}`, where `s` is a pseudo-random string of the length the
request's `size` field asks for. This project models its core in Dafny:

- `GoRand` models the process-wide `*rand.Rand` the server draws from. A
  seeded generator is deterministic, so a `Source` is an abstract stream of
  values plus a count of how many have been drawn; `Intn(bound)` takes the
  next one and reduces it into `[0, bound)`.
- `DemoServer` models the alphabet `letterBytes`, `randStringBytes` (a method
  that allocates a zeroed byte array and fills it in a loop, proved against the
  specification function `Letters`) and `postCustomResponse` (the pure
  decision `Decide`, the response function `Respond`, and the method
  `PostCustomResponse` that runs them against a `Source`).

Things worth knowing about the code as written:

- `letterBytes` holds 67 bytes (26 + 26 + 10 digits + `~!@#$`)
  (`LetterBytesLength`).
- The size check is an upper bound only. A negative `size` passes it and
  reaches `make([]byte, n)`, which panics; the model returns `Panicked` for
  it (`NegativeSizeReachesMake`). The recovery middleware, which is not part
  of this model, turns that panic into a 500 response.
- The global generator is passed in as a parameter instead of being a global.

## Model

| member | source | states |
|---|---|---|
| GoRand.IntnAt | workshop2/demo-server/main.go:88 | the draw used to index the alphabet lies in `[0, bound)`, so `letterBytes[...]` is never out of range |
| GoRand.Source.constructor | workshop2/demo-server/main.go:49-51 | a freshly seeded generator has drawn nothing from its stream |
| GoRand.Source.Intn | workshop2/demo-server/main.go:88 | each call returns a value in `[0, bound)` and advances the shared generator by exactly one draw |
| DemoServer.LetterBytesLength | workshop2/demo-server/main.go:40 | the alphabet has 67 bytes |
| DemoServer.LetterBytesMembership | workshop2/demo-server/main.go:40 | a byte is in the alphabet exactly when it is a lower-case or upper-case ASCII letter, a digit, or one of `~!@#$` |
| DemoServer.Letters | workshop2/demo-server/main.go:85-90 | generating `n` bytes yields exactly `n` bytes, each a member of the alphabet |
| DemoServer.LettersAt | workshop2/demo-server/main.go:87-89 | byte `k` of the result is the alphabet entry selected by the `k`-th draw of that call |
| DemoServer.LettersSplit | workshop2/demo-server/main.go:88 | generating `m + n` bytes equals generating `m` then `n` from where the shared generator was left |
| DemoServer.LettersAreLetterCodes | workshop2/demo-server/main.go:88 | every generated byte is a letter, a digit or one of `~!@#$` |
| DemoServer.RandStringBytes | workshop2/demo-server/main.go:85-91 | a negative length panics in `make` before any draw; otherwise the result is `Letters` of the generator's stream from its current position, and exactly `n` draws are made, one per position |
| DemoServer.Decide | workshop2/demo-server/main.go:70-81 | a body that fails to bind is refused first; a parsed size is refused with `TooLarge(size, 10485760)` exactly when it exceeds 10485760; every other size, negative included, goes on to generation with that size |
| DemoServer.Respond | workshop2/demo-server/main.go:70-83 | the answer is 200 exactly for sizes in `[0, 10485760]`, with an answer of exactly that length made of alphabet bytes; a panic exactly for negative sizes; 400 exactly when `Decide` refuses, carrying `Decide`'s reason (`BindFailed`, or `TooLarge(size, 10485760)`) |
| DemoServer.Draws | workshop2/demo-server/main.go:77-82 | only a served request draws from the generator, and it draws once per byte of its answer |
| DemoServer.PostCustomResponse | workshop2/demo-server/main.go:70-83 | the handler's response is `Respond` at the generator's current position, and the generator advances by `Draws(body)` |
| DemoServer.MalformedBodyIsRefusedFirst | workshop2/demo-server/main.go:72-75 | a body that fails to bind gets 400 without any size check or draw |
| DemoServer.MaxPayloadSizeIsInclusive | workshop2/demo-server/main.go:77-80 | a size of 10485760 is served; 10485761 gets 400 reporting the requested and the maximum size |
| DemoServer.SizeCheckIsMonotone | workshop2/demo-server/main.go:77-80 | refused sizes are closed upwards; served sizes are closed downwards down to 0 |
| DemoServer.NegativeSizeReachesMake | workshop2/demo-server/main.go:77-86 | a negative size passes the bound check, reaches `make` and panics there, drawing nothing |
| DemoServer.AnswerIsLetterCodes | workshop2/demo-server/main.go:82-88 | every byte of a 200 answer is a letter, a digit or one of `~!@#$` |
| DemoServer.ServedAnswer | workshop2/demo-server/main.go:82 | a request with a size in `[0, 10485760]` is answered 200 with exactly what `randStringBytes` produces for that size, and draws that many values |
| DemoServer.ConsecutiveAnswers | workshop2/demo-server/main.go:82-89 | two requests served one after the other from the shared generator together receive the bytes `randStringBytes` produces for the combined size from the first request's position |
| DemoServer.ConsecutiveAnswersWithinMax | workshop2/demo-server/main.go:77-89 | when the combined size is at most 10485760, two consecutive served answers together equal the answer a single request for the combined size gets from the first request's position |

## Left out

- HTTP plumbing: the gin engine, routing, the recovery middleware, status codes and JSON response writing, the `PORT` lookup, the startup line and the fatal exit on a failed bind. The model's `Response` stands for what the handler hands to the framework.
- JSON binding (`BindJSON`): modelled only by its outcome, `Malformed` or `Parsed(size)`; that a missing `size` binds as 0 and an out-of-range number fails is the decoder's behaviour.
- The wording of the 400 error message (which formats the whole request struct with `%d`); `TooLarge` carries the requested and the maximum size instead.
- GoRand.Source.Intn: Go's generator algorithm, its time-based seeding and its rejection sampling are not modelled; the model consumes one stream value per call and reduces it with `%`. No claim is made about the uniformity of the distribution.
- Unsynchronised use of the global generator by concurrent requests; requests are modelled one at a time.
- `letterBytes` is written as its five runs (`a`-`z`, `A`-`Z`, `1`-`9`, `0`, `~!@#$`) in their order in the literal rather than as one string literal.
