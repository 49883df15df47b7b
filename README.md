# Chatbot request handlers, modelled in Dafny

A model of the three server-side route handlers of a Persian-language chatbot web
application. Each handler is a short branch tree over one store:

- **Accounts** (`app/api/auth/route.ts`): the users table, keyed by email. POST
  dispatches on the body's `type`. `signup` refuses a known email; otherwise it
  inserts an unverified row with a bcrypt digest of the password, then stores a
  verification token made from 32 random bytes. `login` only reads: a known
  email, then a verified one, then a matching password. GET consumes a
  verification token: the row holding it becomes verified and loses the token.
  The handler then redirects to the relative path `/login?verified=1`, which
  `NextResponse.redirect` refuses because it takes only absolute URLs. That
  exception comes after the update is committed, so a successful verification
  answers with a server error and the row stays verified.
- **Chat** (`app/api/chat/route.ts`): the message table, an append-only log of
  `{userId, role, content, createdAt}`. POST looks the user up, writes the user's
  turn, and only then checks the provider key and calls the completion provider,
  whose event stream it passes through. GET returns one user's rows, oldest
  first, as `{content, role, createdAt}`.
- **Avatars** (`app/api/avatar/route.ts`): a process-wide dictionary from email
  to avatar path. POST validates and overwrites one entry; GET looks one up,
  with null for a missing entry.

Modules: `Options` (optional values and the JavaScript `!x` test on optional
text), `Hex` (hex encoding of the token bytes), `Credentials` (the password
digest), `Auth`, `Chat` and `Avatar`. Stores whose rows the handlers update in
place are classes (`Auth.UserStore`, `Chat.MessageLog`, `Avatar.AvatarRegistry`)
whose methods state the whole new state relative to the old one. The read-only
decisions (`Auth.Login`, `Chat.GetHistory`, `Avatar.AvatarRegistry.Get`) are
functions.

What the environment supplies becomes a parameter: the 32 random bytes of
`crypto.randomBytes`, the bcrypt salt, whether the verification mail was
delivered, the `OPENROUTER_API_KEY` setting, and what the provider answered
(an event stream, a failure with its response text, or no usable answer
because the request or the reading of the failure text rejected). The store's `createdAt`
is a strictly increasing clock kept by `Chat.MessageLog`; row ids come from a
counter kept by `Auth.UserStore`.

Three behaviours of the chat POST are worth stating plainly, because a reader
might expect otherwise:
- it never writes an "ai" turn: every path past the user lookup appends exactly
  one "user" row, and the provider's reply is only streamed through;
- it checks neither that the user is verified nor that the message is non-empty;
- it writes the user's turn before checking the provider key, so the turn is
  kept even when the key is missing and no provider call is made.

## Model

| member | source | states |
|---|---|---|
| Hex.Encode | app/api/auth/route.ts:17 | the hex text of n bytes has 2n characters, each in 0-9a-f |
| Hex.DecodeEncode | app/api/auth/route.ts:17 | decoding the hex text of any bytes gives back those bytes |
| Hex.EncodeDecode | app/api/auth/route.ts:17 | any text that decodes is the encoding of what it decodes to, so encoding is a bijection onto decodable text |
| Hex.DecodeDefined | app/api/auth/route.ts:17 | text decodes exactly when it has even length and only lower-case hex digits |
| Hex.NewToken | app/api/auth/route.ts:17 | a token from 32 random bytes has 64 characters from 0-9a-f and determines the bytes it came from |
| Options.IsBlank | app/api/auth/route.ts:66 | an optional text fails the `!x` test exactly when it is absent or empty; the same test guards chat/route.ts:78 and avatar/route.ts:15 and :36 |
| Credentials.Hash | app/api/auth/prisma-auth.ts:15 | the digest records the cost and the salt it was made with |
| Credentials.Matches | app/api/auth/prisma-auth.ts:25-30 | the compare accepts a password exactly when hashing it again with the stored cost and salt reproduces the stored digest |
| Credentials.HashMatches | app/api/auth/prisma-auth.ts:15-29 | a digest made at cost 10 from a password, with any salt, is accepted by the compare for that password |
| Auth.Login | app/api/auth/route.ts:29-53 | 200 exactly for a known, verified email with a matching password, and then only email, name and avatar are returned; 403 exactly for a known unverified email, whatever the password; every other outcome is the one 401 response shared by unknown email and wrong password |
| Auth.LoginAcrossVerification | app/api/auth/route.ts:17-79 | a newly signed-up row refuses its correct password with 403; once its token is consumed the same password logs in |
| Auth.Holders | app/api/auth/route.ts:71-73 | the rows the token lookup can find: exactly the rows of the table whose token equals the given one |
| Auth.Consume | app/api/auth/route.ts:76-79 | the consumed row becomes verified with no token, every other field of it and every other row stays the same, and no row is added or removed |
| Auth.ConsumeRemovesHolder | app/api/auth/route.ts:71-79 | consuming a token through one row removes exactly that row from the rows holding the token; no row is added or removed |
| Auth.UserStore.CreateUser | app/api/auth/prisma-auth.ts:4-19 | inserts one unverified row with a fresh id and the digest of the password, without a token; other rows unchanged |
| Auth.UserStore.SetVerificationToken | app/api/auth/route.ts:19-22 | sets the token of the row with that email and changes nothing else; called only on an unverified row, it keeps the invariant that a row holds a token only while unverified |
| Auth.UserStore.Signup | app/api/auth/route.ts:9-28 | a known email gives 400 and leaves the table unchanged; otherwise exactly one row is added (hashed password, unverified, the 64-character token) and every other row is unchanged; a failed mail delivery gives a server error but keeps the row |
| Auth.UserStore.Post | app/api/auth/route.ts:7-56 | dispatches on `type`: signup as above; login returns the login decision and leaves the table unchanged; any other type gives 400 and changes nothing |
| Auth.UserStore.Verify | app/api/auth/route.ts:58-81 | a missing or empty token, or one no row holds, gives 400 and changes nothing; otherwise one holder, necessarily still unverified, becomes verified with its token cleared, nothing else changes, and the response is a server error, because the relative redirect is refused after the update is committed |
| Auth.VerifyTwice | app/api/auth/route.ts:71-79 | replaying a token that only one row held fails with 400, and that row is left verified with no token |
| Chat.CompletionRequestFor | app/api/chat/route.ts:32-52 | the provider request holds exactly two turns, the fixed directive and then the user's message; it goes to the completions URL for the fixed model, is streamed, and carries the key as a bearer credential |
| Chat.Relayed | app/api/chat/route.ts:32-67 | a provider stream is passed through unchanged; a provider failure gives 500 with an error made of "AI error: " followed by exactly the provider's text; exactly when the provider cannot be reached or its failure text cannot be read, the uncaught rejection gives the framework's bare server error |
| Chat.Insert | app/api/chat/route.ts:88 | inserting into an ascending list keeps it ascending and adds exactly that one entry |
| Chat.SortByCreatedAt | app/api/chat/route.ts:88 | the result is ascending by createdAt and a permutation of the input |
| Chat.SortKeepsAscending | app/api/chat/route.ts:88 | sorting a list that is already ascending returns it unchanged |
| Chat.OwnedBy | app/api/chat/route.ts:87 | a row is selected exactly when it is in the log and belongs to the user |
| Chat.OwnedByCounts | app/api/chat/route.ts:87 | each of the user's rows is selected exactly as often as it occurs in the log, and no other row is selected |
| Chat.Project | app/api/chat/route.ts:89 | one history entry per row, carrying that row's content, role and createdAt |
| Chat.GetHistory | app/api/chat/route.ts:70-92 | a missing or empty email gives 400; an unknown email gives 401; otherwise 200 with exactly that user's rows, projected to content, role and createdAt, ascending by createdAt; it only reads |
| Chat.HistoryInLogOrder | app/api/chat/route.ts:86-91 | with the store's increasing timestamps, the history is the user's rows in the order they were written |
| Chat.HistoryAfterAppend | app/api/chat/route.ts:18-24 | a row written after all others appears last in its author's history; every other user's history is unchanged |
| Chat.MessageLog.Append | app/api/chat/route.ts:18-24 | appends one row stamped with the store's clock and keeps the timestamps increasing |
| Chat.MessageLog.Post | app/api/chat/route.ts:11-68 | an unknown email gives 401 and writes nothing; otherwise exactly one "user" row with that user's id and the message is appended, and no "ai" row ever; a missing key then gives 500 with the row kept and no provider call; otherwise the request is the two-turn prompt, a provider failure gives 500 with "AI error: " and its text, an unreachable provider gives the bare server error, and a stream is passed through; in every one of these cases the row stays written |
| Avatar.AvatarRegistry.Post | app/api/avatar/route.ts:10-25 | a non-POST method gives 405, an unparsable body 400, a missing or empty email or avatar 400, each leaving the dictionary unchanged; otherwise exactly the entry for the email is set to the avatar and the reply is success; no empty path is ever stored |
| Avatar.AvatarRegistry.Get | app/api/avatar/route.ts:27-42 | a missing or empty email gives 400; otherwise 200 with the stored path exactly, or null for an email never posted; it only reads |
| Avatar.Shared | app/api/avatar/route.ts:7-8 | an existing dictionary is reused, so all requests share one; a new empty one is made only when none exists |
| Avatar.LastWriteWins | app/api/avatar/route.ts:20-41 | after two accepted POSTs for one email, GET returns the later path |

## Left out

- Network I/O: the provider call itself and the byte-level pass-through of its event stream; the provider's answer is a parameter (an event stream, a failure with its text, or an uncaught rejection).
- Mail delivery (app/api/auth/email.ts is not part of this model); only whether it succeeded is a parameter of signup.
- bcrypt's key derivation: `Credentials.Hash` is a deterministic stand-in, so two passwords whose stand-in digests collide would both log in; what the handlers rely on is only that the stored value is a digest and that the compare accepts the password it was made from.
- Randomness: the token bytes and the bcrypt salt are parameters.
- Request parsing: the auth and chat bodies are taken as already-parsed strings; a body that fails to parse there, or a field of another JSON type, throws inside the framework and is not modelled. The avatar POST's parse failure is modelled, as the handler catches it.
- Field values that are not strings: a JavaScript `!x` test is modelled only for absent and empty text.
- Inherited object keys: the avatar dictionary is a plain object, so keys such as `__proto__` or `constructor` behave differently there; the model treats it as a map.
- Timestamps: `createdAt` is a strictly increasing counter; real timestamps can tie, and the order of tied rows is then the database's.
- Which row `findFirst` returns when several rows hold the same token is left open (any holder); the single-use property is stated for a token held by one row.
- `getUserFromRequest` (app/api/chat/route.ts:5-9), which no handler calls.
- Concurrency: each handler runs atomically; interleavings of concurrent requests are not modelled.
- The pages, client contexts, the static avatar list and the framework configuration.
