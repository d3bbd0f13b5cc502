# Wishlist: keys, tokens, codes and requests

A Dafny model of the core of the Wishlist API server, with proofs. It covers the keystore that rotates
signing keys while requests use them, the tokens signed with those keys, e-mail verification by one-time
codes, registration and login, the request pipeline around the handlers, the shutdown channel, and the
two loops of the database helper.

`dafny verify dfyconfig.toml` checks everything (Dafny 4.11).

## How the model is built

**Two views of what changes state.** Objects that the program updates in place are classes
(`KeyStore.KeyStore`, `Otp.OTP`, `Handlers.Auth`, `Handlers.UserGroup`, `Web.Values`, ...), and their methods
follow the program's statements and loops. What several goroutines do to the same objects is a transition
system whose steps are the single atomic actions: `KeyRing` for the keystore, `Protocol` for requests,
codes, tokens and accounts on top of it, `Shutdown` for the signal channel. Theorems about interleavings
are about the transition systems. The two views are tied together: `RotationRefinement` shows that one
call of the class's `Rotate` is a run of `KeyRing`, and `HandlerRuns` that one call of each handler
leads from a state of `Protocol` that the objects stand for to another, by a run in which only its thread, and the
clock, move.

| module | what it holds |
|---|---|
| `Prelude` | Option, Result, time |
| `KeyRing`, `Schedule`, `WorstRun` | the keystore step by step; how often the active key changes and what follows; runs that use up every tolerance |
| `KeyStore`, `RotationRefinement` | the keystore object; its rotation is a run of `KeyRing` |
| `Tokens` | claims, signing, parsing, token lifetimes, the bearer header |
| `Otp`, `Validate` | codes and their store; request validation |
| `Protocol`, `Provenance`, `Refusals` | requests as interleaved threads; where everything comes from; what is refused |
| `OneTime`, `Mailing` | the books of the codes, and when one is accepted twice; when one is mailed that should not be |
| `RoundTrip`, `FirstVisit`, `Sessions` | the whole way from code to session; runs that go it, and one to an account without an address; token lifetimes |
| `ThreadSteps`, `Handlers`, `HandlerRuns` | extending a run by one call; the handlers as methods; handlers are runs |
| `Web` | error classes, responses, middlewares, routes |
| `Shutdown`, `Database` | the shutdown channel; `StatusCheck` and `queryString` |

**Time.** Instants are whole nanoseconds. Each reading of the clock is a step of its own, so a token's
`exp` and `nbf`, a key's expiry and each comparison of a rotation's pass use different readings.

**Schedule.** `Signer` never looks at `Expire`, so how long a key lasts is a fact about runs. A schedule bounds the
time between consecutive changes of the active key by `gap`. It may also bound by `lag` the time a rotation takes from
computing an expiry to setting `active`. A rotation computes the expiry of its key after the change before it, so the
active key gets at most `2 * gap` old with the gap alone, and `gap + lag` with a lag below the gap (`ScheduledIsFresh`).
No change precedes the first key, so of that key a schedule says that it became active within the gap.
Runs that get there are in `WorstRun`.

**Tokens and passwords are symbolic.** A signature records its signer and verifies under no other key.
`Unforged` is the assumption that nobody else signs with the keystore's signers. A password hash accepts
the password it was made from and no other.

## What the proofs found

- Tokens are honoured until their `exp` in all runs on schedule exactly if lifetime + 2 gap is at most the expiration
  period + 1 ns, or lifetime + gap + lag where the lag is bounded (`TokensOutlastIff`). A bound on the gap in the place of
  the age is not enough: `GapAloneFallsShort` is a run with expiration 48 and gap 24 in which a reader 1 slow loses its key.
- With the defaults, keys kept for 48 h (cmd/wishapi/main.go:58-59) and changed every 24 h at most, session tokens of 36 h
  (cmd/wishapi/main.go:52) do not fit. The 30 min tokens of verified addresses fit only if rotations also set `active`
  within 23.5 h (`DefaultLifetimes`).
- A one-time code can be accepted more than once: `Check` (business/otp/otp.go:41-56) reads and deletes in two calls.
  `CodeAcceptedTwice` is such a run. In a run it happens, with no save of that code in between, if and only if the later
  check already stood with the code when the earlier one deleted (`AcceptedTwiceIff`). From a state on it can happen if and
  only if the code is live and passes validation, or two checks already stand with it (`CanBeAcceptedTwiceIff`).
  `CodesAreConserved` is the law that holds under every interleaving.
- A second code can be mailed while one is live (`MailedWhileLive`), since looking for a code and saving one are far
  apart. A mail is sent while a code is live if and only if another request saved that code after the sender had found none
  (`MailedWhileLiveIff`). `SoleMailerIff` says from which states the requests under way cannot do it.
- A code can be mailed to an address that has an account. An error while the rows of a lookup are read looks like an unknown
  address (business/database/db/db.go:161-163), and `UserIsMailed` is a run in which it does. A mail goes to such an address
  if and only if its sender's lookup missed the user, or the account was created after that lookup (`MailedToUserIff`).
- A session token passes `register` and makes an account with an empty address, because decoding it as the
  other claims type leaves the address at its zero value (`SessionTokenRegisters`). An account's address has been
  verified if and only if the record of the token presented has an address (`VerifiedIff`).
- A token for a verified address passes the Auth middleware, and the handler behind it gets user id 0, for the same reason
  (`VerifiedTokenAdmitted`). The id is a user's if and only if the token was issued on a password (`AdmittedIff`).
- A manual `Revoke` of the active key is repaired by the next completed rotation, unless that rotation is the one that is
  just adding the revoked key (`RestoresIff`).
- A single shutdown signal may be taken by the key rotation loop, and then `run` never sees it. `MayMissMainIff` says when.
- The password rule's message speaks of characters (business/validate/custom.go:39), its code counts bytes.
  `ShortWidePassword` is a password that registers and cannot log in. A password of more than 32 characters is another
  case, and there is no third (`RegisteredMayLogInIff`).
- `StatusCheck` pauses once even when no time is left, so its bound is the least positive number of pauses.
- `queryString` replaces one mark after the other, so a value with a mark in it spoils the values after it, unless these are
  all just a mark. `FilledIsSubstIff` is about the text before it is tidied, which may still hide the damage.

## Model

| member | source | states |
|---|---|---|
| KeyRing.InvRun | business/keystore/keystore.go:119-163 | Over every interleaving of ticks, store, set active, range, visits, deletions and revocations: no key leaves the store but by `Revoke` or after its expiry, stored keys are as they were minted, and every key but the one being added survived the last finished pass |
| KeyRing.InvStep | business/keystore/keystore.go:82-163 | Every atomic step of a rotation, and every revocation, keeps that invariant |
| Schedule.ScheduledIsFresh | business/keystore/keystore.go:119-163 | In every run whose active key changes at most `gap` apart, it never gets older than 2 gap, whatever else happens; nor than gap + lag where each rotation sets `active` within a lag below the gap |
| Schedule.ReaderFindsKey | business/keystore/keystore.go:76-85 | After any run on schedule, a reader that loads `active` and then, up to `delay` later, the key, finds it, whatever ran in between, if that age + delay is at most the expiration period and that key was not revoked by hand |
| KeyRing.FreshReaderFindsKey | business/keystore/keystore.go:76-85 | The same from the age of the active key at the moment it is read |
| Schedule.RestoresIff | business/keystore/keystore.go:82-85 | From a reachable state every completed rotation ends with an active key not revoked by hand (unless revoked on the way) if and only if the rotation under way, if any, is not adding a revoked key |
| Schedule.RotationRestoresReaders | business/keystore/keystore.go:82-85 | In that case, whatever was revoked before, every reader of the key active after the next completed rotation is served on schedule |
| Schedule.FinishRotation | business/keystore/keystore.go:119-163 | From each point after a key is stored the rotation under way can be completed with that key active |
| Schedule.CleanRun | business/keystore/keystore.go:119-163 | Whichever earlier keys one looks at: if the rotation under way is adding none of them, the active key is none of them after a completed rotation, nor once it has been none |
| KeyRing.HistoryGrows | business/keystore/keystore.go:119-163 | The clock never goes back and a minted key keeps its expiry and signer for good |
| KeyRing.RetiredForGood | business/keystore/keystore.go:82-85 | An id that has left the store, by expiry or `Revoke`, is in no later state |
| KeyRing.RevokedForGood | business/keystore/keystore.go:82-85 | After `Revoke` of a key, at any moment of a rotation, no later state of any run holds it |
| KeyRing.RevokeSpares | business/keystore/keystore.go:82-85 | `Revoke` leaves every other key, `active` and the rotation under way as they are |
| KeyRing.HaltIsFinal | business/keystore/keystore.go:93-97 | Once the rotation goroutine has returned no key is added and `active` stays |
| KeyRing.ExpiredKeyIsGone | business/keystore/keystore.go:125-143 | A key is gone at the end of the first rotation whose pass began after its expiry, and in every state after |
| KeyRing.StoreStaysSmall | business/keystore/keystore.go:119-163 | With rotations at least `gap` apart, at most expiration/gap + 1 keys between rotations and at most one more during one, in every run |
| WorstRun.StoreFillsUp | business/keystore/keystore.go:119-163 | Both bounds are reached, for every expiration period and gap |
| KeyRing.Crowding | business/keystore/keystore.go:152-163 | n keys minted at least `gap` apart span at least (n - 1) gaps |
| WorstRun.KeyGoesAtOnce | business/keystore/keystore.go:119-150 | For every schedule there is a run on it, without revocations, in which a key is still active gap + m after its expiry was computed, m the least of lag, gap and expiration period, and is gone the moment it may go |
| WorstRun.GapAloneFallsShort | business/keystore/keystore.go:119-150 | A run with expiration 48 and changes at most 24 apart, no revocation, in which a reader 1 slow loses its key |
| WorstRun.ReadersServedIff | business/keystore/keystore.go:76-85 | All readers of all runs on schedule without revocations find their key if and only if 2 gap + delay is at most the expiration period, with gap + lag for 2 gap where a lag below the gap is given |
| KeyStore.SweptKeeps | business/keystore/keystore.go:127-143 | A pass in any order, over part of the map too, deletes exactly the visited keys whose expiry lies before the reading at their visit |
| KeyStore.SweepIsExact | business/keystore/keystore.go:127-143 | A full pass deletes all that had expired when it began and keeps all that has not expired when it ends; in no time it leaves exactly the unexpired keys |
| KeyStore.PassStep | business/keystore/keystore.go:127-143 | One iteration keeps the loop's invariant: the part of the pass done, what is left to visit, and old size = new size + expired count |
| KeyStore.KeyStore.New | business/keystore/keystore.go:38-60 | A new keystore holds exactly one key, stored and active, expiring one period after a reading of the clock taken meanwhile; none if the first key cannot be generated |
| KeyStore.KeyStore.Signer | business/keystore/keystore.go:62-74 | The key for a known id, an error for another, no regard to expiry; blocks exactly on a value of a wrong type, which a typed map never has |
| KeyStore.KeyStore.Active | business/keystore/keystore.go:76-80 | The active id and what `Signer` says of it |
| KeyStore.KeyStore.Revoke | business/keystore/keystore.go:82-85 | Removes that key and nothing else |
| KeyStore.KeyStore.AddKey | business/keystore/keystore.go:152-163 | Adds the generated key, expiring one period after the reading of the clock, and makes it active; on failed generation changes nothing |
| KeyStore.KeyStore.Expire | business/keystore/keystore.go:125-147 | For every visiting order: on a typed map no error, the map left is what the pass leaves, and the count is the number of keys removed |
| KeyStore.KeyStore.Rotate | business/keystore/keystore.go:119-150 | Old keys plus the new active one, then a full pass; both type-error branches are unreachable on a typed map |
| RotationRefinement.RotationOutcome | business/keystore/keystore.go:119-150 | For every order and every clock: old size + 1 = new size + expired count, what is left is old and unexpired or new, what has not expired at the end is left, and the new key survives if the pass takes no longer than the expiration period |
| RotationRefinement.PassIsRun | business/keystore/keystore.go:127-143 | A pass of the object is a run of visits and deletions of `KeyRing` with the same store and count |
| RotationRefinement.RotationIsRun | business/keystore/keystore.go:119-163 | A rotation of the object, as its contract describes it, is a run of `KeyRing` to exactly that store, active key and clock |
| RotationRefinement.RevokeIsRun | business/keystore/keystore.go:82-85 | A revocation on the object, as its contract describes it, is the revocation step of `KeyRing`, whatever the rotation is doing |
| Tokens.TokenParsesUntilExp | business/auth/auth.go:31-60 | A token whose lifetime plus the age of the active key when it is read is at most the expiration period + 1 ns parses to its own record at every instant before its exp, unless its very key was revoked by hand |
| Tokens.TokenCutShort | business/auth/auth.go:46-60 | Beyond the bound below there is a run on schedule without revocations in which a token is refused for want of its key before its exp |
| Tokens.TokensOutlastIff | business/auth/auth.go:31-60 | In all runs on schedule without revocations no token is refused before its exp, if and only if lifetime + 2 gap is at most the expiration period + 1 ns, with gap + lag for 2 gap where a lag below the gap is given |
| Tokens.DefaultLifetimes | cmd/wishapi/main.go:51-59 | With keys kept 48 h and changed at most 24 h apart: tokens of 30 min are always honoured if and only if `active` is set within 23.5 h + 1 ns of computing the expiry, tokens of 36 h never |
| Tokens.RefusedForGood | business/auth/auth.go:46-60 | A token whose key has left the store is refused in every later state |
| Tokens.RevokedTokenRefused | business/auth/auth.go:46-60 | After `Revoke` of its key a token is refused for want of the key in every state of every run |
| Tokens.ParseOkIff | business/auth/auth.go:46-60 | A string parses to a record if and only if it is a token with that record, names a held key, bears that key's signature and is within its dates |
| Tokens.ClaimsDates | business/auth/claims.go:16-45 | exp and nbf are whole units, exp less than a unit before its reading plus the lifetime, nbf less than a unit before its reading |
| Tokens.PiecesHaveNoSeparator | business/auth/auth.go:65 | No piece of a split contains the separator |
| Tokens.JoinUndoesSplit | business/auth/auth.go:65 | Joining the pieces of any string gives the string back |
| Tokens.SplitUndoesJoin | business/auth/auth.go:65 | Splitting joined pieces without separators gives the pieces back |
| Tokens.BearerTokenIff | business/auth/auth.go:64-71 | A header passes a string on if and only if it is "Bearer ", then that string, which is not empty and has no space |
| Tokens.NoBearerNoToken | business/auth/auth.go:64-71 | A header has a token if and only if it is "Bearer " followed by something not empty and without spaces |
| Otp.EncodeInPlace | business/otp/otp.go:78-80 | The loop overwrites each byte with the digit its old value stands for |
| Otp.GenCode | business/otp/otp.go:71-83 | One digit for each random byte b, the last digit of b + 1; None if the random source fails |
| Otp.CodeOf | business/otp/otp.go:69-83 | The code of any bytes, character by character: 0 gives '1', 8 gives '9', 9 gives '0' |
| Otp.PreimagesExact | business/otp/otp.go:69-83 | The set counted below holds exactly the byte strings that give the code |
| Otp.PreimageCount | business/otp/otp.go:69-83 | Exactly 26^k 25^(n-k) byte strings give a code of length n with k characters between '1' and '6' |
| Otp.NoCodeIsFavoured | business/otp/otp.go:69-83 | Between 1 and 26^n byte strings give any code of length n |
| Otp.EveryCodeReachable | business/otp/otp.go:69-83 | Every string over the ten digits is the code of some bytes |
| Otp.AllCodesCount | business/otp/otp.go:69-83 | The counts over all codes of length n add up to 256^n |
| Otp.OTP.Check | business/otp/otp.go:41-56 | Accepts exactly the code that is live at its Get, and uses up whatever code is there at its Del, with any change of the store in between; a refusal changes nothing |
| Otp.OTP.Exists | business/otp/otp.go:58-67 | Whether a code is live, or the store's error |
| Otp.OTP.Save | business/otp/otp.go:85-90 | Replaces the identity's code and touches no other; on a store error nothing changes |
| Validate.Passv | business/validate/custom.go:13-33 | True if and only if the password has at least 8 bytes, an upper-case letter, and a number that is not one |
| Validate.NumericIff | cmd/wishapi/v1/handlers/usergrp/model.go:32-35 | The numeric tag is the pattern: an optional sign, digits, optionally a dot and digits |
| Validate.CodePassesIff | cmd/wishapi/v1/handlers/usergrp/model.go:32-35 | A generated code passes the tags of the request if and only if the configured length is 6 |
| Validate.RegisteredMayLogInIff | cmd/wishapi/v1/handlers/usergrp/model.go:5-18 | A password that registers is refused by the login tags only for more than 32 characters, or for fewer than 8, which takes a character beyond ASCII; so an ASCII one passes if and only if it has at most 32 |
| Validate.ShortWidePassword | business/validate/custom.go:13-16 | Beyond ASCII a password of four characters passes registration and not login |
| Provenance.InvRun | cmd/wishapi/v1/handlers/usergrp/usergrp.go:72-202 | Over every interleaving of the handlers' calls, evictions, rotations and revocations: each event in the history was justified when it happened, live codes are saved codes, issued tokens carry a minted key's signature, and rows are unique, permanent and accounted for |
| Provenance.InvStep | cmd/wishapi/v1/handlers/usergrp/usergrp.go:72-202 | Every single call of a handler, every eviction and every step of the keystore keeps that invariant |
| Provenance.CodeProvenance | cmd/wishapi/v1/handlers/usergrp/usergrp.go:98-123 | A live code was mailed to its address and then saved |
| Provenance.TokenProvenance | cmd/wishapi/v1/handlers/usergrp/usergrp.go:128-144 | A token for a non-empty address follows a successful check of a code saved for and before that mailed to exactly that address |
| Provenance.AccountProvenance | cmd/wishapi/v1/handlers/usergrp/usergrp.go:146-171 | Each new account with an address traces back through created, issued, checked, saved and mailed, in that order, for that address and one code |
| Provenance.EmptyAddressIff | cmd/wishapi/v1/handlers/usergrp/usergrp.go:152-163 | A new account's address is empty if and only if its token was issued on a password check, which was for a stored account; otherwise it is the address whose code was checked |
| FirstVisit.SessionTokenRegisters | cmd/wishapi/v1/handlers/usergrp/usergrp.go:152-163 | After every start with a stored user and no account without an address there is a run in which that user's session token registers one |
| Provenance.VerifiedIff | cmd/wishapi/v1/handlers/usergrp/usergrp.go:152-163 | When register creates an account, a code of its address has been checked if and only if the record of the token presented has an address, which is if and only if it is not that of a session |
| Provenance.ParsedIsIssued | business/auth/auth.go:46-60 | A token that parses was issued by the program, if signatures are not forged |
| Provenance.AdmissionProvenance | business/web/middlewares/auth.go:11-26 | Whoever passes Auth with an id of at least 1 holds a token issued, earlier, to that stored user after a login with a password that the stored hash accepts |
| Provenance.AdmittedIff | business/web/middlewares/auth.go:15-21 | The id handed on is at least 1, and different from 0, if and only if the token was issued on a password |
| FirstVisit.VerifiedTokenAdmitted | business/web/middlewares/auth.go:15-21 | After every start a token for an address just verified passes Auth and is handed on as user 0 |
| Provenance.AdmissionStep | business/web/middlewares/auth.go:13-21 | An admitted token is an issued one within its dates whose key is held at that moment; everyone else is answered 401 without effect |
| Refusals.MalformedIsRefused | cmd/wishapi/v1/handlers/usergrp/model.go:5-39 | Each request goes on to its first call if and only if every field keeps its rule, the rules spelled out with their limits, and is answered 400 otherwise |
| Refusals.NoBearerRefused | business/auth/auth.go:64-71 | register and every route behind Auth answer 401, with no other effect, to a header without the bearer form |
| Refusals.RevokedIsRefused | business/keystore/keystore.go:82-85 | After `Revoke` of a key, in every run, both answer 401, with no other effect, to each token that names it |
| Refusals.WrongPasswordRefused | business/entities/user/user.go:54-65 | The comparison of a password with the hash of another answers 401, with no other effect |
| Refusals.WrongPasswordNeverServed | cmd/wishapi/v1/handlers/usergrp/usergrp.go:173-202 | In no run is a login answered 200 or with a token whose password is not the one its account was made with, even if the account is made while the login is under way |
| Protocol.TakenIff | business/database/migration/sql/20231129162030_create_users_table.up.sql:2-4 | Address and username count as taken if and only if the row would break the constraints of the table |
| OneTime.CodesAreConserved | business/otp/otp.go:41-90 | In every run, codes saved = codes cleared by a check + codes lost + the live one |
| OneTime.NoMoreChecksThanCodes | business/otp/otp.go:41-56 | Where checks of an address do not overlap, checks + live code is at most saves: never more checks than codes, fewer while one is live |
| OneTime.CodeAcceptedTwice | business/otp/otp.go:41-56 | A run with one saved code and two successful checks of it |
| OneTime.OverlappingChecks | business/otp/otp.go:41-56 | From every state with a live code two requests can both be accepted |
| OneTime.NotAlwaysAlone | business/otp/otp.go:41-56 | More checks than saves occur only in runs where two checks of the address overlap |
| OneTime.CanBeAcceptedTwiceIff | business/otp/otp.go:41-56 | In any reachable state a code can still be accepted twice without being saved again, by whatever requests are under way or to come, if and only if it is live and passes validation or two checks already stand with it |
| OneTime.AcceptedTwiceIff | business/otp/otp.go:41-56 | In any run from the start, one code is accepted twice without being saved in between if and only if the later check already stood with it when the earlier deleted, without its being saved in between |
| Mailing.SoleMailerIff | cmd/wishapi/v1/handlers/usergrp/usergrp.go:86-123 | In any state, the verifications of an address under way cannot by themselves come to mail a code while one is live, if and only if whoever is still to mail one is the only one sending and none is live |
| Mailing.MailedWhileLiveIff | cmd/wishapi/v1/handlers/usergrp/usergrp.go:86-123 | Each mail in any run from the start was sent while a code for its address was live if and only if another request saved that code after the sender had found none |
| Mailing.MailedWhileLive | cmd/wishapi/v1/handlers/usergrp/usergrp.go:86-123 | A run of two overlapping verifications: one code mailed and saved, then the other mailed while the first is live |
| Mailing.MailedToUserIff | cmd/wishapi/v1/handlers/usergrp/usergrp.go:78-84 | Each mail in any run from the start went to an address with an account if and only if the sender's lookup missed the user, or the account was created after that lookup |
| Mailing.UserIsMailed | cmd/wishapi/v1/handlers/usergrp/usergrp.go:78-84 | A run in which a lookup errs while reading rows and a code is mailed to a stored user |
| OneTime.MailedOnlyWhenNoneLive | cmd/wishapi/v1/handlers/usergrp/usergrp.go:86-123 | Where verifications of an address do not overlap, no code is live from the moment a new one is about to be mailed until it is saved |
| OneTime.FirstCode | cmd/wishapi/v1/handlers/usergrp/usergrp.go:72-126 | verifyEmail for an unknown valid address can mail, save and leave live any code of the right shape, and answers 204 |
| RoundTrip.CodeIsRedeemed | cmd/wishapi/v1/handlers/usergrp/usergrp.go:128-144 | With code length 6 a live code passes validation and Check, and the request, if nothing fails from outside, is answered 200 with a token for that address, whatever else runs |
| RoundTrip.RegistrationIsKept | cmd/wishapi/v1/handlers/usergrp/usergrp.go:146-171 | register with a token still good answers 201 only if the account is in the table with the token's address and the request's name, username and password |
| RoundTrip.LoginFindsAccount | cmd/wishapi/v1/handlers/usergrp/usergrp.go:173-202 | Login with a stored account's address and password, if valid as a request and nothing fails from outside, is answered 200 with a token for exactly its id |
| RoundTrip.UsersStayRun | business/entities/user/user.go:33-52 | No run removes or changes an account or an issued token |
| RoundTrip.VisitSucceeds | cmd/wishapi/v1/handlers/usergrp/usergrp.go:72-202 | The whole way, in runs full of other requests: code to a token for its address, that token and a 201 to exactly the account asked for, that account's password to a session token with exactly its id |
| FirstVisit.VisitHappens | cmd/wishapi/v1/handlers/usergrp/usergrp.go:72-202 | Such a way exists right after every start, for every visitor with valid, untaken data and every code that may be drawn |
| Sessions.EveryTokenServes | business/auth/auth.go:31-60 | In a run on schedule whose lifetimes and greatest key age fit, every token that any handler issued parses to its own record until its exp, unless its key was revoked by hand |
| Sessions.TimelyRun | business/auth/claims.go:16-45 | Along such a run no token outlives its key, through every point where a handler computes dates, reads `active` and loads the key |
| Sessions.VisitOnSchedule | cmd/wishapi/v1/handlers/usergrp/usergrp.go:72-202 | The whole way again, in runs on schedule without revocations whose lifetimes fit, with no premise about keys: every key the requests need is there, if they sign before the token to be signed would expire |
| Handlers.Auth.Token | business/auth/auth.go:31-44 | Signs with the active key and names it in kid; fails exactly when that key is not held |
| Handlers.Auth.ParseToken | business/auth/auth.go:46-60 | Checks kid, key, signature and dates in that order, as the parsing function of `Protocol` does |
| Handlers.Auth.ParseFromBearer | business/auth/auth.go:62-71 | The same on the token of a bearer header; every header that is not "Bearer " and a non-empty token without spaces is malformed |
| Handlers.Mailer.Send | cmd/wishapi/v1/handlers/usergrp/usergrp.go:108-119 | Appends one mail or fails without effect |
| Handlers.UserTable.LookUpEmail | business/storage/postgres/userdb/userdb.go:46-59 | The one row with that address, or none; none too when reading the rows fails |
| Handlers.UserTable.Create | business/entities/user/user.go:33-52 | Adds one row under the given id, unless the call fails or a stored row has the same address or the same username, that is unless the row would break the table's constraints; otherwise changes nothing |
| Handlers.UserGroup.New | cmd/wishapi/v1/handlers/usergrp/usergrp.go:41-70 | A group over the given parts with an empty code store of its own; none if the template does not parse |
| Handlers.UserGroup.VerifyEmail | cmd/wishapi/v1/handlers/usergrp/usergrp.go:72-126 | For every outcome of every call: status, code store, mailbox and table afterwards; the code saved is the one mailed, and nothing is saved that was not mailed |
| Handlers.UserGroup.MailCode | cmd/wishapi/v1/handlers/usergrp/usergrp.go:98-125 | Its second half: code, message, mail, save, in that order, each failure with what was done before it |
| Handlers.UserGroup.Issue | business/auth/claims.go:16-45 | A token for the record with exp and nbf from two readings of the clock, signed with the active key; none exactly when that key is not held |
| Handlers.UserGroup.VerifyOtp | cmd/wishapi/v1/handlers/usergrp/usergrp.go:128-144 | For every outcome of every call: 401 and nothing changed for a wrong code, otherwise the code is used up and a token answered or, without the active key or if the answer fails, 500 |
| Handlers.UserGroup.Register | cmd/wishapi/v1/handlers/usergrp/usergrp.go:146-171 | For every outcome of every call: 400, 401, 500 without effect, or 201 and exactly the row asked for under the token's address |
| Handlers.UserGroup.Authenticate | cmd/wishapi/v1/handlers/usergrp/usergrp.go:173-202 | For every outcome of every call: the status, and on 200 a token with the id of the row found; never a change of code store, mailbox or table |
| Handlers.VerifyEmailAnswers | cmd/wishapi/v1/handlers/usergrp/usergrp.go:72-126 | When exactly verifyEmail answers 400, 425, 503 and 204, what it mails, and that it saves only with 204 |
| Handlers.VerifyOtpAnswers | cmd/wishapi/v1/handlers/usergrp/usergrp.go:128-144 | When exactly verifyOTP answers 400, 401 and 200, with which token, and when the code is used up |
| Handlers.RegisterAnswers | cmd/wishapi/v1/handlers/usergrp/usergrp.go:146-171 | When exactly register answers 400, 401 and 201, and that only 201 changes anything |
| Handlers.AuthenticateAnswers | cmd/wishapi/v1/handlers/usergrp/usergrp.go:173-202 | A valid login for a stored account is answered 401 for every password but the account's, and with a session token of the account for that one |
| HandlerRuns.VerifyEmailIsRun | cmd/wishapi/v1/handlers/usergrp/usergrp.go:72-126 | What VerifyEmail's contract says is what a run of its thread in `Protocol` does, from every state and for every outcome of its calls |
| HandlerRuns.VerifyOtpIsRun | cmd/wishapi/v1/handlers/usergrp/usergrp.go:128-144 | The same for VerifyOtp |
| HandlerRuns.RegisterIsRun | cmd/wishapi/v1/handlers/usergrp/usergrp.go:146-171 | The same for Register |
| HandlerRuns.AuthenticateIsRun | cmd/wishapi/v1/handlers/usergrp/usergrp.go:173-202 | The same for Authenticate |
| HandlerRuns.ServeVerifyEmail | cmd/wishapi/v1/handlers/usergrp/usergrp.go:72-126 | When the objects stand for a state of `Protocol`, one call leads, by a run, to a state they stand for afterwards, in which the thread gives the call's answer and no other thread has moved |
| HandlerRuns.ServeVerifyOtp | cmd/wishapi/v1/handlers/usergrp/usergrp.go:128-144 | The same for verifyOTP |
| HandlerRuns.ServeRegister | cmd/wishapi/v1/handlers/usergrp/usergrp.go:146-171 | The same for register, if the token presented is not forged |
| HandlerRuns.ServeAuthenticate | cmd/wishapi/v1/handlers/usergrp/usergrp.go:173-202 | The same for authenticate |
| Web.ChainClasses | foundation/web/error.go:22-48 | The class tests find a class if and only if it occurs anywhere in the wrap chain, and the end-user error found is the first |
| Web.StatusByClass | business/web/middlewares/errors.go:25-48 | The answer to an error is that of the first end-user error in its chain, else 400 for field errors, else 503 for an external error, else 500 |
| Web.ReplyByClass | business/web/middlewares/errors.go:30-48 | The whole answer without an end-user error: message, status, and for field errors the fields of the first ones in the chain |
| Web.FieldMapIs | business/web/middlewares/errors.go:30-37 | Each field answered has its last entry |
| Web.WrapAndHide | foundation/web/error.go:27-48 | Wrapping an error does not change its answer; an external error is answered 503 whatever is inside |
| Web.RespondTo | foundation/web/web.go:103-122 | On the real objects, with or without request values: one status written, except when encoding fails, the shared status set first, a body exactly when there is one to write and both steps succeed |
| Web.ApplyMiddlewares | foundation/web/web.go:43-52 | The downward loop builds the right fold that skips nil entries |
| Web.FoldAppend | foundation/web/web.go:62-64 | Applying the route's and then the app's middlewares is applying app ++ route once |
| Web.ProperlyNested | foundation/web/web.go:43-64 | For pass-through layers, nil entries included, the trace enters in order, serves, and exits in reverse, on whatever trace came before |
| Web.EveryRequestAnswered | foundation/web/web.go:62-101 | For any route whose handler writes one response exactly when it returns nil: one status written, logged as sent, and no shutdown asked for, except exactly when the answer to an error cannot be encoded or written; then one shutdown is asked for. A wrong method is answered 405 without a log line |
| Web.ServedAsDecided | business/web/middlewares/auth.go:11-26 | Behind any Auth middlewares a handler that decides and then responds does what its verdict says: the first Auth to refuse answers 401 for it, otherwise it sees the id last attached |
| Web.VerdictIs | business/web/middlewares/auth.go:11-26 | If any Auth refuses the answer is 401; otherwise the handler decides with the user id of the last Auth |
| Web.RespondLastIsProper | foundation/web/web.go:103-122 | Such handlers write one response exactly when they return nil, if encoding and writing succeed |
| Web.RouteAnswersOnce | business/web/middlewares/errors.go:14-62 | For every request to the program's routes: a shutdown is asked for if and only if the answer has a body that cannot be encoded or written; otherwise exactly one status is written, that of the verdict, and it is the one logged |
| Shutdown.InvRun | business/keystore/keystore.go:93-97 | In every run of the channel: accepted signals are in the channel or received once, and each receiver has stopped receiving exactly when it has received |
| Shutdown.EachSignalOnce | cmd/wishapi/main.go:96-97 | Every accepted signal is in the channel or with one receiver, and each receiver gets at most one |
| Shutdown.TwoSignalsReachMain | cmd/wishapi/main.go:191-205 | If two signals have been received, the select of run has received one |
| Shutdown.NoRoundAfterSignal | business/keystore/keystore.go:93-117 | After its signal the rotation loop never begins another round |
| Shutdown.MayMissMainIff | foundation/web/web.go:54-56 | The signal in the channel can end with the rotation loop if and only if that loop still listens |
| Shutdown.SignalArrives | cmd/wishapi/main.go:96-97 | Once a signal has been sent one has been accepted, however full the channel was |
| Shutdown.FailedRoundIsFinal | business/keystore/keystore.go:101-104 | After a failed rotation the loop is blocked for good; after a good one it waits again |
| Shutdown.RotationRounds | business/keystore/keystore.go:87-117 | The loop stops at the first signal or failed rotation and its round counter is the number of rotations begun |
| Database.StatusCheck | business/database/db/db.go:79-108 | Terminates for every behaviour of the pings, and of a context that ends at its deadline, one second if it has none, or is cancelled earlier, and reports which; at most n pauses, n the least positive number that fill the time left, pauses asked for under D + 100 n ms when D > 0, and exactly n against a database that never answers |
| Database.PausedClosedForm | business/database/db/db.go:87-96 | n pauses ask for 50 n (n + 1) ms |
| Database.QueryString | business/database/db/db.go:172-195 | The replace-first loop, tidied at the end, gives positional substitution if a value with a mark in it is followed by nothing but marks; the error's text if the arguments cannot be named |
| Database.FilledIsSubst | business/database/db/db.go:178-189 | Replacing the first mark, value by value, is simultaneous substitution, whatever the numbers of marks and values, if a value with a mark in it is followed by nothing but values that are just a mark |
| Database.FilledIsSubstIff | business/database/db/db.go:178-189 | For every list of values that condition holds if and only if every query text comes out right from the loop, before it is tidied |
| Database.SubstFirst | business/database/db/db.go:178-189 | Substitution puts the first value for the first mark, leaves what comes before, and goes on with the other values after it; without marks or values the text stays |
| Database.RenderIs | business/database/db/db.go:180-188 | Text and bytes stand between quotes, everything else as it prints |
| Database.TidyIs | business/database/db/db.go:191-194 | The returned text has no tab, no newline and no space at either end, and apart from blanks is the text filled in |
| Database.TidyBlanks | business/database/db/db.go:191-192 | A tab disappears and a newline becomes a space |

## Left out

- HTTP transport, JSON text, tracing, log formatting, environment parsing, containers and the admin commands: plumbing around the modelled code.
- Middlewares and handlers as closures over live objects: a Dafny method is not a value, so in `Web` a handler is a function from request and shared state to shared state and error. `ApplyMiddlewares` keeps the loop, `RespondTo` the update through the shared pointer.
- Which `WriteHeader` calls reach the client: `written` lists the statuses handed to the response writer, so a second one after a failed write is listed too.
- Ed25519, bcrypt, UUIDs: symbolic as described above, and ids of new keys are assumed fresh.
- Failures inside bcrypt, such as passwords over 72 bytes: one of the ways in which creating an account may fail.
- Parsing and signing are one step each at one reading of the clock; `iat`, issuer and subject, which nothing reads back, are not part of a token.
- The cache behind the codes: a map that may lose any entry at any step, so no lower bound on the lifetime of a code is claimed.
- Mail delivery: sending appends to a mailbox or fails without effect.
- Postgres: a table of unique addresses and usernames with ids from 1; lookups and inserts are atomic and may fail without effect.
- Duplicate registration is answered 500, as in the code: the query path does not map the unique violation (business/database/db/db.go:152-158), so the branch for it in `register` is never taken.
- A failed key generation ends the rotation loop: the program then sends on a channel it never set and blocks for good.
- Go's memory model: reads and writes of `active` are atomic steps.
- KeyStore.KeyStore.Rotate: called one at a time, as the program's single rotation goroutine does; what interleaves with it is in `KeyRing`.
- Database.StatusCheck: the final `SELECT true` may fail by itself; the outcome only says that it is sent.
- The ticker: a schedule speaks of the changes of the active key. A Go ticker gives no upper bound on the time between them.
- Failing to answer with a token is one outcome, 500 with the token issued but not told. Which bytes reached the client before is not modelled.
- A lookup that errs while reading rows is modelled, an insert that errs after the row was stored is not.
- OneTime.NoMoreChecksThanCodes: one direction; overlapping checks may well stay within the bound. `OneTime.AcceptedTwiceIff` and `OneTime.CanBeAcceptedTwiceIff` have the exact conditions for one code.
- Panicking handlers, status codes that `WriteHeader` rejects, and the unfinished wishlist handler.
