# Verified model of postfix-m365-relay

postfix-m365-relay sends mail through Microsoft 365 with a certificate instead of a
password. Its scripts rotate that certificate unattended, keep a short-lived token in a
file the mail server reads, and tell an operator durably when something breaks. This
project models those scripts and the XOAUTH2 sink the container tests run against, and
proves what they promise over every interleaving, death and reply.

## How it is laid out

- `RelayWorld` is the certificate protocol as an event machine: any number of instances
  share one app registration, each with eight files, one JSON state file and at most one
  running process. Every event is one effect (one write, one rename, one request), a death
  may come between any two, and directory reads may show anything. `RelayInvariant` proves
  what every step keeps; `RelaySafety`, `RelayReset`, `RelayRuns`, `RelayRetirement` and
  `RelayHistory` state the results, over whole histories; `RelayWitness` builds histories that show where a
  promise fails. `RelayPaths` says when the eight names are eight files, and ties the
  machine's slots to them.
- `RotationProcess` is the script itself, statement by statement: a process whose methods
  perform those events, with other instances acting after each one. `TokenFailure` is the
  classification of a failed token request.
- `Base64`, `Thumbprint`, `OwnerStamp` and `Ownership` carry the classification of a
  credential down to the strings the directory returns. `RotationWindow` is the renewal
  arithmetic.
- `AlertStore` is the alert engine (incidents, outbox, two channels); `AlertLog` is the
  vocabulary and the lemmas it is specified in, with the pure machine the engine refines
  while nothing goes wrong.
- `TokenFile` is the token file: minters and readers in any interleaving, then one minter's
  program.
- `SmtpSession` is one session of the sink as a function of the bytes a client sends;
  `SmtpSink` is its read loop, `SmtpSafety` what every session keeps, `XOAuth2` and
  `SmtpRoundTrip` the parsers against their printers.

## What was found

Each of these is proved, with the exact condition where there is one.

- A removal can name this instance's live credential, but only through a scheduled
  retirement whose certificate is live again, and that takes an operator's roll back of the
  `.previous` pair with the live certificate not replaced since. Then the next rotation past
  the grace period removes it (`RelaySafety.RemovalHitsOwnLive`,
  `RelaySafety.LiveCredentialStays`, `RelayRuns.RetiringLiveHits`,
  `RelayWitness.RollBackThenRetireHitsLive`).
- Putting the `.previous` pair back mixes the live pair exactly when those two files are of
  two generations, as a death between the two renames that make them leaves them
  (`RelaySafety.RollBackMixesExactly`).
- A death during the four renames mends itself if and only if it came after the fourth.
  Before that the live pair is incomplete, every later rotation and recovery pass leaves it
  exactly as it is, and only a reset or an operator's roll back changes it, although both
  whole pairs are on disk (`RelayRuns.DeathHealsExactly`, `RelayRuns.IncompleteStays`).
- `--reset` leaves a mixed live pair exactly when it starts beside a certificate without
  its key, as a rotation that died after its first rename leaves it, and then dies itself
  between writing the new key and the new certificate (`RelayReset.ResetMixesExactly`,
  `RelayReset.MixedOnlyByReset`, `RelayWitness.ResetAfterHalfSwapMixes`).
- The script takes any two file names in a `secrets` directory, but replaces their
  suffixes: `relay.key` and `relay.crt` share `relay.pem.new` and `relay.pem.previous`. The
  certificate then overwrites the new key, the second rename overwrites the old one, and the
  fourth raises (`RelayPaths.OneStemLosesBothKeys`, `RelayPaths.KeyAndCrtShareAStem`). The
  eight names are eight files if and only if the two settings differ in directory or stem
  and neither is a derived name of the other; both pairs survive the renames if and only if
  that holds of the six names used (`RelayPaths.EightNames`,
  `RelayPaths.SwapKeepsBothPairs`). The default names are eight files.
- docs/CONFIGURATION.md says a standby needs both a streak of faults and a time since the
  fault began. The two pops at scripts/rotate-smtp-relay-cert.py:714-715 and 741-742 are
  joined by `or`, so one healthy pass drops the streak and keeps the start time: the clock
  is that of the current fault run if and only if at least two healthy passes came before it
  (`RelayHistory.ClockIsFirstFault`, `RelayWitness.OneHealthyPassKeepsClock`).
- An instance id of more than 128 characters is cut when its stamp is read, and the
  instance then classifies its own keys as another instance's; up to 128 it never does
  (`Ownership.OwnKeyLooksForeign`).
- Two instances whose ids are alike after normalising and cutting take each other's keys for
  their own superseded ones, which `--remove-key` then deletes without a flag: "a b" and
  "a-b" are one id, and an id of 129 characters is read as its first 128
  (`Ownership.TakenForOwn`, `Ownership.SettingsCollide`).
- The key of a replaced certificate is not always retired: a death between the swap and the
  state write, a read without a match, a second swap inside the grace period and a reset each
  lose at most one (`RelayRetirement.ReplacedKeysAreAccounted`).
- A death between the incident file and its notice leaves an open incident whose opening is
  never announced, then or later, and repeats are suppressed (`AlertStore.OpenedInSilence`,
  `AlertLog.OneDeathSilences`); on recover the notice is lost the same way. Each reference is
  told of at most once with each status, so the opening of an incident on disk was never
  announced if and only if a death took its notice, and the recovery of a closed one
  likewise; each such death takes one notice (`AlertLog.SilentExactly`,
  `AlertLog.LostForGood`, `AlertLog.OnePerTrouble`). An incident file that cannot be read is
  opened anew without a recovery (`AlertLog.NothingMissing`).
- With `--renew-at` one day below `--validity`, which the window check accepts, a fresh
  certificate is due at once (`RotationWindow.DueAtOnce`).

## What is assumed

- One process per instance at a time.
- Key and certificate settings whose eight names are eight files (`RelayPaths.Apart`). Names
  are compared as text: links and mounts that give one file two names are not modelled.
- Instances of one app registration whose normalised ids are distinct and have 1 to 128
  characters (`Ownership.DistinctIds`), or no id at all.
- An addKey call that is answered with anything but 200 created no key. A gateway error after
  a successful addKey would break that, and the key would be outside the accounting; only a
  call that gets no answer at all may have created one.
- Fresh thumbprints, incident references and PIDs of running minters; a directory that stores
  the stamp and the thumbprint it was given.
- No program but these writing the files, apart from the operator events the machine has
  (uploading a certificate, deleting one in the portal, putting the `.previous` pair back).

- A clock that is not before 1970.

Answers of the network and of the file system, times, deaths and what other processes do are
arbitrary: a method takes them as inputs, and says what it makes of them. Which effects a
process does not live to see is an input too, so that a method may end early only where
something kills it. A request that raises is a death of the process.

## Model

| member | source | states |
|---|---|---|
| RelayInvariant.StepKeepsInv | scripts/rotate-smtp-relay-cert.py:886-1359 | every effect of every process, and every death, keeps the certificate-protocol invariant of all instances |
| RelayInvariant.AlwaysInv | scripts/rotate-smtp-relay-cert.py:886-1359 | the invariant holds after every history from first boot |
| RelaySafety.RemovalHitsOwnLive | scripts/rotate-smtp-relay-cert.py:946-982 | removeKey names the acting instance's live credential if and only if it retires a certificate that is live now, which needs an operator's roll back |
| RelaySafety.RemovalSparesOthers | scripts/rotate-smtp-relay-cert.py:1051-1092 | without the two override flags, removeKey never names the live credential of another instance, for instances that can be told apart (distinct normalised ids of at most 128 characters) |
| RelaySafety.HandRemovalTable | scripts/rotate-smtp-relay-cert.py:1051-1092 | a hand removal may name a key if and only if it is not live here and is the recorded retirement, or has this instance's stamp, or has another's and the override flag is given, or has no readable owner and either flag is given |
| RelaySafety.YesAloneSparesStamped | scripts/rotate-smtp-relay-cert.py:1077-1083 | over every history --yes alone never lets a named instance remove a key with another instance's stamp |
| RelaySafety.LiveCredentialStays | scripts/rotate-smtp-relay-cert.py:1094-1152 | a careful step of any instance takes a live certificate's credential off the directory if and only if it is that instance's own retirement of it, never while the recorded retirement is for a certificate that is not live |
| RelaySafety.LivePairNeverMixed | scripts/rotate-smtp-relay-cert.py:1313-1320 | at every point of every history a complete live pair is one generation, unless a reset began beside a certificate, or an operator put two generations back, and the live certificate has not been replaced since |
| RelaySafety.RollBackMixesExactly | scripts/rotate-smtp-relay-cert.py:1314-1317 | putting the `.previous` pair back mixes the live pair if and only if it is two generations |
| RelaySafety.SwapLosesNothing | scripts/rotate-smtp-relay-cert.py:1313-1320 | with eight distinct file names, after any number of the four renames, of rotation or adoption, both whole pairs are on disk and nothing mixed is live |
| RelayRuns.AdoptionHeals | scripts/rotate-smtp-relay-cert.py:621-649 | a death after the fourth rename leaves a whole live standby, and the next pass whose live pair mints settles the state and keeps it |
| RelayRuns.RotationHeals | scripts/rotate-smtp-relay-cert.py:1111-1120 | a death after a rotation's fourth rename leaves a whole new live pair, and the next rotation clears the recorded addition without removing it |
| RelayRuns.IncompleteStays | scripts/rotate-smtp-relay-cert.py:719-724 | an incomplete live pair at rest is left exactly as it is by every history without the start of a reset or a roll back |
| RelayRuns.DeathHealsExactly | scripts/rotate-smtp-relay-cert.py:1313-1320 | after a death during the renames some history without such a hand ends with a whole live pair if and only if all four were done |
| RelayRuns.RetiringLiveHits | scripts/rotate-smtp-relay-cert.py:1141-1150 | an instance at rest whose recorded retirement is for its live certificate can remove that credential in its next rotation past the grace period |
| RelayReset.ResetFollowsShape | scripts/rotate-smtp-relay-cert.py:886-908 | at any point of a running reset, each live file as a function of the files it started with |
| RelayReset.ResetMixesExactly | scripts/rotate-smtp-relay-cert.py:886-908 | a reset that writes its key shows a mixed pair then if and only if it started beside a certificate without a key, and a death there leaves it so |
| RelayReset.MixedOnlyByReset | scripts/rotate-smtp-relay-cert.py:886-908 | a mixed pair during a reset that started with a sound one means the new key is written beside the lone old certificate |
| RelaySafety.LedgerRecounts | scripts/rotate-smtp-relay-cert.py:1205-1263 | the ledger the accounting is stated in, and the removeKey calls sent, equal what is read off the history |
| RelaySafety.AddedKeysAreAccounted | scripts/rotate-smtp-relay-cert.py:1099-1140 | every key addKey ever created was live, was seen absent after removal, is recorded, is in the running process, or is lost; losses are at most the deaths in the unrecorded window plus resets |
| RelaySafety.OneOutstandingKey | scripts/rotate-smtp-relay-cert.py:1137-1140 | at most one added key is unresolved at any time |
| RelayRetirement.ReplacedKeysAreAccounted | scripts/rotate-smtp-relay-cert.py:1321-1359 | the key of every certificate a completed swap replaced is scheduled, about to be, was seen absent, or is lost; losses are at most the deaths before the write, reads without a match, overwritten records and resets |
| RelayPaths.EightNames | scripts/rotate-smtp-relay-cert.py:579-580 | for all key and certificate settings the eight names are pairwise distinct if and only if they differ in directory or stem and neither is a derived name of the other |
| RelayPaths.SwapKeepsBothPairs | scripts/rotate-smtp-relay-cert.py:1313-1319 | on any file system, both pairs survive any number of the renames if and only if the six names used are distinct |
| RelayPaths.OneStemLosesBothKeys | scripts/rotate-smtp-relay-cert.py:1188-1189 | with one stem, staging overwrites the new key, the second rename destroys the old key, and the fourth raises |
| RelayPaths.KeyAndCrtShareAStem | scripts/rotate-smtp-relay-cert.py:281-291 | relay.key and relay.crt, which the settings accept, are one stem |
| RelayPaths.DefaultsAreApart | scripts/rotate-smtp-relay-cert.py:281-282 | the default names are eight files |
| RelayPaths.UsualNames | scripts/rotate-smtp-relay-cert.py:1188-1189 | the names derived from a usual name, and the names whose dot starts no suffix |
| RelayPaths.RenamesMoveSlots | scripts/rotate-smtp-relay-cert.py:1316-1319 | with eight files, a rename on the file system moves the slots of the protocol as the machine has it |
| RelayPaths.WritesSetSlots | scripts/rotate-smtp-relay-cert.py:1188-1202 | with eight files, writing or removing one changes that slot and no other |
| RelayHistory.AlwaysRemembers | scripts/rotate-smtp-relay-cert.py:1221-1320 | what a running process holds in memory stands for events of that same run, in their order |
| RelayHistory.LiveChangesOnlyAfterProof | scripts/rotate-smtp-relay-cert.py:1221-1320 | the live pair changes only by a rename, after this run saw addKey succeed and recorded it, the key in a read, a token and an accepted proof; for recovery, after the standby minted and its proof while the live pair was at fault |
| RelayHistory.NoRemovalAfterSwap | scripts/rotate-smtp-relay-cert.py:1094-1098 | no key is removed by a run that has begun its swap |
| RelayHistory.GatesFollowHistory | scripts/rotate-smtp-relay-cert.py:714-775 | streak and start time in the state file are two functions of the history of passes |
| RelayHistory.ClockIsFirstFault | scripts/rotate-smtp-relay-cert.py:741-743 | the stored start time is the first fault of the current run of faults if and only if two healthy passes preceded it; it is never later |
| RelayHistory.StandbyIsEarned | scripts/rotate-smtp-relay-cert.py:765-785 | a standby is generated only after the configured streak of faults since the last healthy pass and the configured time since the stored start |
| RelayHistory.StandbyIsDueExactly | scripts/rotate-smtp-relay-cert.py:769-785 | a process that has counted its fault may generate a standby if and only if the run of faults and the time since the stored start reach both thresholds |
| RelayWitness.OneHealthyPassKeepsClock | scripts/rotate-smtp-relay-cert.py:714-716 | a reachable history in which the fault run began just now and a standby is already allowed, one healthy pass after an old fault |
| RelayWitness.RollBackThenRetireHitsLive | scripts/rotate-smtp-relay-cert.py:1141-1150 | a reachable history in which a retirement names the live credential |
| RelayWitness.ResetAfterHalfSwapMixes | scripts/rotate-smtp-relay-cert.py:892-908 | a reachable history that ends with a mixed live pair and no process running |
| TokenFailure.OnlyAnsweredBlame | scripts/rotate-smtp-relay-cert.py:233-262 | a certificate fault is an answered request below 500 whose text blames the certificate, in any letter case, and no outage is one |
| TokenFailure.FaultTable | scripts/rotate-smtp-relay-cert.py:251-262 | the four classes with their phrases, in their order |
| TokenFailure.LowerRows | scripts/rotate-smtp-relay-cert.py:250 | each capital letter reads as its small one, every other character as itself |
| TokenFailure.BlameStandsAnywhere | scripts/rotate-smtp-relay-cert.py:233-262 | no text around the blame, not even one that blames authorization, turns the fault into another |
| RotationProcess.ReachableLasts | scripts/rotate-smtp-relay-cert.py:788-1377 | the reachable worlds are closed under every step and all satisfy the invariant, so the methods below stay inside the results above |
| RotationProcess.Process.Interfere | scripts/rotate-smtp-relay-cert.py:171-181 | whatever other instances do, this instance's files, state and process are untouched |
| RotationProcess.Process.Do | scripts/rotate-smtp-relay-cert.py:788-1377 | one effect of the process, or its death instead of it; no death where nothing kills it, and so in every method below |
| RotationProcess.Process.RemoveKey | scripts/rotate-smtp-relay-cert.py:946-982 | removeKey is sent exactly when a token is granted, and the key counts as removed if and only if the answer was 200, 204 or already gone and one of twelve reads did not show it |
| RotationProcess.Process.SettleAddition | scripts/rotate-smtp-relay-cert.py:1111-1140 | a leftover addition is cleared if and only if it is live or was removed, removeKey is sent for it unless it is live, and it blocks the rotation otherwise |
| RotationProcess.Process.RetireOld | scripts/rotate-smtp-relay-cert.py:1141-1158 | removeKey is sent for the recorded key exactly past its grace period, and its record dropped exactly when it was removed |
| RotationProcess.Process.StagePair | scripts/rotate-smtp-relay-cert.py:1185-1202 | one fresh pair in the `.pem.new` files, nothing else, whatever the point of death |
| RotationProcess.Process.PostAddKey | scripts/rotate-smtp-relay-cert.py:1204-1226 | exactly a 200 answer brings a keyId, which is new and held in memory; files and state stay as they are |
| RotationProcess.Process.RecordAddition | scripts/rotate-smtp-relay-cert.py:1229-1239 | the exact keyId and thumbprint are in the state file, or the process died with the old state |
| RotationProcess.Process.AddToDirectory | scripts/rotate-smtp-relay-cert.py:1204-1239 | a refusal leaves nothing behind; success leaves the addition recorded |
| RotationProcess.Process.Abandon | scripts/rotate-smtp-relay-cert.py:1241-1263 | the old pair stays live, the staging files go, removeKey is sent for the new key, and its record is cleared exactly when it was removed |
| RotationProcess.Process.AwaitReplication | scripts/rotate-smtp-relay-cert.py:1265-1279 | it stops at the first of 24 reads that shows the key, and fails if and only if none does |
| RotationProcess.Process.ProveToken | scripts/rotate-smtp-relay-cert.py:1281-1304 | it stops at the first of 20 mints that is accepted, and fails if and only if none is |
| RotationProcess.Process.ProveSend | scripts/rotate-smtp-relay-cert.py:1306-1311 | the proof stands if and only if there is a recipient and the server accepted the message, or it is recovery's and there is none |
| RotationProcess.Process.Rename | scripts/rotate-smtp-relay-cert.py:1316-1319 | one of the four renames, and it enables the next |
| RotationProcess.Process.SwapIn | scripts/rotate-smtp-relay-cert.py:1313-1320 | the incoming pair is live, the outgoing one `.previous`, the staging files gone |
| RotationProcess.SwapStops | scripts/rotate-smtp-relay-cert.py:1314-1319 | the states a stopped swap is said to leave are the files after none, one, two, three and four of the renames |
| RotationProcess.Process.FindByThumbprint | scripts/rotate-smtp-relay-cert.py:1339-1346 | the first listed key with that thumbprint other than the new one, or None when there is none |
| RotationProcess.Process.ScheduleRetirement | scripts/rotate-smtp-relay-cert.py:1325-1359 | the addition is cleared, and the key scheduled is the first in the read that carries the replaced thumbprint, none if and only if there is none |
| RotationProcess.Process.ProveNewPair | scripts/rotate-smtp-relay-cert.py:1265-1311 | the new pair is proven if and only if it was seen, minted and its message was accepted |
| RotationProcess.Process.Renew | scripts/rotate-smtp-relay-cert.py:1185-1359 | staging to adoption of one rotation: the end as a function of the answers, and what each end leaves |
| RotationProcess.Process.HouseKeep | scripts/rotate-smtp-relay-cert.py:1111-1158 | the leftover key first, then the key past its grace period; which removeKey calls are sent, in order, and what becomes of both records |
| RotationProcess.Process.Rotate | scripts/rotate-smtp-relay-cert.py:1099-1359 | for all settings and answers: which end the run has, which removeKey calls it sent in which order, and the files and records it leaves; a death leaves the old files or the swap of one new pair stopped after some of its renames |
| RotationProcess.Process.RemoveByHand | scripts/rotate-smtp-relay-cert.py:1051-1092 | removal is asked for if and only if the read showed the key and the table of stamps and flags lets it through |
| RotationProcess.Process.MoveAside | scripts/rotate-smtp-relay-cert.py:898-899 | the whole old pair is `.previous` |
| RotationProcess.Process.ResetPair | scripts/rotate-smtp-relay-cert.py:886-932 | a fresh live pair; the three records dropped, streak and start time kept; a whole old pair kept as `.previous`, and no other file touched |
| RotationProcess.Process.GenerateStandby | scripts/rotate-smtp-relay-cert.py:588-609 | one fresh pair in the `.recovery` files and one record of it |
| RotationProcess.Process.AdoptStandby | scripts/rotate-smtp-relay-cert.py:612-657 | the proven standby is live, recovery is settled, and the old key scheduled if it was found |
| RotationProcess.Process.AdvanceStandby | scripts/rotate-smtp-relay-cert.py:660-701 | the standby is adopted if and only if it minted and its proof was accepted or had no recipient; missing files only drop the record; otherwise nothing changes |
| RotationProcess.Process.CountAndGenerate | scripts/rotate-smtp-relay-cert.py:765-785 | a counted fault generates a standby if and only if both gates are open |
| RotationProcess.Process.DiscardStandby | scripts/rotate-smtp-relay-cert.py:733-740 | both standby files and all three records are gone |
| RotationProcess.Process.LivePairWorks | scripts/rotate-smtp-relay-cert.py:731-744 | a working live pair always discards the standby, or clears the streak or else the clock |
| RotationProcess.PassInPlainTerms | scripts/rotate-smtp-relay-cert.py:704-785 | what each end of a pass leaves in the state file, as plain field updates and inequalities |
| RotationProcess.FaultExactly | scripts/rotate-smtp-relay-cert.py:746-766 | a failed mint counts if and only if the certificate has expired here or an answer below 500 blames it |
| RotationProcess.Process.RunRecovery | scripts/rotate-smtp-relay-cert.py:704-785 | for every input, which end a completed pass has and the files and state it leaves; a counted fault generates a standby if and only if the streak and the time reach both thresholds; transient, scope and unknown faults of an unexpired certificate change nothing, nor does a pass without a live pair to load |
| RotationWindow.DefaultFits | scripts/rotate-smtp-relay-cert.py:821-824 | the default is half the validity, rounded down, and is accepted if and only if the validity is at least two days |
| RotationWindow.ForceRenews | scripts/rotate-smtp-relay-cert.py:1160-1174 | a forced run renews if and only if the certificate has a day left, and is refused as expired otherwise |
| RotationWindow.DayIs | scripts/rotate-smtp-relay-cert.py:412-417 | a day in microseconds |
| RotationProcess.DecidesAsWindow | scripts/rotate-smtp-relay-cert.py:1160-1174 | the rotation decides as the renewal window does |
| RotationWindow.RenewalWindow | scripts/rotate-smtp-relay-cert.py:147-169 | for an accepted window, exactly when a certificate is not due, due, and past renewing, in time since issue |
| RotationWindow.DueAtOnce | scripts/rotate-smtp-relay-cert.py:1160-1164 | renew-at one below the validity is due as soon as the clock moves |
| RotationWindow.EnoughChances | scripts/rotate-smtp-relay-cert.py:412-417 | checks at most a day apart get at least renew-at distinct chances to renew before the last day |
| Base64.RoundTrip | scripts/rotate-smtp-relay-cert.py:112-115 | decoding what was encoded gives the bytes back, for every byte sequence |
| Base64.Alphabet | scripts/rotate-smtp-relay-cert.py:112-115 | the alphabet of table 1 of RFC 4648 |
| Base64.TestVectors | scripts/rotate-smtp-relay-cert.py:112-115 | the first test vectors of section 10 of RFC 4648 |
| Base64.ForeignIsSkipped | scripts/rotate-smtp-relay-cert.py:112-115 | foreign ASCII characters anywhere in a text change nothing |
| Base64.CutShort | scripts/rotate-smtp-relay-cert.py:112-115 | unpadded digits that end inside a group of four are an error |
| Thumbprint.SpellingDoesNotMatter | scripts/rotate-smtp-relay-cert.py:100-115 | hexadecimal in any case, with colons anywhere between bytes or none, and base64 of a 20-byte digest all read as its 40 upper-case digits |
| Thumbprint.NeverConfused | scripts/rotate-smtp-relay-cert.py:100-115 | two spellings read alike if and only if they spell the same digest |
| Thumbprint.HexReads | scripts/rotate-smtp-relay-cert.py:100-115 | two upper-case digits for each byte, the high half first |
| Thumbprint.UpperRows | scripts/rotate-smtp-relay-cert.py:108-109 | each small letter reads as its capital, every other character as itself |
| Thumbprint.StripTakes | scripts/rotate-smtp-relay-cert.py:108-109 | stripping takes all white space at both ends and nothing else |
| Thumbprint.SpaceSet | scripts/rotate-smtp-relay-cert.py:108-109 | the white space, character by character |
| Thumbprint.OnlyHexIsRead | scripts/rotate-smtp-relay-cert.py:100-115 | whatever the directory returns, only such digits are read |
| OwnerStamp.ReadBack | scripts/rotate-smtp-relay-cert.py:197-207 | the stamp reads back as the id cut at 128 characters, whatever the date; an empty id leaves no stamp |
| OwnerStamp.KnowsItsOwn | scripts/rotate-smtp-relay-cert.py:274-280 | for every operator value, the stamp reads back as the normalised id if and only if it has at most 128 characters |
| OwnerStamp.ReadAlike | scripts/rotate-smtp-relay-cert.py:181-207 | two instances read alike if and only if their ids agree on 128 characters |
| OwnerStamp.IdCharset | scripts/rotate-smtp-relay-cert.py:184-185 | the characters of an id, one by one, and the limit of 128 |
| OwnerStamp.DashedAt | scripts/rotate-smtp-relay-cert.py:280 | every other character, and no other, becomes a dash |
| OwnerStamp.StampSays | scripts/rotate-smtp-relay-cert.py:197-201 | the display name a rotation writes, with and without an id |
| Ownership.StringsAgree | scripts/rotate-smtp-relay-cert.py:210-230 | the classification of the listed strings is the classification the protocol results use, whatever encoding and date the directory returned |
| Ownership.TakenForOwn | scripts/rotate-smtp-relay-cert.py:210-230 | a sibling's stamped key, neither live nor retiring, counts as one's own superseded key if and only if one's id is the first 128 characters of its |
| Ownership.ShortIdsShareable | scripts/rotate-smtp-relay-cert.py:274-280 | instances with ids of at most 128 characters are told apart if and only if their normalised ids are distinct |
| Ownership.SettingsCollide | scripts/rotate-smtp-relay-cert.py:280 | the settings "a b" and "a-b" are one id |
| Ownership.OwnKeyLooksForeign | scripts/rotate-smtp-relay-cert.py:225-227 | an instance's own stamped key counts as another's if and only if its id is longer than 128 characters |
| AlertLog.DelayRange | scripts/alert-event.py:331-332 | the first wait is 30 seconds, each of the next six doubles it, and from the eighth failure on it is 3600 |
| AlertLog.SpanOfMany | scripts/alert-event.py:328-332 | n attempts take at least 3810 + 3600 (n - 8) seconds from n = 8 on |
| AlertLog.AttemptBound | scripts/alert-event.py:312-333 | any span of T >= 3810 seconds holds at most 8 + (T - 3810) / 3600 attempts per notification and channel |
| AlertLog.FastestMeetsBound | scripts/alert-event.py:312-333 | the earliest attempts that the waits allow meet that bound |
| AlertLog.FailingAttempt | scripts/alert-event.py:305-333 | each of them is a turn of the engine on the record the one before left |
| AlertLog.BoundIsMet | scripts/alert-event.py:312-333 | for every k an orderly record of the engine holds k attempts within the least span, so the bound is exact |
| AlertLog.OnePerTrouble | scripts/alert-event.py:417-433 | no more notices are lost than processes died, and no more incidents overwritten than files misread |
| AlertLog.NothingMissing | scripts/alert-event.py:417-433 | without a death every incident on disk had its opening announced; without a misread either, every announced opening is still open or had its recovery announced |
| AlertLog.ToldOnce | scripts/alert-event.py:405-440 | a notice that was announced or lost is the only one of its reference and status |
| AlertLog.SilentExactly | scripts/alert-event.py:417-440 | the opening of an incident on disk was never announced if and only if a death took its notice, and the recovery of a closed one likewise |
| AlertLog.LostForGood | scripts/alert-event.py:406-416 | a lost notice is not announced at any later time either |
| AlertLog.OneDeathSilences | scripts/alert-event.py:406-440 | from any sound state one death and a repeated open leave an incident that was never announced |
| AlertLog.OpeningExplained | scripts/alert-event.py:417-440 | a new incident with its notice, or with the one death before it, keeps that account |
| AlertLog.RecoveryExplained | scripts/alert-event.py:429-440 | a removed incident with its notice, or with the one death before it, keeps that account |
| AlertLog.WaitsGrow | scripts/alert-event.py:328-332 | consecutive attempts are at least 30 seconds apart and the waits never shrink |
| AlertLog.KeepConserves | scripts/alert-event.py:334-337 | rewriting or removing a record, or dying before that, forgets no channel not yet served |
| AlertLog.TriesKeepTimes | scripts/alert-event.py:312-333 | attempts made when due stay spaced, and the counters follow the attempts |
| AlertLog.QueueConserves | scripts/alert-event.py:340-360 | a queued notification has a name of its own and waits for every channel that is on |
| AlertLog.RecoveryAnswersOpening | scripts/alert-event.py:405-432 | in an orderly record a recovery answers the last notice of its event, an opening with the same reference, and counts the open commands since |
| AlertLog.AllAccepted | scripts/alert-event.py:305-337 | when every pending channel is due and accepts, a retry leaves nothing |
| AlertStore.Store.TryChannel | scripts/alert-event.py:313-333 | a channel is called exactly when pending and due, its answer changes only its own counters, and its flag clears only on ok |
| AlertStore.Store.TryChannels | scripts/alert-event.py:313-333 | each channel gets its turn whatever the other answered |
| AlertStore.Store.AttemptOutbox | scripts/alert-event.py:305-337 | at its time each pending and due channel is tried once, and the record is rewritten as the answers say or removed when both flags are clear; a death leaves it as it was |
| AlertStore.Store.RetryOutbox | scripts/alert-event.py:363-367 | exactly the channels pending and due at their file's time are tried, once each; the outbox left is a function of the answers, and the result is ok exactly when it is empty |
| AlertStore.Store.QueueNotification | scripts/alert-event.py:340-360 | one new record, due at once, for the channels that are on; none when neither is |
| AlertLog.NamedByMillisecond | scripts/alert-event.py:347 | a record's file is named by the millisecond, the reference and the status |
| AlertStore.OpenedInSilence | scripts/alert-event.py:406-440 | the same as a run of the engine from its first start |
| AlertStore.Store.Announce | scripts/alert-event.py:439-442 | one announcement, then at once one delivery for each channel that is on; the record stays exactly when one was refused; ok exactly when the outbox is empty |
| AlertStore.Store.WriteBack | scripts/alert-event.py:334-337 | the file is rewritten or removed as the attempts call for, or left as it was by a death |
| AlertStore.Store.FileIncident | scripts/alert-event.py:417-428 | the incident file comes first, with the next reference, and its notice is then due |
| AlertStore.Store.OpenAnew | scripts/alert-event.py:417-428 | a new incident with a new reference, then its opening notice |
| AlertStore.Store.CountAgain | scripts/alert-event.py:406-416 | a repeated open is counted and announces nothing |
| AlertStore.Store.OpenRetried | scripts/alert-event.py:405-428 | the open command behind the retry, dying anywhere, and what it leaves and records when all goes well |
| AlertStore.Store.Close | scripts/alert-event.py:432-433 | the incident is removed before its recovery is announced: a death that leaves the incident leaves everything |
| AlertStore.Store.RecoverRetried | scripts/alert-event.py:429-433 | the recover command; nothing without an incident |
| AlertStore.Store.NotifyRetried | scripts/alert-event.py:434-442 | the notify command; incidents are untouched |
| AlertStore.Store.Obey | scripts/alert-event.py:387-442 | one whole command: when nothing goes wrong, the files it leaves and the entries it records are those of a pure machine |
| AlertStore.Store.Serve | scripts/alert-event.py:387-442 | over any sequence of commands dying anywhere: no announcement lost before delivery, at most one opening and one recovery per reference, every incident's opening and every closed incident's recovery announced or lost to a death of its own; and without deaths and misreads the files are those of the pure machine, episodes alternate and attempts are spaced |
| TokenFile.StepKeepsSound | scripts/refresh-smtp-token.py:127-190 | every step of every minter or reader, failing or dying anywhere, keeps the file-system invariant |
| TokenFile.ShownNeverChanges | scripts/refresh-smtp-token.py:130-135 | a file a reader could ever open is never written again |
| TokenFile.OthersUntouched | scripts/refresh-smtp-token.py:150-155 | no step of a minter touches another's staging file, name or progress |
| TokenFile.ReadersSeeWholeFiles | scripts/refresh-smtp-token.py:127-173 | every open reader holds the initial file untouched, or one minter's complete payload with its group and mode set |
| TokenFile.NoRenameNoChange | scripts/refresh-smtp-token.py:174-189 | without a rename the live file stays as it was, whoever fails or dies |
| TokenFile.NextReaderGetsIt | scripts/refresh-smtp-token.py:173 | whoever opens the file after a rename and before the next one gets that minter's whole payload |
| TokenFile.ModesSay | scripts/refresh-smtp-token.py:159-171 | the permission bits: the owner reads and writes, and then the group, and only the group, reads |
| TokenFile.Writer.OpenFile | scripts/refresh-smtp-token.py:156-162 | an empty staging file of one's own, new or emptied |
| TokenFile.Writer.Publish | scripts/refresh-smtp-token.py:156-173 | the whole payload published, or nothing of this minter's |
| TokenFile.Writer.CleanUp | scripts/refresh-smtp-token.py:179-189 | this minter's staging file is removed, unless the removal fails or the process dies first; whatever else happened meanwhile was done by others |
| TokenFile.Writer.WriteTokenFile | scripts/refresh-smtp-token.py:127-190 | success publishes exactly this payload and leaves no staging file; failure or death publishes nothing, whatever other minters do; where no call fails, it succeeds |
| TokenFile.Writer.Refresh | scripts/refresh-smtp-token.py:246-289 | the mint is skipped if and only if a minimum was asked for and the readable expiry is at least that far off |
| SmtpSafety.TurnDoes | tests/fake_xoauth2_smtp.py:132-191 | each command changes only the part of the session it is for, in its order only |
| SmtpSafety.ServeKeepsGood | tests/fake_xoauth2_smtp.py:124-191 | the session invariant holds over every byte sequence |
| SmtpSafety.AuthDecides | tests/fake_xoauth2_smtp.py:63-114 | AUTH is accepted if and only if the mechanism is XOAUTH2, the response names a user and a token, --reject-auth is off and the token is let through; the replies say so |
| SmtpSafety.RefusesExactly | tests/fake_xoauth2_smtp.py:132-191 | a command is answered with 503 and changes nothing if and only if it is unknown or before its time |
| SmtpSafety.EveryRecordIsProper | tests/fake_xoauth2_smtp.py:146-177 | every recorded message followed STARTTLS and then an AUTH that presented an allowed token without --reject-auth, in exactly the envelope of the last MAIL and the RCPTs since |
| SmtpSafety.NothingWithoutToken | tests/fake_xoauth2_smtp.py:89-104 | with --reject-auth, or when no token is let through, nothing is ever recorded |
| SmtpSafety.NothingInTheClear | tests/fake_xoauth2_smtp.py:136-148 | a client that never completes STARTTLS gets no user, envelope or record |
| SmtpSink.Sink.ReadMessage | tests/fake_xoauth2_smtp.py:161-168 | the DATA loop reads what its specification reads |
| SmtpSink.Sink.Authenticate | tests/fake_xoauth2_smtp.py:63-114 | one AUTH command against its specification: user, replies and input left |
| SmtpSink.Sink.Obey | tests/fake_xoauth2_smtp.py:132-191 | one command as the script runs it against its specification: session, replies, record and input left |
| SmtpSink.Sink.Handle | tests/fake_xoauth2_smtp.py:124-200 | the read loop records and replies exactly what the session function says, for every input |
| XOAuth2.RoundTrips | scripts/rotate-smtp-relay-cert.py:472 | every non-empty user and token without the separator is read back exactly |
| XOAuth2.ResponseSays | scripts/rotate-smtp-relay-cert.py:472 | the two fields of a response and the bytes that close them |
| XOAuth2.WhatIsReadCanBeSent | tests/fake_xoauth2_smtp.py:74-85 | whatever is read from any response could have been sent, and reads the same when sent |
| SmtpRoundTrip.DotStuffing | tests/fake_xoauth2_smtp.py:160-168 | a dot-stuffed message reads back exactly and reading stops at its terminator |
| SmtpRoundTrip.UnfinishedData | tests/fake_xoauth2_smtp.py:160-168 | a message cut off by the end of the connection is read as far as it came |
| SmtpRoundTrip.PathIsBetweenBrackets | tests/fake_xoauth2_smtp.py:116-122 | the path is what stands between the brackets, whatever parameters follow |
| SmtpRoundTrip.PathIsFirstWord | tests/fake_xoauth2_smtp.py:116-122 | without brackets the path is the first word, and an empty argument raises |
| SmtpRoundTrip.AuthEitherWay | tests/fake_xoauth2_smtp.py:65-73 | credentials on the AUTH line or after the 334 are judged alike |
| SmtpRoundTrip.DeliversExactly | tests/fake_xoauth2_smtp.py:124-191 | a correct client's whole session records exactly its letters, in order, for any number of them, and is answered with exactly the replies it expects |

## Left out

- RelayWorld.Next: two processes of one instance at once (the rotation loop beside the recovery loop); the script takes no lock, so the machine runs one at a time.
- RotationProcess.Process.WriteState: an unreadable state file, which the script reads as empty and so forgets every record in it; losses are bounded for state files that stay readable.
- RotationProcess.Process.RemoveKey: the text of the "already gone" reply; the reply is an arbitrary hint, as in the script, and the read decides. Requests before the post that fail are folded into one outcome.
- RotationProcess.Process.ResetPair: the `reset_replaced` record and the ownership change, which nothing modelled reads.
- RotationProcess.Process.Rotate: the token refresh and the success notice after the last state write, which change nothing it promises.
- RotationProcess.Process.RunRecovery: configuration parsing and the `cert-action.sh` calls; thresholds arrive as integers. A stored start time of zero counts as missing, as in the script, so the clock is positive.
- Thumbprint.SpellingDoesNotMatter: characters outside ASCII, some of which Python strips as space or upper-cases into hexadecimal letters.
- OwnerStamp.KnowsItsOwn: operator values that begin or end with a space outside ASCII.
- Ownership.StringsAgree: a display name written by hand that imitates a stamp; stamps are taken to be honest.
- AlertStore.Store.RetryOutbox: the order of the files; any order is covered. Payload text, redaction and time zones.
- AlertStore.Store.Serve: the file lock, taken as given; commands are serial.
- TokenFile.ReadersSeeWholeFiles: the mode of a token written with `--no-chown`, which a leftover staging file of the same PID can pass on.
- SmtpSession.Serve: UTF-8 decoding and verbs outside ASCII; texts are byte strings. Replies are their codes.
- SmtpSink.Sink.Handle: connections at once, which share only the locked record file; each appends its own records.
- SmtpSink.Sink.Authenticate: the hash and rotating-token checks, given as one predicate on tokens.
- Cryptography, X.509 and JWT content, HTTP and SMTP transport: opaque keys and certificates with arbitrary outcomes.
- `--generate-only`, `--list-keys` output and `--dry-run`, which add nothing to the protocol.
- The guidance tables, `scripts/syslog-bridge.py`, `scripts/load-env.sh`, the `read_env` parsers, the probes, PowerShell and compose files: text tables and plumbing around the protocols above.
