# DiscoClip server: verified model

DiscoClip downloads media posted in Discord channels or sent to its web app. This project models
the server around the media engine (`crates/app`) in Dafny and proves what it promises its users:

- **Settings.** One JSON tree, kept as rows at dotted paths. `Json`, `Assembly` and `DottedPaths`
  say how trees and rows correspond; `SettingsTable`, `ChangedRows`, `SettingsAudit`, `Secrets`
  and `Redaction` what a change does to rows, audit log and secrets; `Provisioning` how a file and the environment
  are layered over what is stored; `SettingsStore` is the store itself, dry run and transactions.
- **Profiles.** Policies folded along the scopes of a link (`Policy`, `Profiles`), and the
  conversions of old watch rules (`RuleConversion`) and old content views (`Routing`, `ViewRouting`,
  and `RoutingKept` for what they leave alone) into profiles.
- **Restoring a backup.** `Restore` is the protocol as a state machine over requests, file
  operations that may fail and turns of the supervisor; `OperationLock` takes the requests apart
  into steps under a lock and shows that interleaving them changes nothing; `Supervisor` carries
  the protocol out on shared objects and refines it; `BackupNames` reads and writes the names of
  backup files, and `Sets` counts the newest.
- **Platform checks.** `Fixtures`: the links platforms are checked with, and runs that interleave.
- **Small stateful parts.** `RateLimiter`, `RuleCache`, `AuditPaging`, `Sessions`: each a pruned,
  cached, paged or coarse form that agrees with a simple one.

`dafny verify dfyconfig.toml` checks everything.

## How the source is modelled

Tables are maps and a transaction is one step: loops compute on values, and a class commits what
they return or keeps what it had. A row order the source leaves to the database is arbitrary in the
model. A path is a non-empty sequence of segments; `DottedPaths` proves that comparing such
sequences is comparing the dotted texts, as long as object keys outside the atomic maps are
dot-free and not empty, which the source relies on as well. Decoding into the typed settings is an
opaque acceptance test, writing them out again an opaque function, and reading an environment
variable's text against a template an opaque function too. Clocks, ids, verdicts of link checks and
the success of each file operation are parameters. The secrets of the settings are leaves, so a
secret name is not the name of a section there; where a lemma covers trees in general, it says what
happens in such a section too (`WriteBackWithheld`, and `WriteBackKeeps` for the settings).

## Where the code falls short of what it is meant to do

Each comes with an input or with the exact condition under which the code does meet its promise, and
where a condition is exact the member says so.

- The routing migration puts another view in force in a channel than jobs there were shown by, even
  where no profile names a view beforehand, exactly where `Misrouted` says (`RoutingPreserved`): the
  view that showed the channel also has its guild and a second enabled view lists the channel
  (`UsurpedExample`); the built-in profile is assigned to the channel and is given the widest view
  (`BuiltinMisroutes`); or a profile there or around says outright that there is no view
  (`MuteMisroutes`).
- A check run reads its links before it claims its platform. Starts that overlap can therefore
  leave a platform with no link in use (`StaleListsDisableAll`). That cannot happen as long as each
  list is up to date when the platform is claimed, whatever is learned or added after that
  (`RunsKeepOne`); an outdated list need not do harm, and which recorded run does is stated exactly
  (`StepKeepsExactly`).
- A shipped link whose address was edited and that is removed afterwards comes back at the address
  it shipped with: only the address held at removal is kept out (`SeededUnlessRemoved`, exact; `EditedComesBack`).
- A restore that fails has replaced the database all the same exactly when the key is missing beside
  it and copying the key is what failed (`RestoreAllOrNothing`; `FailsWithoutKey`). The swap between two runtimes cannot
  get there, since the staged file lies beside the key (`ApplyAllOrNothing`).
- Converting a watch rule keeps the limits of the profile assigned before and drops its other
  sections and its language (`OnlyLimits`; `DropsOptions`).
- Rules that name hosts are intersected with what the channel's profile has on by itself, or without
  one with everything or with the defaults, not with what is in force. A platform a server has off can
  so come on in a channel whose rule allows it (`RuleTurnsOn`). `RulesPreserved` says exactly when
  what is in force afterwards is what was in force and every rule allows.
- Where the clock can be less than a window past its origin, which depends on the platform, a strike
  makes the limiter forget earlier ones of its key that would still count; for one key and strike
  `ForgetsExactly` says when that changes a later answer. A sweep at such a time forgets every key,
  and only the other direction is proved over whole runs (`PrunedRefinesFull`).
- Watch rules tell ids apart as text, so a channel spelled twice can have two rules that contradict
  each other, and exactly then the cache depends on the order of the rows (`CacheAgrees`,
  `SecondSpelling`).

## Model

| member | source | states |
|---|---|---|
| `Json.LeavesAreLeaves` | crates/app/src/config.rs:493-504 | A path is one of the rows a value splits into exactly when following it through sections ends at a leaf (atomic maps and arrays are leaves), and the row holds that leaf |
| `Json.LeavesApart` | crates/app/src/config.rs:493-504 | No leaf of a value lies beneath another |
| `Json.PrefixesComparable` | crates/app/src/settings.rs:811-819 | Two paths that lead to one path are related |
| `DottedPaths.TextOrderIsPathOrder` | crates/app/src/settings.rs:811-819 | On paths of non-empty, dot-free segments the text comparisons `beneath` and `related` are exactly the segment comparisons |
| `DottedPaths.SameText` | crates/app/src/settings.rs:811-819 | Two such paths with the same dotted text are the same path |
| `Assembly.Assemble` | crates/app/src/settings.rs:963-985 | The loop nests the rows one after the other and stops at the first that does not fit |
| `Assembly.InsertAddsLeaf` | crates/app/src/settings.rs:966-982 | Inserting a row related to no leaf succeeds, adds exactly that leaf and changes no other |
| `Assembly.AssembleRoundTrip` | crates/app/src/settings.rs:963-985 | On storable rows in any order assembly never reports a conflict, and the leaves of the tree are exactly the rows |
| `Assembly.AssembleIgnoresOrder` | crates/app/src/settings.rs:963-985 | Any two listings of one table assemble to the same tree |
| `Assembly.SplitThenAssemble` | crates/app/src/settings.rs:963-985 | The other way round: nesting the leaves of a tidy tree gives the tree |
| `Assembly.RepresentedOnce` | crates/app/src/settings.rs:963-985 | At most one tidy tree holds given rows |
| `SettingsTable.CheckedKeys` | crates/app/src/settings.rs:487-511 | A change passes the key check exactly when each of its keys does, and is refused for the first that does not |
| `SettingsTable.AcceptedExactly` | crates/app/src/settings.rs:487-511 | A key is accepted exactly when no segment is empty, no key set as a whole lies above it, and none that moved into profiles lies at or above it |
| `SettingsTable.DryRunIsRealRun` | crates/app/src/settings.rs:682-711 | For every table and change, overlapping keys and resets included, the key/value rows the dry run computes are those the removes and writes of the real run leave |
| `ChangedRows.RowsExactly` | crates/app/src/settings.rs:913-960 | From the change and the rows alone: a path some set is related to holds what the last such set sent there, stored secrets put back for nulls, and nothing else, whatever was reset; any other path keeps row and stamp unless it lies at or beneath a reset key, and is then gone |
| `ChangedRows.ResetsRemove` | crates/app/src/settings.rs:913-919 | A row left at or beneath a reset key was sent by a set of the same change |
| `ChangedRows.StampedWhenChanged` | crates/app/src/settings.rs:923-960 | Which rows of a set are stamped anew: all, save one the app had set to the same value that nothing else in the change touched |
| `SettingsTable.ReachableStays` | crates/app/src/settings.rs:923-960 | A change with acceptable keys keeps the rows prefix-free, clear beneath atomic keys, and objects at atomic keys only |
| `SettingsTable.LeavesStorable` | crates/app/src/config.rs:493-504 | The rows one value splits into can be kept side by side |
| `SettingsAudit.LastWriter` | crates/app/src/settings.rs:735-738 | After a sequence of overlapping sets each row holds what it held or what some set wrote there, and each missing row was in the way of some set |
| `SettingsAudit.AuditComplete` | crates/app/src/settings.rs:741-778 | Every row that differs in presence, value or source is accounted for by an entry logged in the transaction: one that lists it as gone or whose value has that leaf |
| `SettingsAudit.AuditTrue` | crates/app/src/settings.rs:741-778 | No entry is logged for nothing, and each tells the truth: the key and value sent, what the settings had there before, and rows that were there and are gone |
| `SettingsStore.WriteRows` | crates/app/src/settings.rs:923-960 | Clearing and upserting leaf by leaf leaves the leaves of the value at the key, nothing else around or beneath it, everything unrelated untouched, and rows that already hold their value unstamped |
| `SettingsStore.RewriteRows` | crates/app/src/settings.rs:731-738 | Resets, then sets, come to the rows the model computes |
| `SettingsStore.PreviewRows` | crates/app/src/settings.rs:688-698 | The dry run over plain values |
| `SettingsStore.LogSets` | crates/app/src/settings.rs:754-778 | The entries logged for the keys set, unchanged ones skipped |
| `SettingsStore.Store.Preview` | crates/app/src/settings.rs:682-711 | The dry run: nothing is stored, and each leaf of the settings shown is what the change and the old rows say of its path (`ChangedRows.Told`) |
| `SettingsStore.Store.Apply` | crates/app/src/settings.rs:717-786 | One transaction: the outcome is the one the dry run gives, each row is afterwards what the change and the old rows say of its path (`ChangedRows.Told`), the log grows by the entries of the change, a refused change leaves both alone, and the table stays reachable |
| `SettingsStore.Store.Bootstrap` | crates/app/src/settings.rs:573-619 | One transaction: every variable and every leaf of the file that names a setting reads afterwards, at the row covering it, as the settings have it, from provisioning, or is reported kept because the app wrote there; settings that moved out are reported kept; what was written is logged; a refused result leaves table and log alone |
| `SettingsStore.AppRowsStay` | crates/app/src/settings.rs:596-605 | Every row the app wrote is there after provisioning with its value, source and time |
| `SettingsStore.OpenKeysHold` | crates/app/src/settings.rs:596-605 | A provisioned key holds its provisioned value afterwards unless a row of the app is related to it, and only then is it passed over |
| `SettingsStore.OthersStay` | crates/app/src/settings.rs:595-605 | A row related to no key provisioning may write stays as it is, whoever wrote it; a row that holds its provisioned value from provisioning is not stamped again; there are no rows but those |
| `SettingsStore.StartsAsNamed` | crates/app/src/settings.rs:573-605 | What a named path comes to at startup, from file and variables: kept, or the row covering it holding what the settings have there |
| `SettingsStore.ProvisionedReachable` | crates/app/src/settings.rs:596-605 | Provisioning keeps the table reachable |
| `SettingsStore.ProvisionRows` | crates/app/src/settings.rs:595-605 | Writing the open keys in any order comes to the same table |
| `SettingsStore.ProvisioningAudited` | crates/app/src/settings.rs:846-880 | Every row provisioning changed is accounted for by a logged leaf |
| `SettingsStore.LeavesTrue` | crates/app/src/settings.rs:846-880 | And no leaf is logged for nothing, with its value before and after and exactly the rows around it that went |
| `SettingsStore.WriteBackWithheld` | crates/app/src/settings.rs:1011-1052 | Writing back a section of the stored tree with its secrets withheld leaves every stored value as it was, exactly unless the key itself names a secret, is a section and holds a value |
| `SettingsStore.WriteBackKeeps` | crates/app/src/settings.rs:1011-1052 | Where secret names are names of leaves, as in the settings, writing back any section of the stored tree with its secrets withheld leaves every stored value as it was |
| `Secrets.WithholdSecrets` | crates/app/src/settings.rs:1055-1080 | The slot-by-slot overwriting withholds every secret leaf and reports exactly the secrets that are set |
| `Secrets.WithheldExactly` | crates/app/src/settings.rs:1055-1080 | In what is shown every leaf under a secret name is null and every other leaf as stored |
| `Secrets.SecretNames` | crates/app/src/audit.rs:416-419 | A name with one of the three words in it is a secret's, whatever is around the word and however it is written |
| `Secrets.KeepStoredSecrets` | crates/app/src/settings.rs:1021-1052 | The slot-by-slot overwriting puts the stored value in every secret sent as null |
| `Secrets.WithholdThenKeep` | crates/app/src/settings.rs:1021-1080 | Keeping undoes withholding for any section of the tree, exactly unless the key is a secret section with something in it |
| `Secrets.OverwrittenLeaf` | crates/app/src/settings.rs:1072-1077 | Overwriting slots changes the leaves named and no other |
| `Redaction.RedactedLooks` | crates/app/src/audit.rs:426-457 | Redaction leaves everything that may be seen as it is: fields, items, scalars, and whether a secret is there |
| `Redaction.RedactsSecretsOnly` | crates/app/src/audit.rs:426-457 | Two values are logged alike exactly when they look alike without their secrets, so no secret shows and nothing else is lost |
| `Redaction.RedactedTwice` | crates/app/src/audit.rs:426-457 | Redacting twice is redacting once |
| `Provisioning.DeepMerge` | crates/app/src/config.rs:379-393 | The key-by-key merge in place comes to the merged tree in whatever order keys come |
| `Provisioning.MergedTwice` | crates/app/src/config.rs:379-393 | Laying a tree over twice is laying it over once |
| `Provisioning.UpperLayerDecides` | crates/app/src/config.rs:379-393 | Where the upper tree reaches a path or holds a value on the way there it decides it, elsewhere the lower tree does, empty tables included |
| `Provisioning.SetThenRead` | crates/app/src/config.rs:402-423 | What is put at a path is read there, and every unrelated path reads as before |
| `Provisioning.RemoveThenRead` | crates/app/src/config.rs:318-334 | A removed path holds nothing, everything else what it held |
| `Provisioning.OwnTreeHolds` | crates/app/src/config.rs:263-271 | The file keeps exactly what does not belong to a removed key |
| `Provisioning.EnvironmentWins` | crates/app/src/config.rs:274-283 | A variable no later variable touches is in force as its setting reads it |
| `Provisioning.ReadAgainst` | crates/app/src/config.rs:274-283 | What a variable's text is read against: the value there, and only where that is missing or null the one of a tree with everything in it |
| `Provisioning.LayerOrder` | crates/app/src/config.rs:258-286 | Environment over file over stored base at the path of each setting, in the tree the settings are decoded from |
| `Provisioning.Holder` | crates/app/src/config.rs:471-479 | The loop over shorter and shorter paths ends and finds what the specification says |
| `Provisioning.HolderIsTheCover` | crates/app/src/config.rs:471-479 | It finds exactly the one canonical leaf at or above the path |
| `Provisioning.Resolve` | crates/app/src/config.rs:258-306 | The whole resolution: it succeeds exactly when the layered tree is accepted and every setting path has a canonical leaf, and then yields exactly the leaves that hold the paths |
| `Provisioning.ResolvedCovers` | crates/app/src/config.rs:292-305 | What resolving yields can be stored side by side, and exactly one of its rows covers each provisioned path |
| `Provisioning.ResolvedExactly` | crates/app/src/config.rs:245-306 | For each variable, and each leaf of the file, that names a setting exactly one resolved row lies at or above it, with the value the settings have there; and every row is there for one of them |
| `Provisioning.ResolvesUnless` | crates/app/src/config.rs:258-306 | Resolving succeeds exactly when the layered tree is accepted and the settings have a leaf at or above each path so named |
| `Policy.ApplyToggles` | crates/app/src/profiles.rs:83-118 | The in-place loops come to: override, else preset whitelist, else default |
| `Policy.ApplyToLeaf` | crates/app/src/policy.rs:313-426 | Laying a profile over what is in force settles every leaf it names and changes no other, none of the forty forgotten |
| `Policy.FilledFromLeaf` | crates/app/src/policy.rs:513-676 | A filled profile names exactly what either names, its own first |
| `Policy.LayingIsFilling` | crates/app/src/policy.rs:513-676 | The two enumerations agree: laying `s` over `b` laid over anything is laying `s` filled from `b` |
| `Policy.FillingAssociates` | crates/app/src/policy.rs:513-676 | Filling can be done in any grouping |
| `Policy.CompleteHides` | crates/app/src/policy.rs:679-792 | The list of missing leaves is empty exactly for a profile that hides whatever lies underneath, the two output bounds aside |
| `Profiles.NarrowestDecides` | crates/app/src/profiles.rs:700-730 | A leaf of the effective policy is what the profile at the narrowest scope naming it says, among default, whole server, guild, channel and user |
| `Profiles.UnnamedShowsThrough` | crates/app/src/profiles.rs:700-730 | A leaf no profile of the chain names is as the built-in profile says, else the default of the server |
| `Profiles.LanguageDecided` | crates/app/src/profiles.rs:700-730 | The language in force is that of the narrowest profile with one |
| `Profiles.LanguageShowsThrough` | crates/app/src/profiles.rs:700-730 | Where none of the chain has one it is the built-in profile's, or else the server's |
| `Profiles.PatchInForce` | crates/app/src/policy.rs:171-184 | After a patch, along every chain through its scope: a leaf a narrower scope names is as it was; else a section the patch replaces is as it names it and, where it names nothing, as around the scope; every other section is as it was, unless the built-in profile was assigned there |
| `Profiles.ComputeEffective` | crates/app/src/profiles.rs:700-730 | The fold along the scopes is the layers laid widest first, and the applied assignments are those there are |
| `Profiles.OverlayAlone` | crates/app/src/profiles.rs:1363-1440 | Changing one scope alone: no other scope sees a difference, the scope has a profile of its own afterwards, and that is the one it started from with the change made |
| `Profiles.OverlayIsolated` | crates/app/src/profiles.rs:1363-1440 | What is in force along every chain without the scope is as it was |
| `Profiles.PatchAtScope` | crates/app/src/profiles.rs:1144-1180 | The scope keeps every section, toggle and language the patch does not name, unless the built-in profile was assigned there |
| `Profiles.OperationsConsistent` | crates/app/src/profiles.rs:991-1140 | Every operation keeps the built-in profile, a profile for the whole server, and no assignment to a profile that is gone |
| `Profiles.AssigningDoes` | crates/app/src/profiles.rs:1076-1107 | Assigning a profile there is makes it the layer at that scope and at no other; every chain without the scope is as it was |
| `Profiles.UnassigningDoes` | crates/app/src/profiles.rs:1111-1140 | Every scope but the whole server can be left without a profile; what is around it then shows through, and no other scope changes |
| `Profiles.DeletingDoes` | crates/app/src/profiles.rs:991-1031 | A profile other than the built-in one and the whole server's goes with exactly its own assignments |
| `Profiles.UpdatingDoes` | crates/app/src/profiles.rs:935-990 | The new layer is the one at exactly the scopes that have the profile; chains through none of them are as they were, unless it is the built-in one |
| `Profiles.CreatingDoes` | crates/app/src/profiles.rs:900-934 | Nothing in force changes anywhere |
| `Profiles.PatchingDoes` | crates/app/src/profiles.rs:1144-1180 | Carried out exactly below the whole server, when it replaces some section and what the scope's profile then says stands |
| `Profiles.ProfileStore.Run` | crates/app/src/profiles.rs:900-1180 | An operation changes table and cache together, to what the lemmas about it say, and one that is refused changes neither |
| `Profiles.ProfileStore.Refresh` | crates/app/src/profiles.rs:2050-2091 | Reloading copies every profile and every assignment of a profile there is |
| `RuleConversion.Convert` | crates/app/src/profiles.rs:1885-2047 | The loop converts every staged rule and leaves none staged |
| `RuleConversion.ConvertedOn` | crates/app/src/profiles.rs:1885-2047 | After one rule a platform is on exactly when it was on before and the rule, if it names hosts, allows it |
| `RuleConversion.RulesIntersect` | crates/app/src/profiles.rs:1885-2047 | After any number of rules a platform is on in the channel's profile exactly when it was to start with and every host-naming rule of the channel allows it |
| `RuleConversion.DefaultPlatforms` | crates/app/src/profiles.rs:1885-2047 | For a platform on by default: exactly when every host-naming rule allows it and the profile assigned before, if any, had it on |
| `RuleConversion.OtherScopes` | crates/app/src/profiles.rs:1885-2047 | No other scope sees a difference |
| `RuleConversion.LimitsCarried` | crates/app/src/profiles.rs:1885-2047 | A limit is what the last rule naming it says |
| `RuleConversion.LimitsLeft` | crates/app/src/profiles.rs:1885-2047 | A limit no rule names is the one the profile assigned before named |
| `RuleConversion.LimitsInNumbers` | crates/app/src/profiles.rs:1906-1912 | In the numbers of the last rule setting a limit: sizes and heights as they are but at least one, durations at least zero, heights no more than 32 bits hold |
| `RuleConversion.OnlyLimits` | crates/app/src/profiles.rs:1885-2047 | Of that profile no other leaf is carried over, and not its language |
| `RuleConversion.DropsOptions` | crates/app/src/profiles.rs:1885-2047 | An input for which both are lost |
| `RuleConversion.LoadTwice` | crates/app/src/profiles.rs:1885-2047 | A second load finds nothing staged and changes nothing |
| `RuleConversion.InForceConverted` | crates/app/src/profiles.rs:1885-2047 | A platform in force in the channel afterwards: where some rule names hosts, what the channel had to start with and all of them allow, whatever is in force around it; otherwise what was in force |
| `RuleConversion.RulesPreserved` | crates/app/src/profiles.rs:1885-2047 | That is a platform in force there before which every host-naming rule allows, exactly unless rules name hosts, all allow the platform, and the start of the intersection is not what was in force |
| `RuleConversion.RuleTurnsOn` | crates/app/src/profiles.rs:1885-2047 | An input for which it is not: a rule turns on in its channel what the server has off |
| `RuleConversion.HostAsWritten` | crates/app/src/profiles.rs:655-658 | Wildcards in front of a host and the case it is written in make no difference to what it allows |
| `RuleConversion.HostTaken` | crates/app/src/profiles.rs:660-671 | A platform takes every host of the site of one of its own |
| `RuleConversion.HostsAllowSomething` | crates/app/src/profiles.rs:1918-1935 | Where the web resolver is known a host allows something: platforms of its site, or the web resolver alone |
| `RuleConversion.SiteLabels` | crates/app/src/profiles.rs:665-667 | Two hosts are of one site exactly when they are equal or one is the other behind a dot |
| `Routing.Pick` | crates/app/src/frontends.rs:1325-1377 | The view picked for a job, with or without guild and channel, has the greatest closeness, and the smallest slug among those |
| `Routing.TakenIsPicked` | crates/app/src/frontends.rs:1179-1189 | That is the first view to list its channel, else its guild, else everything |
| `Routing.RoutesAre` | crates/app/src/frontends.rs:1213-1294 | Where routing leaves every guild and channel, however many views list them and whether or not the channel says that it has no view |
| `Routing.RoutedIsPicked` | crates/app/src/frontends.rs:1213-1294 | Where no profile says that there is no view, routes mean what the pick meant exactly unless the picked channel view also has the guild while another enabled view lists the channel |
| `Routing.UsurpedExample` | crates/app/src/frontends.rs:1213-1294 | Two views for which they do not |
| `Routing.NoneTaken` | crates/app/src/frontends.rs:1179-1189 | No view is picked for a job no enabled view is close to |
| `ViewRouting.ConvertRouting` | crates/app/src/frontends.rs:1213-1294 | The loop over views, guilds and channels, each naming the view in a profile of the scope |
| `RoutingKept.RoutingKeeps` | crates/app/src/frontends.rs:1281-1294 | At every scope each leaf but the view, every platform toggle and the language is said as before by the migrated profiles, save that a scope given a profile in place of the built-in one says nothing else; every profile there was keeps all of it |
| `RoutingKept.RoutingKeepsInForce` | crates/app/src/profiles.rs:1519-1536 | Along every chain each leaf but the view, and every platform, is in force as before along the chain without the scopes that had the built-in profile and were given one of their own |
| `RoutingKept.PartedIsRouted` | crates/app/src/frontends.rs:1213-1294 | Only a scope listed by an enabled view, with the built-in profile before, is parted from it |
| `ViewRouting.InForceAfter` | crates/app/src/frontends.rs:1213-1294 | What is in force afterwards for the whole server, in a guild and in its channel, for any profiles that name no view beforehand, assigned wherever |
| `ViewRouting.RoutingPreserved` | crates/app/src/frontends.rs:1213-1377 | For any such profiles the view in force in a channel afterwards is the one picked for jobs there, exactly unless the channel is misrouted: usurped, mute, given the built-in profile, or beneath a mute profile |
| `ViewRouting.RoutingPreservedAround` | crates/app/src/frontends.rs:1213-1377 | The same exactly for jobs from no channel and from no guild |
| `ViewRouting.RoutingPreservedUnshared` | crates/app/src/frontends.rs:1213-1377 | It holds where no channel is listed by two enabled views, no profile there or around says that there is no view, and the built-in one is not assigned to the channel |
| `ViewRouting.BuiltinMisroutes` | crates/app/src/frontends.rs:1213-1377 | An input for which it does not: the built-in profile assigned to a channel |
| `ViewRouting.MuteMisroutes` | crates/app/src/frontends.rs:1213-1377 | Another: a channel whose profile says that there is no view |
| `Restore.RestoreAllOrNothing` | crates/app/src/backup.rs:403-457 | A restore succeeds exactly when every operation it comes to does, and then the source is in place; if not, the database is left alone, exactly unless the key is missing and copying it is what failed; no other file is touched |
| `Restore.FailsWithoutKey` | crates/app/src/backup.rs:443-455 | An input for the key-copy case: the restore fails and the database is replaced |
| `Restore.ApplyAllOrNothing` | crates/app/src/restore.rs:205-232 | The swap succeeds exactly when every operation it comes to does, and then the staged database is live beside a safety copy of the old one; if not, the old one is live still; no other backup changes |
| `Restore.DueRestore` | crates/app/src/compose.rs:136-152 | Once the server has ended the prepared restore is carried out, the backup live and the recovery slot holding it, exactly when the server ended well and every file operation goes through; otherwise it has failed on the database from before |
| `Restore.GivenUpUntouched` | crates/app/src/compose.rs:138-141 | After a server that did not end well no file changes but the staged one, which goes |
| `Restore.TakenBack` | crates/app/src/compose.rs:153-165 | A server that ends without being ready gets the database from before back exactly when every operation of copying it goes through, and the process ends if not |
| `Restore.EndsAsServed` | crates/app/src/compose.rs:133-166 | In every other case the process ends as the server did with nothing touched |
| `Restore.RestoreCompletes` | crates/app/src/compose.rs:83-166 | The whole of a restore that goes well, over two servers and whatever else they are asked |
| `Restore.RestoreTakenBack` | crates/app/src/compose.rs:83-166 | The whole of one whose server never reports ready, with the exact condition for the way back |
| `Restore.ReadyCompletes` | crates/app/src/restore.rs:88-96 | While the server starts every request is turned away, until it reports ready; the restore is then complete |
| `Restore.PreparedExactly` | crates/app/src/backup.rs:249-264 | When a restore is prepared, and for each refusal why; nothing changes but that it waits with a staged file |
| `Restore.DeletedExactly` | crates/app/src/backup.rs:235-246 | When a backup is deleted, and for each refusal why; no other file goes |
| `Restore.MadeExactly` | crates/app/src/backup.rs:178-233 | When a backup is made; it holds the live database, and the newest backups are left and no others, the one just made among them |
| `Restore.NewestStay` | crates/app/src/backup.rs:226-233 | None of the newest backups is lost in making one, however it goes |
| `Sets.NewestCount` | crates/app/src/backup.rs:226-233 | The newest are as many as the setting keeps, or all there are |
| `OperationLock.MovesAreRequests` | crates/app/src/backup.rs:178-264 | However the steps of backups, rotations, deletions and preparations interleave with reports and an abrupt stop, it comes to whole requests served one after the other |
| `OperationLock.InFlightFrozen` | crates/app/src/backup.rs:178-264 | From when a restore is prepared until it ends no operation is under way, no backup is finished, rotated or deleted and no second restore prepared, over every interleaving |
| `OperationLock.StoppingLasts` | crates/app/src/restore.rs:67-131 | A prepared restore stays in flight until the server has stopped |
| `OperationLock.SupervisedSafe` | crates/app/src/compose.rs:83-167 | From a fresh process, over every run and interleaving: Complete means the restored database is live, Failed the one from before, Starting that the recovery slot and its safety copy are there |
| `Restore.ServeSafe` | crates/app/src/backup.rs:178-264 | Every request keeps what the phases mean |
| `Restore.TurnSafe` | crates/app/src/compose.rs:130-166 | So does every turn of the supervisor, whichever file operation fails |
| `Restore.SupervisedSafe` | crates/app/src/compose.rs:83-167 | Over every run: Complete means the restored database is live, Failed the one from before, Starting that the recovery slot and its safety copy are there |
| `Restore.RecoverySafe` | crates/app/src/compose.rs:153-165 | The way back puts the database from before in place, or ends the process |
| `Restore.BackupsSurvive` | crates/app/src/compose.rs:136-165 | Neither the swap nor the way back changes any other backup |
| `Supervisor.Volume.Restore` | crates/app/src/backup.rs:403-457 | The file operations in order |
| `Supervisor.Restores.Apply` | crates/app/src/restore.rs:205-232 | Phases and files after the swap |
| `Supervisor.Restores.Ready` | crates/app/src/restore.rs:88-96 | Only a starting restore completes |
| `Supervisor.Backups.Serve` | crates/app/src/backup.rs:178-264 | The requests on the shared state |
| `Supervisor.Run` | crates/app/src/compose.rs:83-167 | The loop over runtimes refines the protocol and is safe |
| `BackupNames.NamesReadBack` | crates/app/src/backup.rs:303-355 | A file is taken for a backup of a moment exactly when it bears the name one made then gets, with an id or without |
| `BackupNames.StampIsMoment` | crates/app/src/backup.rs:324-354 | A sixteen-character stamp and a moment on the calendar are two ways to write the same |
| `BackupNames.YearsAreWhole` | crates/app/src/backup.rs:324-354 | The calendar read against: whole years of 365 or 366 days, the years of the file names, no month before the first or after the twelfth |
| `Fixtures.FixtureStore.Seed` | crates/app/src/fixtures.rs:486-505 | The loop inserts what is not there, removed or not |
| `Fixtures.FixtureStore.EditLink` | crates/app/src/fixtures.rs:577-608 | A link moves to an address no other has, in use again, its result gone with the old address |
| `Fixtures.FixtureStore.RemoveLink` | crates/app/src/fixtures.rs:626-648 | A shipped link is marked removed, any other goes |
| `Fixtures.FixtureStore.Learn` | crates/app/src/fixtures.rs:653-692 | A new address is kept and the learned links past the newest three dropped with their results |
| `Fixtures.FixtureStore.Record` | crates/app/src/fixtures.rs:698-759 | Results stored, and links found dead switched off when another resolved |
| `Fixtures.AddedDoes` | crates/app/src/fixtures.rs:544-574 | An address is added exactly unless its platform has it, removed or not, and is then one more link, in use |
| `Fixtures.EditedDoes` | crates/app/src/fixtures.rs:577-608 | A link moves exactly when it is there and no other holds the address; origin and every other link stay, and only the result at the old address goes |
| `Fixtures.SwitchedDoes` | crates/app/src/fixtures.rs:611-623 | A link that is there goes on or off, and nothing else about it changes |
| `Fixtures.RemovedDoes` | crates/app/src/fixtures.rs:626-648 | A removed link is live no more, its result gone, its address kept out exactly if it shipped |
| `Fixtures.OldestGo` | crates/app/src/fixtures.rs:653-692 | A learned link that goes is older than every one that stays, and its result goes with it |
| `Fixtures.PassesExactly` | crates/app/src/fixtures.rs:714-741 | Every address a run resolved has passed at that time, and no other result changes |
| `Fixtures.RecordedDoes` | crates/app/src/fixtures.rs:742-755 | A recorded run takes no link away and changes nothing about one but switching it off |
| `Fixtures.TriedExactly` | crates/app/src/fixtures.rs:1093-1107 | The links tried are the first of the list up to the first that resolves, all when none does, each with its own verdict |
| `Fixtures.LastResolvedFirst` | crates/app/src/fixtures.rs:404-405 | Of two links the one tried first resolved no earlier than the other |
| `Fixtures.OperationsSound` | crates/app/src/fixtures.rs:486-759 | Every operation keeps addresses unique and at most three learned links live |
| `Fixtures.RunsTogether` | crates/app/src/fixtures.rs:486-759 | Operations are carried out one after the other: a sequence followed by another is the two in one |
| `Fixtures.RunsSound` | crates/app/src/fixtures.rs:486-759 | Every sequence of them keeps addresses unique and at most three learned links live |
| `Fixtures.RemovedForGood` | crates/app/src/fixtures.rs:626-648 | No live link ever has the address of a removed shipped link again |
| `Fixtures.SeededUnlessRemoved` | crates/app/src/fixtures.rs:486-505 | After seeding a shipped address is live exactly unless a removed link holds it |
| `Fixtures.EditedComesBack` | crates/app/src/fixtures.rs:577-648 | A shipped link that is edited and then removed is live at its shipped address after seeding |
| `Fixtures.RetiredLinks` | crates/app/src/fixtures.rs:742-755 | A run switches a link off exactly when it failed without wanting a login while another resolved |
| `Fixtures.KeepsOneExactly` | crates/app/src/fixtures.rs:742-755 | A recorded run leaves a link in use exactly unless every one in use was found dead by a run in which something resolved |
| `Fixtures.TryLinks` | crates/app/src/fixtures.rs:1093-1107 | Links are tried in turn until one resolves |
| `Fixtures.ResolvedLinkStays` | crates/app/src/fixtures.rs:1093-1111 | The link a run resolved is in use after it is recorded if it was before |
| `Fixtures.LearnedLinks` | crates/app/src/fixtures.rs:653-692 | A link that goes when another is learned was learned itself, and leaves three learned ones behind |
| `Fixtures.StepKeepsExactly` | crates/app/src/fixtures.rs:653-759 | A step leaves a platform a link in use exactly unless it records a run in which something resolved and every link then in use was found dead |
| `Fixtures.RunsKeepOne` | crates/app/src/fixtures.rs:1008-1111 | However runs interleave, and whatever is learned from jobs and added by hand meanwhile, no platform loses its last link as long as each list is up to date when its run claims the platform |
| `Fixtures.ClaimedRunsKeepOne` | crates/app/src/fixtures.rs:1008-1111 | Until such a run is recorded every address of its list is in use, or was learned and displaced by three newer ones |
| `Fixtures.StaleListsDisableAll` | crates/app/src/fixtures.rs:902-920 | A reachable run of starts that read their lists before claiming and leave a platform without a link |
| `RateLimiter.Limiter.Check` | crates/app/src/ratelimit.rs:30-42 | The answer, counted over the strikes still kept |
| `RateLimiter.Limiter.Strike` | crates/app/src/ratelimit.rs:49-60 | Sweep, eviction and the new strike |
| `RateLimiter.PrunedRefinesFull` | crates/app/src/ratelimit.rs:30-69 | Over any run of checks, strikes and clearings, with a clock that does not run backwards and is a window past its origin, the limiter answers as the full history would |
| `RateLimiter.LetThroughExactly` | crates/app/src/ratelimit.rs:30-69 | The answer at the end of any such run, by counting operations: a key proceeds exactly when fewer than the allowed strikes against it, not cleared since, are within the window; if not it waits until the first of them leaves |
| `RateLimiter.OtherKeys` | crates/app/src/ratelimit.rs:52-54 | A strike drops another key only when there are too many, and then only one without a recent strike |
| `RateLimiter.ForgetsExactly` | crates/app/src/ratelimit.rs:49-60 | What a strike evicts matters to a later answer exactly when it comes within a window of the origin of the clock and earlier strikes would count together with it |
| `RateLimiter.EarlyStrikesForgotten` | crates/app/src/ratelimit.rs:51-51 | A run in which it does |
| `RateLimiter.WaitIsALowerBound` | crates/app/src/ratelimit.rs:35-41 | Without further strikes a refusal holds for all of its wait |
| `RateLimiter.WaitEnds` | crates/app/src/ratelimit.rs:35-41 | It ends with it exactly when fewer than the allowed strikes are later than the oldest counted |
| `RateLimiter.WaitIsExact` | crates/app/src/ratelimit.rs:35-41 | So always when precisely that many are recent |
| `RateLimiter.StrikeKeepsOrder` | crates/app/src/ratelimit.rs:49-60 | A clock that does not run backwards leaves every log in order, which the three above take for granted |
| `RuleCache.Refresh` | crates/app/src/rules.rs:363-400 | The loop over the rules fills the two maps and counts |
| `RuleCache.CacheAgrees` | crates/app/src/rules.rs:142-159 | The cache answers as the table does however the rows are read, exactly when no channel has one rule on and another off under an application |
| `RuleCache.CanonicalClear` | crates/app/src/rules.rs:110-123 | It always does when ids are canonical |
| `RuleCache.SecondSpelling` | crates/app/src/rules.rs:110-123 | Ids compared as text let a channel have two rules |
| `RuleCache.CountIsWatched` | crates/app/src/rules.rs:397-399 | The count is the number of places watched |
| `RuleCache.CanonicalCount` | crates/app/src/rules.rs:397-399 | With canonical ids that is the number of rules on |
| `RuleCache.StepKeeps` | crates/app/src/rules.rs:193-325 | Every operation keeps one rule to a place and checked ids, touches no other rule, and changes nothing when it fails |
| `RuleCache.StepExactly` | crates/app/src/rules.rs:193-325 | Which outcome each operation has, and the rule it leaves |
| `RuleCache.DuplicatesShareAPlace` | crates/app/src/migrations.rs:386-402 | Rules not kept together are for one place, and with canonical ids any two for one place are not kept together |
| `RuleCache.RuleStore.Create` | crates/app/src/rules.rs:193-246 | The new table, and a cache filled from it |
| `RuleCache.RuleStore.Update` | crates/app/src/rules.rs:249-295 | The new table, and a cache filled from it |
| `RuleCache.RuleStore.Delete` | crates/app/src/rules.rs:298-325 | The new table, and a cache filled from it |
| `RuleCache.RuleStore.Rule` | crates/app/src/rules.rs:142-159 | What a bot reads is what the table says, when no channel has contradicting rules |
| `AuditPaging.List` | crates/app/src/audit.rs:607-625 | Reading one entry past the limit and truncating gives the page |
| `AuditPaging.PageIsFull` | crates/app/src/audit.rs:607-625 | A page has as many of the selected entries as the limit allows, and a cursor exactly when there are more |
| `AuditPaging.EffectiveLimit` | crates/app/src/audit.rs:521-525 | Fifty unless asked otherwise, and between one and five hundred |
| `AuditPaging.Clauses` | crates/app/src/audit.rs:528-566 | The conditions put to the database select exactly the entries the filter means |
| `AuditPaging.NewestIsExact` | crates/app/src/audit.rs:528-566 | The entries listed are exactly those the filter selects, newest first |
| `AuditPaging.NextPage` | crates/app/src/audit.rs:614-621 | The next page continues where this one ended, whatever was added in between |
| `AuditPaging.PagesAreExact` | crates/app/src/audit.rs:607-625 | Following the cursor to its end shows every entry selected when the reading began, newest first, each once, for every limit |
| `AuditPaging.ReadingEnds` | crates/app/src/audit.rs:607-625 | Following the cursor ends |
| `Sessions.SessionStore.Create` | crates/app/src/sessions.rs:101-142 | Expired sessions of everyone go, and the new one is there |
| `Sessions.SessionStore.Authenticate` | crates/app/src/sessions.rs:145-179 | Who is let in, what is written down, and what goes |
| `Sessions.LetInExactly` | crates/app/src/sessions.rs:145-179 | A token lets in exactly while neither lifetime is over, as who and when the session was opened, its use written down; one that is over goes, and no other session is touched |
| `Sessions.LetInAsOpened` | crates/app/src/sessions.rs:101-179 | Whoever a token lets in is who it was opened for, whatever else is opened, used and ended |
| `Sessions.ListedAreLetIn` | crates/app/src/sessions.rs:195-206 | The sessions listed for a user are those that would be let in as them |
| `Sessions.RevokedExactly` | crates/app/src/sessions.rs:223-248 | Ending sessions ends those asked for and no other |
| `Sessions.NotAfterRevoked` | crates/app/src/sessions.rs:223-248 | An ended session lets nobody in again, whatever happens afterwards |
| `Sessions.NotAfterThirtyDays` | crates/app/src/sessions.rs:53-61 | However it is used, a session lets nobody in 30 days after it was opened |
| `Sessions.UsedSessionsLive` | crates/app/src/sessions.rs:145-179 | Used at gaps of at most 14 days less 5 minutes it never expires before that, although not every use is written down |
| `Sessions.SafeGapIsTight` | crates/app/src/sessions.rs:166-172 | After every gap longer than that some use pattern finds the session expired |
| `Sessions.DeadNeverRevives` | crates/app/src/sessions.rs:145-179 | An expired or ended session never lets anyone in again |
| `Sessions.PurgedAreLive` | crates/app/src/sessions.rs:251-256 | The purge drops exactly the expired sessions |
| `Sessions.PurgingIsInvisible` | crates/app/src/sessions.rs:251-256 | Purging on the way changes no later answer |

## Left out

- HTTP, Discord, sign-in and gateway traffic, password hashing, sealing and token generation: clients and primitives of other libraries.
- SQL, connections and locks: a table is a map, a transaction one step. That caches are refreshed before the commit is not seen; cache agreement is stated for operations that succeed.
- Parsing of TOML, YAML, JSON and of numbers and booleans in environment variables, the typed settings and their validation: opaque parameters.
- `written` and `removed` of a stored change, import and export: derived from the same rows.
- Audit entries about profiles, views, links, rules and backups: one entry for each operation, with nothing to prove beyond it. Times and actors of settings entries.
- Names, descriptions and numbering of profiles, that names are unique, the checks of what is sent for a profile and of the ids in a scope, and `updated_at`.
- Whitespace around a rule's host is not trimmed in `RuleConversion`; the rest of the host comparison is.
- `convert_settings_policies`, `convert_rule_intake`, `convert_frontend_links` and the completion of the built-in profile: long case lists with little to prove beyond each branch.
- The job table and the access tables `convert_routing` also rewrites: `Pick` models the choice of a view for a job.
- `Restore`: write-ahead log, checkpoints and the contents of a staged backup other than where it comes from; the process restarting provisioning once; backup counters and the schedule.
- `OperationLock`: work a stopped runtime leaves running on other threads, which the source gives ten seconds to end.
- `Policy`: the values of the engine's enumerations are names; an output target takes an override field by field.
- ViewRouting.RoutingPreserved: a profile assigned to a user is not on the chain, and a channel's guild is taken as known.
- Restore.SupervisedSafe: takes for granted that the key file exists and the database was checkpointed before a swap.
- `BackupNames`: the calendar's arithmetic to seconds since the epoch, and the spellings of an id, which are an opaque test.
- Result fields of check runs other than when a link last resolved, the health summary, runs of one link (they switch nothing off) and the schedule.
- Fixtures.RunsKeepOne: editing, switching off and removing links by hand are operations of the store and no steps of the interleaving; each can take a platform's last link by itself.
- `AuditPaging`: removal of old entries by retention while a reading goes on; ids are numbers that grow with time.
- `RuleCache`: that the application of a rule has to exist, and goes with its rules.
- `Sessions`: looking a session up by its id, tokens against cross-site requests, addresses and user agents.
