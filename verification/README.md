# FreeTunnel: a verified model of its hard core

FreeTunnel is a VPN client: a window process (`Backend`) that drives a privileged helper, which runs the VPN core.
This project models the parts of it where a mistake shows the wrong server's name, routes traffic the wrong way,
loses settings or leaks a secret, and proves what they promise. Check it with `dafny verify dfyconfig.toml`.

- **The connect, switch and disconnect protocol** (`ConnectProtocol`, `ConnectSafety`, `ConnectContract`,
  `ConnectLabels`, `ConnectSessions`, `ConnectTheorems`, `ConnectRuns`, `ConnectSteps`, `BackendConnect`). A state
  machine over the flags, the two generation counters, the credential reads in flight, queued hops, safety nets and
  the helper client. Each handler is one atomic step. `ConnectSafety` holds whatever the helper reports. The rest
  holds under a contract, with the exact condition of each result, and `ConnectRuns` has a run that goes wrong without
  each clause. `ConnectSteps` says what each step leaves, and what pick, edit, connect and disconnect come to.
- **Subscriptions** (`FetchScheduler`, `FetchOutcomes`, `SubscriptionControl`, `SubscriptionSteps`,
  `SubscriptionOutcomes`, `SubscriptionSecrets`, `SubscriptionConsent`, `SubscriptionTiming`,
  `SubscriptionController`, `BackendSubscriptions`). A bounded fetch scheduler whose handlers start and abort fetches;
  records, held updates, accepted servers and stored addresses; what every run keeps of secrets, consent and spacing.
- **Settings and split tunnelling** (`BypassRules`, `RuleForms`, `AppSettings`, `SettingsLoads`, `SettingsRoundTrip`,
  `SettingsEdits`, `SettingsOutcomes`, `SettingsFile`, `SettingsEditor`, `SplitRouting`, `RoutingPromises`). The
  profiles and their mirrors, saving and loading over a store that may fold key case, and where each connection goes
  under what is pushed to the core.
- **The TOML lines** (`TomlSyntax`, `TomlTables`, `TomlPrint`, `TomlValues`, `TomlEntries`, `TomlMultiline`,
  `TomlHeaders`). The line lexer, the table splitter, the filter of entries and the escaper.
- **Certificates and launcher entries** (`DerCertificates`, `DerEncoding`, `PemCertificates`, `PemPromises`,
  `LauncherQuoting`, `LauncherWords`, `PlistQuoting`). DER lengths, chains and PEM blocks; printers of autostart
  entries and the parsers that undo them.

`Text` has the strings and a few sequence facts all of them use. In each part a function says what the code computes,
a method or class does it the way the source does, step by step and in place, and lemmas prove what the source promises
of the function. Qt's parsers and tables (addresses, domain names, punycode, base64, case folding, path cleaning) are
parameters; what is assumed of them is a named predicate: `BypassRules.DomainsHaveDots`, `AppSettings.Fair`,
`PemCertificates.Shrinks`, `SplitRouting.Ordinary`, `SplitRouting.Written`, `SplitRouting.NoTags`.

The client tells a ready helper to disconnect and returns (`src/vpn/vpn_helper_client.cpp:250-266`): the report comes with
the helper's event. So every step that asks for a disconnect takes what is reported before it returns, if anything is,
and no result assumes that something is. `ConnectContract` has the clauses, and each result names those it needs:

- Teardowns. While a credential read or a switch's teardown is outstanding there is no Error and no Connected, and
  Disconnecting and Disconnected come only as the end of that teardown.
- The gap. No connect is asked for, by the user or at start-up, while a switch waits for its teardown and the window
  shows neither connected, connecting nor disconnecting. The labels need these two alone (`ConnectLabels`).
- The end of a session. A session that has ended does not come back before the next connect. It has ended with an
  error, or when it goes down after it has come up: a helper that retries after an error reports Disconnected first.
- Empty reads. A read that finds no password finds no connect to another config waiting for the helper, and no command
  out but for the active config with the current settings.
- Unseen choices. While a connect is on its way and nothing looks busy, no other config becomes the active one, and a
  session under way keeps its settings. `NoStaleSession` and its neighbours need these five.
- After a disconnect, until the next connect, nothing is reported but the end of the session. Only the result on what
  starts after a disconnect needs it.

Where the code does not do what its comments promise there is a run and the condition: a disconnect stops everything
just when `NothingStartsAfterDisconnectIff` says, and a rule edit rebuilds nothing just when
`RuleEditsRebuildNothingIff` says.

Where the source and its comments disagree the source is modelled. DER lengths that are longer than they need be are
accepted, as the code accepts them, though section 10.1 of X.690 forbids them.

## Model

| member | source | states |
|---|---|---|
| ConnectSteps.ToggleDoes | src/app/BackendConnect.cpp:16-23 | A click on what is up or coming up leaves nothing awaited, pending or connecting, every read in flight stale and the client told to stop; on what is down it begins an attempt with a read of the active config; otherwise it changes nothing. |
| ConnectSteps.DisconnectDoes | src/app/BackendConnect.cpp:179-196 | So does a disconnect of what is up or coming up; of anything else it only calls off the connect at start. |
| ConnectSteps.ConnectDoes | src/app/BackendConnect.cpp:60-85 | A connect, the one at start too, begins an attempt exactly when a config is picked and nothing is up, coming up or going down. |
| ConnectSteps.ReadDoes | src/app/BackendConnect.cpp:151-177 | A read that finishes: dropped when superseded, settled when it found no password, and else handed over with its own config and the settings of now, sent at once or left waiting for the helper. |
| ConnectSteps.SelectDoes | src/app/Backend.cpp:506-526 | The config picked is the active one, and what shows is rebuilt with it: its read started again before a command is out, its session torn down after. |
| ConnectSteps.SaveDoes | src/app/BackendConfigShared.cpp:177-186 | A config saved is listed once, in the place of the file it was renamed from, and is what shows is rebuilt with. |
| ConnectSteps.RemoveDoes | src/app/Backend.cpp:528-570 | A config removed is not listed; the active one takes its tunnel down, and the first left is active. |
| ConnectSteps.SettingsDo | src/app/BackendSettings.cpp:64-80 | A session setting is kept and pushed, and rebuilds what shows on a ready helper exactly when it was built with another or told to stop. |
| ConnectSteps.RulesDo | src/app/BackendSplit.cpp:23-27 | A rule edit sends the routes kept along, and rebuilds by the same condition. |
| ConnectSteps.RefreshDoes | src/app/BackendSubscriptions.cpp:445-451 | A refresh of the active config rebuilds a tunnel that is up, and no other. |
| ConnectSteps.TimersDo | src/app/BackendSplit.cpp:573-624 | A hop, or the net of the last rebuild, takes up a reconnect that pends; the net of an earlier one does nothing. |
| ConnectSteps.ReportDoes | src/vpn/vpn_helper_client.cpp:580-630 | A report that is news is shown: connected, coming up, going down or a switch, with a hop where a teardown ended; one that is no news changes nothing. |
| ConnectSteps.ErrorDoes | src/app/Backend.cpp:278-306 | An error settles an attempt exactly when no switch is under way, no read is awaited, it is no chatter and the helper is not at work. |
| ConnectSteps.LostDoes | src/vpn/vpn_helper_client.cpp:374-392 | A helper that goes away leaves nothing up and its session forgotten; a connect that waits still waits. |
| ConnectSteps.FailureDoes | src/vpn/vpn_helper_client.cpp:632-637 | A helper that cannot start leaves nothing up and nothing waiting, and gives a reconnect that pends its hop. |
| ConnectSteps.ReadyDoes | src/vpn/vpn_helper_client.cpp:532-550 | A helper that is ready gets the connect that waited, with its config and the settings of now, and no other command. |
| ConnectSteps.SwitchArrives | src/app/BackendSplit.cpp:573-624 | From any connected state: pick, report of the end, hop and read come to one command, for the config picked; the window shows connecting all along. |
| ConnectSteps.KillSwitchArrives | src/app/BackendSplit.cpp:626-647 | So does a kill switch edit, with the new setting. |
| ConnectSteps.ConnectArrives | src/vpn/vpn_helper_client.cpp:224-240 | From any state with nothing up and no helper: a connect comes to one command, sent once the helper is ready. |
| ConnectSteps.DisconnectArrives | src/app/BackendConnect.cpp:179-196 | A disconnect shows as disconnecting, and as off once it is reported. |
| ConnectLabels.AwaitedReadIsOfTheActiveConfig | src/app/BackendConnect.cpp:92-177 | In every run that keeps the clause on teardowns and asks for no connect in the gap: while a credential read is awaited, the newest read in flight is of the active config. |
| ConnectLabels.HandedIsTheActiveConfig | src/app/BackendConnect.cpp:151-177 | So every connect handed to the client was built from the config active at that moment. |
| ConnectLabels.StepKeeps | src/app/BackendSplit.cpp:573-624 | Each such step keeps it, and keeps a read that is awaited shown as connecting. |
| ConnectLabels.ConnectThenPickIff | src/app/BackendConnect.cpp:25-28 | From every state those runs allow: a connect asked for and then another config picked hand over a read of the wrong config if and only if the connect came in the gap, with a switch waiting for its teardown and nothing that looks busy. |
| ConnectLabels.RightlyAwaitedIff | src/app/BackendSplit.cpp:573-590 | With no contract at all: a step leaves the read that is awaited wrong if and only if it changes the active config while nothing looks busy, or while a teardown is outstanding too. |
| ConnectTheorems.CommandsAreForTheActiveConfig | src/vpn/vpn_helper_client.cpp:224-240 | In every run under the contract, a connect command that leaves for the helper is for the active config with the current settings, or a newer read is on its way. |
| ConnectTheorems.NoStaleSession | src/app/BackendSplit.cpp:626-647 | In every run under the contract: a session on a ready helper that was not told to stop, and that is shown or not over, was built with the active config and the current excluded routes, kill switch and ports setting, or a rebuild is on its way; and once it has reported itself coming up it is shown. |
| ConnectTheorems.UnseenChoiceIff | src/app/BackendSplit.cpp:573-592 | A pick or an edit leaves a session, or a connect that waits, with what the user no longer has chosen, if and only if it is made while one is on its way and nothing looks busy. |
| ConnectTheorems.RuleEditsRebuildNothingIff | src/app/BackendSplit.cpp:626-647 | In every run under the contract: an edit to what a session takes live changes nothing but the client's settings, if and only if no tunnel that was told to stop still shows as up or coming up. |
| ConnectTheorems.NothingStartsAfterDisconnectIff | src/app/BackendConnect.cpp:179-196 | In every run under the contract: after a disconnect no read is handed over and no command sent until the user asks for a connect, over all later runs, if and only if the tunnel was not still shown as up when the call returned, or, with nothing that looked busy, no switch, command or connect was on its way. |
| ConnectTheorems.EmptyReadLeavesTheRightConnectIff | src/app/BackendConnect.cpp:45-58 | After a read that finds no password, what goes out at the helper's next Ready is for the active config, if and only if no connect to another config waits for the helper. |
| ConnectTheorems.EmptyReadKeepsGoodIff | src/app/BackendConnect.cpp:45-58 | The clause on such reads is just what keeps commands, labels and what is shown right. |
| ConnectTheorems.QuietRunStaysQuiet | src/app/BackendConnect.cpp:179-196 | Once everything is down it stays down over any run in which nobody asks for a connect, whatever is picked or edited. |
| ConnectSessions.StepKeepsGood | src/app/Backend.cpp:113-157 | Each step under the contract keeps what is needed of reads, labels and session settings. |
| ConnectSessions.ReachedIsGood | src/app/BackendConnect.cpp:60-196 | So does every run from start-up. |
| ConnectRuns.ConnectInTheGapMislabels | src/app/BackendConnect.cpp:25-28 | A run with a connect in the gap: the read of "b" is handed over, and sent, with "a" active. |
| ConnectRuns.DisconnectThenSelectReconnects | src/vpn/vpn_helper_client.cpp:250-266 | The report of a disconnect comes after the call: another config picked before it starts a session. |
| ConnectRuns.RuleEditAfterDisconnectReconnects | src/app/BackendSplit.cpp:626-647 | A rule edited before that report starts the tunnel the user has just disconnected again. |
| ConnectRuns.DisconnectDuringSwitchIsIgnored | src/app/BackendConnect.cpp:179-196 | A disconnect during a switch changes nothing, and the switch connects. |
| ConnectRuns.ReportAfterDisconnectReconnects | src/app/BackendConnect.cpp:179-196 | Without the clause on what follows a disconnect: a session reported up after it lets the next pick start one. |
| ConnectRuns.LateReportReconnects | src/app/BackendConnect.cpp:179-196 | Without the clause on the end of a session: one reported over comes back, and the next pick starts one. |
| ConnectRuns.RetryAfterAnErrorIsAllowed | src/vpn/vpn_helper_client.cpp:224-240 | A retry after an error, which the helper answers with Disconnected and then Connecting, keeps the contract. |
| ConnectRuns.PickDuringRetryMislabels | src/app/BackendSplit.cpp:573-592 | A config picked between those two reports is the label of a session to the other one. |
| ConnectRuns.EmptyReadLeavesTheOldConnect | src/app/BackendConnect.cpp:45-58 | Without the clause on empty reads: the helper is handed the old config under the new one's name. |
| ConnectRuns.EmptyReadThenDisconnectConnects | src/app/BackendConnect.cpp:179-196 | After it, a disconnect is ignored and the connect goes out. |
| ConnectRuns.ErrorDuringReadMislabels | src/app/BackendConnect.cpp:151-177 | Without the clause on teardowns: a read of one config is handed over with another active. |
| ConnectSafety.StepKeepsInv | src/app/BackendSplit.cpp:573-624 | With no contract, every step keeps: reads in flight have distinct generations up to the newest, one is awaited exactly when it carries the newest; and no guard stays set with nothing left to clear it. |
| ConnectSafety.RunKeepsInv | src/app/BackendConnect.cpp:92-177 | The same over every run, whatever the helper reports. |
| ConnectSafety.HandedGenerationsIncrease | src/app/BackendConnect.cpp:151-177 | The generations that reach the client's connect are strictly increasing. |
| ConnectSafety.GuardsCanClear | src/app/BackendSplit.cpp:573-624 | From every reachable state some steps of what is outstanding clear every guard. |
| BackendConnect.Backend.Handle | src/app/Backend.cpp:113-157 | The handlers together are the protocol's steps, and keep the generations and the guards. |
| BackendConnect.Backend.OnHelperEvent | src/vpn/vpn_helper_client.cpp:560-637 | What the helper and its socket do: reports, errors, the handshake, and their loss. Generations and guards are kept. |
| BackendConnect.Backend.Connect | src/app/BackendConnect.cpp:60-72 | A connect is skipped or begun. Generations and guards are kept. |
| BackendConnect.Backend.Disconnect | src/app/BackendConnect.cpp:179-196 | A disconnect clears its guards and generations, early return included. Generations and guards are kept. |
| BackendConnect.Backend.ToggleVpn | src/app/BackendConnect.cpp:16-23 | The toggle connects or disconnects by what looks up. Generations and guards are kept. |
| BackendConnect.Backend.OnConnectTomlReady | src/app/BackendConnect.cpp:151-177 | A finished read is ignored when stale, fails when empty, and is handed over otherwise. Generations and guards are kept. |
| BackendConnect.Backend.Reconnect | src/app/BackendSplit.cpp:573-609 | A rebuild: teardown, guard and net, or restart of the read. Generations and guards are kept. |
| BackendConnect.Backend.OnHop | src/app/Backend.cpp:140-157 | A queued hop fires the reconnect at most once. Generations and guards are kept. |
| BackendConnect.Backend.OnSafetyNet | src/app/BackendSplit.cpp:604-624 | A net fires only the reconnect of its own rebuild. Generations and guards are kept. |
| BackendConnect.Backend.Reapply | src/app/BackendSplit.cpp:626-647 | A live session is rebuilt only when what it was built with changed. Generations and guards are kept. |
| BackendConnect.Backend.Select | src/app/Backend.cpp:506-526 | Picking a config switches, restarts the read, or only relabels. Generations and guards are kept. |
| BackendConnect.Backend.Save | src/app/BackendConfigCreate.cpp:350-420 | A config created or saved takes its place in the list and becomes what the tunnel is built from. Generations and guards are kept. |
| BackendConnect.Backend.Remove | src/app/Backend.cpp:528-570 | Removing a config tears its tunnel down and moves the active one. Generations and guards are kept. |
| BackendConnect.Backend.RebuildForSubscription | src/app/BackendSubscriptions.cpp:445-451 | A refresh that wrote the active config rebuilds a tunnel that is up. Generations and guards are kept. |
| BackendConnect.Backend.EditSplitRules | src/app/BackendSplit.cpp:23-27 | A rule edit pushes the rules and reapplies. Generations and guards are kept. |
| BackendConnect.Backend.KillSwitch | src/app/BackendSettings.cpp:64-70 | The kill switch changes the session settings and reapplies. Generations and guards are kept. |
| BackendConnect.Backend.KillSwitchPorts | src/app/BackendSettings.cpp:74-80 | So does the ports setting. Generations and guards are kept. |
| BackendConnect.Backend.ExcludedRoutes | src/app/BackendSplit.cpp:111-146 | So do the excluded routes. Generations and guards are kept. |
| TomlSyntax.EndOfQuoted | src/core/ConfigTomlSyntax.cpp:34-47 | The loop stops just past the quote that closes a one-line string, escapes counted. |
| TomlSyntax.EndOfOpenMultiline | src/core/ConfigTomlSyntax.cpp:57-75 | The loop stops just past the closing fence of a multi-line string, or at the end. |
| TomlSyntax.AdvanceOpenValue | src/core/ConfigTomlSyntax.cpp:93-123 | The loop leaves open what the recursive lexer leaves open. |
| TomlSyntax.FindComment | src/core/ConfigTomlSyntax.cpp:127-140 | The first # outside a string. |
| TomlSyntax.SplitTomlTables | src/core/ConfigTomlSyntax.cpp:204-229 | The loop gives the tables of the recursive splitter. |
| TomlSyntax.NormalizeBody | src/core/ConfigTomlSyntax.cpp:234-239 | All trailing line breaks become one. |
| TomlSyntax.UnknownKeyLines | src/core/ConfigTomlSyntax.cpp:253-277 | The loop gives the lines of the recursive filter. |
| TomlSyntax.TomlEsc | src/core/ConfigTomlSyntax.cpp:6-19 | The loop escapes as the recursive escaper. |
| TomlTables.EveryLineIsKept | src/core/ConfigTomlSyntax.cpp:204-229 | Conservation: the headers and bodies are the text, line by line and in order, and each header line names its table. |
| TomlTables.SectionsFlatten | src/core/ConfigTomlSyntax.cpp:204-229 | Whatever the lexer holds open, flattening the sections gives the lines back. |
| TomlPrint.PrintAndSplitIsAFixpoint | src/core/ConfigTomlSyntax.cpp:166-239 | For every text, the normalized tables printed and split again are the same tables. |
| TomlPrint.HeaderOpensItsTable | src/core/ConfigTomlSyntax.cpp:166-197 | The name read from any header line, put in brackets, is read as the same name. |
| TomlPrint.NormalizedUnlines | src/core/ConfigTomlSyntax.cpp:234-239 | Normalizing a body is dropping its trailing blank lines. |
| TomlValues.QuotedIsSteppedOverWhole | src/core/ConfigTomlSyntax.cpp:34-47 | An escaped value in quotes is stepped over whole, whatever stands around it. |
| TomlValues.QuotedHasNoControl | src/core/ConfigTomlSyntax.cpp:6-19 | It has no line break and no control character. |
| TomlValues.UnescapeUndoesEscape | src/core/ConfigTomlSyntax.cpp:6-19 | Undoing the escapes gives the value without its control characters. |
| TomlValues.TextComesBack | src/core/ConfigTomlSyntax.cpp:6-19 | A value without control characters comes back whole. |
| TomlValues.ValueLineLeavesNothingOpen | src/core/ConfigTomlSyntax.cpp:93-123 | A line with such a value leaves the lexer as it was. |
| TomlValues.ValueLineIsNoHeader | src/core/ConfigTomlSyntax.cpp:185-197 | Such a line opens no table. |
| TomlValues.ValueLineChangesNoTable | src/core/ConfigTomlSyntax.cpp:204-229 | Put in wherever the lexer is closed, it changes no header and only the one body it is in, by itself. |
| TomlMultiline.LineOfPieces | src/core/ConfigTomlSyntax.cpp:77-123 | A line of words, quoted values, brackets and braces, with any comment, leaves open exactly the brackets and braces it leaves open, and a brace is noted. |
| TomlMultiline.FenceOpens | src/core/ConfigTomlSyntax.cpp:101-113 | Three quotes of either kind outside a string open one, and what follows on the line is inside it; in a basic one a backslash takes the next character along. |
| TomlMultiline.FenceCloses | src/core/ConfigTomlSyntax.cpp:57-75 | The first three of the same kind that are not escaped close it, and what follows counts as ever. |
| TomlMultiline.StringOverLines | src/core/ConfigTomlSyntax.cpp:204-277 | A string between fences, over any lines, is one entry, lies in one body, opens no table, leaves nothing open, and the filter keeps all of it or nothing. |
| TomlMultiline.BracketsOverLines | src/core/ConfigTomlSyntax.cpp:204-277 | So is a value in brackets or braces, nested as it may be, until the last closes. |
| TomlMultiline.KeyLineHasItsKey | src/core/ConfigTomlSyntax.cpp:241-251 | The key of `key = ...` is the key, and such a line opens no table. |
| TomlHeaders.HeaderNames | src/core/ConfigTomlSyntax.cpp:147-197 | Names in brackets, bare or quoted, with dots between, name the table of these names, whatever white space and comment stand around. |
| TomlHeaders.HeaderStartsItsTable | src/core/ConfigTomlSyntax.cpp:204-229 | With nothing open the lines behind such a header are its table; inside an open value the line belongs to the value. |
| TomlHeaders.OtherNamesStay | src/core/ConfigTomlSyntax.cpp:166-197 | Any other name without quotes, such as the inner brackets of `[[name]]`, stays as it is written. |
| TomlHeaders.QuotedDotsStay | src/core/ConfigTomlSyntax.cpp:160-178 | A dot in quotes is part of the name: that table is one of its own, its name as written. |
| TomlHeaders.KeyIsRead | src/core/ConfigTomlSyntax.cpp:241-251 | What stands before the first `=` is the key, without its quotes. |
| TomlHeaders.NothingThere | src/core/ConfigTomlSyntax.cpp:185-251 | No key on a blank line, a comment, a line with no `=`; no table where no bracket opens or closes. |
| TomlEntries.FilterKeepsWholeEntries | src/core/ConfigTomlSyntax.cpp:253-277 | The filter keeps the entries of unknown keys, each multi-line value whole, and nothing else. |
| TomlEntries.FilterDistributes | src/core/ConfigTomlSyntax.cpp:253-277 | It distributes over any line boundary where its lexer is closed. |
| TomlEntries.FilterIsIdempotent | src/core/ConfigTomlSyntax.cpp:234-277 | Followed by normalizing it is idempotent on every body, one that ends in an open value too. |
| DerCertificates.DerElementEnd | src/core/ConfigTomlValues.cpp:52-76 | The element's bounds, computed in the source's integer widths with no overflow, or -1. |
| DerCertificates.ElementElsewhere | src/core/ConfigTomlValues.cpp:52-76 | An element depends on no byte before or after it. |
| DerCertificates.ElementCut | src/core/ConfigTomlValues.cpp:52-76 | Cut at its end, it is the same element. |
| DerCertificates.IsCertificateDer | src/core/ConfigTomlValues.cpp:82-97 | The loop accepts what the recursive check accepts. |
| DerCertificates.CertificateIffThreeFields | src/core/ConfigTomlValues.cpp:78-97 | Accepted are exactly a SEQUENCE of two SEQUENCEs and a BIT STRING that is not empty. |
| DerCertificates.CertificatesBackToBack | src/core/ConfigTomlValues.cpp:106-116 | The loop accepts what the recursive check accepts. |
| DerCertificates.AcceptedIffChain | src/core/ConfigTomlValues.cpp:106-116 | Accepted are exactly the concatenations of one or more certificates. |
| DerCertificates.ChainIsUnique | src/core/ConfigTomlValues.cpp:106-116 | The certificates they are cut into are unique. |
| DerCertificates.OnlyOneReading | src/core/ConfigTomlValues.cpp:106-116 | Certificates written one after another are cut into just those. |
| DerCertificates.ChainsJoinAndPart | src/core/ConfigTomlValues.cpp:106-116 | Closed under concatenation and under removing an accepted prefix. |
| DerCertificates.OneIsEnough | src/core/ConfigTomlValues.cpp:106-116 | Every certificate is accepted alone. |
| DerCertificates.KeysAreNotAccepted | src/core/ConfigTomlValues.cpp:78-116 | A SEQUENCE that starts with an INTEGER, as private keys do, is not accepted. |
| DerEncoding.WrittenIsRead | src/core/ConfigTomlValues.cpp:52-76 | For every tag and content, with the length in one byte or in one to four after 0x81 to 0x84: tag, length and content are one element with just that content, whatever follows. |
| DerEncoding.ReadWasWritten | src/core/ConfigTomlValues.cpp:52-76 | Every element was written so. |
| DerEncoding.CutShortIsNone | src/core/ConfigTomlValues.cpp:70-76 | Cut short by any number of bytes it is none. |
| DerEncoding.NoElement | src/core/ConfigTomlValues.cpp:54-62 | Nor are bytes with another tag, no length, the indefinite form or a length of more than four bytes. |
| DerEncoding.WrittenCertificateIff | src/core/ConfigTomlValues.cpp:78-116 | Three fields written into a SEQUENCE are a certificate, and accepted, if and only if the signature is not empty. |
| PemCertificates.BlockIsWritten | src/core/ConfigTomlValues.cpp:143-149 | A block found is BEGIN, a label, a body and END with the same label. |
| PemCertificates.WrittenIsABlock | src/core/ConfigTomlValues.cpp:143-149 | What is written so is found, whatever stands around it. |
| PemCertificates.CertificateBlockDer | src/core/ConfigTomlValues.cpp:121-135 | A block gives certificates only under a certificate label and as strict base64 of a whole chain. |
| PemCertificates.ReadPemCertificates | src/core/ConfigTomlValues.cpp:146-171 | The loop over the matches gives the recursive reading. |
| PemCertificates.KeepCertificatesOnly | src/core/ConfigTomlValues.cpp:175-183 | The text left, and whether anything was dropped. |
| PemCertificates.KeptAsWritten | src/core/ConfigTomlValues.cpp:146-171 | The kept blocks stand in the text as written and in order, and all that stands between is white space just when nothing was dropped. |
| PemCertificates.DroppedIffSomethingElse | src/core/ConfigTomlValues.cpp:146-171 | Nothing is dropped from exactly the texts that are certificate blocks and white space. |
| PemCertificates.CertificatesOnlyIsAProjection | src/core/ConfigTomlValues.cpp:175-191 | Keeping the certificates only is idempotent and loses and adds none. |
| PemPromises.BlockIsRead | src/core/ConfigTomlValues.cpp:121-171 | A block adds itself and its certificates exactly under one of the two labels, with digits that decode to certificates back to back and not one digit too many; any other block is dropped. |
| PemPromises.CertificatesAreRead | src/core/ConfigTomlValues.cpp:146-171 | A file of certificate blocks gives their certificates in order and drops nothing. |
| PemCertificates.WhatIsReadIsAChain | src/core/ConfigTomlValues.cpp:146-171 | The bytes read are a chain of certificates, or none. |
| LauncherQuoting.DesktopExecQuoted | src/app/PlatformAutoStart.cpp:163-171 | Four in-place replacements are one character map. |
| LauncherQuoting.AutoStartExecTarget | src/app/PlatformAutoStart.cpp:205-230 | The loops give the recursive reading of the first Exec line. |
| LauncherQuoting.DesktopEntryIsReadBackIff | src/app/PlatformAutoStart.cpp:163-230 | The entry gives the path back, whatever arguments follow it, if and only if the path has no line break. |
| LauncherQuoting.SplitExec | src/core/AppShortcut.cpp:35-67 | The loop gives the words of the recursive splitter. |
| LauncherQuoting.QuotedPathIsOneWordIff | src/core/AppShortcut.cpp:35-67 | A quoted path is one word and the path, if and only if it is not empty; words after it stay. |
| LauncherWords.WordsAreRead | src/core/AppShortcut.cpp:35-67 | Plain words with spaces between them are those words. |
| LauncherWords.EscapeIsTaken | src/core/AppShortcut.cpp:35-67 | A backslash takes what follows into the word as it is, in quotes or not. |
| LauncherWords.UnquotedProgramIsRead | src/app/PlatformAutoStart.cpp:46-57 | A program without quotes is what stands before the first space. |
| LauncherWords.FirstExecLine | src/app/PlatformAutoStart.cpp:205-230 | The first line that starts with Exec= names the program, whatever stands around it. |
| LauncherQuoting.RunValueIsReadBackIff | src/app/PlatformAutoStart.cpp:51-57 | A Run value gives the path back if and only if it has no quote. |
| PlistQuoting.PlistEscaped | src/app/PlatformAutoStart.cpp:105-112 | Three in-place replacements are one character map. |
| PlistQuoting.UndoIsUnescaped | src/app/PlatformAutoStart.cpp:38-43 | For every text, the reader's three whole-string replacements are one reading from the left. |
| PlistQuoting.UnescapeUndoesEscape | src/app/PlatformAutoStart.cpp:105-112 | That reading is the map's inverse. |
| PlistQuoting.PlistIsReadBack | src/app/PlatformAutoStart.cpp:25-44 | The plist gives every path back. |
| FetchScheduler.Scheduler.StartQueued | src/app/SubscriptionController.cpp:406-417 | Starts are first come first served while there is room. |
| FetchScheduler.Scheduler.BeginOne | src/app/SubscriptionController.cpp:371-383 | A fetch is accepted exactly when none with its key waits or runs. |
| FetchScheduler.Scheduler.AbortAll | src/app/SubscriptionController.cpp:392-404 | The backward loop ends every fetch of the key, and the next ones start. |
| FetchScheduler.Scheduler.OnFetched | src/app/SubscriptionController.cpp:419-432 | The fetch leaves the list, its handler runs, then the next ones start. |
| FetchScheduler.Scheduler.RunHandler | src/app/SubscriptionController.cpp:419-432 | A handler's own starts and aborts do what the operations say. |
| FetchScheduler.RunKeepsSound | src/app/SubscriptionController.cpp:371-432 | Every sequence of operations, inside handlers too: unique keys, at most two running, starts in order, each accepted fetch in one place; and outside one nothing waits while there is room. |
| FetchScheduler.EndsExactlyOnce | src/app/SubscriptionController.cpp:371-432 | Each accepted fetch ends at most once, finished or aborted, and has ended just when it neither waits nor runs. |
| FetchScheduler.RunGrows | src/app/SubscriptionController.cpp:371-432 | What was accepted, started, finished or aborted stays so. |
| FetchScheduler.AbortEndsItsKeyOnly | src/app/SubscriptionController.cpp:392-404 | An abort ends its key's fetches and no other. |
| FetchOutcomes.BeginDoes | src/app/SubscriptionController.cpp:371-383 | A fetch begun is accepted under the next number with its key and who asked, and runs at once or waits last; with one for its key out nothing changes. |
| FetchOutcomes.AbortDoes | src/app/SubscriptionController.cpp:392-404 | Just the fetches of the key are out no more and count as aborted; those that run go on, and those that waited fill the places. |
| FetchOutcomes.FinishDoes | src/app/SubscriptionController.cpp:419-432 | The fetch counts as finished, and the first that waited runs. |
| SubscriptionControllers.SubscriptionController.StoreAddressOf | src/app/SubscriptionController.cpp:85-96 | A new entry, or none; it is the one address no record names yet. |
| SubscriptionControllers.SubscriptionController.DropAddressUnlessShared | src/app/SubscriptionController.cpp:106-112 | An entry another record names stays; the accounts are right after it. |
| SubscriptionControllers.SubscriptionController.LinkTo | src/app/SubscriptionController.cpp:122-146 | A record that cannot be written leaves what was there; one that is puts the accounts right. |
| SubscriptionControllers.SubscriptionController.ForgetConfig | src/app/SubscriptionController.cpp:148-160 | Record, held update, acceptance and address go, and the accounts stay right. |
| SubscriptionControllers.SubscriptionController.RenameConfig | src/app/SubscriptionController.cpp:164-177 | Record, held update and acceptance move; the accounts stay right exactly when no address named once is overwritten. |
| SubscriptionControllers.SubscriptionController.NoteDocumentFor | src/app/SubscriptionController.cpp:231-241 | The record is marked, others and the accounts stay. |
| SubscriptionControllers.SubscriptionController.NoteFailureFor | src/app/SubscriptionController.cpp:243-251 | The record is marked, others and the accounts stay. |
| SubscriptionControllers.SubscriptionController.NoteAppliedTo | src/app/SubscriptionController.cpp:253-264 | What was held and accepted is used up; the accounts stay. |
| SubscriptionControllers.SubscriptionController.RefreshSoonFor | src/app/SubscriptionController.cpp:266-273 | Due at once, when it refreshes by itself; the accounts stay. |
| SubscriptionControllers.SubscriptionController.HoldForHostnameOf | src/app/SubscriptionController.cpp:281-293 | Another server held withdraws what was accepted; the accounts stay. |
| SubscriptionControllers.SubscriptionController.AnswerHostnameOf | src/app/SubscriptionController.cpp:303-318 | An answer accepts the server held, or drops it and turns refreshing off; the accounts stay. |
| SubscriptionControllers.SubscriptionController.Prune | src/app/SubscriptionController.cpp:50-65 | Records of configs that are gone go, with their addresses, and the accounts stay right. |
| BackendSubscriptions.Backend.OnTick | src/app/SubscriptionController.cpp:437-447 | A config that is due is fetched. Consent and spacing are kept, and the accounts by an ordinary step. |
| BackendSubscriptions.Backend.StartSubscriptionRefresh | src/app/BackendSubscriptions.cpp:342-358 | Fetches, or counts a missing address as a failure. Consent and spacing are kept, and the accounts by an ordinary step. |
| BackendSubscriptions.Backend.OnSubscriptionFetched | src/app/BackendSubscriptions.cpp:214-233 | A result is dropped, noted, applied, or asked for again soon. Consent and spacing are kept, and the accounts by an ordinary step. |
| BackendSubscriptions.Backend.FinishApplying | src/app/BackendSubscriptions.cpp:384-427 | The questions in order decide whether the update is written, held or noted. Consent and spacing are kept, and the accounts by an ordinary step. |
| BackendSubscriptions.Backend.FlushHeld | src/app/BackendSubscriptions.cpp:455-471 | An update held is applied once it need not wait. Consent and spacing are kept, and the accounts by an ordinary step. |
| BackendSubscriptions.Backend.ConfirmSubscriptionImport | src/app/BackendSubscriptions.cpp:298-331 | Address, config, link: what fails takes the address back out. Consent and spacing are kept, and the accounts by an ordinary step. |
| BackendSubscriptions.Backend.ForgetSubscription | src/app/BackendSubscriptions.cpp:502-505 | The fetch and all that is kept for the config go. Consent and spacing are kept, and the accounts by an ordinary step. |
| BackendSubscriptions.Backend.RenameSubscription | src/app/SubscriptionController.cpp:164-177 | All that is kept moves to the new path, and the fetch for the old one ends. Consent and spacing are kept, and the accounts by an ordinary step. |
| BackendSubscriptions.Backend.AnswerHostnameChange | src/app/BackendSubscriptions.cpp:475-487 | Accepted with nothing held, it is fetched again. Consent and spacing are kept, and the accounts by an ordinary step. |
| SubscriptionSecrets.RunAccounts | src/app/BackendSubscriptions.cpp:298-331 | Over any run of imports failing at any step, replacements, renames to unlinked paths, removals and refreshes, the stored addresses are exactly those the records name. |
| SubscriptionSecrets.ConfirmAccounts | src/app/BackendSubscriptions.cpp:298-331 | Whatever step of an import fails, no address is left or lost. |
| SubscriptionSecrets.RenameAccountsIff | src/app/SubscriptionController.cpp:164-177 | A rename keeps that exactly when it is not over a record whose address no other names. |
| SubscriptionSecrets.RenameOverLinkedLeaks | src/app/SubscriptionController.cpp:164-177 | A rename over a linked config can leave its address behind. |
| SubscriptionSecrets.PrunedAccounts | src/app/SubscriptionController.cpp:50-65 | So does the clean-up at start. |
| SubscriptionSecrets.ImportIsRemembered | src/app/BackendSubscriptions.cpp:298-331 | An import that succeeds is found again under its address. |
| SubscriptionOutcomes.WrittenIff | src/app/BackendSubscriptions.cpp:390-427 | The config's host becomes the update's exactly when it is linked, the update usable and different, its server the same or accepted, nothing makes it wait and it was saved; then what was held, asked and accepted is used up. Otherwise no host changes and no write is logged. |
| SubscriptionOutcomes.AskedIff | src/app/BackendSubscriptions.cpp:398-408 | The user is asked, with the update held and any acceptance withdrawn, exactly when the server is another and not accepted. |
| SubscriptionOutcomes.OtherwiseApplied | src/app/BackendSubscriptions.cpp:390-420 | Otherwise: a failure counted, an update held, or what was held used up by one that changes nothing. |
| SubscriptionOutcomes.AutomaticStartIff | src/app/SubscriptionController.cpp:437-447 | An automatic fetch starts exactly when the config refreshes by itself, its time has come, ten minutes have passed, it is allowed and can be fetched. |
| SubscriptionOutcomes.UserStartIff | src/app/BackendSubscriptions.cpp:342-358 | The user's own starts exactly when it can be fetched; without its address it counts as failed. |
| SubscriptionOutcomes.ArrivedDoes | src/app/BackendSubscriptions.cpp:214-233 | A result ends its fetch: a failure counts, a document is applied with who asked for it, or asked for again when one is being applied. |
| SubscriptionOutcomes.WaitsAre | src/app/SubscriptionController.cpp:197-229 | A document's wait is what the server asks for between an hour and a week, a day when it asks for nothing; after any number of failures in a row the waits are ten minutes, half an hour, two hours, and then that. |
| SubscriptionOutcomes.AcceptedDoes | src/app/BackendSubscriptions.cpp:475-487 | A yes lets the held server through and fetches again when its update is gone. |
| SubscriptionOutcomes.RefusedDoes | src/app/SubscriptionController.cpp:303-318 | A no drops it and turns refreshing off. |
| SubscriptionOutcomes.FlushDoes | src/app/BackendSubscriptions.cpp:455-471 | A held update is applied exactly when nothing is asked about it, it need not wait and none is being applied. |
| SubscriptionOutcomes.ImportDoes | src/app/BackendSubscriptions.cpp:298-331 | An import writes its config exactly when its address is stored and its file written, and links it when that is saved. |
| SubscriptionOutcomes.PruneDoes | src/app/SubscriptionController.cpp:50-65 | At a start the records of configs that are gone go, and the others stay. |
| SubscriptionOutcomes.RemoveAndMoveDo | src/app/SubscriptionController.cpp:148-177 | A config removed takes all that was kept along; one renamed keeps it. |
| SubscriptionConsent.EveryWriteHasConsent | src/app/BackendSubscriptions.cpp:376-427 | In every run, each write of a refresh that changes a config's server has an acceptance of that server that stands for that config. |
| SubscriptionConsent.ConsentIsUsedOnce | src/app/SubscriptionController.cpp:253-264 | No two writes share an acceptance. |
| SubscriptionConsent.StandingMeans | src/app/SubscriptionController.cpp:281-318 | An acceptance that stands was given for the config, with no update applied, no server held and no link ended since. |
| SubscriptionConsent.RefreshWritesAreLogged | src/app/BackendSubscriptions.cpp:376-427 | A refresh changes no config's host but by such a write. |
| SubscriptionTiming.EveryRunIsTimed | src/app/SubscriptionController.cpp:437-447 | In every run, an automatic fetch starts ten minutes or more after any earlier fetch for its config, renames to its path apart. |
| SubscriptionTiming.TenMinutesApart | src/app/SubscriptionController.cpp:437-447 | The same, said of any two fetches of a path, whatever started between them. |
| SubscriptionTiming.OffStaysOff | src/app/SubscriptionController.cpp:197-229 | Once automatic refresh is off none starts until a new link or a document of the user's own refresh. |
| SubscriptionTiming.ArrivedKeepsTimed | src/app/BackendSubscriptions.cpp:376-383 | A result that arrives while another is applied keeps the spacing. |
| BypassRules.SanitizedBypassRules | src/core/BypassRules.cpp:114-125 | The loop gives the usable rules, trimmed, each once. |
| BypassRules.CoreBypassRules | src/core/BypassRules.cpp:127-137 | The loop gives the core forms, each once. |
| BypassRules.ValidIffUsable | src/core/BypassRules.cpp:40-112 | What the page accepts is exactly what the core can use. |
| BypassRules.CleanIffFixed | src/core/BypassRules.cpp:114-125 | The lists sanitizing leaves are exactly the clean ones, and it is idempotent. |
| BypassRules.CoreRulesOf | src/core/BypassRules.cpp:127-137 | No usable rule is lost, none is twice, nothing else is given. |
| BypassRules.ValidSubnetIsNotEveryAddress | src/app/BackendSplit.cpp:83-101 | A route Settings accepts is not dropped at the next load. |
| RuleForms.NamesAreGiven | src/core/BypassRules.cpp:85-112 | A name is given in its ASCII form, and with "*." for both "*." and "." in front; the page accepts all three. |
| RuleForms.AddressesAreGiven | src/core/BypassRules.cpp:14-28 | An address is given as it is, and with a wildcard is nothing. |
| RuleForms.SubnetsAreGiven | src/core/BypassRules.cpp:14-28 | A subnet is given, and accepted, exactly when its prefix is from 1 to the bits of its kind. |
| RuleForms.OthersAreNoSubnets | src/core/BypassRules.cpp:14-28 | What is no address, with a prefix or without, and an address whose prefix is no number, is no subnet and gives nothing. |
| SettingsFile.SettingsStore.SaveAppSettings | src/core/AppSettings.cpp:247-287 | Key by key, the store holds the saved settings. |
| SettingsFile.SettingsStore.SaveGroup | src/core/AppSettings.cpp:264-270 | A group is dropped and written again, profile by profile. |
| SettingsFile.SettingsStore.LoadAppSettings | src/core/AppSettings.cpp:216-245 | The settings read are those the store says. |
| SettingsFile.SettingsStore.LoadProfileMap | src/core/AppSettings.cpp:51-77 | Each profile's list, shipped or old lists only where none was saved. |
| SettingsFile.SettingsStore.ReadGeoLists | src/core/AppSettings.cpp:147-170 | The rows that are lists, each id once. |
| SettingsFile.SettingsStore.MergeProfileOrder | src/core/AppSettings.cpp:79-94 | The stored order, then the profiles it misses. |
| SettingsRoundTrip.LoadAfterSave | src/core/AppSettings.cpp:216-287 | Load after save is the identity on every consistent state, over any store and though it folds key case. |
| SettingsRoundTrip.GroupReadsBack | src/core/AppSettings.cpp:264-270 | A group written again reads back under every name and changes nothing else. |
| SettingsRoundTrip.NothingComesBack | src/core/AppSettings.cpp:51-77 | An emptied Default stays empty: no shipped or old list takes its place. |
| SettingsRoundTrip.NamesOnlyCaseApartCollide | src/app/BackendSplit.cpp:400-407 | Two profiles a store cannot tell apart would share a list: why such names are refused. |
| SettingsRoundTrip.FreshIsConsistent | src/core/AppSettings.cpp:216-245 | A start on an empty store is consistent. |
| SettingsLoads.EveryAddressIs | src/core/BypassRules.cpp:63-70 | A route is every address exactly when it is an address with a prefix of zero. |
| SettingsLoads.FirstStart | src/core/AppSettings.cpp:216-245 | Every setting after a start on an empty store. |
| SettingsLoads.GeneralLoads | src/core/AppSettings.cpp:216-245 | From any store: routes of every address are dropped and no other, an unset or old log path is the default, the mode and the switch are as kept. |
| SettingsLoads.ProfilesLoad | src/core/AppSettings.cpp:51-77 | The names kept are the profiles, each with the usable rules of its entry; without one Default has those shipped and another none. |
| SettingsLoads.OldRulesLoad | src/core/AppSettings.cpp:51-77 | The one list of older versions is Default's unless it has rules of its own. |
| SettingsLoads.AppsLoadFrom | src/core/AppSettings.cpp:102-126 | Each profile has its own programs, or the one list until they first were per profile. |
| SettingsLoads.ActiveLoads | src/core/AppSettings.cpp:79-139 | The profile shown is the one that was, with its own lists; every profile is in the order once. |
| SettingsLoads.GeoRowsLoad | src/core/AppSettings.cpp:147-170 | The lists are the rows that are lists, as kept, the first of each id. |
| SettingsLoads.HoursLoad | src/core/AppSettings.cpp:141-145 | The hours between updates are those kept if they are offered, none for an older version's switch turned off, else a day. |
| SettingsLoads.HotkeysLoad | src/core/AppSettings.cpp:189-214 | Hotkeys are on when turned on since they are opt-in, or with a combination of one's own. |
| SettingsEdits.EditKeepsConsistent | src/app/BackendSplit.cpp:44-445 | Every edit keeps the mirrors, the profiles' keys, their order, their names apart and their lists clean. |
| SettingsEdits.RestartChangesNothing | src/app/BackendSettings.cpp:46-46 | From a fresh start through any edits, a restart loads what was in memory. |
| SettingsOutcomes.PasteDoes | src/app/BackendSplit.cpp:44-65 | After a paste each valid line is there, what was there stays in front, and nothing else is; routes alike. |
| SettingsOutcomes.RecommendDoes | src/app/BackendSplit.cpp:349-360 | Each shipped rule the core can use is there, behind what was. |
| SettingsOutcomes.DropDomainDoes | src/app/BackendSplit.cpp:66-77 | The one entry is gone, or all, in the mirror and the profile, and the others stay in order. |
| SettingsOutcomes.PasteAppDoes | src/app/BackendSplit.cpp:177-195 | A program goes behind the others unless one compared equal is there. |
| SettingsOutcomes.DropAppDoes | src/app/BackendSplit.cpp:327-338 | The one program is gone, or all. |
| SettingsOutcomes.ChooseProfileDoes | src/app/BackendSplit.cpp:389-395 | A profile chosen shows its own lists. |
| SettingsOutcomes.NewProfileDoes | src/app/BackendSplit.cpp:397-422 | A profile is added, empty and chosen, exactly when no other has its name in any case. |
| SettingsOutcomes.ProfileGoes | src/app/BackendSplit.cpp:424-445 | A profile removed is gone with its lists, its configs have Default, the others keep theirs. |
| SettingsOutcomes.AssignDoes | src/app/BackendConfigCreate.cpp:57-70 | A config has the profile it was given under its new path and none under the old. |
| SettingsOutcomes.NewGeoDoes | src/app/BackendGeo.cpp:71-93 | A list goes behind the others unless one of its source and kind is there. |
| SettingsOutcomes.GeoChangesDo | src/app/BackendGeo.cpp:94-108 | The one list with the id is turned, the others stay. |
| SettingsOutcomes.DropGeoDoes | src/app/BackendGeo.cpp:109-114 | It goes, and the others stay in order. |
| SettingsOutcomes.GeneralEditsDo | src/app/BackendSplit.cpp:649-665 | The mode is one of two by what was asked, hours are ones offered, routes and switch are as set. |
| SettingsEditor.Editor.AddDomain | src/app/BackendSplit.cpp:44-65 | Added to mirror and profile, and saved. The settings stay consistent, and a restart would load them. |
| SettingsEditor.Editor.RemoveDomainAt | src/app/BackendSplit.cpp:66-71 | Taken from both, and saved. The settings stay consistent, and a restart would load them. |
| SettingsEditor.Editor.ClearAllDomains | src/app/BackendSplit.cpp:72-77 | Both emptied, and saved. The settings stay consistent, and a restart would load them. |
| SettingsEditor.Editor.AddRecommendedRussia | src/app/BackendSplit.cpp:349-360 | The shipped rules not there yet are added. The settings stay consistent, and a restart would load them. |
| SettingsEditor.Editor.AddAppRule | src/app/BackendSplit.cpp:177-195 | Added unless it is listed in any spelling. The settings stay consistent, and a restart would load them. |
| SettingsEditor.Editor.RemoveAppRule | src/app/BackendSplit.cpp:327-332 | Taken from mirror and profile. The settings stay consistent, and a restart would load them. |
| SettingsEditor.Editor.SelectProfileNamed | src/app/BackendSplit.cpp:389-395 | Both mirrors follow. The settings stay consistent, and a restart would load them. |
| SettingsEditor.Editor.AddProfileNamed | src/app/BackendSplit.cpp:397-422 | Refused when a name differs only in case; else all four maps and lists take it. The settings stay consistent, and a restart would load them. |
| SettingsEditor.Editor.RemoveProfileNamed | src/app/BackendSplit.cpp:424-445 | Gone from all, its configs to Default, mirrors back to Default. The settings stay consistent, and a restart would load them. |
| SettingsEditor.Editor.SetVpnMode | src/app/BackendSplit.cpp:649-665 | Only two modes are stored. The settings stay consistent, and a restart would load them. |
| SettingsEditor.Editor.AddExcludedRoute | src/app/BackendSplit.cpp:111-134 | Valid subnets are added, never every address. The settings stay consistent, and a restart would load them. |
| SettingsEditor.Editor.AddGeoList | src/app/BackendGeo.cpp:71-93 | Refused without a name or with no list's address; added unless its source and kind are there. The settings stay consistent, and a restart would load them. |
| SettingsEditor.Editor.SetGeoListEnabled | src/app/BackendGeo.cpp:94-100 | The one list changes. The settings stay consistent, and a restart would load them. |
| SettingsEditor.Editor.SetGeoListDirection | src/app/BackendGeo.cpp:101-108 | The one list changes. The settings stay consistent, and a restart would load them. |
| SettingsEditor.Editor.RemoveGeoList | src/app/BackendGeo.cpp:109-114 | The list goes. The settings stay consistent, and a restart would load them. |
| SettingsEditor.Editor.SetGeoUpdateHours | src/app/BackendGeo.cpp:64-70 | Only the offered hours are taken. The settings stay consistent, and a restart would load them. |
| SplitRouting.SanitizedAppRules | src/core/AppRules.cpp:117-134 | The loop gives the rules that are rules, each once by what it is compared by. |
| SplitRouting.SomeAppIff | src/core/AppRules.cpp:117-134 | It gives one exactly when one in the list is a rule. |
| SplitRouting.GeoRulesFit | src/app/BackendGeo.cpp:54-62 | The sum of the enabled lists' bytes against the limit. |
| SplitRouting.ApplySplitRules | src/app/BackendSplit.cpp:495-549 | The loops push the rules, tags, mode and programs of the specification. |
| SplitRouting.SettingsAreFollowed | src/app/BackendSplit.cpp:462-549 | For every state of the settings, each connection goes where the user asked: own rules, lists through the tunnel, lists around it, the mode, with the fall back to the full tunnel. |
| RoutingPromises.SettingsDecide | src/app/BackendSplit.cpp:462-533 | Said of the settings alone: for the profile the config has, or Default, a rule sends what it names through the tunnel exactly with "Through VPN"; then enabled lists, through before around; what nothing names goes around exactly with "Through VPN" and something to go through; switched off, or with lists too large, all goes through. |
| RoutingPromises.ProgramsAreTheProfiles | src/app/BackendSplit.cpp:518-537 | The programs pushed are those of the config's profile, and none when switched off. |
| RoutingPromises.NamedProgramsAreForced | src/core/AppRules.cpp:357-364 | A program a rule of that profile names is forced through with "Through VPN" and around with "Bypass VPN"; another is left to the rest. |
| RoutingPromises.AppsLeft | src/core/AppRules.cpp:117-134 | Every usable program rule stays once by what it is compared by, and nothing else. |
| RoutingPromises.ListsFitIff | src/app/BackendGeo.cpp:54-62 | The lists fit exactly when the enabled ones together take at most 8 MiB. |
| RoutingPromises.OneEntryMeans | vendor/trusttunnel/04-priority-geo-rules.patch:98-183 | What one entry of each tier means to the core. |
| SplitRouting.RoutedAsAsked | vendor/trusttunnel/04-priority-geo-rules.patch:98-183 | The core's tiers, applied to what is pushed, decide just that. |
| SplitRouting.SelectiveHasSomething | src/app/BackendSplit.cpp:462-487 | The selective mode is pushed only with an entry through the tunnel or a usable program. |
| SplitRouting.ManualTagsFollowTheMode | src/app/BackendSplit.cpp:513-517 | Rules tagged @0: are pushed only with the selective mode, those tagged @1: only without. |
| SplitRouting.ProgramsAreNotInverted | src/core/AppRules.cpp:357-364 | "Through VPN" sends no program around the tunnel, "Bypass VPN" forces none in, and off asks no rule. |

## Left out

- The unsigned generation counters' wrap-around at 2^64, shutdown in the middle of a handler, and the nested event loop
  of a modal dialog: each handler is one step.
- BackendConnect.Backend.Reapply: without `m_inConnect`, which stands only inside the one step in which a read is handed
  over.
- BackendConnect.Backend.Save: an import with no config active makes its config the active one and rebuilds nothing; the
  model's save rebuilds a tunnel that is shown.
- ConnectTheorems.NothingStartsAfterDisconnectIff: not of an app that is quitting, which starts less.
- Nested event loops inside the credential store: a subscription update begins and ends in two steps, the config's
  file is read at the second, and the write with its bookkeeping is part of it.
- The subscription update flushed while a tunnel comes up is one action that may happen at any time, a superset of
  when the program does it; that held updates are ever applied is not claimed.
- SubscriptionSteps: a fetch starts there when it is accepted; how long it then waits for one of the two places is
  `FetchScheduler`'s, and the two are not tied together.
- Downloads, sockets, the fetcher, the updater, pings, D-Bus, hotkey registration, tray and windows.
- SubscriptionSecrets.RunAccounts: assumes that deleting from the credential store succeeds, that new ids are new, that
  `subscriptions.json` can be written when it is, and that no rename is over a linked config, as one can leave an
  address behind (SubscriptionSecrets.RenameOverLinkedLeaks).
- SubscriptionTiming.EveryRunIsTimed: says nothing of the first fetch after a rename to a path, as a rename aborts a
  fetch without counting it; nor across a restart.
- SubscriptionControl: the last status, the time of the last document, origin and identity of a record, which only
  describe it; the import waiting for the user, with its token and its ten minutes.
- Applying a document to a config beyond its host, which alone decides about consent: whether anything else changed,
  whether the server can be used, whether the update waits and whether it could be saved are inputs.
- DerCertificates.DerElementEnd: for input of at most 2^31 - 5 bytes, as positions are ints in the source.
- PemCertificates.ReadPemCertificates: base64 itself, a parameter that makes no more bytes than it is given characters.
- SettingsRoundTrip.LoadAfterSave: values of a type other than the one written, as a hand edit leaves them; keys with a
  slash in a profile's name; a fixed key stands for its text.
- The one-time rewrite of rules that named a Squirrel updater (`src/app/BackendSplit.cpp:153-175`), the Squirrel
  folder cache, and Windows path forms.
- How a rule names a program beyond equality of what it is compared by (bundles, a program's own directory): which
  programs a rule matches is a parameter of `SplitRouting.ActionFor`.
- SplitRouting.RoutedAsAsked: which entries name a connection is a parameter; the core's waiting for a host name, its
  DNS cache and exclusions of the config file's own are not modelled.
- The rest of the TOML reader and writer: TOML v1.0.0 is not the specification here, the line lexer is; a multi-line
  string that ends in four or five quotes is closed at the first three.
- QML, translations, platform scripts and the Android application.
