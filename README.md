# A Dafny model of the GearShift request-time core

GearShift is a CherryPy-based Python web framework descended from
TurboGears. This project models the decision logic it runs for each
request, and proves properties of that model:

- access control: the identity predicates, the enforcement loop of the identity tool, and failure redirects;
- identity resolution: the ordered identity sources (form, HTTP Basic authentication as in section 2 of RFC 7617, visit), password hashing dispatch, and the SQLAlchemy and Storm providers with their salted password format;
- visit tracking: the queue of pending expiry updates, visit-key search, visit cookies, and the SQLObject and App Engine visit managers;
- request shaping: `url` and `redirect`, REST dispatch with its Allow header (section 7.4.1 of RFC 7231), the expose decorator and renderer front end, the markup, flash and element tools, and validation error dispatch;
- utilities: configuration merging, SQLObject hubs and their transactions, the commit veto, schema comparison and admin-command dispatch, quickstart package naming and ORM switches, validators and the pre-1900 date formatting, view helpers, locale helpers, gettext with its catalog cache and lazy strings, and the OAuth token store.

There is one Dafny module per Python source file, plus `Common` and `Utf8`.

## Conventions

- A Python exception becomes the `Err` case of `Common.Result`, carrying an `Exc` value that names the exception.
- An object the source updates in place is a `class`: a request, a response, a cache, a store, a queue or a token row. Its methods carry `modifies` clauses and state the new state in full.
- Pure code is written as functions over datatypes.
- A loop in the source is a method with invariants, proved against a specification function.
- The following are parameters of the operations that use them: the clock, random and generated keys, hash functions, template engines, markup libraries, ORM queries, `urlencode`, cookie quoting and the helpers of `gearshift.util`.
- Databases are in-memory sequences or maps.
- Where the code as written is evidently wrong, it is modelled as written (`...AsWritten`), with a lemma that exhibits the failure. A corrected member, with the intended property proved, sits beside it, and is marked "corrected" in the table below; the operations of the model (the request pipeline, the tools, the providers) run the code as written. See "## Findings".
- Where the code and its documentation disagree, the model follows the code.

## Model

| member | source | states |
|---|---|---|
| ErrorHandling.FailsafeByName | gearshift/errorhandling.py:9 | looking a failsafe schema up by name yields a member with exactly that name, and None only when no member has it |
| ErrorHandling.FailsafeMembers | gearshift/errorhandling.py:9 | the enumeration has exactly the members none, values, map_errors and defaults, each name belonging to one member, and each of the four names is found |
| ErrorHandling.Dispatch | gearshift/errorhandling.py:13-21 | the error function is chosen iff the request carries truthy validation errors; it gets the same positional arguments and the keyword arguments plus `tg_errors`; otherwise the controller gets the arguments unchanged |
| ErrorHandling.ErrorWrapper | gearshift/errorhandling.py:13-22 | the wrapper returns exactly what the chosen function returns |
| ErrorHandling.NoErrorsCallsController | gearshift/errorhandling.py:15-21 | with absent or empty errors the wrapper's result is the controller's result on the original arguments, whatever the error function is |
| Config.Get | gearshift/config.py:45-54 | inside a request stage the request's config answers, otherwise the server's; a missing key gives the default |
| Config.PairOf | gearshift/config.py:307 | an element `dict.update` takes as a pair: a two-element list or tuple with a string key, or a two-character string; an element of another length raises ValueError, one that is not iterable TypeError |
| Config.UpdatePairs | gearshift/config.py:307 | `dict.update` from a sequence never loses a key, and succeeds iff every element is a pair |
| Config.UpdatePairsFirstError | gearshift/config.py:307 | the exception raised is that of the first element that is not a pair, every element before it being one |
| Config.UpdatePairsKeys | gearshift/config.py:307 | after the update, even one that raised, only the earlier keys and keys carried by pairs are present |
| Config.UpdatePairsSetsKeys | gearshift/config.py:307 | after a successful update every key a pair carries is present |
| Config.UpdatePairsKeepsOthers | gearshift/config.py:307 | a key no pair carries keeps its value, even when the update raises |
| Config.UpdatePairsLastWins | gearshift/config.py:307 | after a successful update each key holds the value of the last pair carrying it |
| Config.ListPair | gearshift/config.py:307 | a two-element list or tuple with a string first element is that key and value; with another first element it raises TypeError; any other length raises ValueError naming the length |
| Config.StrPair | gearshift/config.py:307 | a two-character string is the pair of its characters; any other length raises ValueError naming the length |
| Config.StrUpdate | gearshift/config.py:307 | updating from a string is updating from its characters: the empty string changes nothing, any other raises ValueError at its first, one-character, element before setting anything |
| Config.UpdateSection | gearshift/config.py:307 | a section that is not a dictionary has no `update` and raises AttributeError, unchanged; a dictionary section stays a dictionary and keeps all its keys |
| Config.UpdateSectionSucceeds | gearshift/config.py:307 | updating an existing section succeeds iff the section is a dictionary and the value is a dictionary, a sequence of pairs, or the empty string |
| Config.UpdateSectionWithDict | gearshift/config.py:307 | a dictionary value succeeds, its values win, and the section's other entries are kept |
| Config.UpdateSectionWithSequence | gearshift/config.py:307 | a list or tuple updates the section in place with its pairs up to the first element that is not one, a string likewise with its characters, so a non-empty one raises ValueError with the section unchanged; a value that is not iterable raises TypeError |
| Config.PairListUpdatesSection | gearshift/config.py:307 | a list holding the pair ("a", 1) sets `a` to 1 in an empty section |
| Config.ApplyItem | gearshift/config.py:302-320 | no key is ever removed; a '/'-key is inserted as a new application section, or the existing one is updated with the section update's state and exception; 'logging' raises AttributeError when it is not a dictionary and otherwise what `configure_loggers` raises, with nothing changed, and is recorded only when that succeeds; a dictionary is merged into the server config; any other value is stored under its key, and 'visit.on' is copied to 'tools.visit.on' |
| Config.LoggingErrorStopsUpdate | gearshift/config.py:293-320 | a logging configuration that `configure_loggers` rejects stops `update` with an exception, before any later item is applied |
| Config.UpdateOnlyAdds | gearshift/config.py:293-320 | an update never removes a server key or application section, and earlier logging configurations stay, in order, ahead of new ones |
| Config.UpdateCreatesSections | gearshift/config.py:302-307 | a successful update leaves an application section for every '/'-key given, and no '/'-item writes into the server config |
| Config.UpdateCoversSections | gearshift/config.py:293-307 | taken in an iteration order of the dictionary, a successful update leaves an application section for every '/'-key it holds |
| Config.UpdateThenGet | gearshift/config.py:45-320 | a plain value passed to `update` is what `get` returns outside a request, and 'visit.on' is also readable as 'tools.visit.on' |
| Config.ConfigStore.constructor | gearshift/config.py:39-43 | the server and application configs start empty, with no logging configuration |
| Config.ConfigStore.State | gearshift/config.py:39-43 | the store's fields are exactly the state the update functions act on |
| Config.ConfigStore.Update | gearshift/config.py:293-320 | the loop over the items leaves the store in the state, and stops with the exception, that the item-by-item fold over the same order gives |
| Config.ConfigStore.ApplyItems | gearshift/config.py:302-320 | the items under the given keys, one by one, leave the store in the state, and stop with the exception, that the item-by-item fold gives |
| Config.ConfigErrorMsg | gearshift/config.py:84-86 | the error message names the offending value |
| Config.OptionValue | gearshift/config.py:79-89 | options of 'global' and '/' sections are evaluated as Python literals, a non-literal raising ValueError that names the value; other sections keep the raw text |
| Config.SectionValues | gearshift/config.py:77-91 | adding a section's options only adds keys to the section dictionary |
| Config.SectionValuesMeaning | gearshift/config.py:77-91 | a section converts iff every option converts, otherwise the first failure is raised; on success every option is present, the last option of a name wins, and entries the section does not name are kept |
| Config.IniDictFails | gearshift/config.py:70-92 | `as_dict` fails exactly when some option of a 'global' or '/' section is not a Python literal |
| Config.IniDictSections | gearshift/config.py:73-92 | a successful `as_dict` has every section and keeps dictionaries no section names |
| Config.IniDictSectionValues | gearshift/config.py:73-92 | with distinct section names, a successful `as_dict` gives each section its own options converted |
| Config.ReadSection | gearshift/config.py:75-91 | the per-section loop yields what SectionValues specifies for that section |
| Config.AsDict | gearshift/config.py:70-92 | the method's nested loops compute the `as_dict` specification over the sections in order |
| Config.PercentStyleComplete | gearshift/config.py:109 | after the replacement no '*(' remains and the format keeps its length |
| Config.PercentStyleKeeps | gearshift/config.py:109 | a format without '*(' is used unchanged |
| Config.FormatterOf | gearshift/config.py:106-114 | 'fmt' is passed iff 'format' is non-empty, with no '*(' left; 'datefmt' is passed iff non-empty, unchanged |
| Config.GetFormatters | gearshift/config.py:104-115 | every entry of the formatter table is replaced by the formatter built from its own options, and the table keeps its keys |
| Config.Merge | gearshift/config.py:284-290 | the merged dictionary has the keys of both, keeps keys only the first has, and every value of the second wins (sections recursively) |
| Config.WinsSelf | gearshift/config.py:284-290 | every value of a dictionary, sections within sections, is found in the dictionary itself: the case of the merge guarantee where a section is copied over whole |
| Config.MergeSelf | gearshift/config.py:284-290 | merging a dictionary into itself gives the same dictionary, sections included |
| Config.LastFileWins | gearshift/config.py:276-284 | among the module's config files merged in order, the last one's values win |
| Config.ConfigFileWins | gearshift/config.py:245-291 | the config file's values override the module's files, and keys only the module's files set are kept |
| Config.ModuleFilesInOrder | gearshift/config.py:276-291 | without a config file, the module's last config file wins |
| SoHub.BeginSpec | gearshift/database/so/so.py:144-158 | without transaction support the connection comes back unchanged; a transaction is returned as it is and reopened if obsolete; a plain connection is remembered as `old_conn` and replaced by a new transaction, which becomes current |
| SoHub.CommitSpec | gearshift/database/so/so.py:160-169 | only a current transaction is committed, and only when transactions are supported; the connections are untouched |
| SoHub.RollbackSpec | gearshift/database/so/so.py:171-180 | only a current, non-obsolete transaction is rolled back, and only when transactions are supported |
| SoHub.EndSpec | gearshift/database/so/so.py:182-196 | a current transaction is rolled back unless obsolete, its original connection becomes current and is expired; with no `old_conn` the restore raises AttributeError after the rollback; anything else is left alone |
| SoHub.NoTransactionsNoEffect | gearshift/database/so/so.py:146-185 | without transaction support commit, rollback and end change nothing |
| SoHub.BeginEndRestores | gearshift/database/so/so.py:144-196 | a transaction begun on a plain connection and ended uncommitted is rolled back, and the plain connection is current again, expired |
| SoHub.BeginCommitEnd | gearshift/database/so/so.py:160-196 | ending a committed transaction rolls back after the commit and restores the connection |
| SoHub.EndObsoleteSkipsRollback | gearshift/database/so/so.py:192-196 | an obsolete transaction is not rolled back by end, only replaced by its connection |
| SoHub.AutoConnectHub.constructor | gearshift/database/so/so.py:85-91 | a new hub keeps its URI and transaction flag and holds no connection |
| SoHub.AutoConnectHub.State | gearshift/database/so/so.py:154-156 | the hub's thread-local fields are exactly the state the specifications act on |
| SoHub.AutoConnectHub.Begin | gearshift/database/so/so.py:144-158 | the method's effect and result are those of BeginSpec |
| SoHub.AutoConnectHub.Commit | gearshift/database/so/so.py:160-169 | the method's effect is that of CommitSpec |
| SoHub.AutoConnectHub.Rollback | gearshift/database/so/so.py:171-180 | the method's effect is that of RollbackSpec |
| SoHub.AutoConnectHub.End | gearshift/database/so/so.py:182-196 | the method's effect and raised exception are those of EndSpec |
| SoHub.ResolveDbUri | gearshift/database/so/so.py:232-241 | the package's own URI is used if set, else the default one, else KeyError; a "notrans_" prefix is removed and turns transactions off |
| SoHub.NoTransSharesCacheKey | gearshift/database/so/so.py:237-245 | a "notrans_" URI and the same URI without the prefix resolve to the same cache key, with opposite transaction flags |
| SoHub.HubCache.constructor | gearshift/database/so/so.py:25 | the hub cache starts empty |
| SoHub.PackageHub.constructor | gearshift/database/so/so.py:208-210 | a package hub starts with its package name and no hub |
| SoHub.PackageHub.SetHub | gearshift/database/so/so.py:231-246 | a URI lookup error is raised and nothing changes; otherwise the cached hub for the URI is reused, or a new hub with the resolved transaction flag is created and cached, and becomes the package's hub |
| SoHub.DbUriKey | gearshift/database/so/so.py:256-259 | a named package writes "<package>.dburi", no package writes "sqlobject.dburi" |
| SoHub.SetDbUri | gearshift/database/so/so.py:248-259 | setting the URI is `config.update` of the one key |
| SoHub.DbUriKeyIsPlain | gearshift/database/so/so.py:256-259 | the key written is never the logging key or 'visit.on', and an application-section key only when the package name starts with '/' |
| SoHub.SetDbUriThenResolve | gearshift/database/so/so.py:231-259 | a URI set with `set_db_uri` is what the package's hub then resolves outside a request |
| SoHub.InterestingVersionOrder | gearshift/database/so/so.py:93-100 | the version test is exactly (major, minor) < (1, 2), so it holds for every earlier version too |
| ZopeTransactions.StatusCode | gearshift/database/so/zope_transactions.py:24-26 | an integer status is its own code; a string status is the integer before its first whitespace, IndexError when it is blank and ValueError when that word is not a number |
| ZopeTransactions.CommitVeto | gearshift/database/so/zope_transactions.py:13-33 | a missing status (an internal redirect) never vetoes; otherwise the commit is vetoed exactly when the code lies outside [200, 400); a malformed status line raises |
| ZopeTransactions.VetoIgnoresEnvironAndHeaders | gearshift/database/so/zope_transactions.py:13-33 | the verdict depends on the status alone |
| ZopeTransactions.VetoIffNotSuccessOrRedirect | gearshift/database/so/zope_transactions.py:28-30 | a non-zero code vetoes iff it is below 200 or at least 400, so the redirects 302 and 303 commit |
| ZopeTransactions.DigitsOfNat | gearshift/database/so/zope_transactions.py:26 | the decimal digits of a number parse back as that number |
| ZopeTransactions.WordBeforeSpace | gearshift/database/so/zope_transactions.py:26 | the first word of "<word> <rest>" is the word |
| ZopeTransactions.StatusLineIsItsCode | gearshift/database/so/zope_transactions.py:25-30 | a status line "<code> <reason>" is judged exactly as its numeric code |
| ZopeTransactions.NoContentCommits | gearshift/database/so/zope_transactions.py:25-30 | the status line '204 No Content' commits |
| ZopeTransactions.FirstWordOfLine | gearshift/database/so/zope_transactions.py:26 | `split()[0]` of "<word> <rest>" is the word, for a word without whitespace |
| ZopeTransactions.ParseDigits | gearshift/database/so/zope_transactions.py:26 | `int()` of a non-empty string of digits is their decimal value |
| ZopeTransactions.DigitLineCode | gearshift/database/so/zope_transactions.py:24-26 | the status code of "<digits> <reason>" is the value of the digits |
| ZopeTransactions.DigitLineIsItsValue | gearshift/database/so/zope_transactions.py:24-30 | a status line "<digits> <reason>" is judged as the number the digits spell |
| SaCommand.Indent | gearshift/command/sacommand.py:63-64 | every line is kept, in order, with four spaces in front |
| SaCommand.Dedent | gearshift/command/sacommand.py:63-64 | removing the indentation keeps the number of lines |
| SaCommand.IndentKeepsLines | gearshift/command/sacommand.py:63-64 | dedenting an indented list gives it back, and indenting distributes over concatenation |
| SaCommand.LengthStr | gearshift/command/sacommand.py:115 | a length renders as a non-empty string |
| SaCommand.Reflectable | gearshift/command/sacommand.py:101-105 | Unicode and UnicodeText model types are compared as String and Text with the same length; other types are unchanged |
| SaCommand.CompareColumn | gearshift/command/sacommand.py:97-132 | at most one line each for type or length, primary key, default and index, and no line at all exactly when the columns agree |
| SaCommand.TypeOrLengthNeverBoth | gearshift/command/sacommand.py:107-126 | a column gets a type change or a length change, never both, a length change only for String types, and a default change only when both columns have a default |
| SaCommand.ColumnMatchesItself | gearshift/command/sacommand.py:97-132 | a column compared with itself shows no difference |
| SaCommand.DbIndex | gearshift/command/sacommand.py:82 | every database column is indexed by its lowercased name, and every index key comes from a column |
| SaCommand.ColumnEntries | gearshift/command/sacommand.py:84-92 | an unmatched model column gives "Add column"; a matching column gives nothing; a differing one gives "Change column" and its indented differences |
| SaCommand.LowerNames | gearshift/command/sacommand.py:84 | every model column's lowercased name is collected |
| SaCommand.LeftOverUnmatched | gearshift/command/sacommand.py:83-90 | after the first loop, the database columns left over are exactly those no model column names |
| SaCommand.RemovalNames | gearshift/command/sacommand.py:93-94 | every left-over column is named once, and only left-over columns are named |
| SaCommand.RemoveEntries | gearshift/command/sacommand.py:93-94 | one "Remove column <name>" line per name, in order |
| SaCommand.RemovedIffUnmatched | gearshift/command/sacommand.py:80-95 | the removals name exactly the database columns whose lowercased name no model column has, each once |
| SaCommand.TableMatchesItselfEntries | gearshift/command/sacommand.py:83-92 | when every model column matches its database column the first loop adds no line |
| SaCommand.ColumnLines | gearshift/command/sacommand.py:84-92 | the loop body produces that column's lines and removes its name from the database columns |
| SaCommand.MatchColumns | gearshift/command/sacommand.py:82-92 | the first loop computes the model columns' lines and the left-over columns of the specification |
| SaCommand.AppendRemovals | gearshift/command/sacommand.py:93-94 | the second loop appends one removal line per left-over name |
| SaCommand.CompareTable | gearshift/command/sacommand.py:80-95 | the method computes the column lines in model order followed by the removal lines |
| SaCommand.EmptyDatabaseCreatesAll | gearshift/command/sacommand.py:68-72 | against an empty database every model table gets "Create table" and an empty line, in model order |
| SaCommand.MatchingTablesSilent | gearshift/command/sacommand.py:73-77 | tables that match the database contribute nothing |
| SaCommand.TableLines | gearshift/command/sacommand.py:69-77 | one table contributes "Create table" when missing, "Change table" with its indented differences when it differs, and nothing when it matches |
| SaCommand.CompareMetadata | gearshift/command/sacommand.py:66-78 | the method's loop over the tables computes the metadata comparison of the specification |
| SaCommand.DispatchAsWritten | gearshift/command/sacommand.py:134-151 | as written, without SQLAlchemy every non-empty command but help reports the missing engine |
| SaCommand.ListAndExecuteBroken | gearshift/command/sacommand.py:147-151 | as written, 'list' raises TypeError from the builtin `list`, 'execute' does nothing, and 'excecute' raises NameError |
| SaCommand.Dispatch | gearshift/command/sacommand.py:20-151 | corrected: the engine check comes first; with SQLAlchemy no advertised command raises or reports a missing engine |
| SaCommand.AdvertisedCommandsRun | gearshift/command/sacommand.py:20-151 | corrected, list, execute, status and create run their sub-commands, and help runs even without SQLAlchemy |
| Utf8.EncodeChar | gearshift/identity/base.py:114-115 | one character encodes to one to four bytes |
| Utf8.Encode | gearshift/identity/base.py:114-115 | the encoding is never shorter than the text, and empty exactly for empty text |
| Utf8.DecodeChar | gearshift/identity/base.py:132-133 | a decoded character consumes between one byte and all of the input |
| Utf8.DecodeEncodedChar | gearshift/identity/base.py:114-133 | decoding the bytes of one encoded character gives that character and its length |
| Utf8.DecodeEncode | gearshift/identity/base.py:114-133 | decoding inverts UTF-8 encoding |
| Utf8.EncodeAscii | gearshift/identity/base.py:114-115 | ASCII text encodes byte for byte |
| IdentityBase.EightBit | gearshift/identity/base.py:113-117 | a byte password is used as it is; a text password is UTF-8 encoded, so it decodes back to the text |
| IdentityBase.AsText | gearshift/identity/base.py:130-133 | a text result is returned unchanged; a byte result is UTF-8 decoded, failing exactly when the bytes are not UTF-8 |
| IdentityBase.EncryptPwAsWritten | gearshift/identity/base.py:100-134 | as written: md5 and sha1 hash the 8-bit password, 'custom' without a configured path raises NameError, and nothing else fails but a byte result that is not UTF-8 |
| IdentityBase.CustomWithoutPathFails | gearshift/identity/base.py:122-129 | as written, 'custom' without a configured path raises NameError for `custom_encryption` |
| IdentityBase.EncryptPwWithAlgorithmCorrected | gearshift/identity/base.py:100-134 | corrected: md5 and sha1 hash the 8-bit password; 'custom' with a loadable hash applies it; every other algorithm, an unconfigured custom hash and an unloadable one leave the password unhashed; the only error is a failed UTF-8 decode |
| IdentityBase.EncryptPwAgreesWithCode | gearshift/identity/base.py:100-134 | the corrected function agrees with the code wherever the code succeeds, and differs only where it raises NameError |
| IdentityBase.TextAndUtf8BytesAgree | gearshift/identity/base.py:113-117 | a text password and its UTF-8 bytes hash alike under every algorithm |
| IdentityBase.NoOpAlgorithms | gearshift/identity/base.py:108-134 | unknown algorithms, None included, return a text password unchanged |
| IdentityBase.CreateDefaultProvider | gearshift/identity/base.py:47-70 | the configured provider path, defaulting to the SQLObject provider, is loaded and instantiated; a class that cannot be loaded raises IdentityConfigurationException naming the path |
| IdentityBase.IdentityRequest.constructor | gearshift/identity/base.py:72-97 | a new request has no identity, user name, login flag or provider |
| IdentityBase.IdentityRequest.WasLoginAttempted | gearshift/identity/base.py:72-76 | False until a login attempt was recorded, then the recorded flag |
| IdentityBase.IdentityRequest.SetLoginAttempted | gearshift/identity/base.py:78-79 | the flag set is what `was_login_attempted` reads |
| IdentityBase.IdentityRequest.SetCurrentIdentity | gearshift/identity/base.py:81-93 | the identity and its user name (None for a nameless identity) are recorded; the access-log login changes only for a real user name |
| IdentityBase.IdentityRequest.SetCurrentProvider | gearshift/identity/base.py:96-97 | the provider is recorded |
| IdentityBase.IdentityRequest.CurrentIdentity | gearshift/identity/base.py:152-163 | the current identity when there is one; otherwise RequestRequiredException outside a request and IdentityManagementNotEnabledException inside one |
| IdentityBase.IdentityRequest.CurrentProvider | gearshift/identity/base.py:183-197 | the request's provider, else a newly created default provider, else the same two exceptions as for the identity |
| IdentityBase.StatusResponse.constructor | gearshift/identity/base.py:203-215 | the response keeps its status |
| IdentityBase.StatusResponse.VerifyIdentityStatus | gearshift/identity/base.py:203-215 | while the status compares below '400' as a string, a non-empty `identity_status` replaces it; otherwise the status is unchanged |
| IdentityBase.StatusBelow400 | gearshift/identity/base.py:212 | for a status line starting with three digits, the string test `status < '400'` is the numeric test `code < 400` |
| IdentityExceptions.IdentityExceptionText | gearshift/identity/exceptions.py:38-78 | an identity exception's text is its message, or the fixed texts of the request-required and not-enabled exceptions |
| IdentityExceptions.ErrorList | gearshift/identity/exceptions.py:20-23 | a single message is stored as a one-element list, a list as it is |
| IdentityExceptions.GetFailureUrl | gearshift/identity/exceptions.py:28-35 | a configured URL is returned; a callable is applied to the errors; the exception is raised exactly when the URL is unset or computed as None |
| IdentityExceptions.FailureRequest.constructor | gearshift/identity/exceptions.py:20-26 | a new request has no recorded errors |
| IdentityExceptions.FailureRequest.SetIdentityErrors | gearshift/identity/exceptions.py:20-23 | the errors are recorded as a list |
| IdentityExceptions.FailureRequest.GetIdentityErrors | gearshift/identity/exceptions.py:25-26 | the recorded errors, or [] when none were recorded |
| IdentityExceptions.FailureRequest.IdentityFailure | gearshift/identity/exceptions.py:87-102 | the errors are recorded first; a missing failure URL raises the configuration exception with the params untouched; otherwise `forward_url` is set to the path and the request is redirected to the failure URL, externally iff `force_external_redirect` is set |
| IdentityExceptions.FailureRedirectTarget | gearshift/identity/exceptions.py:28-102 | every failure that redirects goes to the configured URL or the one the callable computed, never with the URL unset |
| Conditions.RequestEnv | gearshift/identity/conditions.py:167-190 | host predicates see the remote address computed from the request headers |
| Conditions.InGroups | gearshift/identity/conditions.py:109-112 | one `in_group` predicate per listed group, in order |
| Conditions.HasPermissions | gearshift/identity/conditions.py:152-164 | one `has_permission` predicate per listed permission, in order |
| Conditions.AppendErrorMessage | gearshift/identity/conditions.py:41-44 | no list stays no list; a list gets exactly the one message appended |
| Conditions.RemoteHost | gearshift/identity/conditions.py:167-169 | the address taken is the part after the last comma, so it holds no comma |
| Conditions.EvalThreadsErrors | gearshift/identity/conditions.py:37-84 | collecting errors never changes a predicate's verdict; None stays None and a list is only extended, by the same messages whatever it held |
| Conditions.EvalAllThreadsErrors | gearshift/identity/conditions.py:60-66 | the `All` loop's verdict does not depend on the error list, which it only extends |
| Conditions.GrantedAppendsNothing | gearshift/identity/conditions.py:93-190 | a granting predicate appends no message |
| Conditions.AllGrantedAppendsNothing | gearshift/identity/conditions.py:60-66 | a granting `All` leaves the error list as it was |
| Conditions.AllGrantedIff | gearshift/identity/conditions.py:60-66 | `All` grants iff every sub-predicate grants |
| Conditions.AllLoopGrantedIff | gearshift/identity/conditions.py:60-66 | the loop finishes granting iff every sub-predicate grants |
| Conditions.AllFailureMessages | gearshift/identity/conditions.py:60-66 | a failing `All` collects exactly the messages of its first failing sub-predicate, since evaluation stops there and earlier ones appended nothing |
| Conditions.AllLoopFailure | gearshift/identity/conditions.py:60-66 | the loop's error list after a failure is that of the first failing sub-predicate |
| Conditions.AnyGrantedIff | gearshift/identity/conditions.py:78-84 | `Any` grants iff some sub-predicate grants |
| Conditions.AnyLoopGrantedIff | gearshift/identity/conditions.py:78-82 | the loop finds a granting sub-predicate iff one exists |
| Conditions.AnyMessages | gearshift/identity/conditions.py:76-84 | `Any` appends exactly its own message on failure and nothing on success, since sub-predicates get no error list |
| Conditions.InGroupSpec | gearshift/identity/conditions.py:93-104 | `in_group` grants iff the group is among the identity's groups, else it adds "Not member of group: <g>" |
| Conditions.HasPermissionSpec | gearshift/identity/conditions.py:135-147 | `has_permission` grants iff the permission is held, else it adds "Permission denied: <p>" |
| Conditions.NotAnonymousSpec | gearshift/identity/conditions.py:124-132 | `not_anonymous` fails exactly for anonymous identities, adding "Anonymous access denied" |
| Conditions.FromHostSpec | gearshift/identity/conditions.py:172-190 | `from_host` grants iff the host matcher accepts the request's remote address, else it adds its message |
| Conditions.InAllGroupsIff | gearshift/identity/conditions.py:107-112 | `in_all_groups` grants iff every listed group is held |
| Conditions.InAnyGroupIff | gearshift/identity/conditions.py:114-121 | `in_any_group` grants iff some listed group is held; on failure its one message lists the groups joined by ", " |
| Conditions.HasAllPermissionsIff | gearshift/identity/conditions.py:150-155 | `has_all_permissions` grants iff every listed permission is held |
| Conditions.HasAnyPermissionIff | gearshift/identity/conditions.py:157-164 | `has_any_permission` grants iff some listed permission is held; on failure its one message lists them |
| Conditions.RemoteHostChoice | gearshift/identity/conditions.py:167-169 | X-Forwarded-For is used when present, else Remote-Addr, else the empty address |
| Conditions.PredicateQueue.constructor | gearshift/identity/conditions.py:215-220 | a new request has no predicate list |
| Conditions.PredicateQueue.SecureAccess | gearshift/identity/conditions.py:205-222 | a resource without `require` changes nothing; otherwise its predicate starts the list or is appended to it only when absent, and is in the list afterwards |
| Conditions.SecureAccessIdempotent | gearshift/identity/conditions.py:215-220 | accessing the same resource twice queues its predicate once |
| IdentityTool.StartExtension | gearshift/tools/identity.py:21-35 | nothing happens iff identity is off; with identity on and visit tracking off a configuration exception is raised; the extension starts iff both are on |
| IdentityTool.PredicatesToCheck | gearshift/tools/identity.py:38-49 | the decorator's predicate comes first when given, followed by exactly the queued predicates |
| IdentityTool.CheckPredicates | gearshift/tools/identity.py:52-55 | no failure iff every predicate grants; a failure carries the messages of the first failing predicate, each evaluated with a fresh error list |
| IdentityTool.BeforeHandler | gearshift/tools/identity.py:37-56 | the handler passes iff the decorator's and the queued predicates all grant; on success the queue is reset to [], on failure it is kept and the first failing predicate's messages are raised |
| IdentityTool.Decorate | gearshift/tools/identity.py:58-75 | positional arguments beyond `require` raise TypeError; otherwise `tools.identity.on` is set, `require` and every keyword are recorded under `tools.identity.<key>`, and unrelated settings are kept |
| IdentityVisitor.SourceNamed | gearshift/identity/visitor.py:45-51 | a source name resolves iff it is one of form, http_auth, visit, request, oauth, gfc and fbc, each to its own source |
| IdentityVisitor.ParseSources | gearshift/identity/visitor.py:43-51 | the names, not stripped, are resolved in order: a list of sources exactly when every name selects one, each name's own; otherwise a configuration exception naming the first unknown one |
| IdentityVisitor.SplitAtFirst | gearshift/identity/visitor.py:43 | splitting `a + [c] + b` where `a` has no separator gives `a` followed by the split of `b` |
| IdentityVisitor.DefaultSourceNames | gearshift/identity/visitor.py:43 | the default source string names the form, Basic-auth and visit sources, in that order |
| IdentityVisitor.NewPlugin | gearshift/identity/visitor.py:27-51 | the form field names default to 'user_name', 'password' and 'login', the provider is kept, and the configured sources, split on every ',', are parsed as above; it fails exactly when a name is unknown |
| IdentityVisitor.CatchKeyError | gearshift/identity/visitor.py:152-168 | a KeyError in the form login becomes "no identity"; any other result passes through |
| IdentityVisitor.FormSource | gearshift/identity/visitor.py:140-170 | without the submit field nothing happens; a missing user-name or password field ends with None after the pops that succeeded; otherwise the fields, the button and its coordinates are popped, the login counts as attempted and the provider's answer is returned; params only lose keys |
| IdentityVisitor.UnpackPair | gearshift/identity/visitor.py:133 | unpacking succeeds iff there are exactly two parts; otherwise ValueError |
| IdentityVisitor.CredentialsAsWritten | gearshift/identity/visitor.py:71-133 | as written: a base64 error is passed on; decoded text without ':' cannot be unpacked; a successful decode is a user-id and a password, neither holding ':', that rebuild the text |
| IdentityVisitor.Credentials | gearshift/identity/visitor.py:71-133 | corrected decoder: the user-id is everything before the first ':', the password everything after it; a base64 error is passed on |
| IdentityVisitor.CredentialsRoundTrip | gearshift/identity/visitor.py:71-133 | corrected, decoding recovers any user-id without ':' and any password, ':' included |
| IdentityVisitor.SplitWithColonInPassword | gearshift/identity/visitor.py:77 | splitting at every ':' yields more than two parts once the password holds a ':' |
| IdentityVisitor.ColonInPasswordRejected | gearshift/identity/visitor.py:77-133 | as written, a credential whose password contains ':' raises ValueError, while the corrected decoder accepts it |
| IdentityVisitor.ColonInPasswordExample | gearshift/identity/visitor.py:77-133 | "alice:a:b" is rejected as written and decodes to ("alice", "a:b") when corrected |
| IdentityVisitor.HttpAuthSource | gearshift/identity/visitor.py:119-135 | no Authorization header or a non-basic scheme gives None; a header without a space cannot be unpacked; credentials the decoder as written cannot split into two names (a password with ':' among them) raise ValueError before the login counts as attempted; otherwise the login counts as attempted and the provider's answer is returned; params are untouched |
| IdentityVisitor.HttpAuthColonPasswordFails | gearshift/identity/visitor.py:119-135 | as written, `Basic` credentials whose password holds a ':' make the HTTP-auth source raise ValueError |
| IdentityVisitor.RunSource | gearshift/identity/visitor.py:137-170 | only the form source changes params; the visit source is the provider's `load_identity`; an attempted login stays attempted |
| IdentityVisitor.RunSources | gearshift/identity/visitor.py:62-65 | with no sources nothing is found and the request is unchanged |
| IdentityVisitor.RunSourcesAppend | gearshift/identity/visitor.py:62-65 | running `a + b` is running `a`, then `b` if `a` found nothing |
| IdentityVisitor.FirstMatch | gearshift/identity/visitor.py:62-65 | the pipeline yields an identity iff some source yields it after every earlier source yielded nothing |
| IdentityVisitor.MatchFound | gearshift/identity/visitor.py:62-65 | an identity from the pipeline comes from a source that every earlier source left without one |
| IdentityVisitor.MatchYields | gearshift/identity/visitor.py:62-65 | a source that yields an identity after every earlier source yielded nothing makes the pipeline yield it |
| IdentityVisitor.Resolved | gearshift/identity/visitor.py:62-69 | an exception is passed on; the identity found is returned; with none found the anonymous identity is returned |
| IdentityVisitor.IdentityFromRequest | gearshift/identity/visitor.py:53-69 | the method's loop applies each source's changes to the request and returns what the pipeline specification yields |
| IdentityVisitor.RecordRequest | gearshift/identity/visitor.py:172-188 | with identity off the current identity is None and no source is asked; otherwise an identity exception becomes an identity failure, other exceptions escape, and a found identity and the provider are recorded |
| SaProvider.UserWithId | gearshift/identity/saprovider.py:39 | the user found has the asked primary key, and None comes back iff no user has it |
| SaProvider.FirstNamed | gearshift/identity/saprovider.py:179 | the result is the first user with the name at or after the start, and None iff no user there has it |
| SaProvider.LinkedUser | gearshift/identity/saprovider.py:38-109 | no visit key gives no user; a user comes back only through a visit link, and then it is the user with the linked id |
| SaProvider.GroupNames | gearshift/identity/saprovider.py:84-87 | no user gives the empty set; otherwise exactly the names of the user's groups |
| SaProvider.GroupIds | gearshift/identity/saprovider.py:98-101 | no user gives the empty set; otherwise exactly the ids of the user's groups |
| SaProvider.PermissionNames | gearshift/identity/saprovider.py:69-73 | no user gives the empty set; otherwise exactly the user's permission names |
| SaProvider.DbIdentity.UserIn | gearshift/identity/saprovider.py:28-40 | a held user is reported as it is; otherwise the user the visit links to |
| SaProvider.DbIdentity.constructor | gearshift/identity/saprovider.py:21-125 | a given user is held and the caches are empty; with a visit key as well the visit is linked to the user, otherwise the links are unchanged |
| SaProvider.DbIdentity.GetUser | gearshift/identity/saprovider.py:28-40 | the user is the held one or the linked one, and is held from then on |
| SaProvider.DbIdentity.UserName | gearshift/identity/saprovider.py:42-47 | None iff there is no user, otherwise the user's name |
| SaProvider.DbIdentity.UserId | gearshift/identity/saprovider.py:49-54 | None iff there is no user, otherwise the user's id |
| SaProvider.DbIdentity.Anonymous | gearshift/identity/saprovider.py:56-59 | true iff there is no user |
| SaProvider.DbIdentity.Groups | gearshift/identity/saprovider.py:76-88 | a cached set is returned unchanged; otherwise the user's group names are computed and cached |
| SaProvider.DbIdentity.GroupIdSet | gearshift/identity/saprovider.py:90-102 | a cached set is returned unchanged; otherwise the user's group ids are computed and cached |
| SaProvider.DbIdentity.Permissions | gearshift/identity/saprovider.py:61-74 | a cached set is returned unchanged; otherwise the user's permission names are computed and cached |
| SaProvider.DbIdentity.Logout | gearshift/identity/saprovider.py:127-134 | the visit's link is deleted (no other link changes) and a fresh anonymous identity becomes the current one |
| SaProvider.AnonymousHasNoUser | gearshift/identity/saprovider.py:216-226 | an identity without visit key has no user, no groups and no permissions, whatever the tables hold |
| SaProvider.EncryptPassword | gearshift/identity/saprovider.py:156-159 | the configured algorithm as `encrypt_pw_with_algorithm` is written: md5 and sha1 hash the 8-bit password, 'custom' without a configured path raises NameError, an unknown algorithm leaves the password as text |
| SaProvider.ValidatePassword | gearshift/identity/saprovider.py:190-200 | an encryption error is passed on; otherwise valid iff the stored password equals the encrypted candidate |
| SaProvider.PlainTextPasswords | gearshift/identity/saprovider.py:156-200 | with no algorithm configured a password is valid iff it equals the stored text |
| SaProvider.ValidateIdentity | gearshift/identity/saprovider.py:168-188 | None for an unknown name or a wrong password with nothing changed; an encryption error, the NameError of an unconfigured custom hash included, is raised; otherwise a fresh identity holding the first user of that name, linked to the visit when a key is given |
| SaProvider.LoadIdentity | gearshift/identity/saprovider.py:202-214 | a fresh identity for the visit key whose user is the one the visit links to |
| SaProvider.AnonymousIdentity | gearshift/identity/saprovider.py:216-226 | a fresh identity with no visit key and no user; the links are unchanged |
| SaProvider.AuthenticatedIdentity | gearshift/identity/saprovider.py:228-230 | a fresh identity holding the user, with no visit key; the links are unchanged |
| StProvider.ToDbEncoding | gearshift/identity/stprovider.py:16-23 | byte strings pass unchanged; text is encoded, and UTF-8 encoding decodes back to the text |
| StProvider.OneNamed | gearshift/identity/stprovider.py:359-360 | corrected, the lookup through a bound store: None iff no user has the name; the only user with it when there is one; NotOneError when there are several |
| StProvider.ByUserNameAsWritten | gearshift/identity/stprovider.py:358-360 | as written, with the module-level `store` unbound the query raises NameError; bound, it is the `.one()` lookup |
| StProvider.UnboundStoreHidesUser | gearshift/identity/stprovider.py:358-360 | as written, a table holding one user of the name still gives NameError, where the lookup through a store finds that user |
| StProvider.SaltPart | gearshift/identity/stprovider.py:237 | the characters after the offset, empty when the value is not longer |
| StProvider.HashPart | gearshift/identity/stprovider.py:240 | the characters before the offset, the whole value when it is not longer |
| StProvider.EncryptPassword | gearshift/identity/stprovider.py:366-385 | when a provider is obtained (the request's, or a default one created) the hash of password and salt followed by the salt, the salt being the hash of random bytes; with none outside a request the plain hash; with none inside a request IdentityManagementNotEnabledException escapes; an exception of the provider's hash, for the salt or for the password, escapes too |
| StProvider.DefaultAlgorithmSaltFails | gearshift/identity/stprovider.py:373-374 | under the default algorithm None, random salt bytes that are not UTF-8 make `encrypt_password` raise UnicodeDecodeError |
| StProvider.CheckPasswordAsWritten | gearshift/identity/stprovider.py:227-351 | as written: with a salt after index 40 the first 40 characters are compared with the salted hash; without one the stored value is compared with the hash; either way the stored value ends up unchanged, since the migration's assignment is hashed again by the column validator; an exception of the hash is raised |
| StProvider.CustomUnconfiguredCheckFails | gearshift/identity/stprovider.py:236-247 | with 'custom' and no configured path, checking any password raises NameError |
| StProvider.RoundTripAsWritten | gearshift/identity/stprovider.py:237-375 | with a 40-character digest the salted format is accepted for its own password |
| StProvider.ShortDigestRejected | gearshift/identity/stprovider.py:237-375 | with a 32-character digest (md5) every freshly salted password is rejected |
| StProvider.LegacyMigrationIsNoOp | gearshift/identity/stprovider.py:241-351 | as written, a matching unsalted password is accepted and stored unsalted again, unchanged |
| StProvider.CheckPassword | gearshift/identity/stprovider.py:227-247 | corrected: split after the digest length; a salted value is valid iff its hash part matches; an unsalted one iff it equals the hash, and then it is stored salted; an exception of the hash or of the salting is raised |
| StProvider.RoundTrip | gearshift/identity/stprovider.py:227-375 | corrected, for any fixed digest length the salted format is accepted for its own password and kept |
| StProvider.LegacyMigration | gearshift/identity/stprovider.py:241-247 | corrected, a matching unsalted password is accepted, re-stored salted, and the new value is accepted for the same password |
| StProvider.ValidateIdentity | gearshift/identity/stprovider.py:204-225 | several users of the name raise NotOneError; an exception of the password check is raised with nothing changed; an unknown name or a wrong password, judged by the check as written, gives None; otherwise the check's stored value is written back and a fresh identity holding the user is linked to the visit |
| VisitApi.CreateVisitManager | gearshift/visit/api.py:36-48 | the configured manager class, by default the SQLObject one, is instantiated with the timeout; a missing module or class (`load_class` answers None) raises TypeError when called, and an exception inside `load_class` becomes RuntimeError |
| VisitApi.ManagerSlot.StartExtension | gearshift/visit/api.py:96-110 | nothing changes when visit tracking is off or a manager is running; otherwise a manager is created with the configured timeout, 20 minutes by default |
| VisitApi.ManagerSlot.ShutdownExtension | gearshift/visit/api.py:53-60 | the running manager, if any, is handed back to be shut down and the slot is empty afterwards |
| VisitApi.PendingLastWriteWins | gearshift/visit/api.py:255-260 | after a series of updates a key is pending iff some update named it, and it holds the expiry of the latest such update |
| VisitApi.VisitQueue.UpdateVisit | gearshift/visit/api.py:255-260 | the key's expiry replaces any earlier one; other keys are kept |
| VisitApi.VisitQueue.Drain | gearshift/visit/api.py:268-280 | an empty queue gives nothing to flush; a non-empty one is handed over whole; the queue is empty afterwards |
| VisitApi.ReplayUpdates | gearshift/visit/api.py:255-260 | applying updates one at a time to an empty queue builds exactly the pending map of the series |
| VisitApi.SourceNames | gearshift/visit/api.py:117-118 | one name per ','-separated part, each stripped and lower-cased |
| VisitApi.IntOf | gearshift/visit/api.py:139-140 | `int` of an integer is itself, of a boolean 1 or 0, of a string its parse, of None, a list, a dict or an object a TypeError |
| VisitApi.MaxAge | gearshift/visit/api.py:139-140 | no max-age unless the cookie is permanent; then the timeout in seconds when it is non-zero, and a bad timeout raises |
| VisitApi.Configure | gearshift/visit/api.py:112-140 | the documented defaults are applied; the cookie domain 'localhost' fails the assertion; a bad timeout of a permanent cookie raises |
| VisitApi.FindVisitKey | gearshift/visit/api.py:143-160 | a key found is non-empty; the form source only removes its own parameter; without a form source the parameters are untouched |
| VisitApi.FindVisitKeyFirst | gearshift/visit/api.py:143-160 | a non-empty cookie or form key from the first source ends the search with that key; any other first source yields nothing and the search goes on |
| VisitApi.NoKnownSourceNoKey | gearshift/visit/api.py:143-160 | without a cookie or form source no key is ever found and the parameters are untouched |
| VisitApi.ResponseCookies.Morsel | gearshift/visit/api.py:199-202 | a cookie already in the response is reused, otherwise a fresh one |
| VisitApi.ResponseCookies.SendCookie | gearshift/visit/api.py:199-219 | the cookie holds the key and the path; 'secure' is set only when configured and 'domain' only when non-empty; with a max-age the expiry date and max-age are set too; other cookies are unchanged |
| VisitApi.ResponseCookies.ClearCookie | gearshift/visit/api.py:189-197 | the cookie gets an empty value, the path, an empty expiry and max-age 0 |
| VisitTool.AfterPlugins | gearshift/visit/api.py:165-174 | an InternalRedirect raised by a plugin becomes the new path; any other exception propagates; without one nothing changes |
| VisitTool.EstablishVisit | gearshift/visit/api.py:141-164 | a key naming a live visit gives that visit and queues its extension; otherwise a new visit is created under a fresh key, an existing key raising IntegrityError; on success the cookie carries the visit's key |
| VisitTool.BeforeHandler | gearshift/visit/api.py:112-174 | a bad option fails before anything changes; a request with a visit keeps it and nothing is sent; otherwise the live visit named by the key found in the request (its expiry extension queued), or else a new visit under the fresh key (IntegrityError when that key is taken), becomes current and its key is sent in the cookie; then a plugin's InternalRedirect changes the path and any other exception it raised is returned |
| SoVisit.Flush | gearshift/visit/sovisit.py:68-86 | the UPDATE statements give existing rows the batch's expiry, keep other rows, and create none |
| SoVisit.SoVisitManager.NewVisitWithKey | gearshift/visit/sovisit.py:46-94 | a new row expires one timeout from now; a key already in the table raises IntegrityError and changes nothing |
| SoVisit.SoVisitManager.VisitForKey | gearshift/visit/sovisit.py:54-66 | a missing or expired visit gives None and queues nothing; a live one comes back as not new and its extension is queued, not written |
| SoVisit.SoVisitManager.UpdateQueuedVisits | gearshift/visit/sovisit.py:68-86 | without a hub nothing happens; a failing statement rolls back the whole batch and re-raises; otherwise the table is the flushed batch |
| SoVisit.SoVisitManager.RunOnce | gearshift/visit/sovisit.py:68-86 | the queue is emptied; an empty queue changes nothing; a non-empty one is flushed, and a failure leaves the table unchanged |
| SoVisit.NewVisitLive | gearshift/visit/sovisit.py:46-62 | a new visit stays live for the whole timeout |
| SoVisit.ExtensionApplied | gearshift/visit/sovisit.py:54-86 | a live visit found and then flushed stays live for a timeout from the lookup, and visits not in the batch are unchanged |
| SoVisit.FlushIdempotent | gearshift/visit/sovisit.py:68-86 | flushing a batch twice is flushing it once |
| AeVisit.EntityName | gearshift/visit/aevisit.py:34-67 | the entity name is the 'VISIT:' prefix followed by the visit key |
| AeVisit.EntityNameInjective | gearshift/visit/aevisit.py:34-67 | distinct visit keys name distinct entities |
| AeVisit.AeVisitManager.constructor | gearshift/visit/aevisit.py:16-25 | the timeout and the entities are kept |
| AeVisit.AeVisitManager.NewVisitWithKey | gearshift/visit/aevisit.py:31-38 | the entity is put with an expiry one timeout from now, replacing any of the same name, and the visit is new |
| AeVisit.AeVisitManager.VisitForKey | gearshift/visit/aevisit.py:40-58 | a missing or expired visit gives None and changes nothing; a live one comes back as not new, and its expiry is rewritten unless `tools.visit.extend_timeout`, read at the call, is off |
| AeVisit.ExtendedVisitLive | gearshift/visit/aevisit.py:40-58 | with extending on, a visit found live stays live for a full timeout after the lookup, and no other visit changes |
| Controllers.PathString | gearshift/controllers.py:193-194 | a string path is kept; a list or tuple path is joined with '/' |
| Controllers.UrlPath | gearshift/controllers.py:195-199 | inside a request the application-relative URL gets the `server.webpath` prefix; outside one only an absolute path does, and a relative path is kept |
| Controllers.MergedParams | gearshift/controllers.py:200-207 | without `tgparams`, or with `tgparams` None, the keywords alone; with a dict a copy updated with the keywords; anything else raises TypeError |
| Controllers.ListPairs | gearshift/controllers.py:212-221 | a list value gives one pair per element that is not None, under its own key, and no others |
| Controllers.KeyPairs | gearshift/controllers.py:209-221 | None contributes nothing, a list contributes its non-None elements, any other value one pair |
| Controllers.QueryArgsMembership | gearshift/controllers.py:208-221 | a pair is in the query iff its key is a parameter and the pair is one that parameter's value contributes, so no None value or element reaches the query |
| Controllers.WithQuery | gearshift/controllers.py:224-227 | the query follows '&' when the path already has a '?', else '?' |
| Controllers.QueryArgsComplete | gearshift/controllers.py:208-221 | taken in an iteration order of the parameters, the query holds a pair iff it is one a parameter's value contributes, so no parameter is lost |
| Controllers.CollectArgs | gearshift/controllers.py:208-221 | the loop over the parameters collects exactly the pairs of the query specification, in the given order |
| Controllers.Url | gearshift/controllers.py:177-228 | a bad `tgparams` raises TypeError; without pairs the URL is the path alone; otherwise the path followed by the urlencoded pairs collected from every parameter |
| Controllers.Redirect | gearshift/controllers.py:231-239 | it always raises: the error `url` raises, or else an HTTPRedirect to the path alone when there are no pairs and to the path followed by the urlencoded pairs otherwise, the URL `url` computes |
| Controllers.KeywordsOverride | gearshift/controllers.py:200-221 | a keyword wins over the `tgparams` entry of the same name, and a None keyword drops that name from the query |
| Controllers.RestParam | gearshift/controllers.py:164-165 | a segment without '.' is kept; otherwise the id and the extension after the last '.' rebuild the segment |
| Controllers.CpDispatch | gearshift/controllers.py:152-175 | an empty path is not handled and nothing changes; otherwise the extension goes to the format parameter, the rest of the first segment to the id parameter, and a lone segment other than the all-name marks a single-item request |
| Controllers.AfterForm | gearshift/controllers.py:83-90 | without a form nothing changes; a valid form merges its values into the parameters; a rejected one gives its errors |
| Controllers.FieldsApplied | gearshift/controllers.py:93-97 | each field validator that converts writes its field's value; every other parameter is kept |
| Controllers.FieldErrors | gearshift/controllers.py:93-99 | each field validator that fails records its error under its field; earlier errors of other fields are kept |
| Controllers.AfterValidators | gearshift/controllers.py:92-106 | no validators change nothing; a valid schema merges its values; a rejected schema replaces the errors; per-field validators apply field by field |
| Controllers.ApplyField | gearshift/controllers.py:94-99 | a converting validator sets its field's value; a failing one records its error; nothing else changes |
| Controllers.FieldsAppliedStep | gearshift/controllers.py:93-97 | running one more field validator extends the applied parameters by that field alone |
| Controllers.FieldErrorsStep | gearshift/controllers.py:93-99 | running one more field validator extends the errors by that field alone |
| Controllers.FieldsProgressStep | gearshift/controllers.py:93-99 | the loop state is kept when one more field validator runs |
| Controllers.FieldsProgressStart | gearshift/controllers.py:93-99 | before the loop no field validator has run |
| Controllers.ApplyFields | gearshift/controllers.py:93-99 | after the loop in any order, the parameters and errors are those of every field validator applied |
| Controllers.Validate | gearshift/controllers.py:68-112 | a request that carries a validation state is untouched; otherwise the state is the factory's or None, the form and then the validators, given that state, convert the parameters, and the errors, the input values, the state, the validated form and the last Invalid are recorded, with `tg_errors` set iff there are errors |
| Controllers.RunValidation | gearshift/controllers.py:83-106 | the form and the validators leave exactly the parameters and errors the stepwise specification gives, and the Invalid that `LastInvalid` names |
| Controllers.LastInvalid | gearshift/controllers.py:86-106 | `validation_exception` is the schema's Invalid, else the form's, else what the request held; a field validator's Invalid is not kept |
| Controllers.PerFieldErrorsExact | gearshift/controllers.py:92-99 | with field validators the errors are exactly the failing fields with their messages, and there are none iff every field converts |
| Controllers.FieldValidation | gearshift/controllers.py:93-99 | a field that converts holds its value and is no error; one that fails keeps its input and is reported; a parameter without a validator is left alone |
| Restful.Allowed | gearshift/dispatch/restful.py:25-35 | the Allow list holds exactly the advertised methods, each once |
| Restful.CanonicalOrder | gearshift/dispatch/restful.py:34 | DELETE, GET, HEAD, POST and PUT are in sorted order |
| Restful.LexLessTrans | gearshift/dispatch/restful.py:34 | the string order the sort uses is transitive |
| Restful.AllowedSorted | gearshift/dispatch/restful.py:34-35 | the Allow list is strictly increasing, as sorting leaves it |
| Restful.AvailableMethods | gearshift/dispatch/restful.py:25-32 | the list built before sorting has exactly the elements of the sorted Allow list |
| Restful.PresentOfCandidates | gearshift/dispatch/restful.py:25 | the comprehension keeps PUT, POST and DELETE, in that order, exactly where the resource has them |
| Restful.HeadAppended | gearshift/dispatch/restful.py:31-32 | HEAD is appended exactly when a GET was, and the list is then a permutation of the sorted Allow list |
| Restful.HeadAdvertisedButRejected | gearshift/dispatch/restful.py:26-62 | as written, a resource with only GET lists HEAD in Allow yet answers a HEAD request with 405 |
| Restful.GetHandler | gearshift/dispatch/restful.py:50-57 | GET picks GET_ONE for a single-item request and GET_ALL for another when they exist, else GET; nothing iff none of those applies |
| Restful.HandlerName | gearshift/dispatch/restful.py:50-62 | corrected: a method's own handler when present; HEAD without one falls back to what GET picks; any other missing method has no handler |
| Restful.HeadServedLikeGet | gearshift/dispatch/restful.py:26-62 | corrected, HEAD is served iff GET is, and where the code as written serves HEAD the same handler is chosen |
| Restful.HandlerNameAgrees | gearshift/dispatch/restful.py:50-62 | every method other than HEAD picks the same handler as the code as written |
| Restful.DecodeSlashes | gearshift/dispatch/restful.py:65 | every "%2F" in each path atom becomes "/", atom by atom |
| Restful.OverrideParams | gearshift/dispatch/restful.py:42-43 | the query string is merged in iff it mentions `_method` and the parameters do not |
| Restful.Dispatch | gearshift/dispatch/restful.py:15-77 | a missing resource gets NotFound and a callable one standard dispatch; otherwise the Allow header is set, a POST may be overridden by `_method`, and the handler is the one the code as written picks (HEAD without its own handler falls back to GET_ONE or GET_ALL only), or 405; the chosen method's `_cp_config` is merged into the request config, which nothing else changes |
| Restful.HandlerConfig | gearshift/dispatch/restful.py:70-75 | a page whose method carries `_cp_config` has it merged into the request config, its entries winning and the others kept; a 405 or a method without one leaves the config unchanged |
| Restful.HandlerNameAsWritten | gearshift/dispatch/restful.py:50-62 | as written: a handler found is one the resource has; HEAD without its own handler falls back to GET_ONE or GET_ALL only, never to GET |
| ExposeRender.ChooseEngine | gearshift/tools/expose/render.py:207-224 | "name:tmpl" names the engine before the first colon; a bare registered engine name is that engine without template; anything else goes to the default view; an engine not registered raises KeyError |
| ExposeRender.EngineFormatStable | gearshift/tools/expose/render.py:254-264 | a requested format stays set and is only swapped between 'plain' and 'text' for the engine that spells it the other way, so Genshi never gets 'plain' nor Kid 'text', and translating twice changes nothing more |
| ExposeRender.FormatWord | gearshift/tools/expose/render.py:277-279 | a blank format raises IndexError; otherwise a lower-case word without blanks or '-' that begins the lower-cased, left-stripped format |
| ExposeRender.ContentFormat | gearshift/tools/expose/render.py:272-283 | no format gives 'html'; a string format gives its first word; only a blank string raises IndexError |
| ExposeRender.WithCharset | gearshift/tools/expose/render.py:285-289 | the content type is kept as a prefix; the engine's charset is appended iff the type takes one, names none and the engine has a default encoding |
| ExposeRender.WithCharsetIdempotent | gearshift/tools/expose/render.py:285-289 | applying the charset rule again adds nothing |
| ExposeRender.ContentType | gearshift/tools/expose/render.py:266-290 | a given content type is kept; an empty one is derived from the format; then the charset rule applies |
| ExposeRender.TemplateAndInfo | gearshift/tools/expose/render.py:252 | JSON output forces the json template and leaves the data alone; otherwise `tg_template` is popped from the data and overrides the template |
| ExposeRender.MappingOrEmpty | gearshift/tools/expose/render.py:292 | a given mapping is passed on, and none becomes an empty dict |
| ExposeRender.Render | gearshift/tools/expose/render.py:226-294 | an unregistered engine raises KeyError; with a registered one the engine is called with the data, the normalised format, the fragment flag and the mapping, and with headers the content type set is the one `ContentType` derives (its IndexError raised); a given content type is its prefix; only KeyError or IndexError can be raised |
| ExposeRender.JsonFormatUsesJsonEngine | gearshift/tools/expose/render.py:161-262 | JSON output with the registered engines always goes to the json engine with the data untouched |
| ExposeRender.JsonInfo | gearshift/tools/expose/render.py:157 | a key is kept iff it does not start with "tg_" or is "tg_flash", with its value |
| ExposeRender.JsonInfoIdempotent | gearshift/tools/expose/render.py:157 | filtering the data twice is filtering it once |
| ExposeRender.DottedTemplatePath | gearshift/tools/expose/render.py:102-196 | an undotted reference is the name plus the extension; a dotted one is resolved in the module before the last '.' |
| ExposeRender.GenshiTemplatePath | gearshift/tools/expose/render.py:91-108 | a reference with '/' names the package before the first '/'; otherwise the dotted rule, with 'txt' for text output and 'html' else |
| ExposeRender.KidTemplatePath | gearshift/tools/expose/render.py:170-176 | the dotted rule with extension 'kid' |
| ExposeRender.MakoTemplatePath | gearshift/tools/expose/render.py:190-196 | the dotted rule with the output format as extension |
| ExposeRender.FallbackResource | gearshift/tools/expose/render.py:13-16 | without pkg_resources an undotted module and the file name are joined with '/' |
| ExposeTool.DecoratorOptions | gearshift/tools/expose/tool.py:170-173 | the keywords plus `template`, `accept_format` and `as_format`, every other keyword kept |
| ExposeTool.ExposedFlag | gearshift/tools/expose/tool.py:178 | `exposed` when given, else `expose`, else true |
| ExposeTool.RegisteredKeys | gearshift/tools/expose/tool.py:197-207 | a key is registered iff it is the Accept value, a non-empty `as_format`, or a JSON key of a decorator that answers JSON |
| ExposeTool.Register | gearshift/tools/expose/tool.py:192-207 | the registered keys now give the decorator's options; other entries stay |
| ExposeTool.Expose | gearshift/tools/expose/tool.py:161-210 | extra positional arguments raise TypeError and change nothing; otherwise the function is exposed unless told not to be, the tool is switched on for it and its options are registered |
| ExposeTool.FirstListedWins | gearshift/tools/expose/tool.py:192-207 | of two stacked decorators sharing a key, the one listed first wins it; other keys keep their own options |
| ExposeTool.FirstPresent | gearshift/tools/expose/tool.py:117-120 | the index found is the first key present in the table, and None iff no key is present |
| ExposeTool.FormatKey | gearshift/tools/expose/tool.py:113-118 | a string format is a key, None or another scalar matches nothing, and a list or dict cannot be looked up (TypeError) |
| ExposeTool.ChooseExpose | gearshift/tools/expose/tool.py:108-120 | the options under `tg_format`, else under the simplified Accept value, else the default ones; an unhashable format raises TypeError |
| ExposeTool.JsonRegistrationSelected | gearshift/tools/expose/tool.py:117-207 | a decorator answering JSON is chosen by `tg_format=json` and by an Accept of application/json |
| ExposeTool.ChosenTemplate | gearshift/tools/expose/tool.py:129-137 | 'json' when the format is 'json', when neither format nor template is set, or when JSON is allowed and asked for; otherwise the template, else the format |
| ExposeTool.JsonTemplateRendersJson | gearshift/tools/expose/tool.py:129-134 | a template chosen as 'json' is rendered by the json engine, whatever the default view |
| ExposeTool.PlanFields | gearshift/tools/expose/tool.py:123-140 | each option comes from the expose entry, falling back to the `tools.expose.*` setting |
| ExposeTool.PlanAsWritten | gearshift/tools/expose/tool.py:142-143 | as written: a relative template refers to `func`, which is not defined there, so it raises NameError; other templates are planned as given |
| ExposeTool.RelativeTemplateFails | gearshift/tools/expose/tool.py:142-143 | as written, `template=".templates.welcome"` makes every request to the controller fail |
| ExposeTool.PackageOf | gearshift/tools/expose/tool.py:143 | with a dot, the module name up to its last '.'; never longer than the name |
| ExposeTool.Plan | gearshift/tools/expose/tool.py:123-143 | corrected: a relative template is resolved against the package of the controller's module |
| ExposeTool.RelativeTemplateResolved | gearshift/tools/expose/tool.py:142-143 | the corrected plan agrees with the code as written wherever that works, and ".templates.welcome" in "app.controllers" is "app.templates.welcome" |
| ExposeTool.PackageOfExample | gearshift/tools/expose/tool.py:143 | the package of "app.controllers" is "app" |
| ExposeTool.BeforeHandler | gearshift/tools/expose/tool.py:82-97 | the first call moves `tg_format` out of the parameters, None when absent; a later call leaves both alone; a request with a handler gets it wrapped |
| ExposeTool.HeaderEntry | gearshift/tools/expose/tool.py:147 | a string content type is the header entry; none is empty |
| ExposeTool.Handler | gearshift/tools/expose/tool.py:99-155 | output that is not a dict is returned untouched; a dict gets `tg_css` and is rendered with the plan as written (a relative template raises NameError and nothing is rendered), and a non-empty resulting content type becomes the response's |
| Markup.Extension | gearshift/tools/markup.py:31-89 | reStructuredText templates end in 'rst', the other engines' in 'txt' |
| Markup.ChooseEngine | gearshift/tools/markup.py:117-134 | "name:tmpl" names the engine before the first colon, lower-cased; a bare registered name is that engine without template; anything else uses `tg.defaultmarkup`; an engine not registered raises KeyError |
| Markup.TracNotRegistered | gearshift/tools/markup.py:43-115 | as written, "trac:..." cannot be rendered, because the Trac engine is never registered |
| Markup.LowerTrac | gearshift/tools/markup.py:121 | lower-casing "Trac" or "trac" gives "trac" |
| Markup.TracRegistered | gearshift/tools/markup.py:88-134 | corrected: with the Trac engine registered, "Trac:page" goes to it with the template "page" |
| Markup.EngineRender | gearshift/tools/markup.py:33-115 | only Markdown accepts options, the others raise TypeError on them; without its library Markdown answers an error text and the others return the markup; otherwise the library's conversion |
| Markup.TemplateFile | gearshift/tools/markup.py:197-203 | an undotted reference is a file in module "" with the extension; a dotted one is the last part plus the extension in the module before it |
| Markup.MarkupSource | gearshift/tools/markup.py:197-219 | without a template the output's `tg_markup` entry; with one the template file's text, a missing file giving 404 |
| Markup.Handle | gearshift/tools/markup.py:179-230 | output that is not a dict passes through; otherwise, with the engines registered as written, an unknown engine, a missing template file, non-dict options and a failing engine each give their error, and otherwise the rendered value is stored under `tg_markup` as a fragment (the default, every other entry kept) or returned as the output |
| Markup.TracTemplateRaises | gearshift/tools/markup.py:88-134 | as written, a "trac:page" template makes the handler raise KeyError |
| Markup.MissingLibraryKeepsMarkup | gearshift/tools/markup.py:50-230 | without a template and without the library, the controller's own `tg_markup` text comes back unchanged |
| Markup.Decorate | gearshift/tools/markup.py:232-274 | extra positional arguments raise TypeError and change nothing; otherwise the tool is switched on and every keyword, a non-empty template included, is set under the tool's namespace and as its `markups` |
| Markup.DecoratedOptionsVisible | gearshift/tools/markup.py:257-271 | after decorating every option is readable in the `markups` entry |
| Flash.ReadFlash | gearshift/tools/flash.py:23-45 | a message set on the response this request wins and is taken off the response; else the browser's message is read; the browser's flash cookie is cleared iff it sent one |
| Flash.ReadFlashOnce | gearshift/tools/flash.py:23-45 | reading again in the same request finds no message and leaves the cookies as they are |
| Flash.SetFlashCookie | gearshift/tools/flash.py:84-85 | the flash cookie holds the value with path '/', an existing cookie keeps its expiry, and other cookies are unchanged |
| Flash.FlashCookies.SetFlash | gearshift/tools/flash.py:78-85 | the message, UTF-8 encoded and quoted, becomes the response's flash cookie |
| Flash.Unquoted | gearshift/tools/flash.py:46-47 | an empty or missing message is kept; otherwise the unquoted bytes decoded as UTF-8, and UnicodeDecodeError iff they are not UTF-8 |
| Flash.FlashRoundTrip | gearshift/tools/flash.py:46-85 | with unquoting that inverts quoting, a non-empty flashed message reads back as the same text |
| Flash.FlashCookies.GetFlash | gearshift/tools/flash.py:23-49 | the message read, unquoted and decoded when not empty (UnicodeDecodeError for bytes that are not UTF-8), and the cookies as reading leaves them, cleared before the decoding |
| Flash.FlashCookies.Handle | gearshift/tools/flash.py:63-76 | output that is not a dict passes through untouched; a flash that is not UTF-8 raises UnicodeDecodeError; otherwise a dict gets the message under `tg_flash`, or None there when there is none and `tg.empty_flash` is on |
| Flash.FlashedThisRequestWins | gearshift/tools/flash.py:23-85 | a message flashed during a request is what its handler reads, whatever the browser sent, and the browser's old flash is cleared |
| ElementTool.ParseMode | gearshift/tools/elementtool.py:76-80 | JSON iff the content type is JSON and JSON is allowed; XML iff not that and the body is not empty |
| ElementTool.RequestParams | gearshift/tools/elementtool.py:67-83 | without an element the parameters are kept; with one the parsed element is added under its tag, replacing that parameter only |
| ElementTool.ChooseFormat | gearshift/tools/elementtool.py:100-110 | JSON iff allowed and asked for by `tg_format` or a JSON Accept value; else XML when `as_format` is 'default' or equals `tg_format` or `accept_format` is '*/*' or the Accept value; else no format |
| ElementTool.UnsetFormatsServeXml | gearshift/tools/elementtool.py:93-110 | a decorator given no formats serves XML to requests without `tg_format`, and nothing to a request naming 'html' |
| ElementTool.FirstElementIn | gearshift/tools/elementtool.py:113-117 | the search with its `break`: the value found is an element and no earlier key in the order holds one; None only when no key in the order holds one |
| ElementTool.FirstElement | gearshift/tools/elementtool.py:113-117 | in the dictionary's iteration order, the element found is a value of the output, no earlier value is an element, and None comes back iff no value is an element |
| ElementTool.Serialise | gearshift/tools/elementtool.py:85-130 | output that is not a dict, a request no format applies to, or output without an element passes through; otherwise the element is serialised, as JSON with type application/json or as XML with the configured type |
| ElementTool.Decorate | gearshift/tools/elementtool.py:132-154 | extra positional arguments raise TypeError and change nothing; otherwise the tool is switched on and every keyword, `element` included, is set under the tool's namespace |
| Quickstart.DropLeadingNonLetters | gearshift/command/quickstart.py:29-180 | the leading run of characters outside a-z is removed: the result is empty or starts with a letter, and every dropped character is outside a-z |
| Quickstart.DropLeavesSuffix | gearshift/command/quickstart.py:29-180 | nothing but the leading run is removed: the result is the rest of the string unchanged |
| Quickstart.KeepValid | gearshift/command/quickstart.py:30-181 | only characters of [a-z0-9_] remain, a first valid character is kept, and a string of valid characters is unchanged |
| Quickstart.DerivedPackageShape | gearshift/command/quickstart.py:178-181 | a derived package name uses only [a-z0-9_], is empty or starts with a letter, and deriving it again changes nothing |
| Quickstart.ResolveOrm | gearshift/command/quickstart.py:162-166 | SQLObject and Elixir are as given; SQLAlchemy is on iff asked for, implied by Elixir, or no ORM was chosen; some ORM is always on |
| Quickstart.Prompted | gearshift/command/quickstart.py:175-184 | the value is the first non-empty line, or the default for an empty line when the default is not empty; with a default one line is read; without input nothing is had |
| Quickstart.ReadAnswer | gearshift/command/quickstart.py:191-198 | an empty answer or one starting with 'n' declines, one starting with 'y' accepts, both after lower-casing |
| Quickstart.IdentityDecision | gearshift/command/quickstart.py:187-202 | the first decisive answer is taken and every answer before it was unclear; no decision iff every answer is unclear |
| Quickstart.IdentityFor | gearshift/command/quickstart.py:204-210 | 'none' unless identity is wanted; then 'sqlalchemy' for SQLAlchemy or Elixir projects and 'sqlobject' otherwise |
| Quickstart.Quickstart.constructor | gearshift/command/quickstart.py:126-170 | the ORM switches are resolved and the first argument becomes the project name |
| Quickstart.Quickstart.AskName | gearshift/command/quickstart.py:175-176 | a given name is kept without reading; otherwise lines are read until one is not empty, and running out raises EOFError |
| Quickstart.Quickstart.AskPackage | gearshift/command/quickstart.py:178-184 | a given package is kept; otherwise the name derived from the project name is offered and taken on an empty answer |
| Quickstart.Quickstart.AskIdentity | gearshift/command/quickstart.py:186-210 | asked only when prompting is on and `-i` was not given, until an answer decides; the provider follows the ORM; running out of input raises EOFError |
| Quickstart.Shifted | gearshift/command/quickstart.py:175-202 | a decision found later keeps its value and counts the lines read before |
| Quickstart.Prompt | gearshift/command/quickstart.py:175-184 | the prompt loop reads exactly the lines `Prompted` says and yields its value, or nothing when input runs out |
| Quickstart.PromptStep | gearshift/command/quickstart.py:178-184 | a line that gives a value ends the prompt there; an empty line without default moves on by one |
| Quickstart.IdentityStep | gearshift/command/quickstart.py:187-202 | a decisive line ends the question there; an unclear one moves on by one |
| Quickstart.DerivedPackageOfferedOnce | gearshift/command/quickstart.py:178-184 | with a non-empty derived name one answer is read: the answer itself, or the derived name when it is empty |
| Quickstart.UnclearAnswersSkipped | gearshift/command/quickstart.py:187-202 | unclear answers are skipped, and the first decisive one decides after all of them were read |
| Quickstart.TemplateArgs | gearshift/command/quickstart.py:235-236 | one `--template=` argument per space-separated template, in order |
| Quickstart.TemplateArgsRoundTrip | gearshift/command/quickstart.py:235-236 | the names in the arguments, joined with spaces, give back the templates option |
| Quickstart.UpdateOptionsAsWritten | gearshift/command/quickstart.py:302-325 | as written, Elixir is on whether `-e` was given or not; the other switches are as given |
| Quickstart.UpdateOptions | gearshift/command/quickstart.py:302-325 | corrected: every switch, Elixir included, is on only when given |
| Quickstart.ResolveUpdate | gearshift/command/quickstart.py:342-362 | exactly one of SQLAlchemy and SQLObject; SQLObject iff none of SQLAlchemy, Elixir and `sqlalchemy.dburi`; the identity provider follows the ORM when identity is asked for or configured, else 'none' |
| Quickstart.SqlObjectSwitchIgnored | gearshift/command/quickstart.py:315-352 | as written, `update --sqlobject` still updates the project for SQLAlchemy and Elixir |
| Quickstart.SqlObjectSwitchHonoured | gearshift/command/quickstart.py:342-352 | corrected, `update --sqlobject` on a project without SQLAlchemy configuration updates it for SQLObject |
| Quickstart.RequirementTarget | gearshift/command/quickstart.py:104 | the package when one is given, otherwise the extra's own name |
| Quickstart.GetRequirement | gearshift/command/quickstart.py:101-107 | a requirement the extra adds beyond the distribution's own, whose lower-cased project name is the target; ValueError with the extra's name exactly when there is none |
| Quickstart.ElixirRequirement | gearshift/command/quickstart.py:101-258 | the Elixir requirement is found under the 'sqlalchemy' extra, and not when the distribution requires it anyway |
| Validators.Find | gearshift/validators.py:213 | -1 iff the substring does not occur at or after the start; otherwise the first place at or after the start where it occurs |
| Validators.SitesExact | gearshift/validators.py:208-218 | the sites are increasing and are exactly the occurrences at or after the start, overlapping ones included |
| Validators.FindAll | gearshift/validators.py:208-218 | the loop collects exactly the sites of the substring from position 0 |
| Validators.FindAllStep | gearshift/validators.py:212-217 | a miss ends the sites, and a hit is the next site with the search resuming one past it |
| Validators.FindAllOverlapping | gearshift/validators.py:209 | the two occurrences of "aa" in "aaa" overlap and both are found |
| Validators.SkipNoMatch | gearshift/validators.py:230-232 | positions where no match starts can be skipped without changing whether the pattern matches |
| Validators.IllegalFrom | gearshift/validators.py:230-232 | from a position after an even run of '%', the pattern matches later iff strftime would read a `%s` directive from there |
| Validators.IllegalIffPercentSDirective | gearshift/validators.py:228-233 | a format is refused with TypeError iff strftime would read a `%s` directive in it |
| Validators.PercentSExamples | gearshift/validators.py:230-233 | "%s" is refused, while the escaped "%%s" and the default "%Y-%m-%d" are not |
| Validators.NatToStrLength | gearshift/validators.py:248-251 | years below 10000 have one to four digits as their size says |
| Validators.CycleYear | gearshift/validators.py:237-245 | a year up to 1900 is moved six years for each century and each 400 years before 2000, then by a multiple of 28 into 1973..2000 |
| Validators.Pad4 | gearshift/validators.py:259 | the digits right-aligned in four columns, blanks before them |
| Validators.Splice | gearshift/validators.py:262 | inside the string, the four characters at the site are replaced by the replacement |
| Validators.SpliceWindow | gearshift/validators.py:262 | splicing keeps the length; the replacement shows in its window and the string elsewhere |
| Validators.ReplaceSitesLength | gearshift/validators.py:260-262 | splicing four characters at sites inside the string keeps its length |
| Validators.ReplaceSitesOutside | gearshift/validators.py:260-262 | a position outside every site's window keeps its character |
| Validators.ReplaceSitesAt | gearshift/validators.py:260-262 | at increasing sites the replacement is left at every site the next one does not overlap |
| Validators.CommonSites | gearshift/validators.py:253-256 | a site is kept iff it is among the first sites and also among the second |
| Validators.CommonSitesIncreasing | gearshift/validators.py:253-256 | keeping the common sites keeps them in increasing order |
| Validators.CommonSitesFacts | gearshift/validators.py:246-256 | the common sites are increasing, lie inside the first rendering, and are exactly the places where both renderings show their year |
| Validators.YearReplacedEffect | gearshift/validators.py:246-263 | the replacement keeps the rendering's length, changes only windows at places where both renderings show their year, and leaves the real year at each such place that no later one overlaps |
| Validators.Before1900Replaces | gearshift/validators.py:237-263 | before 1900 the cycle years have four digits and the real year is padded to four columns, so the replacement properties apply |
| Validators.Strftime1900 | gearshift/validators.py:222-263 | TypeError iff the format has a `%s` directive; after 1900 the library rendering; up to 1900 the cycle-year rendering with the real year put back |
| Validators.StrftimeBefore1900 | gearshift/validators.py:222-263 | the loops compute exactly `Strftime1900` |
| Validators.KeepCommon | gearshift/validators.py:253-256 | the loop keeps exactly the common sites, in order |
| Validators.SpliceAll | gearshift/validators.py:258-262 | the loop splices the year at each site in turn |
| Validators.DateTimeFromPython | gearshift/validators.py:104-120 | a false value gives None and another non-date passes through; a date is rendered with the format, "%Y-%m-%d" when none, by the library after 1900 and by `strftime_before1900` up to 1900 |
| Validators.DefaultFormatRendersEarlyYears | gearshift/validators.py:112-116 | with the default format a year up to 1900 always renders, since it has no %s |
| Validators.UploadToPython | gearshift/validators.py:132-139 | Invalid iff `not_empty` is set and the file name is missing or empty; otherwise the value unchanged |
| Validators.OptionalUploadPasses | gearshift/validators.py:132-139 | without `not_empty` an upload with no file name passes through as it is |
| Validators.SchemaFromPython | gearshift/validators.py:180-183 | the schema hands the value back unchanged, converting nothing a second time |
| ViewBase.Position | gearshift/view/base.py:33-44 | after any number of calls the cycle's position lies inside the items |
| ViewBase.Nth | gearshift/view/base.py:42-44 | every item a cycle returns is one of its items |
| ViewBase.PositionNext | gearshift/view/base.py:42-44 | each call moves one item on and starts over after the last |
| ViewBase.NthInOrder | gearshift/view/base.py:24-44 | the cycle goes through the items in order, and repeats them after a full round |
| ViewBase.OddEvenCycle | gearshift/view/base.py:24-44 | a cycle over ('odd', 'even') returns 'odd', 'even', 'odd' |
| ViewBase.Cycle.constructor | gearshift/view/base.py:31-34 | a new cycle has the items, no value yet, and no call made |
| ViewBase.Cycle.Next | gearshift/view/base.py:42-44 | the item for the number of calls so far is returned and becomes `value`; a cycle over nothing raises StopIteration and changes nothing |
| ViewBase.Selector | gearshift/view/base.py:47-56 | "selected" iff the expression is true, None otherwise |
| ViewBase.Checker | gearshift/view/base.py:59-68 | "checked" iff the expression is true, None otherwise |
| ViewBase.CheckerAgreesWithSelector | gearshift/view/base.py:47-68 | a checkbox is checked exactly when the matching option would be selected |
| ViewBase.IPeek | gearshift/view/base.py:71-84 | None iff there is nothing to iterate; otherwise the same items, first one included |
| ViewBase.StandardVars | gearshift/view/base.py:134-159 | the session only when sessions are on; the validation errors and input values of the request, or empty ones; the fixed static paths; nothing extra |
| ViewBase.StdVars | gearshift/view/base.py:160-172 | the root names are those of the root providers plus `tg` and the three deprecated lists; `tg` is the provided standard variables; the lists are empty; other provided names are kept |
| ViewBase.RootProvidersCannotOverride | gearshift/view/base.py:162-170 | a root provider's own `tg` is replaced by the standard one, and without providers only the four standard names exist |
| I18nUtils.LangInGettextFormat | gearshift/i18n/utils.py:83-87 | a tag of at most two characters is kept; a longer one keeps its language, gets '_' and the upper-cased rest, at the same length |
| I18nUtils.LangInGettextFormatIdempotent | gearshift/i18n/utils.py:83-87 | converting a converted tag changes nothing |
| I18nUtils.LangInGettextFormatExamples | gearshift/i18n/utils.py:83-87 | 'en-gb' becomes 'en_GB' and 'da' stays 'da' |
| I18nUtils.GetAcceptLanguages | gearshift/i18n/utils.py:89-97 | the loop converts every parsed language in place, keeping the order |
| I18nUtils.LocaleFromAcceptHeader | gearshift/i18n/utils.py:125-136 | a locale iff the header is present, not empty and names a language; then the first one, converted |
| I18nUtils.DefaultGetLocale | gearshift/i18n/utils.py:108-123 | outside a request the default; otherwise the session's locale when sessions are on and it has one, else the browser's first language, else the default |
| I18nUtils.GetLocale | gearshift/i18n/utils.py:99-106 | a given locale is kept; otherwise the configured lookup, else the default lookup decides |
| I18nUtils.BrowserBeatsDefault | gearshift/i18n/utils.py:108-136 | with sessions off, a browser asking for 'en-gb' first gets 'en_GB' |
| I18nUtils.SetSessionLocaleAsWritten | gearshift/i18n/utils.py:138-145 | as written, the locale is stored as the session attribute 'sess_key' and the session's items are unchanged |
| I18nUtils.SessionLocaleIgnored | gearshift/i18n/utils.py:117-145 | as written, setting the session locale never changes the chosen locale: with sessions on, no header and 'de' set, the user still gets 'en' |
| I18nUtils.SetSessionLocale | gearshift/i18n/utils.py:138-145 | corrected: the locale is stored in the session under `i18n.session_key`, the attributes unchanged |
| I18nUtils.SessionLocaleWins | gearshift/i18n/utils.py:117-145 | corrected, a locale set for the session wins over the browser and the default while sessions are on |
| I18nUtils.CodePoint | gearshift/i18n/utils.py:25-27 | a character with that code iff the number is a Unicode scalar value, else ValueError |
| I18nUtils.EntityChar | gearshift/i18n/utils.py:23-27 | a numeric reference gives the character of its number; a name in the table gives its character; another name raises KeyError |
| I18nUtils.EntityAt | gearshift/i18n/utils.py:40 | a reference body is everything up to the first ';', not empty and without ';'; none when there is no ';' or it comes first |
| I18nUtils.EntitySub | gearshift/i18n/utils.py:40-44 | text without '&' is unchanged |
| I18nUtils.DecodeHtmlEntities | gearshift/i18n/utils.py:29-45 | the loop applies the substitution `repetitions` times, none for a negative count, and stops at the first error |
| I18nUtils.EscapeAmp | gearshift/i18n/utils.py:29-45 | text without '&' is unchanged |
| I18nUtils.AmpFirst | gearshift/i18n/utils.py:23-44 | "&amp;" at the front decodes to '&' and the substitution goes on after it |
| I18nUtils.PlainFirst | gearshift/i18n/utils.py:40-44 | a character other than '&' is copied and the substitution goes on after it |
| I18nUtils.DecodeEscapeAmp | gearshift/i18n/utils.py:29-45 | one substitution undoes escaping the ampersands, for any text |
| I18nUtils.DecodeTwiceEscapedTwice | gearshift/i18n/utils.py:29-45 | text escaped twice comes back after two repetitions |
| I18nUtils.NumericReference | gearshift/i18n/utils.py:24-44 | "&#65;" decodes to "A" |
| I18nUtils.UnknownNameRaises | gearshift/i18n/utils.py:27-44 | a reference to a name the table lacks raises KeyError |
| TgGettext.CatalogGettext | gearshift/i18n/tg_gettext.py:88 | the catalog's translation of the key, or the key itself when it has none |
| TgGettext.CatalogNgettext | gearshift/i18n/tg_gettext.py:110 | the plural form the catalog's rule picks for the number; without a translation `key1` for one and `key2` for any other number |
| TgGettext.ResolveDomain | gearshift/i18n/tg_gettext.py:19-29 | a given non-empty domain is used; otherwise `i18n.domain`, and 'messages' when that is not configured |
| TgGettext.RequestedLocale | gearshift/i18n/tg_gettext.py:81-105 | a given locale is used, and the current locale when none is given |
| TgGettext.EffectiveLocale | gearshift/i18n/tg_gettext.py:17-107 | a supported locale is used as it is; an unsupported one is cut to its first two characters, always a prefix of the requested locale |
| TgGettext.UnsupportedLocaleFallsBack | gearshift/i18n/tg_gettext.py:83-84 | an unsupported "pt_BR" falls back to the "pt" catalog |
| TgGettext.Translation | gearshift/i18n/tg_gettext.py:71-92 | the empty key gives ""; a catalog that cannot be loaded gives the key; otherwise the catalog's translation of the key |
| TgGettext.TranslationFallbacks | gearshift/i18n/tg_gettext.py:85-92 | the empty key never comes back as the catalog header, and a key without translation or catalog comes back unchanged |
| TgGettext.PluralTranslationAsWritten | gearshift/i18n/tg_gettext.py:104-114 | as written, when the catalog cannot be loaded the answer is `key1` whatever the number |
| TgGettext.NoCatalogPluralIsSingular | gearshift/i18n/tg_gettext.py:109-114 | as written, without a catalog `ngettext("%d file", "%d files", 3)` comes back in the singular |
| TgGettext.PluralTranslation | gearshift/i18n/tg_gettext.py:57-114 | corrected: without a catalog `key1` for one and `key2` otherwise; with one the same as the code as written |
| TgGettext.PluralFallbackAgrees | gearshift/i18n/tg_gettext.py:57-114 | corrected, an untranslated message reads the same whether the catalog is missing or only lacks it: `key1` iff the number is one |
| TgGettext.PlainGettext | gearshift/i18n/tg_gettext.py:44-55 | the `i18n.gettext` override when configured, `tg_gettext` otherwise |
| TgGettext.PlainNgettext | gearshift/i18n/tg_gettext.py:57-69 | the `i18n.ngettext` override when configured, `tg_ngettext` as written otherwise |
| TgGettext.LazyCmp | gearshift/i18n/tg_gettext.py:140-141 | 0 iff the current value equals the other string, -1 iff it sorts before it, 1 otherwise |
| TgGettext.LexLessIrreflexive | gearshift/i18n/tg_gettext.py:140-141 | no string sorts before itself |
| TgGettext.LazyGettext | gearshift/i18n/tg_gettext.py:116-160 | the lazy string evaluates, in every environment, to `plain_gettext` there |
| TgGettext.LazyNgettext | gearshift/i18n/tg_gettext.py:116-160 | the lazy string evaluates, in every environment, to `plain_ngettext` there |
| TgGettext.Gettext | gearshift/i18n/tg_gettext.py:165-178 | translated at once iff a request is available; otherwise a lazy string that translates in the environment of each later use |
| TgGettext.Ngettext | gearshift/i18n/tg_gettext.py:180-194 | as `gettext` for plurals, passing no domain |
| TgGettext.LazyFollowsLocale | gearshift/i18n/tg_gettext.py:116-178 | a message marked outside any request reads "Hallo" for a German request and stays "Hello" for a French one without catalog |
| TgGettext.DummyGettext | gearshift/i18n/tg_gettext.py:163 | the message comes back unchanged |
| TgGettext.CatalogCache.constructor | gearshift/i18n/tg_gettext.py:11 | the cache starts empty, with nothing loaded |
| TgGettext.CatalogCache.DomainCache | gearshift/i18n/tg_gettext.py:31-34 | the domain's cache, or an empty one |
| TgGettext.CatalogCache.GetCatalog | gearshift/i18n/tg_gettext.py:26-42 | the loader's catalog for the pair, or IOError; a cached pair changes nothing; otherwise the loader is called once, the domain gets a cache, and only a loaded catalog is stored; every pair that loaded is loaded once |
| TgGettext.LoadPreserves | gearshift/i18n/tg_gettext.py:26-42 | one load of an uncached pair keeps every loaded pair cached, every cached catalog the loader's, and each loaded pair loaded once |
| TgGettext.CatalogCache.TgGettext | gearshift/i18n/tg_gettext.py:71-92 | the answer is `Translation`, whatever the cache holds; the empty key touches nothing; any other key leaves a cached pair alone, and otherwise records one load of the pair and caches its catalog when it loads |
| TgGettext.CatalogCache.TgNgettext | gearshift/i18n/tg_gettext.py:94-114 | the answer is `PluralTranslationAsWritten`, whatever the cache holds, so `key1` when the catalog cannot be loaded; a cached pair is left alone, and otherwise one load of the pair is recorded and its catalog cached when it loads |
| OAuthStore.Token.constructor | gearshift/tools/oauth/sodatastore.py:133-142 | a new row has the given key, secret, type, owner and label, empty scopes and is not authorized |
| OAuthStore.Token.Upgrade | gearshift/tools/oauth/sodatastore.py:144-151 | the row becomes an access token under the new key and secret; label, scopes, authorization and owner stay |
| OAuthStore.Token.ResetKey | gearshift/tools/oauth/sodatastore.py:153-158 | the row gets the new key and secret; its type, label, scopes, authorization and owner stay |
| OAuthStore.FindKey | gearshift/tools/oauth/sodatastore.py:133-134 | `by_key` finds a row with that key, and reports none exactly when no row has it |
| OAuthStore.ByNonceConsumer | gearshift/tools/oauth/sodatastore.py:169-180 | a row for that nonce and consumer when there is one; SQLObjectNotFound exactly when there is none |
| OAuthStore.TokenTypeCode | gearshift/tools/oauth/sodatastore.py:126-128 | the OAuth type names "request" and "access" stand for the integer types 1 and 2; nothing else has a code |
| OAuthStore.DataStore.constructor | gearshift/tools/oauth/sodatastore.py:31-46 | the store reads the given token and nonce tables, whose keys are unique |
| OAuthStore.DataStore.LookupConsumer | gearshift/tools/oauth/sodatastore.py:48-55 | None exactly when no token has the key; otherwise that token's key, secret and owner |
| OAuthStore.DataStore.LookupTokenAsWritten | gearshift/tools/oauth/sodatastore.py:57-63 | as written, None exactly when no token has the key, whatever type was asked for |
| OAuthStore.DataStore.RequestTokenPassesAsAccess | gearshift/tools/oauth/sodatastore.py:57-63 | as written, the key of an API or request token is accepted as an access token, which the corrected lookup refuses |
| OAuthStore.DataStore.LookupToken | gearshift/tools/oauth/sodatastore.py:57-128 | corrected: a token comes back exactly when a row has the key and the type asked for, and then the same as the code as written |
| OAuthStore.DataStore.LookupNonce | gearshift/tools/oauth/sodatastore.py:65-75 | the nonce exactly when the consumer has used it, None otherwise |
| OAuthStore.DataStore.FetchRequestToken | gearshift/tools/oauth/sodatastore.py:77-85 | an unknown consumer raises SQLObjectNotFound and a taken key IntegrityError, changing nothing; otherwise one new unauthorized request row, owned and labelled as the consumer's token, is appended and found by its key |
| OAuthStore.DataStore.AuthorizeRequestToken | gearshift/tools/oauth/sodatastore.py:101-112 | None exactly for an unknown token or another user's, and nothing changes; otherwise only that row becomes authorized |
| OAuthStore.DataStore.FetchAccessToken | gearshift/tools/oauth/sodatastore.py:87-99 | unknown consumer or token: SQLObjectNotFound; unauthorized: None; a new key another row holds: IntegrityError; otherwise it always succeeds: the row becomes an access token with the new key and secret, its owner, label and authorization kept, found under the new key and no longer under the old; other rows are untouched |

## Left out

- Threads: the visit manager's background thread, the hub's per-thread connections and the thread-local request are not modelled. One thread's view is modelled, and `VisitApi.VisitQueue.Drain` is the swap step the thread runs.
- Hash functions, UUIDs, random salts and `make_hash` are parameters, so the digests for "password" that the tests check are not reproduced.
- The ORMs: SQLAlchemy, Storm, SQLObject and the App Engine datastore. Their tables are in-memory sequences and maps, and a query yields its rows in table order.
- Template engines (Genshi, Kid, Mako, Kajiki, simplejson): rendering ends in a record naming the engine and its arguments.
- The markup libraries (Textile, docutils, Markdown, Trac) and the Elements library: what they produce is a parameter.
- `parse_http_accept_header`, `simplify_http_accept_header`, `match_ip`, `get_mime_type_for_format`, `mime_type_has_charset`, `quote_cookie`, `unquote_cookie`, `to_utf8` and `load_class` of gearshift/util.py: these are parameters, since that file is not part of this model.
- The Google Translate client in gearshift/i18n/utils.py: it calls a web service.
- `create_provider_model` and `create_model` in the identity providers and the visit managers: they create database tables.
- StProvider.ValidateIdentity: the user-name lookup works on the name as given. `to_db_encoding` is modelled (`StProvider.ToDbEncoding`) but not applied before the lookup, because text and its encoding are the same `Str` here.
- IdentityBase.IdentityRequest.CurrentProvider: the request's provider attribute is either unset or a provider. The model sets it only to the plugin's provider, so the case of an attribute explicitly set to None is not modelled; there `__getattr__` would raise without creating the default provider.
- AeVisit.AeVisitManager.constructor: loading the configured `TG_Visit` class and `create_model` are not modelled; the entities are given.
- StormIdentity repeats the code of SqlAlchemyIdentity and is modelled by `SaProvider.DbIdentity`.
- I18nUtils.SetSessionLocale: the AttributeError that `set_session_locale` raises when sessions are off is not modelled.
- TgGettext: `.mo` files are read by the parameter `load`, and `is_locale_supported` is the parameter `supported`, fixed to the configured domain and locale directory. A catalog's plural rule is one of its fields.
- TgGettext: `lazystring`'s `__mod__`, `__str__` and `__unicode__` only format or convert the value it evaluates to, and are not modelled. Nor is `__deepcopy__`, which returns the string itself.
- TgGettext: `install()` and `jsonify_lazystring` are not modelled; they register the functions as builtins and with the JSON encoder.
- OAuthStore: the OAuth library's objects are reduced to the key, secret and owner the store hands over, and users are integer ids.
- OAuthStore: `OAuthDataStore.__init__`, which loads the configured model classes, is not modelled; the store is constructed from its tables.
- OAuthStore: `TG_Nonce.by_nonce_consumer` takes the first row in table order, and the rows' `expires` and `created` columns are not modelled.
- OAuthStore.Token.ResetKey: the new key is not checked against the other rows. That check is done only by the store operations, which raise IntegrityError for a key in use.
- OAuthStore.DataStore.FetchAccessToken: after IntegrityError the type change already written stays, as in the code, since no rollback is modelled. The unused `api_token.user` read is dropped.
- OAuthStore.DataStore.constructor: it requires the key column to be unique, which is the database's own constraint.
- Printing, logging and command-line parsing (optparse) in the admin commands are not modelled; `SaCommand` models only which sub-command runs.
- Quickstart: creating the distribution with paster and writing files are not modelled.
- Config: evaluating values as Python literals (`unrepr`) is a parameter, and reading files from disk is not modelled.
- Config.UpdateConfigData: each file is given as the dictionary ConfigObj or ConfigParser reads from it. The `DEFAULT` section merged into each file (`current_dir_uri`, `top_level_dir`, `package_dir`) and the `%(name)s` interpolation those values feed are not modelled, and neither is locating the module's files with `resource_filename` and `glob`.
- Config.UpdateFold: it folds over any key sequence drawn from the dictionary. Only `ConfigStore.Update`, the operation, requires that sequence to be the dictionary's iteration order, because a tail of that order is not an order of the whole dictionary.
- VisitApi.CreateVisitManager: `load_class` is a parameter answering an exception, None (a missing module or class) or the class.
- Utf8.Decode refuses encoded surrogate code points, which the UTF-8 decoder of Python 2 accepts. Characters here are Dafny's Unicode scalar values, which exclude surrogates.
- I18nUtils.CodePoint refuses surrogate code points (0xD800 to 0xDFFF), which `unichr` of Python 2 accepts, for the same reason.
- ElementTool.Serialise: the Elements library is not modelled, so every element is taken to be true, where `if not elem:` would pass over an element whose truth value is false.
- Conditions: the host-matching function is a parameter.
- Config.UpdateSection: a pair whose key is a number, None, a boolean or an object raises TypeError here, where Python stores it, because section keys are strings; so does a two-key dictionary used as a pair, because the key order of a dictionary is not modelled. An object is taken to be neither a mapping nor iterable. The exception messages omit the element's index.
- Config.ApplyItem: `configure_loggers` past its first `get` is the parameter `configureLoggers`, which gives the ConfigError it raises, if any. The loggers and handlers it configured before raising are not modelled, since the logging module is not. An object given as the logging configuration is taken to have no `get`.
- Conditions.RequestEnv and Conditions.RemoteHostChoice: header names are looked up by their exact spelling, where CherryPy's header dictionary ignores case.
- ZopeTransactions.StatusCode and ExposeRender.ContentFormat: values are typed as in Python 3. Python 2's ordering between values of different types, and a status given as a unicode string, are not modelled.
- Config.ConfigErrorMsg: the value is shown between plain quotes rather than as `%r` would print it, and the further arguments of the ValueError are dropped.
- SaCommand.Reflectable: column types are matched by exact class name, where the code uses `isinstance` and so also accepts subclasses.
- Controllers.Validate: a form given as a class is taken as its instance, the state factory as the value it returns, and `validated_form` is recorded only as whether a form was bound. Each per-field error is kept as its message (`map<Str, Str>`), where the code stores the Invalid instance and `unpack_errors` can give nested values.
- VisitApi.IntOf: an object is taken to have no `__int__` method.
- StProvider.ValidateIdentity: the user lookup goes through a bound store (`StProvider.OneNamed`). As written, `by_user_name` uses a module-level `store` that is never bound; see "## Findings".

## Findings

| source | as written | input that shows it | evidently intended | confidence | as-written member | corrected member |
|---|---|---|---|---|---|---|
| gearshift/identity/base.py:122-129 | with algorithm 'custom' and no `tools.identity.custom_encryption`, the name `custom_encryption` is read before it is bound | `encrypt_pw_with_algorithm('custom', 'pw')` with no path configured raises UnboundLocalError | an unconfigured custom hash leaves the password unhashed, as an unloadable one does | high, not executed | IdentityBase.EncryptPwAsWritten, IdentityBase.CustomWithoutPathFails | IdentityBase.EncryptPwWithAlgorithmCorrected, IdentityBase.EncryptPwAgreesWithCode |
| gearshift/identity/visitor.py:77, gearshift/identity/visitor.py:133 | Basic credentials are split on every ':' and unpacked into two names | "alice:a:b" (password "a:b") raises ValueError, so the login fails | split at the first ':', as section 2 of RFC 7617 allows ':' in the password | high, not executed | IdentityVisitor.ColonInPasswordRejected, IdentityVisitor.ColonInPasswordExample | IdentityVisitor.Credentials, IdentityVisitor.CredentialsRoundTrip |
| gearshift/identity/stprovider.py:358-360 | `by_user_name` queries a module-level `store`, which the module never binds (`from storm.locals import *` provides `Store`) | a table holding one user "u": `by_user_name("u")` raises NameError | the query goes through the request thread's store, as `visit_identity` does at stprovider.py:54 | medium, not executed | StProvider.ByUserNameAsWritten, StProvider.UnboundStoreHidesUser | StProvider.OneNamed |
| gearshift/identity/stprovider.py:237-240 | the stored value is split at index 40, the length of a SHA-1 hex digest | with md5 (32 characters) the salted value of any password is rejected | split after the digest length of the configured algorithm | high, not executed | StProvider.CheckPasswordAsWritten, StProvider.ShortDigestRejected | StProvider.CheckPassword, StProvider.RoundTrip |
| gearshift/identity/stprovider.py:241-247 | a matching unsalted password is assigned back through the column validator, which stores `H(password)` again | stored `H("pw")`, password "pw": the stored value stays `H("pw")` | the password is re-stored salted | medium, not executed | StProvider.CheckPasswordAsWritten, StProvider.LegacyMigrationIsNoOp | StProvider.CheckPassword, StProvider.LegacyMigration |
| gearshift/dispatch/restful.py:57-62 | HEAD falls back to GET_ONE or GET_ALL, never to GET | a resource with only GET lists HEAD in its Allow header, but a HEAD request gets 405 | HEAD is served like GET whenever GET is allowed | high, not executed | Restful.HandlerNameAsWritten, Restful.HeadAdvertisedButRejected | Restful.HandlerName, Restful.HeadServedLikeGet |
| gearshift/tools/expose/tool.py:142-143 | a relative template is resolved using the name `func`, which is not defined in `handler` | `template=".templates.welcome"` raises NameError on every request | resolve against the package of the controller's module | high, not executed | ExposeTool.PlanAsWritten, ExposeTool.RelativeTemplateFails | ExposeTool.Plan, ExposeTool.RelativeTemplateResolved |
| gearshift/tools/markup.py:88-115 | `TracWikiEngine` is defined but never added to `engines` | "trac:page" raises KeyError | registered like the other engines | high, not executed | Markup.TracNotRegistered | Markup.TracRegistered |
| gearshift/command/sacommand.py:147-151 | 'list' calls the builtin `list`, and the execute branch tests and calls the misspelt, undefined 'excecute' | `sacommand list` raises TypeError; `sacommand execute` matches no branch and does nothing, and 'excecute' raises NameError | both run their sub-commands | high, not executed | SaCommand.DispatchAsWritten, SaCommand.ListAndExecuteBroken | SaCommand.Dispatch, SaCommand.AdvertisedCommandsRun |
| gearshift/command/quickstart.py:315-317, gearshift/command/quickstart.py:342-352 | `update`'s `--elixir` switch defaults to True | `update --sqlobject` still updates for SQLAlchemy and Elixir | Elixir only when asked for | medium, not executed | Quickstart.UpdateOptionsAsWritten, Quickstart.SqlObjectSwitchIgnored | Quickstart.UpdateOptions, Quickstart.SqlObjectSwitchHonoured |
| gearshift/i18n/utils.py:138-145 | the locale is stored under the session attribute named by the literal 'sess_key' | after `set_session_locale("de")`, `get_locale` still reads the session key and ignores "de" | store it under the configured `i18n.session_key` | high, not executed | I18nUtils.SetSessionLocaleAsWritten, I18nUtils.SessionLocaleIgnored | I18nUtils.SetSessionLocale, I18nUtils.SessionLocaleWins |
| gearshift/i18n/tg_gettext.py:109-114 | without a catalog `tg_ngettext` returns `key1`, whatever the number | `ngettext("%d file", "%d files", 3)` with no catalog gives "%d file" | `key1` for one, `key2` otherwise, as with a catalog that lacks the message | medium, not executed | TgGettext.PluralTranslationAsWritten, TgGettext.NoCatalogPluralIsSingular | TgGettext.PluralTranslation, TgGettext.PluralFallbackAgrees |
| gearshift/tools/oauth/sodatastore.py:57-63 | `lookup_token` ignores the token type it is asked for | the key of an unauthorized request token is accepted as an access token | only a token of the requested type is returned | medium, not executed | OAuthStore.DataStore.LookupTokenAsWritten, OAuthStore.DataStore.RequestTokenPassesAsAccess | OAuthStore.DataStore.LookupToken |
