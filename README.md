# FTP client session (ftp.go) in Dafny

This project models the client side of an FTP session as `ftp.go`
implements it. It covers the commands of RFC 959, FEAT (RFC 2389), EPSV
(RFC 2428) and the TLS negotiation AUTH TLS / PBSZ / PROT (section 3 of
RFC 2228, RFC 4217). The sockets are not modelled. What is modelled is what
the client says to the server, in what order, what it makes of each reply,
and which error it returns.

The control connection is a script:
- the replies the server will send, each already parsed into a code and a
  message, or a transport failure;
- whether command lines can be written at all (`Env.writeError`);
- what closing the connection gives (`Env.closeError`).

The data connections the client dials are a second script. Each data
connection carries the lines a scanner reads from it, the read error that
ends the scan, what closing it gives, and whether it can be asked for a
TLS handshake. Everything the session does to the outside world is
recorded in order as an event: a command line sent, a data connection
opened or closed, a handshake, the TLS upgrade of the control connection,
and the control connection closed.

Modules:
- `FtpTypes`: errors, replies, data connections, events, entries.
- `Status`: the reply codes, with their RFC 959 values (234 is from
  RFC 2228).
- `GoStrings`: the parts of Go's `strings` and `strconv` the client uses,
  with their contracts (`Index`, `LastIndex`, `Split`, `SplitN(…, 2)`,
  `TrimSpace`, `Atoi`, `Join`, and 64-bit `int` wrap-around).
- `Replies`: the pure reply readers (PASV, EPSV, PWD, FEAT lines, the
  OPTS UTF8 verdict) and the text of listing commands.
- `Protocol`: the session as a state machine over values. Each operation
  of `ServerConn` is a function from the session before to the session
  after and its result. This is the reference definition.
- `Client`: `ServerConn` and `Response` as classes whose fields the methods
  update (the feature table, `skipEPSV`, `mlstSupported`, `usePRET`,
  `Response.closed`), with loops where the source has them. Every method is
  proved to compute exactly its `Protocol` function, so each property
  proved about `Protocol` holds of the objects.
- `ReplyLemmas`, `ProtocolLemmas`, `RemovalLemmas`: the properties.

The three Go slice expressions that the client does not guard (`PWD` with
a single quote, `EPSV` ending in `|||`, `PASV` with `)` before `(`) would
panic at run time. They are modelled as the error `SlicePanic`, and lemmas
exhibit the inputs that reach it. Nothing on the way catches it: the one
place where the client recovers from a failed command, the fallback from
EPSV to PASV, lets a `SlicePanic` through without setting `skipEPSV` or
sending PASV, as the panic would. The error of `OPTS UTF8 ON` is lost when
a TLS configuration is present, because PBSZ and PROT overwrite it. This is
modelled as the source does it, and a lemma exhibits it.

The order in which a transfer command is sent is stated in three parts:
- `ProtocolLemmas.PretThenTransfer`: PRET first when it is used.
- `ProtocolLemmas.DataConnPortSends`: then EPSV and/or PASV.
- `ProtocolLemmas.TransferSuccessOrder`: then the data connection, REST
  only for a non-zero offset, and the transfer command.

## Model

| member | source | states |
|---|---|---|
| Protocol.Read | ftp.go:498 | One reply is consumed, when there is one. The result is Ok exactly when that reply is well formed and its code is the expected one, or any code is accepted. An Ok result carries the reply's code and message. A well-formed reply with another code gives a protocol error with that code and message. |
| Protocol.Write | ftp.go:493-496 | With a broken control connection nothing is logged and the transport error is returned. Otherwise exactly the line is logged as sent. |
| Protocol.Cmd | ftp.go:492-499 | Only the log and the replies change. With a broken connection nothing happens. Otherwise the line is logged and one reply consumed. Success holds iff the line was written and the first reply is well formed with the expected code (the reply's code and message are returned). |
| Protocol.Exec | ftp.go:492-499 | Same session as `Cmd`. No error exactly when `Cmd` succeeds; otherwise `Cmd`'s error. |
| Protocol.Auth | ftp.go:267-285 | The session only advances: the log is extended, no more replies are left than before, and the flags are never cleared. The behaviour is in `ProtocolLemmas.AuthSendsPassOnlyOnUserOK` and `AuthReturnsLastCode`. |
| Protocol.Feat | ftp.go:332-364 | The session only advances, and FEAT leaves `skipEPSV`, `mlstSupported` and `usePRET` as they were. |
| Protocol.SetUtf8 | ftp.go:367-394 | The feature table is unchanged. Without "UTF8" in the table nothing is sent and nothing fails. |
| Protocol.Capabilities | ftp.go:293-298 | Only the two flags change. `mlstSupported` is set iff "MLST" is a feature and MLSD is not disabled. `usePRET` is set iff "PRET" is a feature. Each is kept if it was already set. |
| Protocol.AfterAuth | ftp.go:287-321 | The session only advances. Its outcome is stated by `ProtocolLemmas.AfterAuthFlags`, `AfterFeatKeepsFlags` and, for the part after FEAT, `Utf8OutcomeReplacedWithTls` and `Utf8ErrorKeptWithoutTls`. |
| Protocol.AfterFeat | ftp.go:300-320 | The session only advances. Its outcome is stated by `ProtocolLemmas.Utf8OutcomeReplacedWithTls`, `Utf8ErrorLostWithTls` and `Utf8ErrorKeptWithoutTls`. |
| Protocol.Utf8Stage | ftp.go:306-308 | With UTF8 disabled, nothing is sent and no error is returned. |
| Protocol.ProtectData | ftp.go:311-318 | The session only advances. What it sends and returns is `ProtocolLemmas.ProtectDataOutcome`. |
| Protocol.Epsv | ftp.go:397-410 | The session after EPSV is the one the EPSV command leaves, whatever the parse gives. |
| Protocol.Pasv | ftp.go:413-450 | The session after PASV is the one the PASV command leaves, whatever the parse gives. |
| Protocol.DataConnPort | ftp.go:454-465 | Only the log, the replies and `skipEPSV` change. `skipEPSV` is never cleared. What is sent, when `skipEPSV` is set and the escaping EPSV panic are stated by DataConnPortSends, EpsvFailureIsSticky and EpsvPanicEscapes. |
| Protocol.OpenDataConn | ftp.go:468-488 | The session only advances; the feature table, `mlstSupported` and `usePRET` are unchanged. |
| Protocol.CloseData | ftp.go:521 | Closing a data connection appends exactly one close event. |
| Protocol.RestLine | ftp.go:519 | The line is "REST " followed by decimal digits only. |
| Protocol.RestLineCarriesOffset | ftp.go:519 | The digits of the REST line denote exactly the offset. |
| Protocol.Rest | ftp.go:518-524 | Offset 0 leaves the session untouched with no error. Otherwise REST goes through iff its line is written and the reply is 350; the session only advances and the features, dial outcomes, `mlstSupported` and `usePRET` are unchanged. The error for another reply is stated by RestRefused. |
| Protocol.Transfer | ftp.go:513-542 | The session only advances; the feature table, `mlstSupported` and `usePRET` are unchanged. |
| Protocol.SendTransfer | ftp.go:518-542 | On success the data connection that was opened is the one returned. |
| Protocol.CmdDataConnFrom | ftp.go:503-543 | The session only advances; the feature table, `mlstSupported` and `usePRET` are unchanged. |
| Protocol.ResponseClose | ftp.go:887-898 | Afterwards the response is marked closed, whatever happened. |
| Protocol.ScanError | ftp.go:564-569 | No error iff the data connection was read to its end without error. A read error is reported as a transport error with its reason. |
| Protocol.NameList | ftp.go:546-571 | The session only advances. Its outcome is `ProtocolLemmas.NameListOutcome`, `NameListNeedsTransfer` and `NameListLogWithoutPret`. |
| Protocol.List | ftp.go:574-614 | The session only advances. Its outcome is `ProtocolLemmas.ListOutcome`, `ListNeedsTransfer` and `ListLogWithoutPret`. |
| Protocol.RetrFrom | ftp.go:671-678 | The session only advances. It is `CmdDataConnFrom` with the RETR line, stated by `ProtocolLemmas.TransferSuccessOrder` and `CmdDataConnFromFailureCloses`. |
| Protocol.UploadError | ftp.go:705-719 | The session only advances. Its effect on StorFrom's error and log is stated by `ProtocolLemmas.StorFromReads226` and `StorFromErrorPrecedence`. |
| Protocol.StorFrom | ftp.go:693-734 | The session only advances. Its outcome is `ProtocolLemmas.StorFromReads226`, `StorFromErrorPrecedence` and `StorFromNeedsTransfer`. |
| Protocol.Append | ftp.go:741-761 | The session only advances. Its outcome is `ProtocolLemmas.AppendReads226`. |
| Protocol.ChangeDir | ftp.go:618-621 | Features and `mlstSupported` unchanged. Success consumes a reply. |
| Protocol.ChangeDirToParent | ftp.go:626-629 | The session only advances. What it sends is stated by `RemovalLemmas.LeaveAndRemoveLog` and `LeaveAndRemoveCdupRefused`. |
| Protocol.CurrentDir | ftp.go:633-647 | The session is the one PWD leaves, whatever the message holds. |
| Protocol.Delete | ftp.go:776-779 | The session only advances. What it sends and returns is `RemovalLemmas.DeleteStep`. |
| Protocol.RemoveDir | ftp.go:830-833 | The session only advances. What it sends is stated by `RemovalLemmas.LeaveAndRemoveLog`. |
| Protocol.Rename | ftp.go:764-772 | The session only advances. Its outcome is `ProtocolLemmas.RenameSendsRntoOnlyAfterPending`. |
| Protocol.RemoveDirRecur | ftp.go:783-819 | The session only advances. Its outcome is `RemovalLemmas.RemoveDirRecurUnwritable`, `RemoveDirRecurStartsWithCwd`, `RemoveDirRecurCwdRefused`, `RemoveDirRecurEntered` and `RemoveDirRecurSucceeded`. |
| Protocol.RemoveCurrentDir | ftp.go:788-818 | The session only advances. Its outcome is `RemovalLemmas.RemoveCurrentDirStartsWithPwd`, `RemoveCurrentDirPwdFails`, `RemoveCurrentDirListFails`, `RemoveCurrentDirLoopFails` and `RemoveCurrentDirEndsWithRmd`. |
| Protocol.LeaveAndRemove | ftp.go:813-818 | The session only advances. Its outcome is `RemovalLemmas.LeaveAndRemoveLog` and `LeaveAndRemoveCdupRefused`. |
| Protocol.RemoveEntries | ftp.go:798-812 | The session only advances. Its outcome is `RemovalLemmas.RemoveEntriesSkipsDots`, `FolderStep`, `FolderEntered`, `DeleteStep` and, over plain files, `DeletesStopAtFirstFailure`. |
| Protocol.RemoveEntry | ftp.go:799-811 | The session only advances. Each case is stated in context by `RemovalLemmas.RemoveEntriesSkipsDots`, `FolderStep` and `DeleteStep`. |
| Protocol.Quit | ftp.go:866-878 | The session only advances. Its outcome is `ProtocolLemmas.QuitAlwaysCloses`. |
| Protocol.ControlSource | ftp.go:92-108 | Each of the four sources is chosen iff its condition holds: a given connection; else a dial function; else TLS that is not explicit; else plain TCP. |
| Protocol.Dial | ftp.go:119-141 | The fresh session only advances. Its outcome is `ProtocolLemmas.DialNeedsGreeting` and `DialOutcome`. |
| FtpTypes.AsTransport | ftp.go:722 | No error iff no reason; a reason becomes a transport error carrying it. |
| Replies.ParsePasv | ftp.go:419-449 | A parsed port is a Go 64-bit int. The text between the parentheses is read by `PasvFromFields` (`ReplyLemmas.PasvReadsBetweenParentheses`). |
| Replies.PasvFromFields | ftp.go:429-449 | Fewer than six fields is the format error. With six or more, the result is Ok iff `Atoi` accepts both the fifth and the sixth field. Then the host is the first four fields joined with "." and the port is field5 × 256 + field6, wrapped to 64 bits. |
| Replies.ParseEpsv | ftp.go:403-409 | A parsed port is a Go 64-bit int. |
| Replies.ParsePwd | ftp.go:639-646 | A parsed path is at least two characters shorter than the message (it lies between two quotes). |
| Replies.Utf8Verdict | ftp.go:377-393 | No error iff the code is 200, 202, 501 or 504. Any other code gives an error whose text is the server's message. |
| Replies.PathArgument | ftp.go:547-550 | An empty path adds nothing to the command; any other path is preceded by one space. |
| Replies.ListCommand | ftp.go:575-590 | The command is MLSD iff the server supports MLST and LIST otherwise, followed by the path argument. |
| Replies.NameListCommand | ftp.go:547-551 | The command is NLST followed by the path argument. |
| Replies.FormatFor | ftp.go:578-584 | The MLSD format is used iff the server supports MLST. |
| Replies.EntryTypeName | ftp.go:906-908 | A file is named "file", a folder "folder" and a link "link", and no other type gets these names. |
| Replies.ParseLines | ftp.go:603-610 | Never more entries than lines. See `ReplyLemmas.ParsedEntriesFromLines` and `AllLinesAccepted` for the rest. |
| Replies.IsFeatureLine | ftp.go:346-348 | Only lines that start with a space are read as features. Stated by `ReplyLemmas.AddFeatureEffect`. |
| Replies.FeatureName | ftp.go:350-353 | The first word of the trimmed line. Stated by `ReplyLemmas.FeatureLineParts`. |
| Replies.FeatureParams | ftp.go:350-358 | What follows the first space of the trimmed line, or "". Stated by `ReplyLemmas.FeatureLineParts`. |
| Replies.AddFeature | ftp.go:346-360 | One iteration of the FEAT loop. Stated by `ReplyLemmas.AddFeatureEffect`. |
| Replies.AddFeatures | ftp.go:344-361 | The loop over all lines never removes a name. The rest is stated by `ReplyLemmas.FeatureKeys`, `LastFeatureLineWins` and `FeatureUntouched`. |
| Replies.AddFeaturesStep | ftp.go:345-361 | One more line is one more iteration. |
| Replies.Removable | ftp.go:799 | An entry is kept iff it is in the listing and is named neither "." nor "..". The order is stated by `ReplyLemmas.RemovableAppend`. |
| Replies.WalkRoot | ftp.go:840-842 | The root ends in "/"; a root that already did is unchanged, any other gets exactly one "/" appended. |
| GoStrings.Index | ftp.go:403 | The result is -1 or the position of an occurrence, and no occurrence lies before it. |
| GoStrings.Split | ftp.go:344 | Splitting gives at least one piece. `JoinSplit` and `SplitJoin` state that it is the inverse of `Join`. |
| GoStrings.Join | ftp.go:448 | Pieces joined with the separator between them. `JoinSplit` and `SplitJoin` state that it is the inverse of `Split`. |
| GoStrings.LastIndex | ftp.go:404 | The result is -1 or the position of an occurrence, and no occurrence lies after it. |
| GoStrings.SplitFirst | ftp.go:351 | One piece iff the separator is absent, and then the piece is the whole string. Otherwise the string is the first piece, the separator, then the second piece, and the first piece holds no separator. |
| GoStrings.TrimLeft | ftp.go:350 | A suffix of its input that starts with a non-space; everything removed is white space. |
| GoStrings.TrimRight | ftp.go:350 | A prefix of its input that ends with a non-space; everything removed is white space. |
| GoStrings.TrimSpace | ftp.go:350 | The result neither starts nor ends with white space. Which part of the input it is, is `GoStrings.TrimSpaceTrims`. |
| GoStrings.TrimSpaceTrims | ftp.go:350 | The result is the input with its leading and trailing white space removed, and nothing else removed: what precedes and what follows it is all white space. |
| GoStrings.TrimCompose | ftp.go:350 | Removing white space at the front and then at the back removes it at both ends. |
| GoStrings.WrapInt64 | ftp.go:445 | The result is a 64-bit int congruent to its input modulo 2^64. |
| GoStrings.Atoi | ftp.go:434-442 | Ok iff the input is a non-empty run of decimal digits, with an optional sign, whose value fits in 64 bits. Then the value is that number. Any failure is the number error for the input. |
| GoStrings.Itoa | ftp.go:519 | A non-empty string of decimal digits. |
| GoStrings.Enclosed | ftp.go:420-423 | No delimiter iff either `Index` of the opening or `LastIndex` of the closing delimiter is -1. An enclosed text is shorter than the string by at least both delimiters. |
| GoStrings.IndexAfterFreePrefix | ftp.go:420 | The first occurrence is right after a prefix that holds no character that starts the sought string. |
| GoStrings.LastIndexBeforeFreeSuffix | ftp.go:421 | The last occurrence is right before a suffix that holds no character that ends the sought string. |
| GoStrings.CharAbsent | ftp.go:422 | An absent character has index and last index -1. |
| GoStrings.JoinSplit | ftp.go:427 | Joining the pieces of a split with the separator gives back the string. |
| GoStrings.SplitWithoutSeparator | ftp.go:344 | A string without the separator splits into itself alone. |
| GoStrings.SplitAtSeparator | ftp.go:344 | Splitting at a separator splits each side independently and concatenates the pieces. |
| GoStrings.SplitJoin | ftp.go:427 | Splitting a join of separator-free pieces gives back the pieces. |
| GoStrings.DigitsValueOfItoa | ftp.go:434 | The digits `Itoa` writes denote the number written. |
| GoStrings.AtoiOfItoa | ftp.go:434 | `Atoi` reads back what `Itoa` writes, for every 64-bit natural. |
| GoStrings.WrapInt64Identity | ftp.go:445 | Wrap-around leaves a value that already fits unchanged. |
| GoStrings.Delimited | ftp.go:403-405 | With delimiter-free surroundings, exactly the text between the delimiters is found. |
| ReplyLemmas.PasvReadsBetweenParentheses | ftp.go:420-427 | Only the text between the first "(" and the last ")" matters: it is split at commas and read as fields. |
| ReplyLemmas.PasvReadsFields | ftp.go:420-431 | Comma-free fields written between the parentheses are read back as exactly those fields. |
| ReplyLemmas.PasvPortFields | ftp.go:433-449 | With at least six fields and integers p1, p2 in the port fields, the host is the first four fields joined with "." and the port is p1 × 256 + p2, wrapped to 64 bits. Later fields are ignored. |
| ReplyLemmas.PasvByteFields | ftp.go:433-449 | With port bytes in 0..255 the port is p1 × 256 + p2 itself. |
| ReplyLemmas.PasvFirstPortNotInteger | ftp.go:433-437 | A fifth field that is empty, not a signed decimal, or out of 64-bit range gives that field's number error. |
| ReplyLemmas.PasvSecondPortNotInteger | ftp.go:439-442 | With a readable fifth field, such a sixth field gives its number error. |
| ReplyLemmas.PasvEmptyPortField | ftp.go:433-437 | An empty fifth field is a number error. |
| ReplyLemmas.PasvFromServerFields | ftp.go:433-449 | The six fields a server writes give back the dotted host and the port p1 × 256 + p2. |
| ReplyLemmas.PasvRoundTrip | ftp.go:419-449 | A complete 227 message round-trips to its host and port. |
| ReplyLemmas.PasvPortRoundTrip | ftp.go:444-445 | Every TCP port written as port / 256, port % 256 is read back as itself. |
| ReplyLemmas.PasvWithoutParenthesis | ftp.go:422-423 | A message missing "(" or ")" is the format error. |
| ReplyLemmas.PasvTooFewFields | ftp.go:429-431 | Fewer than six fields is the format error. |
| ReplyLemmas.PasvCloseBeforeOpenPanics | ftp.go:420-427 | A ")" before the only "(" reaches the unguarded slice, which panics. |
| ReplyLemmas.EpsvReadsBetweenDelimiters | ftp.go:403-409 | The port is `Atoi` of exactly the text between "|||" and the last "|". |
| ReplyLemmas.EpsvRoundTrip | ftp.go:403-409 | A 229 message written with a port gives back that port. |
| ReplyLemmas.EpsvWithoutDelimiter | ftp.go:405-406 | A message without "|||" is the format error. |
| ReplyLemmas.EpsvTrailingDelimiterPanics | ftp.go:403-408 | A message whose last "|" is the third of "|||" reaches the unguarded slice, which panics. |
| ReplyLemmas.EpsvEmptyPortPanics | ftp.go:403-408 | The 229 message "Entering Extended Passive Mode" with an empty port between its delimiters reaches that panic. |
| ReplyLemmas.PwdReadsQuotedPath | ftp.go:639-646 | The path is exactly the text between the first and the last double quote. |
| ReplyLemmas.PwdWithoutQuote | ftp.go:642-643 | A message without a double quote is the format error. |
| ReplyLemmas.PwdSingleQuotePanics | ftp.go:639-646 | A message with a single double quote reaches the unguarded slice, which panics. |
| ReplyLemmas.FeatureLineParts | ftp.go:350-358 | The name holds no space. When the trimmed line has a space, it is the name, one space and the parameters. Otherwise it is the name alone and the parameters are empty. |
| ReplyLemmas.AddFeatureEffect | ftp.go:346-360 | A line that does not start with a space leaves the table. Otherwise its name is added, holds its parameters, and every other entry is unchanged. |
| ReplyLemmas.FeatureKeys | ftp.go:344-361 | A name is in the table after the loop iff it was there before or some feature line names it. |
| ReplyLemmas.LastFeatureLineWins | ftp.go:345-361 | A feature line's parameters are what the table holds for its name, unless a later line names it again. |
| ReplyLemmas.FeatureUntouched | ftp.go:345-361 | An entry no feature line names keeps its value. |
| ReplyLemmas.KeptAfter | ftp.go:345-361 | An entry present after some lines survives all later lines that do not name it. |
| ReplyLemmas.AddFeatureOther | ftp.go:360 | One iteration leaves every other name's entry as it was. |
| ReplyLemmas.NoFeatureLines | ftp.go:346-348 | Lines that do not start with a space leave the table unchanged. |
| ReplyLemmas.TrimLeftSpace | ftp.go:350 | The leading space of a feature line is trimmed up to the name. |
| ReplyLemmas.SplitAfterWord | ftp.go:351 | A name without spaces followed by a space splits into the name and the rest. |
| ReplyLemmas.FeatureLineWithParams | ftp.go:346-358 | " NAME params" is a feature line with name NAME and parameters params. |
| ReplyLemmas.FeatureLineWithoutParams | ftp.go:346-358 | " NAME" is a feature line with name NAME and empty parameters. |
| ReplyLemmas.ParseLinesAppend | ftp.go:605-610 | The entries of two runs of lines are the entries of each, in order. |
| ReplyLemmas.ParsedEntriesFromLines | ftp.go:606-608 | Every entry comes from some line the parser accepted. |
| ReplyLemmas.AllLinesAccepted | ftp.go:605-610 | When the parser accepts every line, the entries are the parsed lines one for one, in order. |
| ReplyLemmas.RemovableAppend | ftp.go:798-799 | Filtering out "." and ".." keeps the order: the kept entries of two pieces are those of each, in order. |
| ReplyLemmas.RemovableSingle | ftp.go:799 | One entry is kept iff it is neither "." nor "..". |
| ProtocolLemmas.AuthSendsPassOnlyOnUserOK | ftp.go:267-285 | USER is sent, and PASS follows iff the reply to USER was 331. |
| ProtocolLemmas.AuthReturnsLastCode | ftp.go:267-285 | Auth succeeds iff USER (and PASS after a 331) get well-formed replies. The code returned is the last reply's, whatever it is. |
| ProtocolLemmas.FeatOutcome | ftp.go:332-364 | A failed FEAT leaves the table. A non-211 reply succeeds without changing it. A 211 adds the feature lines of its message. |
| ProtocolLemmas.SetUtf8Outcome | ftp.go:367-394 | Without UTF8 nothing is sent. With it, "OPTS UTF8 ON" is sent. The outcome is success iff the code is 200, 202, 501 or 504, and otherwise the server's text. |
| ProtocolLemmas.RenameSendsRntoOnlyAfterPending | ftp.go:764-772 | RNTO is sent iff RNFR got 350; Rename succeeds iff RNFR got 350 and RNTO got 250. |
| ProtocolLemmas.QuitAlwaysCloses | ftp.go:866-878 | The control connection is closed after QUIT, even when QUIT could not be written. No reply is read. The result is success iff both succeed; with both failing, both reasons are reported. |
| ProtocolLemmas.ResponseCloseFirst | ftp.go:887-898 | The first close closes the data connection and reads one reply. A reply other than 226 gives its error, which wins; otherwise the close error is returned. |
| ProtocolLemmas.ResponseCloseIdempotent | ftp.go:887-890 | A second close does nothing and returns no error. |
| ProtocolLemmas.DialNeedsGreeting | ftp.go:126-130 | Without a 220 greeting Dial fails and the session ends closed. |
| ProtocolLemmas.DialOutcome | ftp.go:126-141 | Dial succeeds iff the greeting is 220 and, with explicit TLS, AUTH TLS gets 234. The connection is upgraded after AUTH TLS. A failed AUTH TLS quits. |
| ProtocolLemmas.AfterFeatKeepsFlags | ftp.go:300-320 | After FEAT, the negotiation never changes the feature table or the flags. |
| ProtocolLemmas.AfterAuthFlags | ftp.go:293-298 | After AfterAuth, `mlstSupported` holds iff "MLST" was advertised and MLSD is not disabled. `usePRET` holds iff "PRET" was advertised. An already set flag stays set. |
| ProtocolLemmas.Utf8ErrorLostWithTls | ftp.go:306-320 | With TLS, an OPTS UTF8 ON refused with 550 is followed by PBSZ and PROT, and AfterAuth reports success. |
| ProtocolLemmas.Utf8ErrorKeptWithoutTls | ftp.go:306-320 | Without TLS, AfterAuth returns the outcome of setUTF8. |
| ProtocolLemmas.Utf8OutcomeReplacedWithTls | ftp.go:306-320 | With TLS and TYPE I accepted, the outcome is PBSZ 0 then PROT P after OPTS UTF8 ON, whatever that gave. |
| ProtocolLemmas.ProtectDataOutcome | ftp.go:311-318 | PBSZ 0 is sent first. PROT P is sent only after PBSZ 0 got 200. Success iff both got 200. With a broken connection nothing is sent and the write error is returned. |
| ProtocolLemmas.DataConnPortSends | ftp.go:454-465 | Negotiating a data port sends nothing, EPSV, PASV, or EPSV then PASV, and nothing else. |
| ProtocolLemmas.PasvOnlyOnceSkipped | ftp.go:455-464 | Once EPSV is disabled or skipped, only PASV is used and at most PASV is sent. |
| ProtocolLemmas.EpsvFailureIsSticky | ftp.go:455-462 | `skipEPSV` is set afterwards iff it was already set or an attempted EPSV failed with an error other than the slice panic. |
| ProtocolLemmas.EpsvPanicEscapes | ftp.go:455-462 | An EPSV that panics ends the negotiation with the panic: `skipEPSV` stays clear, only EPSV was sent, and opening the data connection stops there without a dial. |
| ProtocolLemmas.EpsvEmptyPortReplyPanics | ftp.go:403-464 | A 229 reply with an empty port between its delimiters gives the panic, with EPSV the only line sent and no dial outcome used. |
| ProtocolLemmas.EpsvGivesControlHost | ftp.go:455-457 | A successful EPSV gives the control connection's host and the port between the delimiters, and keeps EPSV in use. |
| ProtocolLemmas.OpenDataConnLog | ftp.go:468-488 | Opening adds exactly one open event, for the negotiated address, after the port negotiation; a failure adds none. |
| ProtocolLemmas.RestRefused | ftp.go:518-522 | A well-formed reply to REST other than 350 is the error, with that reply's code and message. |
| ProtocolLemmas.RestEvents | ftp.go:518-519 | The REST contribution to the log is empty iff the offset is 0, and otherwise one command line. |
| ProtocolLemmas.TransferSuccessOrder | ftp.go:513-542 | A successful transfer logs the port negotiation, the data connection opened, REST only for a non-zero offset, then the transfer command. |
| ProtocolLemmas.TransferNeedsPreliminaryReply | ftp.go:532-540 | Success iff the reply to the transfer command is 125 or 150. Any other code gives a protocol error with that code and message. |
| ProtocolLemmas.PretAcceptsAnyCode | ftp.go:506-511 | A well-formed reply to PRET, whatever its code, lets the transfer go on. |
| ProtocolLemmas.AfterPretLog | ftp.go:506-511 | PRET is sent only when used. A failed PRET ends the command before anything else is sent. |
| ProtocolLemmas.PretThenTransfer | ftp.go:503-516 | A successful command sends PRET, when used, before anything else. |
| ProtocolLemmas.SendTransferFailureCloses | ftp.go:518-540 | Every failure after the data connection opened sends only command lines and ends by closing it. |
| ProtocolLemmas.OpenDataConnOpened | ftp.go:513-516 | A successful open sends command lines and then opens one data connection. |
| ProtocolLemmas.OpenDataConnFailed | ftp.go:513-516 | A failed open only sends command lines. |
| ProtocolLemmas.TransferFailureCloses | ftp.go:513-540 | A transfer that fails after opening opens exactly then closes: command lines, one open, command lines, one close. |
| ProtocolLemmas.TransferFailureBeforeOpen | ftp.go:513-516 | When the open fails, the transfer fails and has only sent command lines. |
| ProtocolLemmas.TransferFailureShape | ftp.go:513-540 | A failed transfer has either never opened a data connection or opened and closed exactly one. |
| ProtocolLemmas.CmdDataConnFromFailureCloses | ftp.go:503-543 | A failed transfer command, PRET included, leaves no data connection open. |
| ProtocolLemmas.StorFromReads226 | ftp.go:705-733 | After the transfer opens, one reply is always read. The log gets a handshake only when nothing was copied and no copy error occurred on a handshaking connection, and then the close. |
| ProtocolLemmas.StorFromErrorPrecedence | ftp.go:715-733 | The reply error wins over the copy or handshake error, which wins over the close error. |
| ProtocolLemmas.StorFromNeedsTransfer | ftp.go:694-697 | When the transfer command fails, StorFrom returns that error and sends nothing more. |
| ProtocolLemmas.AppendReads226 | ftp.go:742-760 | After the transfer opens, the connection is closed and one reply always read. The reply error wins over the copy error, which wins over the close error. |
| ProtocolLemmas.ListOutcome | ftp.go:590-613 | Once the transfer is under way, every line goes through the parser of the format the server supports, the data connection is closed and one reply read. The scanner's error wins over a reply other than 226, which wins over the close error. |
| ProtocolLemmas.ListNeedsTransfer | ftp.go:590-593 | A transfer that cannot start gives no entries and its error. Nothing more is read. |
| ProtocolLemmas.ListLogWithoutPret | ftp.go:575-601 | Without PRET, the log is the port negotiation, the open, MLSD or LIST with the path, then the close. |
| ProtocolLemmas.NameListOutcome | ftp.go:551-570 | Once the transfer is under way, the lines are returned as read, the data connection is closed and one reply read. The scanner's error wins over a reply other than 226, which wins over the close error. |
| ProtocolLemmas.NameListNeedsTransfer | ftp.go:551-554 | A transfer that cannot start gives no lines and its error. |
| ProtocolLemmas.NameListLogWithoutPret | ftp.go:547-562 | Without PRET, the log is the port negotiation, the open, NLST with the path, then the close. |
| RemovalLemmas.RemoveDirRecurUnwritable | ftp.go:783-787 | With a broken control connection nothing is sent and the write error is returned. |
| RemovalLemmas.RemoveDirRecurStartsWithCwd | ftp.go:784 | The first line sent is CWD of the path. |
| RemovalLemmas.RemoveDirRecurCwdRefused | ftp.go:784-787 | A refused CWD returns its error and nothing more is sent. |
| RemovalLemmas.RemoveCurrentDirStartsWithPwd | ftp.go:788 | Inside the directory the first line sent is PWD. |
| RemovalLemmas.RemoveCurrentDirPwdFails | ftp.go:788-791 | A failed PWD ends the removal with its error. |
| RemovalLemmas.RemoveCurrentDirListFails | ftp.go:793-796 | A failed listing ends the removal with its error. |
| RemovalLemmas.RemoveCurrentDirLoopFails | ftp.go:798-812 | A failure while removing the entries ends the removal with that failure. Neither CDUP nor RMD is sent. |
| RemovalLemmas.LeaveAndRemoveCdupRefused | ftp.go:813-816 | A refused CDUP ends it with that error. Only CDUP was sent and RMD is not. |
| RemovalLemmas.LeaveAndRemoveLog | ftp.go:813-818 | Leaving and removing successfully sends CDUP then RMD of the directory, nothing else. |
| RemovalLemmas.RemoveCurrentDirEndsWithRmd | ftp.go:788-818 | A successful removal read its PWD and ends with CDUP then RMD of the PWD path. |
| RemovalLemmas.RemoveDirRecurEntered | ftp.go:784-787 | A successful removal passed its CWD, which sent exactly that line. |
| RemovalLemmas.RemoveDirRecurSucceeded | ftp.go:783-819 | A successful removal starts with CWD path then PWD and ends with CDUP then RMD of the PWD path. |
| RemovalLemmas.RemoveEntriesSkipsDots | ftp.go:798-799 | The loop does the same as over the listing with "." and ".." taken out. |
| RemovalLemmas.FolderStep | ftp.go:800-804 | A folder is removed by RemoveDirRecur of its path below the directory. The loop goes on iff that succeeded, and otherwise ends with its failure. |
| RemovalLemmas.FolderEntered | ftp.go:800-801 | The loop enters a folder with CWD to its path below the directory. |
| RemovalLemmas.DeleLines | ftp.go:806 | One DELE line per entry. |
| RemovalLemmas.DeletesStopAtFirstFailure | ftp.go:798-812 | Over plain files, DELE is sent for the entries in listing order. Every DELE but the last got 250. The loop succeeds iff all were sent and the last got 250; otherwise it stops at the first refusal. |
| RemovalLemmas.DeleteStep | ftp.go:805-809 | One DELE is sent and one reply read; the loop continues iff that reply is 250. |
| RemovalLemmas.DeleteOutcomeFirstFails | ftp.go:806-808 | A first DELE refused stops the loop after one line. |
| RemovalLemmas.DeleteOutcomeShift | ftp.go:798-812 | A first DELE accepted, followed by the outcome over the rest, is the outcome over the whole. |
| Client.ServerConn.Connected | ftp.go:119-124 | A connection starts with an empty feature table, all flags clear and nothing logged. |
| Client.ServerConn.Read | ftp.go:498 | The fields and the result are what `Protocol.Read` gives. |
| Client.ServerConn.Write | ftp.go:493 | The fields and the result are what `Protocol.Write` gives. |
| Client.ServerConn.Cmd | ftp.go:492-499 | The fields and the result are what `Protocol.Cmd` gives. |
| Client.ServerConn.Exec | ftp.go:492-499 | The fields and the result are what `Protocol.Exec` gives. |
| Client.ServerConn.Auth | ftp.go:267-285 | The fields are what `Protocol.Auth` gives. The code is its value, or 0 with its error. |
| Client.ServerConn.Feat | ftp.go:332-364 | The fields and the result are what `Protocol.Feat` gives. |
| Client.ServerConn.AddFeatureLines | ftp.go:344-361 | The loop leaves the feature table as `AddFeatures` of the lines, and every other field as it was. |
| Client.ServerConn.SetUtf8 | ftp.go:367-394 | The fields and the result are what `Protocol.SetUtf8` gives. |
| Client.ServerConn.AfterAuth | ftp.go:287-321 | The fields and the result are what `Protocol.AfterAuth` gives. |
| Client.ServerConn.AfterFeat | ftp.go:300-320 | The fields and the result are what `Protocol.AfterFeat` gives. |
| Client.ServerConn.Epsv | ftp.go:397-410 | The fields and the result are what `Protocol.Epsv` gives. |
| Client.ServerConn.Pasv | ftp.go:413-450 | The fields and the result are what `Protocol.Pasv` gives. |
| Client.ServerConn.DataConnPort | ftp.go:454-465 | The fields, `skipEPSV` included, and the result are what `Protocol.DataConnPort` gives. |
| Client.ServerConn.OpenDataConn | ftp.go:468-488 | The fields and the result are what `Protocol.OpenDataConn` gives. |
| Client.ServerConn.CloseData | ftp.go:521 | Exactly one close event is added. |
| Client.ServerConn.Rest | ftp.go:518-524 | The fields and the result are what `Protocol.Rest` gives. |
| Client.ServerConn.CmdDataConnFrom | ftp.go:503-543 | The fields and the result are what `Protocol.CmdDataConnFrom` gives. |
| Client.ServerConn.NameList | ftp.go:546-571 | The fields, the lines and the error are what `Protocol.NameList` gives. |
| Client.ServerConn.List | ftp.go:574-614 | The fields, the entries and the error are what `Protocol.List` gives. |
| Client.ServerConn.RetrFrom | ftp.go:671-678 | The fields are what `Protocol.RetrFrom` gives. On success a fresh, open response holds the data connection and this session; on failure there is no response and the error is returned. |
| Client.ServerConn.StorFrom | ftp.go:693-734 | The fields and the result are what `Protocol.StorFrom` gives. |
| Client.ServerConn.Append | ftp.go:741-761 | The fields and the result are what `Protocol.Append` gives. |
| Client.ServerConn.ChangeDir | ftp.go:618-621 | The fields and the result are what `Protocol.ChangeDir` gives. |
| Client.ServerConn.ChangeDirToParent | ftp.go:626-629 | The fields and the result are what `Protocol.ChangeDirToParent` gives. |
| Client.ServerConn.CurrentDir | ftp.go:633-647 | The fields and the result are what `Protocol.CurrentDir` gives. |
| Client.ServerConn.Delete | ftp.go:776-779 | The fields and the result are what `Protocol.Delete` gives. |
| Client.ServerConn.RemoveDir | ftp.go:830-833 | The fields and the result are what `Protocol.RemoveDir` gives. |
| Client.ServerConn.Rename | ftp.go:764-772 | The fields and the result are what `Protocol.Rename` gives. |
| Client.ServerConn.RemoveDirRecur | ftp.go:783-819 | The fields and the result are what `Protocol.RemoveDirRecur` gives. |
| Client.ServerConn.RemoveEntries | ftp.go:798-812 | The loop's fields and result are what `Protocol.RemoveEntries` gives. |
| Client.ServerConn.Walk | ftp.go:836-848 | The walker descends from a root ending in "/": the given root when it already did, otherwise that root with "/" appended. |
| Client.ServerConn.Quit | ftp.go:866-878 | The fields and the result are what `Protocol.Quit` gives. |
| Client.ServerConn.Dial | ftp.go:82-142 | A fresh session over the given environment, whose fields and result are what `Protocol.Dial` gives. |
| Client.Response.constructor | ftp.go:556 | A response holds its data connection and session and starts open. |
| Client.Response.Close | ftp.go:887-898 | The response is closed afterwards, and the session fields, `closed` and the error are what `Protocol.ResponseClose` gives. |

## Left out

- Networking and TLS are not modelled: dialling the control connection,
  `tls.DialWithDialer`, `tls.Client` and `DialContext` (ftp.go:96-108,
  137), and the dial branches of `openDataConn` (ftp.go:474-487). Dial
  takes the outcome of establishing the control connection as a parameter.
  The choice of source is `Protocol.ControlSource`. Data connections are
  scripted dial outcomes. The TLS upgrade is an event.
- textproto's framing of multi-line replies and its `Cmd`/`ReadResponse`
  internals are not modelled. Replies arrive already parsed as a code and a
  message, or a transport failure. A script that runs out reads as a
  transport failure ("EOF").
- textproto's rule that any `expected` of 0 or below disables the code check
  is reduced to the one value the client passes, -1 (`Status.AnyCode`).
- The control connection's write side is either healthy or broken for the
  whole session (`Env.writeError`); a connection that breaks midway is
  modelled only through a broken reply.
- `bufio.Scanner` line splitting and `io.Copy` are not modelled. A data
  connection gives its lines and read error directly, and an upload gives
  its (bytes written, error) outcome (`CopyOutcome`).
- The listing parsers `parseListLine` and `parseRFC3659ListLine` are not
  part of this model. They are a parameter (`Env.parseLine`) that accepts or
  rejects each line. Entry timestamps are not modelled.
- The `Walker` traversal and `newDebugWrapper` are not part of this model.
  `Walk` builds only the walker's root and `descend` flag.
- Time, locations, contexts and `Response.SetDeadline` are left out: they
  carry no logic the client states.
- The `DialWith*` option closures (ftp.go:144-244), `Connect` and
  `DialTimeout` are left out; the options are the immutable record
  `Protocol.Options`, with presence flags for the connection, dial function
  and TLS configuration.
- `ServerConn` is not safe for concurrent use (ftp.go:31-32), so
  concurrency is not modelled.
- `MakeDir`, `NoOp`, `Logout`, `FileSize`, `Retr`, `Stor` and
  `Response.Read` are not modelled. The first three are a single `cmd`
  shaped like `Delete`. `Retr` and `Stor` are `RetrFrom` and `StorFrom` at
  offset 0. `FileSize` needs `strconv.ParseInt`, and `Response.Read` is a
  byte read from the data connection.
- GoStrings.Atoi: Go's syntax and range errors are one `NumError`; the
  error's kind is not distinguished.
- Protocol.Dial: when the greeting or AUTH TLS fails, the model returns
  the session it quit, where the source returns nil.
- Protocol.CloseData, Client.ServerConn.CloseData: the error of closing a
  data connection is carried by the data connection
  (`DataConn.closeError`) and does not change the session.
- Protocol.Auth, Protocol.AfterAuth, Protocol.AfterFeat,
  Protocol.ProtectData, Protocol.NameList, Protocol.List,
  Protocol.RetrFrom, Protocol.UploadError, Protocol.StorFrom,
  Protocol.Append, Protocol.ChangeDirToParent, Protocol.Delete,
  Protocol.RemoveDir, Protocol.Rename, Protocol.Quit, Protocol.Dial and the
  removal functions: their own contracts state only the invariant
  `Protocol.Advances`. Their behaviour is stated by the lemmas named in
  their rows.
- Protocol.Advances bounds how many replies and dial outcomes are left; it
  does not state that those left are a suffix of those before. The lemmas
  that matter state the replies left exactly (`Drop` of the replies).
- RemovalLemmas.DeletesStopAtFirstFailure: the full DELE log is stated for
  listings of plain files only. With folders, each step is stated by
  `FolderStep` and `FolderEntered`, and a failure inside a folder by
  `FolderStep` and `RemoveCurrentDirLoopFails`; there is no closed form of
  the log of a whole tree.
- Replies.EntryTypeName: Go indexes a three-name array with the type, which
  would panic for a value outside 0..2. The model's `EntryType` has exactly
  three values, so that panic cannot be expressed.
