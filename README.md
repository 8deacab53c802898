# A POP3 client, modelled in Dafny

The client is a desktop mail reader in two halves.

- The backend is in Rust. It holds at most one POP3 connection (RFC 1939), writes the commands USER, PASS, STAT, LIST, RETR and QUIT, and reads the server's replies with a byte-level parser.
- The front end is in TypeScript and React. It drives the backend commands from a login form and a mail list. It records every exchange in a console transcript, and a lost connection forces a logout with a snackbar notice.

This project models both halves and proves properties of the model.

- **Bytes** (`bytes.dfy`): octets, CRLF search, leading-blank trimming and decimal numerals, with the numeral round trip.
- **Pop3Parser** (`pop3_parser.dfy`): the response parser.
  - Every parser returns the unconsumed input and a value, or fails, as nom's `IResult` does.
  - The two loops `get_list_result` and `get_retr_result` are methods with `while` loops, proved equal to recursive specification functions.
- **Pop3ParserProofs** (`pop3_parser_proofs.dfy`): an independent encoder of the wire format.
  - Every well-formed response it produces parses back exactly. That covers status lines, STAT, `LIST <id>`, LIST, and RETR with dot-stuffing.
  - Malformed and truncated responses are parse errors.
- **Pop3ParserExamples** (`pop3_parser_examples.dfy`): the `get_line` unit-test cases, checked against the model.
- **Pop3Client** (`pop3_client.dfy`):
  - The `Msg` command buffer as a class. Each builder clears the buffer and writes one line, and every line reads back as its command.
  - The `host:port` split of `Pop3::new`, with Rust's `u16` parse.
  - Connecting, and reading the answer to `list`.
- **Backend** (`backend.dfy`): the session table of `main.rs`, in two forms.
  - A state machine with lemmas over runs of commands.
  - A `Session` class whose methods are proved against that machine. They record every command line that reaches a connection in a ghost `wire` log.
  - The echo commands.
- **ErrorCheck** (`check_error.dfy`): `checkError` over the rejection values the front end can see.
- **SnackState**, **ConsoleState**, **LoginPage**, **MailListPage** and **ConsolePanel**: the front end's containers and handlers, as classes.
  - Each class has a `Snapshot()` or `View()` of its state.
  - Each handler method is proved equal to a pure step function on that view. The lemmas are stated on the step functions.

What the network answers is a parameter throughout: the reply bytes, or an I/O error. The same goes for what a backend command gives the front end.

## Model

| member | source | states |
|---|---|---|
| Bytes.FindCrlf | src-tauri/src/pop3.rs:56 | `take_until("\r\n")`: the position found holds CRLF and no CRLF starts before it; with no result there is no CRLF at all |
| Bytes.FindCrlfAfter | src-tauri/src/pop3.rs:56 | the first CRLF of `text CRLF rest` is the one after a CRLF-free `text` |
| Bytes.SplitAtFirstCrlf | src-tauri/src/pop3.rs:56 | the text before the first CRLF holds none, and the buffer is that text, CRLF, the rest |
| Bytes.SkipSpace | src-tauri/src/pop3.rs:57 | `space0`: the result is a suffix of the input, every byte dropped is a space or tab, and the result does not start with one |
| Bytes.DigitRun | src-tauri/src/pop3.rs:294 | `digit1`'s extent: a maximal run of ASCII digits at the start |
| Bytes.Decimal | src-tauri/src/pop3.rs:497 | the `{}` numeral of a number is non-empty, all digits and without a leading zero |
| Bytes.DecimalRoundTrip | src-tauri/src/pop3.rs:229-236 | reading back a formatted number (`parse::<u64>` of `digit1`) gives the number |
| Bytes.DecimalInjective | src-tauri/src/pop3.rs:497 | distinct numbers have distinct numerals |
| Pop3Parser.IsOk | src-tauri/src/pop3.rs:32-36 | `is_ok` succeeds exactly on input starting with `+OK` or `-ERR`, and what it leaves is the input after that indicator |
| Pop3Parser.GetStatusLine | src-tauri/src/pop3.rs:52-76 | a parsed status line consumes at least its CRLF and leaves a suffix of the input |
| Pop3Parser.GetLine | src-tauri/src/pop3.rs:131-138 | a parsed line consumes at least its CRLF and leaves a suffix of the input |
| Pop3Parser.GetLineWithCrlf | src-tauri/src/pop3.rs:140-148 | as `get_line`, a parsed line consumes at least its CRLF |
| Pop3Parser.GetListResult | src-tauri/src/pop3.rs:316-334 | the listing loop returns what the recursive `ListResponse` specifies: listings up to the terminator, in order, or a parse error |
| Pop3Parser.GetRetrResult | src-tauri/src/pop3.rs:434-451 | the mail loop returns what the recursive `RetrResponse` specifies: the concatenated unstuffed lines, or a parse error |
| Pop3Parser.ParseList | src-tauri/src/pop3.rs:349-358 | `parse_list` settles the listing: `+OK` gives the listings, `-ERR` the server's text, anything malformed a parse error |
| Pop3Parser.ParseRetrResult | src-tauri/src/pop3.rs:453-460 | `parse_retr_result` settles the RETR reply the same way |
| Pop3Parser.PrependPrepend | src-tauri/src/pop3.rs:323-327 | accumulating in two steps is accumulating once, the fact the loops rely on |
| Pop3ParserProofs.IsOkRoundTrip | src-tauri/src/pop3.rs:32-50 | each indicator is recognised as itself and leaves exactly what follows it |
| Pop3ParserProofs.StatusLineRoundTrip | src-tauri/src/pop3.rs:52-76 | an encoded status line parses back to its indicator and its text, trimmed only when that indicator's flag is set, leaving what follows |
| Pop3ParserProofs.StatusLineComplete | src-tauri/src/pop3.rs:52-76 | whatever `get_status_line` accepts is an indicator, a CRLF-free text and CRLF, and the value reported is that text |
| Pop3ParserProofs.StatusLineFailsExactly | src-tauri/src/pop3.rs:52-76 | `get_status_line` fails exactly on input that does not start with a status line, whatever the trim flags |
| Pop3ParserProofs.ParseStatusLineCases | src-tauri/src/pop3.rs:78-85 | `parse_status_line` gives a parse error exactly for malformed input, the trimmed text for `+OK` and that text as the server's error for `-ERR` |
| Pop3ParserProofs.NegativeReplies | src-tauri/src/pop3.rs:224-242 | a `-ERR` line answers STAT, `LIST <id>`, LIST and RETR alike with its trimmed text, consuming only that line |
| Pop3ParserProofs.GetLineRoundTrip | src-tauri/src/pop3.rs:131-148 | a dot-stuffed line reads back as the original line, without and with its CRLF |
| Pop3ParserProofs.TerminatorLine | src-tauri/src/pop3.rs:131-148 | the lone `.` line is the terminator for both line readers and consumes nothing after it |
| Pop3ParserProofs.GetLineComplete | src-tauri/src/pop3.rs:131-138 | what `get_line` accepts is the terminator, a line sent as is, or a line with one `.` put in front |
| Pop3ParserProofs.GetLinePlain | src-tauri/src/pop3.rs:131-138 | input not starting with `.` yields a line, the input up to its first CRLF |
| Pop3ParserProofs.GetLineTerminator | src-tauri/src/pop3.rs:131-138 | `get_line` reports the terminator only for input starting with `.` CRLF |
| Pop3ParserProofs.GetLineDotted | src-tauri/src/pop3.rs:131-138 | a line read after a leading `.` is non-empty and is what followed that dot |
| Pop3ParserProofs.MailLinesRoundTrip | src-tauri/src/pop3.rs:434-451 | the unstuffed lines of a stuffed body ended by the terminator are the body, each line with its CRLF |
| Pop3ParserProofs.RetrRoundTrip | src-tauri/src/pop3.rs:434-451 | a RETR reply with a dot-stuffed message reads back as the message and the trimmed status text |
| Pop3ParserProofs.MailLinesNeedTerminator | src-tauri/src/pop3.rs:434-451 | a body cut off before its terminator line is a parse error |
| Pop3ParserProofs.DigitRunOfNumeral | src-tauri/src/pop3.rs:294 | `digit1` takes exactly the digits when no digit follows them |
| Pop3ParserProofs.Digit1RoundTrip | src-tauri/src/pop3.rs:294-302 | `digit1` reads back a formatted number and leaves what follows it |
| Pop3ParserProofs.ScanListingRoundTrip | src-tauri/src/pop3.rs:292-303 | `get_scan_listing` reads back `id SP size` and leaves the text after it |
| Pop3ParserProofs.ScanListingNeedsSpace | src-tauri/src/pop3.rs:292-303 | a number followed by anything but a space or a digit is not a scan listing |
| Pop3ParserProofs.ListingLineShape | src-tauri/src/pop3.rs:316-334 | a listing line holds no CRLF and is never dot-stuffed |
| Pop3ParserProofs.ScanLinesStep | src-tauri/src/pop3.rs:322-329 | one listing line contributes its listing and the loop goes on with the next line |
| Pop3ParserProofs.ScanLinesRoundTrip | src-tauri/src/pop3.rs:316-334 | the listing lines up to the terminator give back the listings in server order, the text after each discarded |
| Pop3ParserProofs.ListRoundTrip | src-tauri/src/pop3.rs:316-334 | a LIST reply reads back as its listings and its trimmed status text |
| Pop3ParserProofs.ScanLinesNeedTerminator | src-tauri/src/pop3.rs:316-334 | a listing cut off before its terminator line is a parse error |
| Pop3ParserProofs.StatFieldsAfterSpace | src-tauri/src/pop3.rs:228-229 | the STAT figures are one space and then a scan listing |
| Pop3ParserProofs.StatFieldsRoundTrip | src-tauri/src/pop3.rs:228-229 | the STAT figures read back as the two numbers, with the text after them kept |
| Pop3ParserProofs.StatRoundTrip | src-tauri/src/pop3.rs:224-242 | a STAT reply ` count size text` reads back as the two numbers and the text verbatim |
| Pop3ParserProofs.StatNeedsSpaceThenDigit | src-tauri/src/pop3.rs:224-242 | STAT text is not trimmed: anything but one space and a digit after `+OK` is a parse error |
| Pop3ParserProofs.SkipSpaceLead | src-tauri/src/pop3.rs:57 | trimming removes exactly the leading blanks |
| Pop3ParserProofs.SpacesHaveNoCrlf | src-tauri/src/pop3.rs:57 | a run of blanks holds no CRLF |
| Pop3ParserProofs.SingleListRoundTrip | src-tauri/src/pop3.rs:305-314 | a `LIST <id>` reply reads back as its listing after any leading blanks, with the text after it |
| Pop3ParserProofs.SingleListNeedsTwoNumbers | src-tauri/src/pop3.rs:305-314 | a `LIST <id>` reply holding a lone number is a parse error |
| Pop3ParserExamples.GetLineNeedsCrlf | src-tauri/src/pop3.rs:150-186 | `abcd 1234` alone, or followed by a lone CR or LF, is not a line |
| Pop3ParserExamples.GetLinePlainExample | src-tauri/src/pop3.rs:150-186 | `abcd 1234` CRLF is the line `abcd 1234`, leaving nothing, or leaving what follows it |
| Pop3ParserExamples.GetLineOneDotExample | src-tauri/src/pop3.rs:150-186 | `.abcd 1234` CRLF gives the line `abcd 1234` |
| Pop3ParserExamples.GetLineStuffedExample | src-tauri/src/pop3.rs:150-186 | `..abcd 1234` CRLF gives the line `.abcd 1234` |
| Pop3ParserExamples.GetLineDotExample | src-tauri/src/pop3.rs:150-186 | `..` CRLF gives the line `.` |
| Pop3ParserExamples.GetLineEmptyExample | src-tauri/src/pop3.rs:150-186 | a bare CRLF gives the empty line |
| Pop3ParserExamples.GetLineTerminatorExample | src-tauri/src/pop3.rs:150-186 | `.` CRLF is the terminator |
| Pop3Client.Msg.constructor | src-tauri/src/pop3.rs:468-472 | a new buffer is empty (the capacity of 27 is only a hint) |
| Pop3Client.Msg.User | src-tauri/src/pop3.rs:479-482 | the buffer is cleared and then holds exactly `USER name` CRLF |
| Pop3Client.Msg.Pass | src-tauri/src/pop3.rs:484-487 | the buffer holds exactly `PASS secret` CRLF |
| Pop3Client.Msg.Stat | src-tauri/src/pop3.rs:489-492 | the buffer holds exactly `STAT` CRLF |
| Pop3Client.Msg.List | src-tauri/src/pop3.rs:494-501 | the buffer holds `LIST id` CRLF with an id, `LIST` CRLF without |
| Pop3Client.Msg.Retr | src-tauri/src/pop3.rs:503-506 | the buffer holds exactly `RETR n` CRLF |
| Pop3Client.Msg.Quit | src-tauri/src/pop3.rs:508-511 | the buffer holds exactly `QUIT` CRLF |
| Pop3Client.LineParts | src-tauri/src/pop3.rs:479-511 | every command line is its keyword, then nothing or a space and the argument, then CRLF |
| Pop3Client.ReadCommandRoundTrip | src-tauri/src/pop3.rs:479-511 | every command line a server reads back is the command written |
| Pop3Client.LineInjective | src-tauri/src/pop3.rs:479-511 | different commands are written as different lines |
| Pop3Client.LineIsOneLine | src-tauri/src/pop3.rs:479-511 | a command whose argument holds no line break is exactly one line, its only CRLF the final one |
| Pop3Client.TailHasNoCrlf | src-tauri/src/pop3.rs:479-511 | the text after a keyword holds no CRLF when the argument holds none |
| Pop3Client.NameCanInjectLines | src-tauri/src/pop3.rs:479-482 | nothing is escaped: a user name holding CRLF ends the USER line early, so what follows reaches the server as a line of its own |
| Pop3Client.ParseU16 | src-tauri/src/pop3.rs:534 | `parse::<u16>` accepts only values below 65536, and reports `Empty` exactly for empty text |
| Pop3Client.U16Digits | src-tauri/src/pop3.rs:534 | the digit loop only yields values below 65536 from all-digit text |
| Pop3Client.U16DigitsSplit | src-tauri/src/pop3.rs:534 | reading the digits of `a + b` is reading `a`, then going on with `b` |
| Pop3Client.U16DigitsOfDecimal | src-tauri/src/pop3.rs:534 | a formatted number reads back as itself exactly when it fits in 16 bits, else overflows |
| Pop3Client.ParseU16RoundTrip | src-tauri/src/pop3.rs:534 | a port numeral, with or without `+`, parses back to the port exactly when below 65536, else reports overflow |
| Pop3Client.ParseU16RejectsNonDigits | src-tauri/src/pop3.rs:534 | port text with anything but digits after an optional `+` is refused |
| Pop3Client.LastColon | src-tauri/src/pop3.rs:531-533 | `rsplit_once(":")`: the position found holds `:` and none follows; with none found the text holds no `:` |
| Pop3Client.LastColonIs | src-tauri/src/pop3.rs:531-533 | the last `:` is found wherever it is |
| Pop3Client.SplitAddrRoundTrip | src-tauri/src/pop3.rs:531-535 | `domain:port` splits into the domain (which may hold `:`) and the port |
| Pop3Client.SplitAddrDefault | src-tauri/src/pop3.rs:531-535 | an address without `:` is all domain, with port 995 under TLS and 110 without |
| Pop3Client.Pop3New | src-tauri/src/pop3.rs:530-553 | a connection is made exactly when the port after the last `:` parses as a u16 (or is the default), dialling succeeds and the greeting parses as `+OK`; it goes to the domain and port of the split, with the requested TLS flag, and the greeting text is returned |
| Pop3Client.BadPortNeverDials | src-tauri/src/pop3.rs:530-536 | a bad port fails with the parse error before anything is dialled, whatever dialling would give |
| Pop3Client.ListReplyRoundTrip | src-tauri/src/pop3.rs:605-616 | an encoded `LIST <id>` reply reads back as its one listing, and an encoded multi-line reply as its listings in order with the trimmed text |
| Pop3Client.ReadListReply | src-tauri/src/pop3.rs:605-616 | `list(Some id)` reads the single-line answer as a list of exactly one listing; `list(None)` reads the multi-line listing |
| Backend.Answer | src-tauri/src/pop3.rs:584-603 | an I/O error is passed on as it is; otherwise the command succeeds exactly when its parser accepts the reply |
| Backend.Next | src-tauri/src/main.rs:69-161 | no command writes `name` or `pass`; a successful `connect` installs the endpoint `Pop3::new` opened and writes `addr`, a failed one leaves no connection and `addr` as it was; `quit` always drops the connection; every other command leaves the state as it is |
| Backend.Wire | src-tauri/src/pop3.rs:555-559 | a command writes nothing without a connection, and one line to the current connection otherwise |
| Backend.CredentialsNeverWritten | src-tauri/src/main.rs:61-67 | over any run of commands `name` and `pass` keep their values |
| Backend.RunSnoc | src-tauri/src/main.rs:69-161 | a run with one more command is one more step |
| Backend.AddrIsLastConnected | src-tauri/src/main.rs:80-82 | after any run `addr` is the address of the last connect that succeeded |
| Backend.DisconnectedRunIsInert | src-tauri/src/main.rs:87-150 | without a connection, every command but `connect` changes nothing |
| Backend.Session.constructor | src-tauri/src/main.rs:61-67 | `State::default()`: no connection, empty texts, nothing written |
| Backend.Session.Connect | src-tauri/src/main.rs:69-85 | the old connection, if any, is taken and sent QUIT, with its answer ignored; the new state is `Next`'s; the result is the greeting or the failure of `Pop3::new` |
| Backend.Session.User | src-tauri/src/main.rs:87-97 | without a connection: "no pop3 server connection" and nothing sent; otherwise `USER name` goes to the connection and the reply is read as a status line |
| Backend.Session.Pass | src-tauri/src/main.rs:99-109 | as `user`, with `PASS secret` |
| Backend.Session.Stat | src-tauri/src/main.rs:111-121 | as `user`, with `STAT`, the reply read by `parse_stat` |
| Backend.Session.List | src-tauri/src/main.rs:123-136 | as `user`, with `LIST [id]`, the reply read as `Pop3::list` reads it |
| Backend.Session.Retr | src-tauri/src/main.rs:138-150 | as `user`, with `RETR n`, the reply read by `parse_retr_result` |
| Backend.Session.Quit | src-tauri/src/main.rs:152-161 | the connection is taken out before QUIT is sent, so it is gone whatever the server answers |
| Backend.ReadListAnswer | src-tauri/src/pop3.rs:605-616 | the LIST reply as `list` hands it on, an I/O error or the parse failure included |
| Backend.ReadRetrAnswer | src-tauri/src/pop3.rs:618-623 | the RETR reply as `retr` hands it on, an I/O error or the parse failure included |
| Backend.UserMsg | src-tauri/src/main.rs:18-23 | the echo of `user` is exactly the USER line a fresh `Msg` holds |
| Backend.PassMsg | src-tauri/src/main.rs:25-30 | the echo of `pass` is exactly the PASS line, secret included |
| Backend.StatMsg | src-tauri/src/main.rs:32-37 | the echo of `stat` is the STAT line |
| Backend.ListMsg | src-tauri/src/main.rs:39-44 | the echo of `list` is the LIST line for that id |
| Backend.RetrMsg | src-tauri/src/main.rs:46-51 | the echo of `retr` is the RETR line for that id |
| Backend.QuitMsg | src-tauri/src/main.rs:53-58 | the echo of `quit` is the QUIT line |
| ErrorCheck.CheckError | src/utils/checkError.ts:1-7 | the handler runs exactly for an object with a string `msg`, and with that `msg`; `null` or `undefined` throws; anything else gets only a diagnostic |
| ErrorCheck.HandlerCalls | src/utils/checkError.ts:1-7 | the handler is called at most once, once exactly when there is a string `msg`, and only with that `msg` |
| ErrorCheck.BackendRejectionHandled | src-tauri/src/error.rs:4-14 | a backend rejection `{ msg }` always reaches the handler, with its text unchanged |
| SnackState.LastShowWins | src/states/SnackState.ts:14-21 | there is one slot: showing overwrites what an earlier show or a close left |
| SnackState.CloseIdempotent | src/states/SnackState.ts:11-21 | closing twice is closing once, and closing after a show keeps the message |
| SnackState.Snack.constructor | src/states/SnackState.ts:7-9 | the snackbar starts closed, empty, at `info` |
| SnackState.Snack.ShowMessage | src/states/SnackState.ts:14-21 | the snackbar opens with the message, the severity defaulting to `info` |
| SnackState.Snack.CloseMessage | src/states/SnackState.ts:11-13 | only `open` changes |
| ConsoleState.Complete | src/states/ConsoleState.ts:20-28 | every given field wins over the defaults `other`, `info` and the empty text |
| ConsoleState.CompleteFull | src/states/ConsoleState.ts:20-28 | given every field, the defaults play no part |
| ConsoleState.Entries | src/states/ConsoleState.ts:41-70 | `logError` appends at most one entry, and one exactly when it logs |
| ConsoleState.StringErrorVerbatim | src/states/ConsoleState.ts:43-48 | a string error is logged verbatim under the given type, even when it is the sentinel text |
| ConsoleState.LogoutExactlyOnSentinel | src/states/ConsoleState.ts:50-58 | the logout happens exactly for an object whose `msg` is "connection closed by remote", and its entry is a network error whatever type was passed |
| ConsoleState.OtherErrorsKeepType | src/states/ConsoleState.ts:41-70 | every other error with a text is logged once, as an error of the given type carrying that text |
| ConsoleState.SilentExactlyWithoutText | src/states/ConsoleState.ts:41-70 | nothing is logged exactly when the error carries no text, and it throws exactly for `null` or `undefined` |
| ConsoleState.Append | src/states/ConsoleState.ts:20-28 | one entry more at the end, and nothing else in the view changes |
| ConsoleState.AfterErrorEffect | src/states/ConsoleState.ts:41-70 | `logError` appends what the report says, clears the login only on the sentinel, never touches the address or the user name, and leaves the snackbar alone otherwise |
| ConsoleState.LoginState.constructor | src/states/LoginState.ts:4-8 | logged out, with empty address and user name |
| ConsoleState.Console.constructor | src/states/ConsoleState.ts:19 | an empty transcript |
| ConsoleState.Console.AppendMsg | src/states/ConsoleState.ts:20-28 | the transcript gains exactly one entry, the partial message over the defaults, with every earlier entry kept in order |
| ConsoleState.Console.LogInfo | src/states/ConsoleState.ts:30-39 | one `info` entry of the given type and text is appended |
| ConsoleState.Console.LogError | src/states/ConsoleState.ts:41-70 | the new view is `AfterError` of the old one; it throws exactly when `checkError` throws |
| LoginPage.FailedStep | src/components/Login.tsx:66-115 | no step fails exactly when connect, USER and PASS all succeed |
| LoginPage.Stars | src/components/Login.tsx:102 | `"*".repeat(n)` is `n` asterisks |
| LoginPage.Utf16Length | src/components/Login.tsx:102 | `password.length` counts UTF-16 code units |
| LoginPage.Utf16LengthBounds | src/components/Login.tsx:102 | a string has between one and two code units per character, and one per character when all lie in the Basic Multilingual Plane |
| LoginPage.MaskOnlyShowsLength | src/components/Login.tsx:102 | the logged PASS line is the same for two passwords exactly when they have the same `length` |
| LoginPage.MaskOfAstralCharacter | src/components/Login.tsx:102 | the password "a😀" is logged as `PASS ***`: one star per code unit, not per character |
| LoginPage.SubmitSucceeds | src/components/Login.tsx:66-115 | on success the session is committed with the submitted address and user name, and the transcript gains exactly the five entries, in order |
| LoginPage.SubmitAborts | src/components/Login.tsx:66-115 | a failure stops at its step: no later step logs, address and user name are not written, any message goes to that step's field, and `logError` reports the error |
| LoginPage.LoginExactlyOnSuccess | src/components/Login.tsx:66-115 | starting logged out, a submit logs in exactly when all three steps succeed |
| LoginPage.LoginForm.constructor | src/components/Login.tsx:33-38 | the form starts with no field errors |
| LoginPage.LoginForm.Catch | src/components/Login.tsx:74-79 | a `catch` block: `checkError` attaches the message to the step's field, or throws, and then `logError` runs |
| LoginPage.LoginForm.HandleSubmit | src/components/Login.tsx:66-115 | the handler's new state and exception are those of `Submit` |
| LoginPage.LoginForm.SendUser | src/components/Login.tsx:82-95 | the USER step and what follows it, as `SubmitUser` |
| LoginPage.LoginForm.SendPass | src/components/Login.tsx:97-114 | the PASS step and the commit, as `SubmitPass` |
| MailListPage.AsText | src/components/MailList.tsx:256 | ASCII bytes become the characters with the same codes |
| MailListPage.NatTextShape | src/components/MailList.tsx:256 | `${n}` is never empty and holds no space |
| MailListPage.SplitAtSpace | src/components/MailList.tsx:256 | texts joined by a space split back at the first space |
| MailListPage.StatTextReadBack | src/components/MailList.tsx:256 | the logged STAT line `num bytes msg` determines the two counts and the text |
| MailListPage.JoinTerminated | src/components/MailList.tsx:271-275 | joining with CRLF and adding one more CRLF ends every line with CRLF |
| MailListPage.ListingEntries | src/components/MailList.tsx:271-273 | each listing is shown as `index bytes`, in order |
| MailListPage.ListingTextIsMultiLine | src/components/MailList.tsx:271-275 | with listings, the logged text is the status text, one listing per line and the dot line |
| MailListPage.EmptyListingText | src/components/MailList.tsx:271-275 | an empty maildrop is logged with a blank line before the dot line, which the server did not send |
| MailListPage.Infos | src/components/MailList.tsx:276 | the mail list holds the listings, in order |
| MailListPage.StatStepEffect | src/components/MailList.tsx:247-262 | the echo comes first on both paths, followed by the counts line on success or the error entry on failure; the list, the shown mail and the spinner are untouched; only a `null` or `undefined` rejection throws |
| MailListPage.ListStepEffect | src/components/MailList.tsx:264-283 | on success the mail list is replaced and the transcript gains the echo then the response; on failure the list is kept and the echo precedes the error entry; `fetching` ends false unless the rejection was `null` or `undefined` |
| MailListPage.RetrStepEffect | src/components/MailList.tsx:381-396 | a click shows the new mail only on success; the echo is logged first, then the response or the error entry; only a `null`/`undefined` rejection throws |
| MailListPage.LogoutStepEffect | src/components/MailList.tsx:329-337 | the QUIT echo is logged, then the server's text or the error entry; logout follows a successful QUIT, and after a failure only the sentinel error; only a `null`/`undefined` rejection throws |
| MailListPage.Partition | src/components/MailList.tsx:77-93 | the loop sorts the parts into the HTML, text and binary lists that `Htmls`, `Texts` and `Bins` specify |
| MailListPage.PartitionSizes | src/components/MailList.tsx:77-93 | no part is lost or counted twice |
| MailListPage.PartitionConcat | src/components/MailList.tsx:77-93 | sorting a concatenation is sorting each piece, so the order of the parts of one kind is kept |
| MailListPage.MailList.constructor | src/components/MailList.tsx:243-245 | the page opens with no mail shown, an empty list and the spinner on |
| MailListPage.MailList.StatEffect | src/components/MailList.tsx:247-262 | the STAT effect, as `StatStep`, whose effect `StatStepEffect` states: the echo, then the counts line or the error |
| MailListPage.MailList.ListEffect | src/components/MailList.tsx:264-283 | the LIST effect, as `ListStep` |
| MailListPage.MailList.RetrClick | src/components/MailList.tsx:381-396 | a click on a mail, as `RetrStep` |
| MailListPage.MailList.LogoutClick | src/components/MailList.tsx:329-337 | the logout button, as `LogoutStep` |
| ConsolePanel.Render | src/components/Console.tsx:15-51 | every entry is drawn with its text; commands after `C: `, responses in the response style, network entries unprefixed and in the error style exactly at level error, plain entries with no prefix |
| ConsolePanel.RenderIdentifies | src/components/Console.tsx:15-51 | two entries look alike exactly when their type and text match and, where the level shows, both or neither are errors |
| ConsolePanel.ResponsePrefix | src/components/Console.tsx:34-45 | a response is prefixed `S: +ERR ` when it is an error and `S: +OK ` otherwise |
| ConsolePanel.Moves | src/components/Console.tsx:62-70 | one move event per sample, in order |
| ConsolePanel.DragSum | src/components/Console.tsx:62-70 | over a drag the height changes by the start position minus the last sample, so dropped samples do not change where the drag ends |
| ConsolePanel.ClosedIgnoresMoves | src/components/Console.tsx:176-183 | while the panel is closed no move changes anything |
| ConsolePanel.ToggleTwice | src/components/Console.tsx:184-186 | toggling flips `close` and keeps the height, and toggling twice restores the panel |
| ConsolePanel.ReopenKeepsHeight | src/components/Console.tsx:203-204 | closing collapses the box, and reopening shows it at the height and padding it had |
| ConsolePanel.Console.constructor | src/components/Console.tsx:152-155 | the panel opens at its initial height, not dragging |
| ConsolePanel.Console.OnMouseDown | src/components/Console.tsx:135-142 | a press on the divider starts a drag at that position, only while the panel is open |
| ConsolePanel.Console.OnMouseMove | src/components/Console.tsx:62-70 | a move during a drag of the open panel grows the height by how far the pointer rose, and moves the anchor |
| ConsolePanel.Console.OnMouseUp | src/components/Console.tsx:71-78 | releasing ends a drag of the open panel |
| ConsolePanel.Console.OnToggle | src/components/Console.tsx:184-186 | the toggle flips `close` |

## Left out

- Sockets and TLS: `send_msg`, `read_response` and `read_multiline_response`, and the TLS handshake are not modelled. What was read, or the I/O error met, is a parameter.
- Text encoding: replies stay bytes. `String::from_utf8_lossy` and the UTF-8 view of names and secrets are not modelled.
- Integer widths: the `expect` panics of `get_stat_result` and `get_scan_listing` on numbers beyond `u64` are not modelled, because numbers are unbounded. JavaScript's number precision is not modelled either.
- Error wording: nom's error text is one `ParseError`.
- `Msg.into_string`'s `unwrap` and the capacity hint of `Msg` are not modelled.
- The echo commands' IPC failure is not modelled, because every echo command returns `Ok`.
- Backend.Session.Retr: returns the raw mail bytes. The conversion into `Email` (`email.rs`, `try_into`) is not part of this model.
- Concurrency: the backend's mutex and the interleaving of the front end's async handlers are not modelled. Each command and each handler runs to completion, one after another.
- MailListPage.MailList.StatEffect and MailListPage.MailList.ListEffect: the code invokes `stat` or `list` before the echo command, and that invoke order is not modelled. Only the order of the transcript entries is, and that is the echo first.
- UI libraries: the lodash `throttle`, react-hook-form's `required` checks, styling and icons are not modelled. A throttled move is simply a move that never arrives, and `DragSum` shows that this does not change where a drag ends.
- Input positions: a fractional `pageY` is not modelled; positions are integers.
- `useTrigger` and the refresh button are not modelled. The LIST effect is modelled as one run.
- `App.tsx` is not part of this model.
- LoginPage.LoginForm.Catch: the `type: "network"` tag that `setError` attaches to a field error is not kept. Only the message is.
- Two behaviours of the code worth noting:
  - The divider's prop `expand` receives `close`, so despite its name it is true while the panel is collapsed; mouse-down starts a drag only while the panel is open.
  - After a `null` or `undefined` rejection of `list`, `logError` throws before `setFetching(false)`, so `fetching` stays true.
