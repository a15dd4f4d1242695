# wrap.sh client core in Dafny

wrap.sh runs a CI test command. When the command fails, the client opens a websocket to the wrap.sh server. Through that websocket a remote operator gets:

- a shell on the build machine,
- TCP sockets proxied to local services,
- a read-only file browser.

This project models the sequential logic under that I/O. It covers:

- **CI metadata engine**: environment-driven provider detection, field derivation and redaction.
- **Retry loop and session lifecycle**: the test command's retry loop, the idle watchdog, the one-shot close latch, the priority dispatcher for server messages and the websocket receive loop.
- **Handlers**:
  - the tunnelled-connection table;
  - the terminal bridge;
  - the file-browser result framing.
- **Announcement**: the service scan's arithmetic and the assembly of the announcement.
- **Start-up configuration** done by `main`.

The model uses pure functions over immutable records, with two exceptions:

- methods, where the source is a loop;
- small state machines stepped by abstract events, where the source is a goroutine.

Everything that touches the outside world becomes a parameter:

- the environment (a map in which an unset variable reads as `""`);
- the outputs of `git`, `file -i` and `ls -al`;
- `url.Parse`, the file system and the directory walk;
- socket and pty reads and writes;
- the websocket dial and frames;
- protobuf encoding and decoding;
- the command's exit outcomes;
- the JSON decoder.

Modules, one per component:

- **Wrappers**: `Option`, `Result`, error texts with `errors.Wrap`, fixed-width integers.
- **GoStrings**: the Go `strings` functions the core relies on (`Split`, `TrimSpace`, `ReplaceAll`, …), with their algebra.
- **Protocol**: the message records of the protocol package, which is not part of this model.
- **PipelineInfo** (`pipeline_info.go`): coalescing, the two detection predicates, the provider table with first-match selection, per-provider field derivation, author-line parsing, `populatePipelineInfo` and `redactPipelineInfo`.
- **Terminal** (`terminal.go`): one-shot teardown, the output pump, write and resize.
- **TunnelTcp** (`tunnel_tcp.go`): the connection table.
  - Each of read, write and dial is split into a synchronous admission check and an asynchronous completion.
- **FileBrowser** (`file.go`): the file read under a size limit, MIME extraction, and the one-level directory listing.
- **Paths**: Go's `filepath.Clean` and the `filepath.Join` of a directory and an entry name, which give the paths the directory listing reports.
- **HelloHandshake** (`hello.go`): port chunks, progress batching, the per-port probe, announcement assembly and the server's answer.
- **Websocket** (`websocket.go`): frame-type check, send, connect with status mapping, and read-error classification.
- **Client** (`client.go`): retries, watchdog, close, dispatch and `HandleMessage`.
- **Session**: `Run`, the receive loop `listenServer`, and the exit status.
- **Settings** (`main.go`): test command, token, settings file, excluded fields, retries, timeout, endpoint, and the configured client.

In the source, `Client` is split across two Go packages (`wrap` and `wrapper`). Here it is one record.

The model follows the code in these behaviours, which are easy to misread:

- **Re-dialling a closed id.** Closing a tunnelled connection never removes its table entry. A closed id is therefore refused by every later dial, with "dial for existing connection".
- **Errors from `HandleMessage`.** The receive loop drops them and keeps reading. They do not end the session.
- **Close message.** A close message from the server closes the session and still returns "unexpected message type from wrap.sh server".
- **Zero-length pty read.** The pump skips it and reads again. It does not end the pump.
- **Exit status.** The process exits with the client's `ExitCode`. That is the code of the last attempt that exited non-zero, and it is kept even when a later retry succeeds (see Findings).

## Model

| member | source | states |
|---|---|---|
| PipelineInfo.Coalesce | src/wrap/pkg/pipeline_info.go:14-21 | the result is empty iff every argument is empty; otherwise it is the first non-empty argument |
| PipelineInfo.CoalesceEnv | src/wrap/pkg/pipeline_info.go:25-32 | the result is empty iff every named variable is unset or empty; otherwise it is the value of the first variable that is set |
| PipelineInfo.CheckForEnvVars | src/wrap/pkg/pipeline_info.go:42-51 | detection holds iff every named variable is non-empty; with no names it holds vacuously |
| PipelineInfo.CheckForEnvVarsMap | src/wrap/pkg/pipeline_info.go:58-71 | whatever order the Go map is visited in, detection holds iff every entry matches; "*" matches any non-empty value, anything else needs equality |
| PipelineInfo.WildcardSemantics | src/wrap/pkg/pipeline_info.go:58-71 | "*" matches exactly the non-empty values, so an unset variable never matches it; other entries compare exactly |
| PipelineInfo.FirstDetected | src/wrap/pkg/pipeline_info.go:596-604 | the chosen provider's detector fires and no earlier one in table order fires; nothing is chosen iff no detector fires |
| PipelineInfo.GithubPushRef | src/wrap/pkg/pipeline_info.go:436-444 | as written, a push build's branch is the whole `GITHUB_REF` followed by "refs/heads/" (11 characters longer), so `refs/heads/main` does not give `main` |
| PipelineInfo.GithubRefs | src/wrap/pkg/pipeline_info.go:436-444 | only the branch and the pull request change; on a pull-request build the result is what the source computes; on a push build (the corrected derivation) the branch is `GITHUB_REF` with one leading "refs/heads/" removed, or `GITHUB_REF` itself when it has no such prefix |
| PipelineInfo.GithubPushRefIntended | src/wrap/pkg/pipeline_info.go:436 | with the corrected derivation, a push of `refs/heads/<b>` reports branch `<b>` and keeps the pull request |
| PipelineInfo.GithubPullRequestRef | src/wrap/pkg/pipeline_info.go:437-443 | a pull-request build of `refs/pull/<n>/merge` reports pull request `<n>` on branch `GITHUB_HEAD_REF` |
| PipelineInfo.CodeBuildBranchRemovesRefsHeads | src/wrap/pkg/pipeline_info.go:152-156 | the CodeBuild branch is the head ref split on "refs/heads/" and re-joined, so every occurrence is removed; `refs/heads/<b>` gives `<b>` |
| PipelineInfo.CodeBuildSlug | src/wrap/pkg/pipeline_info.go:158-161 | the slug changes only when the URL parses; it is then the URL path without its trailing ".git" when it has one, and the whole path otherwise |
| PipelineInfo.CircleInfo | src/wrap/pkg/pipeline_info.go:209-230 | only the six Circle fields change; the slug is `user/repo` when the repository name is set; the pull request never contains "/" |
| PipelineInfo.CircleUnsetPullRequestUndefined | src/wrap/pkg/pipeline_info.go:218 | with `CIRCLE_PULL_REQUEST` unset the split has one piece, so the source's `[1]` panics: Circle's derivation is undefined there |
| PipelineInfo.CirclePullRequestUrlReadsEmpty | src/wrap/pkg/pipeline_info.go:217-218 | for a pull-request URL `https://…` the second piece is the empty text between the two slashes, so the pull request is reported as "" |
| PipelineInfo.LastPieceAfterSlash | src/wrap/pkg/pipeline_info.go:217 | the text after the last "/", as `${v##*/}` gives it: the final piece after a slash, or the whole text when it has none |
| PipelineInfo.CircleInfoIntended | src/wrap/pkg/pipeline_info.go:209-230 | Circle as its comments intend, for every environment: the same six fields, the pull request after the last "/", the URL slug after the last ":"; it agrees with the source wherever each split has exactly two pieces |
| PipelineInfo.CircleIntendedPullRequest | src/wrap/pkg/pipeline_info.go:217-218 | the intended derivation reports `n` for `https://github.com/<owner>/<repo>/pull/<n>` and "" when the variable is unset |
| PipelineInfo.TravisBranch | src/wrap/pkg/pipeline_info.go:127-129 | the branch changes only when `TRAVIS_BRANCH` differs from `TRAVIS_TAG`, and then it is the coalesced pull-request branch or branch |
| PipelineInfo.BitbucketCommit | src/wrap/pkg/pipeline_info.go:500-507 | a commit hash of exactly "12" is replaced by the `git rev-parse` output, or an error is reported and the hash kept; any other hash is left alone |
| PipelineInfo.FindInfo | src/wrap/pkg/pipeline_info.go:80-543 | a provider assigns only the eight generic fields, and only Bitbucket can report an error |
| PipelineInfo.FindInfoKeeps | src/wrap/pkg/pipeline_info.go:80-543 | each provider leaves every field outside the set it assigns (`AssignedFields`) as it found it |
| PipelineInfo.ParseAuthorLineRoundTrip | src/wrap/pkg/pipeline_info.go:562-572 | `Name <local@domain>` parses back into name, email and domain |
| PipelineInfo.DetachedHeadOutputUndefined | src/wrap/pkg/pipeline_info.go:549-564 | the empty output that a detached HEAD produces has no "<", so it lies outside the author parser's precondition: the source's `parts[1]` panics on it |
| PipelineInfo.PopulateAuthorInfoIntended | src/wrap/pkg/pipeline_info.go:546-573 | with the split checked, an output without "<" is reported like a failed lookup and leaves the hello unchanged; wherever the source does not panic the result is the source's |
| PipelineInfo.PopulateAuthorInfo | src/wrap/pkg/pipeline_info.go:546-573 | a failed git lookup leaves the hello unchanged and reports an error; otherwise only the name, the email and (when one is found) the email domain are assigned, from the parsed line |
| PipelineInfo.GenericDefaults | src/wrap/pkg/pipeline_info.go:587-594 | each of the eight generic fields takes its VCS_/CI_ variable; every other field is unchanged |
| PipelineInfo.PopulatePipelineInfo | src/wrap/pkg/pipeline_info.go:579-606 | the CI provider is the first detected provider's name, or unchanged when none is detected (the generic defaults then stand); the author fields come from the author lookup; an author error is reported iff the lookup fails; there are at most two errors |
| PipelineInfo.PopulateSelectedProvider | src/wrap/pkg/pipeline_info.go:579-606 | with a provider detected, the announcement is that provider's derivation applied over the author info, the generic defaults and its name |
| PipelineInfo.PopulateProviderError | src/wrap/pkg/pipeline_info.go:595-604 | with a provider detected, a provider error with message m is reported iff that provider's derivation raised m |
| PipelineInfo.PopulateKeepsDefault | src/wrap/pkg/pipeline_info.go:587-604 | a generic field keeps the value of its VCS_/CI_ variable unless the detected provider assigns it |
| PipelineInfo.Redact | src/wrap/pkg/pipeline_info.go:612-652 | the working directory and the services are never redacted |
| PipelineInfo.RedactField | src/wrap/pkg/pipeline_info.go:612-652 | each of the 13 fields is cleared iff its name is a key of the mask, and is otherwise unchanged |
| PipelineInfo.HelloExtensionality | src/wrap/pkg/pipeline_info.go:612-652 | two hellos that agree on all 13 redactable fields, the working directory and the services are equal |
| PipelineInfo.RedactIdempotent | src/wrap/pkg/pipeline_info.go:612-652 | redacting twice with one mask equals redacting once |
| PipelineInfo.RedactDependsOnKeysOnly | src/wrap/pkg/pipeline_info.go:612-652 | only the mask's keys matter, not the booleans they map to |
| PipelineInfo.RedactComposes | src/wrap/pkg/pipeline_info.go:612-652 | redacting with two masks in turn equals redacting with their union |
| Client.RetryOutcome | src/wrap/pkg/client.go:62-107 | the retry loop makes at most NumRetries+1 attempts, none for a negative count, and stops at the first success or spawn error. Success iff the last attempt succeeded. A spawn error iff the last attempt could not run, and then that error is returned. Otherwise every attempt exited non-zero. The kept exit code is that of the last non-zero exit |
| Client.RunTestCommandWithRetries | src/wrap/pkg/client.go:92-107 | the loop computes exactly the attempt-by-attempt recursive definition `Client.Retry`, to which `Client.RetryOutcome` applies |
| Client.StartWatchdog | src/wrap/pkg/client.go:140-145 | the watchdog runs iff TimeoutMinutes is at least one |
| Client.IdleClosesOnce | src/wrap/pkg/client.go:148-162 | a client that is never accessed is closed exactly once, on the tick that uses up its minutes, and not before |
| Client.AccessCancels | src/wrap/pkg/client.go:150-155 | an access seen on any tick before the minutes run out stops the watchdog without a close |
| Client.DisabledNeverCloses | src/wrap/pkg/client.go:142-144 | a disabled watchdog never closes the session |
| Client.CloseSockets | src/wrap/pkg/client.go:177-179 | every connection in the table is closed and no key is added or removed; each socket that was open is closed exactly once |
| Client.Close | src/wrap/pkg/client.go:165-185 | only the first call acts. It sets closed, tears the terminal down, closes every open connection, closes the websocket and closes the channel, in that order, and changes nothing else |
| Client.CloseEffects | src/wrap/pkg/client.go:172-184 | the shell is killed first iff it was running, then exactly the open connections' sockets are closed, then the websocket, then the main loop is signalled |
| Client.Dispatch | src/wrap/pkg/client.go:187-233 | the handled kind is present and no kind earlier in the fixed order is present |
| Client.DispatchIsFirstPresent | src/wrap/pkg/client.go:191-233 | a kind is handled iff it is present and no earlier kind is |
| Client.HandleMessage | src/wrap/pkg/client.go:187-234 | each kind goes to its handler and returns that handler's error. Only the first seven kinds set wasAccessed. The listener id reaches only the file handlers. An error message returns its text. A close message closes the session and still returns "unexpected message type"; so does an empty message. Nothing else in the client changes |
| Session.ListenServer | src/wrapper-client/pkg/websocket.go:65-95 | nothing is read once the client is closed. Every read error closes the session and ends the loop. An undecodable frame stops the loop. Every earlier frame was decoded and handled, and handler errors do not stop the loop |
| Session.Deliver | src/wrapper-client/pkg/websocket.go:87-93 | handing a decoded message to the dispatcher ends the session iff the message is the server's close; the handler's error is dropped |
| Session.Run | src/wrap/pkg/client.go:109-125 | no command does nothing; a connect is attempted iff the run ends in a connect panic or a live session |
| Session.RunCommandPhase | src/wrap/pkg/client.go:114-121 | a passing command or a spawn error returns before any connect: the last attempt passed, or could not run and its error is wrapped with "run test command" |
| Session.RunConnectPhase | src/wrap/pkg/client.go:114-125 | the connect is tried only after every allowed attempt exited non-zero; it stores the websocket it gets, and a failed connect panics with the error wrapped with "could not connect" |
| Session.RunExitCode | src/wrap/pkg/client.go:80-114 | once a command was given, the client holds the exit code of the last attempt that exited non-zero |
| Session.ListenEnd | src/wrapper-client/pkg/websocket.go:65-95 | a frame that does not decode ends the process through `log.Fatal`; a closed client or a failed read lets `Run` return; a loop that has not stopped ends nothing |
| Session.ShellEnd | src/wrap/pkg/terminal.go:35-47 | the shell ends the process iff `pty.Start` fails in the shell's goroutine (a panic wrapped with "open pty") or the kill fails in the first teardown, whichever goroutine runs it: the pump, or the client's close from the receive loop, the close handler, the watchdog or the interrupt (a panic wrapped with "close pty") |
| Session.RepeatedTeardownCannotPanic | src/wrap/pkg/terminal.go:35-41 | once the terminal is closed a further teardown does not kill, so it cannot panic whatever a kill would return |
| Session.ProcessExit | src/wrap/main.go:123-124 | a fatal error exits with 1 and a panic with 2, before the connect as well as in the live session (an undecodable frame, a pty that cannot be opened or a shell that cannot be killed); otherwise the process exits with the client's exit code |
| Session.FailedCommandExitCode | src/wrap/pkg/client.go:80-89 | a command that fails every attempt exits with the code of its last attempt when the session returns, and with 1 or 2 when the session ends in `log.Fatal` or a panic |
| Session.UndecodableFrameExitsOne | src/wrapper-client/pkg/websocket.go:88-91 | an undecodable frame exits with 1 whatever the command's exit code was |
| Session.RetrySuccessKeepsFailureCode | src/wrap/pkg/client.go:80-89 | as written, a command that fails with code c and then passes on retry still exits with c |
| Session.PassedExit | src/wrap/pkg/client.go:119-121 | once the command has passed, the exit status is 0; every other phase exits as before |
| Websocket.Read | src/wrapper-client/pkg/websocket.go:15-26 | bytes are returned iff the frame is binary and was copied completely; a non-binary frame gives "unexpected message type: <type>" |
| Websocket.NonBinaryFrameNamesItsType | src/wrapper-client/pkg/websocket.go:21-23 | the frame type can be read back from the error text |
| Websocket.ReadFailureReport | src/wrapper-client/pkg/websocket.go:70-86 | nothing is reported iff the error is EOF or a going-away or abnormal-closure close; other close codes are "connection error" and all else "invalid message data received" |
| Websocket.Send | src/wrapper-client/pkg/websocket.go:28-38 | an encode failure writes nothing and is wrapped. Otherwise exactly the encoded frame is written. The result is an error iff the write failed |
| Websocket.Connect | src/wrapper-client/pkg/websocket.go:40-63 | a failed dial leaves the websocket unchanged and reports an authentication failure on HTTP 404, otherwise a wrapped dial error. A successful dial stores the websocket and returns the announcement send's result |
| Websocket.ConnectSucceedsIff | src/wrapper-client/pkg/websocket.go:51-62 | a connect succeeds iff the dial succeeds and the announcement is encoded and written |
| HelloHandshake.PortChunks | src/wrapper-client/pkg/hello.go:67-71 | seven contiguous chunks of at most 10000 ports, from port 1 to 65536 exclusive. Every port 1..65535 lies in exactly one chunk, and the chunks hold 65535 ports in all |
| HelloHandshake.ContiguousCoversOnce | src/wrapper-client/pkg/hello.go:67-84 | contiguous chunks hold every port of their span in exactly one chunk |
| HelloHandshake.PortCountTelescopes | src/wrapper-client/pkg/hello.go:67-84 | contiguous chunks hold as many ports as their span |
| HelloHandshake.BatchProgress | src/wrapper-client/pkg/hello.go:76-139 | one scanner's reports add up to its port count. All but the last are exactly 100, each is 1..100, and there are ⌈count/100⌉ of them |
| HelloHandshake.EndReachedOnlyAtLast | src/wrapper-client/pkg/hello.go:63-65 | positive reports that add up to 65535 reach the total only with the last one, so `done` is closed once |
| HelloHandshake.InterleavedReportsSum | src/wrapper-client/pkg/hello.go:46-65 | any interleaving of the scanners' reports reaches 65535 exactly at its last report |
| HelloHandshake.ProbePort | src/wrapper-client/pkg/hello.go:88-125 | TLS is reported iff the TLS probe answers "HTTP". Plain is reported iff the TLS probe was dialled but did not answer "HTTP" and the plain probe answers "HTTP". A dial error ends the probing |
| HelloHandshake.ServiceAddress | src/wrapper-client/pkg/hello.go:130-134 | the address ends in `localhost:<port>` and starts with "https://" iff TLS worked |
| HelloHandshake.ScanChunkRecordsFound | src/wrapper-client/pkg/hello.go:84-136 | every port of the chunk whose probe succeeded is recorded with the scheme that worked |
| HelloHandshake.ScanChunkOnlyFound | src/wrapper-client/pkg/hello.go:84-136 | every recorded service belongs to a port of the chunk whose probe succeeded |
| HelloHandshake.BuildHello | src/wrapper-client/pkg/hello.go:149-199 | the working directory falls back to "/" and the services are the scan's |
| HelloHandshake.BuildHelloRedactsLast | src/wrapper-client/pkg/hello.go:159-168 | redaction runs after population, so a masked field is sent empty whatever a provider put there, and an unmasked one is sent as populated |
| HelloHandshake.HelloOutbound | src/wrapper-client/pkg/hello.go:195-199 | the announcement is sent unchanged as a hello message |
| HelloHandshake.HandleHelloResponse | src/wrapper-client/pkg/hello.go:202-211 | an empty dashboard URL is an error and keeps the old URL; otherwise the URL is stored and there is no error |
| Terminal.CloseOnce | src/wrap/pkg/terminal.go:35-41 | teardown leaves the terminal closed and kills the shell iff it was open |
| Terminal.KillAtMostOnce | src/wrap/pkg/terminal.go:35-41 | however many callers race to tear the terminal down, the shell is killed at most once, and exactly once if it was open |
| Terminal.ForwardedPreservesBytes | src/wrap/pkg/terminal.go:52-75 | the forwarded messages carry exactly the bytes read, in read order, and none is empty |
| Terminal.Pump | src/wrap/pkg/terminal.go:52-75 | one message per non-empty read, in order, each holding 1..1024 bytes. The pump stops at the closed flag or a read error, and the terminal is closed iff it stopped. Its own teardown kills the shell iff a read failed and no other caller's teardown ran first |
| Terminal.HandleTerminalWrite | src/wrap/pkg/terminal.go:78-89 | writing to an absent or closed terminal does nothing and returns no error; otherwise the data goes to the shell and its error is returned |
| Terminal.SetTerminalSize | src/wrap/pkg/terminal.go:99-102 | width and height are cut to 16 bits: unchanged below 65536, equal modulo 65536 in general |
| Terminal.HandleTerminalWidth | src/wrap/pkg/terminal.go:104-111 | a resize applies iff the terminal is present and open, always with height 40 and the width cut to 16 bits |
| TunnelTcp.CloseConn | src/wrapper-client/pkg/tunnel_tcp.go:18-26 | close marks the connection closed and closes the socket iff it was open |
| TunnelTcp.CloseConnIdempotent | src/wrapper-client/pkg/tunnel_tcp.go:18-26 | a second close changes nothing and closes no socket |
| TunnelTcp.RequestRead | src/wrapper-client/pkg/tunnel_tcp.go:28-57 | a read is refused with its message iff the id is unknown or closed; otherwise the task echoes the ids and the buffer size |
| TunnelTcp.CompleteRead | src/wrapper-client/pkg/tunnel_tcp.go:32-53 | the result echoes both ids and counts the bytes read. The data is the whole zero-filled buffer, beginning with the bytes read. The error is empty iff the read succeeded |
| TunnelTcp.RequestWrite | src/wrapper-client/pkg/tunnel_tcp.go:60-88 | a write is refused with its message iff the id is unknown or closed; otherwise the task carries the ids and the data |
| TunnelTcp.CompleteWrite | src/wrapper-client/pkg/tunnel_tcp.go:65-84 | the result echoes both ids and the count written; the error is empty iff the write succeeded |
| TunnelTcp.RequestDial | src/wrapper-client/pkg/tunnel_tcp.go:91-98 | a dial is refused iff the id is in the table, open or closed |
| TunnelTcp.CompleteDial | src/wrapper-client/pkg/tunnel_tcp.go:102-143 | a failed dial reports only the id and the error, and the table is unchanged. A successful dial adds exactly one open entry under the id, leaves the rest alone, and reports the remote address |
| TunnelTcp.DialWindow | src/wrapper-client/pkg/tunnel_tcp.go:96-131 | two dials for one id that both arrive before either completes are both admitted; two successes leave a single open entry |
| TunnelTcp.UsedIdNeverRedialled | src/wrapper-client/pkg/tunnel_tcp.go:93-98 | once an id is in the table, no sequence of events lets it be dialled again |
| TunnelTcp.ClosedStaysClosed | src/wrapper-client/pkg/tunnel_tcp.go:18-26 | a closed connection stays closed unless a dial admitted earlier completes for its id |
| TunnelTcp.RunKeepsWellKeyed | src/wrapper-client/pkg/tunnel_tcp.go:125-131 | the table stays keyed by connection id, and ids are never removed |
| FileBrowser.MimeTypeOfFileOutput | src/wrap/pkg/file.go:60-65 | for `file -i` output of the form `path: type` and a newline, the MIME type is the type |
| FileBrowser.ReadFile | src/wrap/pkg/file.go:15-65 | a size strictly above the limit is too big, and a size equal to the limit is accepted. The result is content iff the stat and the read both succeed, and then it is exactly the content with the MIME type |
| FileBrowser.HandleFileRead | src/wrap/pkg/file.go:15-80 | exactly one result, carrying the request's listener id. Success carries the content, the requested path and the MIME type with no error. Every failure carries only its error, and a too-big file gives "file too big" |
| FileBrowser.StatFailureText | src/wrap/pkg/file.go:16-30 | a stat failure is reported as "stat: " followed by the error |
| FileBrowser.IsEmptyCountsEntries | src/wrap/pkg/file.go:105-116 | a directory is reported empty iff its `ls -al` output has no line after the total, `.` and `..` lines |
| FileBrowser.HandleFileReadDir | src/wrap/pkg/file.go:82-143 | the result carries the listener id and the requested path, and never an error. A root that cannot be read gives no entries. Otherwise there is one entry per immediate child, in order, with its name, kind, cleaned joined path, MIME type and emptiness (the `ls -al` count for a directory, true for anything else) |
| FileBrowser.UnreadableLooksEmpty | src/wrap/pkg/file.go:87-90 | as written, a missing or unreadable directory gets the same answer as an empty one |
| FileBrowser.HandleFileReadDirIntended | src/wrap/pkg/file.go:119-132 | with the error branch reachable, an unreadable root is answered by its error alone; a readable one as before |
| FileBrowser.IntendedReportsUnreadable | src/wrap/pkg/file.go:119-132 | with the intended handler an error is reported iff the root cannot be read, so an unreadable directory is told apart from an empty one |
| Paths.JoinPathOfPlainName | src/wrap/pkg/file.go:87-95 | the path reported for an entry is the cleaned directory, a slash and the name; a directory that cleans to "." gives the name alone, and "/" gives "/" and the name |
| Paths.ResolveCancelsParent | src/wrap/pkg/file.go:87-95 | in a cleaned path an element followed by ".." cancels out |
| Paths.JoinPathInDot | src/wrap/pkg/file.go:87-95 | every entry `x` of the directory "." is reported as `x`, with no "./" |
| Settings.FirstPositional | src/wrap/main.go:31-37 | the result is the first argument not starting with "-", or "" when there is none |
| Settings.RunSetting | src/wrap/main.go:84-91 | the "Run" setting when it is a string, else "" |
| Settings.ResolveTestCommand | src/wrap/main.go:31-91 | the first positional argument, falling back to the "Run" setting when there is none or it is empty |
| Settings.ResolveToken | src/wrap/main.go:39-54 | the flag wins. Next come the trimmed token-file contents, where an unreadable or blank file is fatal. Then the environment |
| Settings.TokenFileIsTrimmed | src/wrap/main.go:46-49 | a token padded by white space in the file is read back exactly |
| Settings.EmptyTokenOnlyFromEnvironment | src/wrap/main.go:39-54 | an empty token results iff neither flag is given and the environment variable is empty |
| Settings.LoadSettings | src/wrap/main.go:56-67 | no settings flag gives empty settings; an unreadable file or undecodable JSON is fatal with its message; otherwise the decoded object |
| Settings.StringElements | src/wrap/main.go:74-79 | a name is excluded iff it is a string element of the list, always mapped to true |
| Settings.ExcludedFields | src/wrap/main.go:69-81 | the excluded fields are exactly the string elements of an `ExcludedTelemetryFields` list; other values exclude nothing |
| Settings.NumberSetting | src/wrap/main.go:104-109 | a numeric setting is taken, and anything else leaves 0 |
| Settings.ResolveRetries | src/wrap/main.go:112-121 | the retry flag unless it holds -1, else the numeric "NumRetries" setting, else 0 |
| Settings.RetryPrecedence | src/wrap/main.go:112-121 | a given flag makes the settings irrelevant, and without either the count is 0 |
| Settings.Endpoint | src/wrap/main.go:19-24 | `wss://` on the production domain, unless the build is a local development build, which gets `ws://` on the development domain |
| Settings.Configure | src/wrap/main.go:17-121 | the token is resolved before the settings file is read. A token failure is fatal with its message, and so is a settings failure after a resolved token. Otherwise the client carries the resolved token, endpoint, excluded fields, timeout, retries and test command, with everything else in its initial state |

## Left out

- I/O of every kind is abstracted. This covers sockets, TLS handshakes, the websocket library, the pty and the shell process. It also covers the `git`, `file` and `ls` commands, `os.Stat`, `ioutil.ReadFile` and the `lstat` and directory reads inside `filepath.Walk`. Each outcome is an input. What the walk does with those outcomes is modelled: `FileBrowser.Walk` is the root failure or the sorted immediate children, and `Paths.JoinPath` is the joined path.
- Concurrency is out of scope. Goroutines, the mutexes, `sync.Once` internals and the signal/`closedChan` select are not modelled. Unsynchronised reads of `closed`, `wasAccessed` and the connection table are ignored too. The model runs as sequential event steps, and no race-freedom is claimed.
- Wall-clock time is not modelled: the write deadline, the dial timeout and keep-alive, the minute ticker and the probe timeouts. The watchdog counts abstract ticks instead.
- Floating point is out of scope. The progress-bar percentages and dots are logged output only.
- Protobuf encoding and decoding are parameters: the encoder's result and the decoder's partial function.
- Logging and debug output are left out.
- The `ioctl` in `setTerminalSize` is not modelled; only the values passed to it are.
- The `protocol` package is not part of this model. Its domains and path are parameters of `Settings.Endpoint`, and its message types are defined directly.
- Go panics are handled in two ways:
  - Index panics (the author line's `parts[1]`, Circle's `Split(...)[1]`) are preconditions (`AuthorLineDefined`, `CircleDefined`). Both are reachable (see Findings): the author-line panic on a detached HEAD, and Circle's on every Circle build that is not for a pull request.
  - A close before the terminal and websocket exist would dereference nil. That is the precondition `Client.CanClose`.
- Panics after a failed send in the file, tunnel and terminal handlers are not modelled; the model assumes every send succeeds there.
- Text is modelled as Dafny strings, which are sequences of Unicode scalar values, while Go strings are bytes. The model therefore treats every text (command output, the token file, environment values, paths) as valid UTF-8; output that is not valid UTF-8 has no counterpart in the model. No modelled operation on text depends on its length in bytes; file contents, terminal output and tunnel data are modelled as bytes.
- `src/wrap/pkg/test_util.go` is left out, and `src/wrap/pkg/file_test.go` is not modelled. The size limit is a parameter of `FileBrowser.ReadFile`, so the refactored `readFile(msg, limit)` those tests call agrees with `handleFileRead`.
- PipelineInfo.CircleInfo: its precondition `CircleDefined` excludes every Circle build that is not for a pull request, because the source panics there (`CIRCLE_PULL_REQUEST` is unset); `PipelineInfo.FindInfo`, `PipelineInfo.PopulatePipelineInfo` and `HelloHandshake.BuildHello` therefore say nothing about those builds. `PipelineInfo.CircleInfoIntended` is defined for them.
- PipelineInfo.FindInfo: this contract and those of the per-provider functions (`LayerCIInfo` … `CirrusInfo`) state only which fields a provider may assign and that only Bitbucket errs. The assigned values are written out in the bodies, but no contract states them, except for the GitHub, CodeBuild, Circle, Travis and Bitbucket derivations listed above.
- FileBrowser.HandleFileReadDir: a child whose `lstat` fails makes the walk call back with no file information, and the callback's `info.Name()` then panics; `FileBrowser.Walk` has no such child. The callback's root test is taken to match the root only, so no child is skipped by it.
- PipelineInfo.BitbucketCommit: the error carries only "get commit hash for bitbucket", not the wrapped `git` error text. `PipelineInfo.PopulatePipelineInfo` likewise records the author and provider errors without their `errors.Wrap` context.
- PipelineInfo.Redact: its own contract states only what is never redacted. The per-field behaviour is stated by `PipelineInfo.RedactField`.
- Settings.NumberSetting: JSON numbers are integers here. Go's `float64`-to-`int` truncation of `Timeout` and `NumRetries` is not modelled.
- Settings.LoadSettings: a settings document that decodes into anything other than an object is the decoder's concern. The decoder is a parameter.
- Terminal.Pump: the pump runs over a finite stretch of read outcomes, so a shell that never stops is covered only prefix by prefix.
- Session.ListenServer: the frames are a finite sequence, so the loop also stops when they run out. Log lines for the error classes are reported by `Websocket.ReadFailureReport`, not printed.
- Session.Run: the part after the connect (starting the pump, the receive loop and the watchdog, then waiting for the interrupt or the close) is covered by the models of those pieces, not by `Run` itself.
- HelloHandshake.BuildHello: the order in which scanners append services depends on goroutine scheduling. The model takes the list as given, and states per chunk which services are recorded.

## Findings

| source | as written | input that shows it | evidently intended | confidence | as-written member | corrected member |
|---|---|---|---|---|---|---|
| src/wrap/pkg/pipeline_info.go:217-218 | the pull request is `strings.Split(CIRCLE_PULL_REQUEST, "/")[1]`, the second piece, where the comment above it gives `${CIRCLE_PULL_REQUEST##*/}`, the last | a Circle build not for a pull request (`CIRCLE_PULL_REQUEST` unset) panics; one for `https://github.com/o/r/pull/7` reports the pull request "" (`PipelineInfo.CirclePullRequestUrlReadsEmpty`) | the text after the last "/": nothing, and `7` | medium; not executed | PipelineInfo.CircleUnsetPullRequestUndefined | PipelineInfo.CircleIntendedPullRequest |
| src/wrap/pkg/client.go:80-89 | a failed attempt stores its exit code in `ExitCode`, and nothing resets it when a later retry passes; `main` then exits with `ExitCode` (src/wrap/main.go:123-124) | `--retry 1` with a command that exits 1 and then exits 0: the process exits 1 | a command that passes on retry exits 0 | high; not executed | Session.RetrySuccessKeepsFailureCode | Session.PassedExit |
| src/wrap/pkg/pipeline_info.go:436 | the Github Actions branch of a push build is `GITHUB_REF + "refs/heads/"`, appending the prefix instead of removing it | `GITHUB_REF=refs/heads/main` with no `GITHUB_HEAD_REF`: the branch is `refs/heads/mainrefs/heads/` | the branch is `GITHUB_REF` without its "refs/heads/" prefix (`main`), as for CodeBuild | high; not executed | PipelineInfo.GithubPushRef | PipelineInfo.GithubPushRefIntended |
| src/wrap/pkg/file.go:87-90 | `filepath.Walk` hands a failure to read the root to the callback, which returns nil for the root whatever it is given; the walk therefore never fails and the error branch at lines 119-132 cannot run | a directory read of a path that does not exist: the answer is an empty listing with that path and no error | the failure is reported as the result's error, as lines 119-132 do | medium; not executed | FileBrowser.UnreadableLooksEmpty | FileBrowser.HandleFileReadDirIntended |
| src/wrap/pkg/pipeline_info.go:549-564 | the author line is split on "<" and `parts[1]` is read without a length check | a checkout on a detached HEAD: `git rev-parse --abbrev-ref HEAD` prints `HEAD`, `git for-each-ref refs/heads/HEAD` prints nothing and succeeds, and `parts[1]` panics | an output without "<" is treated like a failed lookup | medium; not executed | PipelineInfo.DetachedHeadOutputUndefined | PipelineInfo.PopulateAuthorInfoIntended |

The model follows the code as written: `PipelineInfo.GithubActionsInfo` builds on `PipelineInfo.GithubRefsAsWritten`, `PipelineInfo.PopulatePipelineInfo` uses `PipelineInfo.PopulateAuthorInfo`, `Client.HandleMessage` answers directory reads with `FileBrowser.HandleFileReadDir`, and `Session.ProcessExit` gives the exit status, including the fatal exits of a live session. Each corrected definition stands beside its as-written one, with the intended property proved about it.
