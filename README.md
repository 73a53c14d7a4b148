# silverpopper transfer subsystem in Dafny

This project models the part of the silverpopper Ruby client that moves
contact lists to Silverpop over FTP:

- **The mapping-document builder** (`make_map`), modelled as a pure function
  (`MapBuilder.MakeMap`). It turns an import-spec hash into a `LIST_IMPORT`
  XML tree. Every key of the hash is an `Option<Value>`, so an absent key is
  distinguished from a key whose value is `nil` or `false`. Ruby values are
  `Nil | Bool | Str | Int`, with Ruby truthiness, `||`, `to_s` and
  ActiveSupport's `present?` defined over them (`RubyValues`). The output is
  an abstract tree of elements and text nodes (`XmlTree`), so presence,
  absence and order are checked on the tree rather than on text.
- **The FTP connection** (`FtpSession.Ftp`). It holds the client's view of the
  control connection (`Unopened`, `Closed`, `Broken`, `Connected`,
  `Authenticated`), the
  working directory, and the remote tree (directory path to file name to
  contents). It also logs every command it is asked to send. The commands
  are STAT, connect, USER/PASS, close, NOOP, CWD, PWD, NLST, DELE and STOR,
  after section 4.1 of RFC 959.
- **The transfer mixin** (`TransferApi`). It provides `ftp_login`,
  `ftp_logout`, `ftp_logged_in?`, `ftp_cleanup`, `stor_file`,
  `transfer_list` and `transfer_lists`. Each is a method on the client's
  connection. Each is proved against pure specification functions:
  - `Prepare`: the argument checks and map building of `transfer_list`;
  - `AfterTransfer`: the two stores into `/upload`;
  - `RunBatch`: the loop of `transfer_lists`, which stops at the first error;
  - `EnsureLoggedIn`: `ftp_login unless ftp_logged_in?`;
  - `CleanupOutcome`: the three outcomes of `ftp_cleanup`.

  Lemmas then state what those functions guarantee.
- **The client constructor** (`SilverpopClient.Client`). Its postconditions
  give the option defaulting rules:
  - FTP credentials fall back to the API credentials;
  - the pod falls back to 5;
  - each URL falls back to the pod's endpoint.

Ruby exceptions are values of `Errors.Error`. A method that can raise returns
a `Result`, and `Err` is the exception it raises.

## Model

| member | source | states |
|---|---|---|
| RubyValues.Or | lib/client.rb:32-37 | `a \|\| b` is truthy iff either side is; it is `a` when `a` is truthy and `b` otherwise |
| RubyValues.NatText | lib/client.rb:35-37 | the decimal text of a number is non-empty, all digits, and has no leading zero |
| RubyValues.NatTextRoundTrip | lib/client.rb:35-37 | reading the decimal text of `n` back gives `n`, so interpolating a pod number loses nothing |
| MapBuilder.MakeMap | lib/transfer_api.rb:137-144 | fails exactly for a non-hash, with ArgumentError "map should be a hash"; otherwise a version 1.0, UTF-8 document whose root is LIST_IMPORT |
| MapBuilder.EmitFieldsSupplied | lib/transfer_api.rb:146-157 | the j-th element written is the element of the j-th field whose key is present |
| MapBuilder.SuppliedIndices | lib/transfer_api.rb:146-157 | the present keys are listed each once, in field order, and only present keys are listed |
| MapBuilder.EmitFieldsMembership | lib/transfer_api.rb:146-157 | a field's element is written iff its key is present, and then carries that value's text |
| MapBuilder.EmitFieldsSelects | lib/transfer_api.rb:146-157 | a run of key-conditional fields writes an element iff its key is present, with that value's text, and in the fixed field order |
| MapBuilder.ListInfoElements | lib/transfer_api.rb:145-168 | LIST_INFO holds the present scalar keys in the order ACTION … ENCODED_AS_MD5, then SYNC_FIELDS last, and SYNC_FIELDS iff the collection is non-nil and non-empty |
| MapBuilder.ListInfoField | lib/transfer_api.rb:146-157 | each LIST_INFO scalar is written iff its key is present, whatever its value |
| MapBuilder.BooleanFlagsCoerced | lib/transfer_api.rb:155-157 | HASHEADERS, DOUBLE_OPT_IN and ENCODED_AS_MD5 are written with the "true"/"false" text of the value's truthiness whenever the key is present, so `false` and `nil` print "false"; an absent key writes nothing |
| MapBuilder.EntryFlagsCoerced | lib/transfer_api.rb:173-191 | IS_REQUIRED and INCLUDE are written with the truthiness text whenever their key is present, and not when it is absent |
| MapBuilder.SyncFieldsBlock | lib/transfer_api.rb:159-167 | one SYNC_FIELD per entry, in input order, each with exactly one NAME child that holds the entry's name; a nil or missing name gives an empty NAME |
| MapBuilder.ColumnsBlock | lib/transfer_api.rb:170-182 | one COLUMN per entry, in input order; within each, NAME, TYPE, IS_REQUIRED, KEY_COLUMN and DEFAULT_VALUE appear iff their keys are present, in that order |
| MapBuilder.MappingBlock | lib/transfer_api.rb:184-194 | one COLUMN per entry, in input order; within each, INDEX, NAME and INCLUDE appear iff their keys are present, in that order |
| MapBuilder.ContactListsBlock | lib/transfer_api.rb:196-202 | one CONTACT_LIST_ID per entry that has the key, in input order, and none for an entry without it |
| MapBuilder.TopLevelOrder | lib/transfer_api.rb:144-203 | LIST_IMPORT starts with LIST_INFO, and its blocks come in the order LIST_INFO, COLUMNS, MAPPING, CONTACT_LISTS, each at most once |
| MapBuilder.TopLevelPresence | lib/transfer_api.rb:170-202 | COLUMNS, MAPPING and CONTACT_LISTS are each written iff their collection is non-nil and non-empty, and then hold that collection's block |
| MapBuilder.CreateExampleDocument | lib/transfer_api.rb:137-206 | the exact tree built for a CREATE import with FILE_TYPE 0 and one mapping column |
| FtpSession.Ftp.constructor | lib/client.rb:38 | a new connection is not yet opened, is at the root, and has an empty command log |
| FtpSession.Ftp.Status | lib/transfer_api.rb:5 | STAT reports a logged-in user exactly on an authenticated link, and otherwise raises the link's error |
| FtpSession.Ftp.Connect | lib/transfer_api.rb:7 | connecting to the server's host opens a fresh, unauthenticated link at the root; any other host fails and changes nothing |
| FtpSession.LoginReply | lib/transfer_api.rb:8 | on a fresh link: a non-string user raises TypeError; a string user with a nil password raises FTPReplyError, except that `anonymous` gets the password `anonymous@`; a password that is neither nil nor a string raises TypeError; the login succeeds iff the user and the password sent match an account, and a wrong string password is refused with 530; on any other link the login fails, with neither TypeError nor FTPReplyError |
| FtpSession.Ftp.Login | lib/transfer_api.rb:8 | the outcome is `LoginReply` for the link as it was; a success authenticates the link, and a failure leaves it as it was |
| FtpSession.Ftp.Close | lib/transfer_api.rb:13 | an opened link is closed afterwards, whatever state it was in; a never-opened one stays unopened |
| FtpSession.Ftp.Noop | lib/transfer_api.rb:19 | NOOP succeeds exactly on an authenticated link, and otherwise raises the link's error |
| FtpSession.Ftp.Chdir | lib/transfer_api.rb:31 | CWD moves to the resolved path iff it exists on a logged-in link; otherwise the working directory is unchanged and 550 or the link's error is raised |
| FtpSession.Ftp.Pwd | lib/transfer_api.rb:32 | PWD answers the working directory |
| FtpSession.Ftp.Nlst | lib/transfer_api.rb:34 | NLST lists each file of the working directory exactly once and nothing else |
| FtpSession.Ftp.Delete | lib/transfer_api.rb:34 | DELE removes exactly the named file from the working directory, or raises 550 and changes nothing |
| FtpSession.Ftp.Store | lib/transfer_api.rb:124-131 | STOR writes the contents under the name in the working directory, replacing any file of that name, and changes nothing else |
| SilverpopClient.Client.constructor | lib/client.rb:29-40 | FTP credentials are the given ones when truthy, else the API ones; pod is the given one when truthy, else 5; each URL is the given one when truthy, else `http://api<pod>.silverpop.com`, `http://transact<pod>.silverpop.com`, or `transfer<pod>.silverpop.com` with no scheme; a new connection, not yet opened; no cached lists |
| SilverpopClient.DefaultEndpoints | lib/client.rb:34-37 | without options, the endpoints are pod 5's |
| SilverpopClient.PodUrlsInjective | lib/client.rb:35-37 | different natural-number pods give different API, Transact and transfer hosts |
| TransferApi.Prepare | lib/transfer_api.rb:113-115 | a nil or false map, data or name raises a bare ArgumentError; a truthy non-hash map raises ArgumentError "map should be a hash"; otherwise the request is accepted with the map's document |
| TransferApi.AfterTransferContents | lib/transfer_api.rb:117-118 | a transfer adds exactly `name` (the data) and `name.map.xml` (the map) to `/upload`, two different names, and leaves every other file and directory alone |
| TransferApi.BatchSucceeds | lib/transfer_api.rb:88-96 | a batch returns true iff every source is accepted and, if there is any source, `/upload` exists |
| TransferApi.BatchStopsAtFirstRejection | lib/transfer_api.rb:91-93 | when source k is the first rejected one, the batch raises its error after storing exactly the sources before it |
| TransferApi.BatchTouchesOnlyUploads | lib/transfer_api.rb:91-93 | a batch changes no directory but `/upload` and removes no file from it |
| TransferApi.BatchStoresEverySource | lib/transfer_api.rb:91-93 | after a successful batch, every source's data file and map file are in `/upload`, and the last source's hold its data and its map |
| TransferApi.ProbeReply | lib/transfer_api.rb:17-25 | the probe answers true iff the link is authenticated and false iff it was never opened or was reset; it raises 530 on a half-open link and IOError on a link shut by `close` |
| TransferApi.CleanupNeedsAbsolutePath | lib/transfer_api.rb:31-32 | a relative or non-string directory never passes the `pwd == dir` check, even when it exists |
| TransferApi.FtpLogin | lib/transfer_api.rb:4-9 | on a logged-in link, true after STAT only, with no connect and no credentials sent; otherwise connect to the transfer URL, then send the FTP credentials, with the outcome of both; the working directory is the root once the connect succeeds and is unchanged otherwise |
| TransferApi.FtpLogout | lib/transfer_api.rb:12-14 | an opened link is closed, a never-opened one stays unopened, and nothing else changes |
| TransferApi.FtpLoggedIn | lib/transfer_api.rb:17-25 | true iff NOOP succeeds; a never-opened or reset link gives false instead of raising; other errors, including the IOError of a closed link, propagate; nothing changes but the command log |
| TransferApi.DeleteEach | lib/transfer_api.rb:34 | deletes the listed files from the working directory in listing order, sending one DELE per name |
| TransferApi.DeleteListed | lib/transfer_api.rb:34 | NLST then one DELE per listed file leaves the working directory empty, changes no other directory, and sends only deletions after the listing |
| TransferApi.FtpCleanup | lib/transfer_api.rb:28-36 | a blank directory raises ArgumentError and sends nothing; after CWD, a `pwd` different from the argument raises RuntimeError and deletes nothing; otherwise the directory ends up empty, nothing else changes, and the result is true. The working directory is the resolved one exactly when CWD succeeds; on an error after CWD, the log holds CWD, and PWD only if CWD succeeded |
| TransferApi.StorFile | lib/transfer_api.rb:124-134 | always sends CWD `/upload` first; on success the file is in `/upload`, the working directory is `/upload`, and nothing else changed |
| TransferApi.TransferList | lib/transfer_api.rb:112-121 | rejected arguments raise before any command is sent; otherwise the effect is `AfterTransfer`. It succeeds iff the arguments are accepted, the link is logged in and `/upload` exists. On success the log gains CWD `/upload`, STOR data, CWD `/upload`, STOR map, and the working directory is `/upload`; on a refused link only the first CWD is sent; on any error the working directory is unchanged |
| TransferApi.TransferEach | lib/transfer_api.rb:91-93 | on a logged-in link, the tree and the result are exactly `RunBatch` of the sources, and the log gains exactly `BatchCalls`: each source's commands in order, ending with the first failure. The working directory is `/upload` once the first source is uploaded, and unchanged otherwise; a successful non-empty batch ends in `/upload` |
| TransferApi.TransferNext | lib/transfer_api.rb:91-92 | one turn of the loop: a successful source leaves the rest of `RunBatch` and `BatchCalls` to do from the new tree and log; a failed one ends the batch with exactly its outcome and log, and leaves the working directory as it was |
| TransferApi.BatchCallsInOrder | lib/transfer_api.rb:91-93 | when every source is accepted and `/upload` exists, the batch sends four commands per source, and the i-th block of four is CWD `/upload`, STOR name, CWD `/upload`, STOR name.map.xml for the i-th source |
| TransferApi.BatchCallsUploadOnly | lib/transfer_api.rb:91-93 | every command a batch sends is CWD `/upload` or a STOR |
| TransferApi.FirstUploadsAlone | lib/transfer_api.rb:92 | the first source is uploaded, moving the session to `/upload`, exactly when transferring it alone succeeds |
| TransferApi.BatchCallsStep | lib/transfer_api.rb:91-93 | the commands for the sources from i are those for source i alone, followed by those for the rest only when source i succeeded |
| TransferApi.TransferLists | lib/transfer_api.rb:88-96 | logs in only when not logged in, and raises the login's error if that fails; otherwise the tree and the result are `RunBatch`, and the log is NOOP, then STAT, connect and USER/PASS only when not logged in, then `BatchCalls`. The working directory is `/upload` once a source is uploaded, the root after a fresh login, and unchanged otherwise; a successful non-empty batch ends in `/upload`. An already logged-in link sends no connect and no credentials |

## Left out

- `get_file` is not modelled. Its work is local filesystem access (`Rails.root`, `mkdir_p`) and a download.
- `send_request`, the `TransactApi` and `XmlApi` mixins and the `SilverpopError` classes are not part of this model. They are HTTP I/O or code outside the transfer subsystem.
- TransferApi.StorFile: the `File` versus `StringIO` branch and the block size are not modelled. A store is "write these contents under this name".
- MapBuilder.MakeMap: the document is a tree. The XML declaration's text, Builder's indentation, text escaping and the byte-level serialisation are not modelled.
- MapBuilder.MakeMap: values nested inside entries are scalars. Arrays or hashes used as element values are not modelled.
- RubyValues.Present: a string is blank when it holds only ASCII whitespace. The Unicode whitespace that `blank?` also skips is not modelled.
- TransferApi.TransferLists takes a flat sequence of sources. The flattening of nested source arrays is not modelled.
- TransferApi.Source: a file name is a string. A non-string name, which Ruby would interpolate with `to_s`, is not modelled.
- TransferApi.FtpLogin: a successful login returns true. The return value of `Net::FTP#login` is not modelled.
- FtpSession.Ftp.Status: the scan of the STAT reply for "Logged in as" is abstracted to "the link is authenticated". The blanket `rescue nil` is abstracted to "any failure means not logged in".
- FtpSession.Ftp.Connect: connection failures are abstracted to "the host is not the server's". DNS, timeouts and the greeting exchange are not modelled.
- FtpSession.Ftp.Login: the server is assumed to answer USER with a request for a password (3xx), so a missing password always raises FTPReplyError. A server that logs a user in on USER alone is not modelled. A TypeError is logged as a login attempt although `Net::FTP` raises it before writing the command that holds the bad value.
- FtpSession.Ftp.Noop: the server is assumed to refuse NOOP with 530 before login. Section 5.4 of RFC 959 lists only 200, 500 and 421 as NOOP replies, and a server that answers 200 there would make `ftp_logged_in?` answer true on a half-open link.
- FtpSession.Ftp.Close: a command sent after `close` raises IOError, as `Net::FTP` does when it writes to the socket that `close` shut. A connection that was never opened raises FTPConnectionError instead.
- FtpSession.Ftp.Chdir: a path is absolute or joined onto the working directory. `..` and trailing slashes are not normalised.
- FtpSession.Ftp.Nlst: a directory holds only files. Subdirectories and the server's listing order are not modelled, and the model allows any order.
- FtpSession.Ftp.Delete: server-side permission failures other than a missing file are not modelled.
- FtpSession.Ftp.Store: a STOR after a successful CWD always succeeds. No 4xx or 5xx reply, abort or full disk is modelled, so a transfer that stores the data but not the map is not modelled.
