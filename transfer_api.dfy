/**
 * `Silverpopper::TransferApi`: logging in to the transfer FTP server,
 * cleaning a remote directory, and uploading lists with their mapping
 * files. The mixin's methods take the client they are mixed into.
 */
module TransferApi {

  import opened Wrappers
  import opened Errors
  import opened RubyValues
  import opened XmlTree
  import opened MapBuilder
  import opened FtpSession
  import opened SilverpopClient

  /** The directory every upload goes to. */
  const UPLOAD_DIR := "/upload"

  /** Appended to a list's file name to name its mapping file. */
  const MAP_SUFFIX := ".map.xml"

  const CLEANUP_MESSAGE := "expected to get some directory to cleanup"
  const CHDIR_MESSAGE := "unable to enter the given directory "

  /**
   * One transfer request: the `:map`, `:data` and `:name` entries of a
   * source hash, with `None` for an entry that is missing, `nil` or `false`.
   */
  datatype Source = Source(mapArg: MapArg, data: Option<seq<bv8>>, name: Option<string>)

  /** What `transfer_list` uploads once its arguments are accepted. */
  datatype Staged = Staged(name: string, data: seq<bv8>, doc: Document)

  function MapFileName(name: string): string {
    name + MAP_SUFFIX
  }

  /** Whether `map` reads as false in `not map`. */
  predicate FalsyMap(m: MapArg) {
    m.NotHash? && !Truthy(m.value)
  }

  /**
   * The argument checks of `transfer_list` and the map it builds, before
   * anything is sent: a falsy map, data or name is a bare ArgumentError,
   * and a truthy map that is not a hash is the map builder's error.
   */
  function Prepare(src: Source): (r: Result<Staged, Error>)
    ensures r.Ok? <==> src.mapArg.Hash? && src.data.Some? && src.name.Some?
    ensures r.Err? ==> r.error.ArgumentError?
    ensures !FalsyMap(src.mapArg) && src.mapArg.NotHash? && src.data.Some? && src.name.Some? ==>
      r == Err(ArgumentError(NOT_A_HASH_MESSAGE))
    ensures FalsyMap(src.mapArg) || src.data.None? || src.name.None? ==>
      r == Err(ArgumentError(DEFAULT_ARGUMENT_MESSAGE))
    ensures r.Ok? ==>
      r.value.name == src.name.value && r.value.data == src.data.value && MakeMap(src.mapArg) == Ok(r.value.doc)
  {
    if FalsyMap(src.mapArg) || src.data.None? || src.name.None? then
      Err(ArgumentError(DEFAULT_ARGUMENT_MESSAGE))
    else
      match MakeMap(src.mapArg)
      case Err(e) => Err(e)
      case Ok(doc) => Ok(Staged(src.name.value, src.data.value, doc))
  }

  /** The tree after a request's data file and then its mapping file are written to the upload directory. */
  function AfterTransfer(tree: Tree, st: Staged): Tree
    requires UPLOAD_DIR in tree
  {
    var withData := tree[UPLOAD_DIR := tree[UPLOAD_DIR][st.name := Raw(st.data)]];
    withData[UPLOAD_DIR := withData[UPLOAD_DIR][MapFileName(st.name) := Markup(st.doc)]]
  }

  /**
   * A transfer adds exactly the data file and the mapping file to the upload
   * directory, under two different names, and changes nothing else.
   */
  lemma AfterTransferContents(tree: Tree, st: Staged)
    requires UPLOAD_DIR in tree
    ensures MapFileName(st.name) != st.name
    ensures AfterTransfer(tree, st).Keys == tree.Keys
    ensures forall d :: d in tree && d != UPLOAD_DIR ==> AfterTransfer(tree, st)[d] == tree[d]
    ensures AfterTransfer(tree, st)[UPLOAD_DIR].Keys == tree[UPLOAD_DIR].Keys + {st.name, MapFileName(st.name)}
    ensures AfterTransfer(tree, st)[UPLOAD_DIR][st.name] == Raw(st.data)
    ensures AfterTransfer(tree, st)[UPLOAD_DIR][MapFileName(st.name)] == Markup(st.doc)
    ensures forall f :: f in tree[UPLOAD_DIR] && f != st.name && f != MapFileName(st.name) ==>
      AfterTransfer(tree, st)[UPLOAD_DIR][f] == tree[UPLOAD_DIR][f]
  {
    assert |MapFileName(st.name)| == |st.name| + |MAP_SUFFIX|;
  }

  /**
   * The loop of `transfer_lists` on a logged-in connection: each source in
   * turn is checked and uploaded; the first failure ends the batch, and what
   * was uploaded before it stays.
   */
  function RunBatch(tree: Tree, sources: seq<Source>): (Tree, Result<bool, Error>)
    decreases |sources|
  {
    if sources == [] then (tree, Ok(true))
    else match Prepare(sources[0])
      case Err(e) => (tree, Err(e))
      case Ok(st) =>
        if UPLOAD_DIR !in tree then (tree, Err(FtpPermError(FILE_UNAVAILABLE)))
        else RunBatch(AfterTransfer(tree, st), sources[1..])
  }

  /** The commands `transfer_list` sends for an accepted request: CWD and STOR for the data, then for its map. */
  function TransferCalls(name: string): seq<Call> {
    [ChdirCall(UPLOAD_DIR), StoreCall(name), ChdirCall(UPLOAD_DIR), StoreCall(MapFileName(name))]
  }

  /**
   * The commands the loop of `transfer_lists` sends on a logged-in
   * connection, alongside `RunBatch`: nothing for a rejected request, a lone
   * CWD when the upload directory is missing.
   */
  function BatchCalls(tree: Tree, sources: seq<Source>): seq<Call>
    decreases |sources|
  {
    if sources == [] then []
    else match Prepare(sources[0])
      case Err(_) => []
      case Ok(st) =>
        if UPLOAD_DIR !in tree then [ChdirCall(UPLOAD_DIR)]
        else TransferCalls(st.name) + BatchCalls(AfterTransfer(tree, st), sources[1..])
  }

  /** Whether the first source of a batch is uploaded, which moves the session to the upload directory. */
  predicate FirstUploads(tree: Tree, sources: seq<Source>) {
    sources != [] && Prepare(sources[0]).Ok? && UPLOAD_DIR in tree
  }

  /** The first source is uploaded exactly when running it alone succeeds. */
  lemma FirstUploadsAlone(tree: Tree, sources: seq<Source>)
    requires sources != []
    ensures FirstUploads(tree, sources) <==> RunBatch(tree, [sources[0]]).1.Ok?
  {
    // The contents of a mapping document play no part in how a batch proceeds.
    hide MakeMap;
    assert [sources[0]][1..] == [];
  }

  /** Running the sources from `i` is running source `i` alone, then the rest if it succeeded. */
  lemma RunBatchStep(tree: Tree, sources: seq<Source>, i: nat)
    requires i < |sources|
    ensures RunBatch(tree, [sources[i]]).1.Err? ==> RunBatch(tree, sources[i..]) == RunBatch(tree, [sources[i]])
    ensures RunBatch(tree, [sources[i]]).1.Ok? ==>
      RunBatch(tree, sources[i..]) == RunBatch(RunBatch(tree, [sources[i]]).0, sources[i + 1..])
  {
    hide MakeMap;
    assert sources[i..][0] == sources[i] && sources[i..][1..] == sources[i + 1..];
    assert [sources[i]][1..] == [];
  }

  /** The commands sent for the sources from `i` are those for source `i`, then, if it succeeded, those for the rest. */
  lemma BatchCallsStep(tree: Tree, sources: seq<Source>, i: nat)
    requires i < |sources|
    ensures RunBatch(tree, [sources[i]]).1.Err? ==> BatchCalls(tree, sources[i..]) == BatchCalls(tree, [sources[i]])
    ensures RunBatch(tree, [sources[i]]).1.Ok? ==>
      BatchCalls(tree, sources[i..]) == BatchCalls(tree, [sources[i]]) + BatchCalls(RunBatch(tree, [sources[i]]).0, sources[i + 1..])
  {
    hide MakeMap;
    var rest := sources[i..];
    assert rest[0] == sources[i] && rest[1..] == sources[i + 1..];
    assert [sources[i]][1..] == [];
    if Prepare(sources[i]).Ok? && UPLOAD_DIR in tree {
      var st := Prepare(sources[i]).value;
      var next := AfterTransfer(tree, st);
      assert RunBatch(tree, [sources[i]]) == RunBatch(next, []);
      assert BatchCalls(tree, rest) == TransferCalls(st.name) + BatchCalls(next, sources[i + 1..]);
      assert BatchCalls(tree, [sources[i]]) == TransferCalls(st.name) + BatchCalls(next, []);
    } else {
      assert RunBatch(tree, [sources[i]]).1.Err?;
      assert BatchCalls(tree, rest) == BatchCalls(tree, [sources[i]]);
    }
  }

  /**
   * One source more, as the loop of `transfer_lists` sees it: if the source
   * is uploaded, the rest of the batch continues from the new tree; otherwise
   * the batch is over with that source's outcome.
   */
  lemma RunBatchAdvance(tree0: Tree, sources: seq<Source>, i: nat, tree: Tree, tree': Tree, r: Result<bool, Error>)
    requires i < |sources| && RunBatch(tree, sources[i..]) == RunBatch(tree0, sources)
    requires (tree', r) == RunBatch(tree, [sources[i]])
    ensures r.Ok? ==> RunBatch(tree', sources[i + 1..]) == RunBatch(tree0, sources)
    ensures r.Err? ==> (tree', r) == RunBatch(tree0, sources)
  {
    hide MakeMap;
    RunBatchStep(tree, sources, i);
  }

  /** The same step for the commands sent. */
  lemma BatchCallsAdvance(tree0: Tree, calls0: seq<Call>, sources: seq<Source>, i: nat,
                          tree: Tree, calls: seq<Call>, calls': seq<Call>)
    requires i < |sources| && calls + BatchCalls(tree, sources[i..]) == calls0 + BatchCalls(tree0, sources)
    requires calls' == calls + BatchCalls(tree, [sources[i]])
    ensures RunBatch(tree, [sources[i]]).1.Ok? ==>
      calls' + BatchCalls(RunBatch(tree, [sources[i]]).0, sources[i + 1..]) == calls0 + BatchCalls(tree0, sources)
    ensures RunBatch(tree, [sources[i]]).1.Err? ==> calls' == calls0 + BatchCalls(tree0, sources)
  {
    hide MakeMap;
    BatchCallsStep(tree, sources, i);
    if RunBatch(tree, [sources[i]]).1.Ok? {
      AppendAssoc(calls, BatchCalls(tree, [sources[i]]), BatchCalls(RunBatch(tree, [sources[i]]).0, sources[i + 1..]));
    }
  }

  lemma AppendAssoc<T>(a: seq<T>, b: seq<T>, c: seq<T>)
    ensures (a + b) + c == a + (b + c)
  {
  }

  /** Four elements in front of a sequence move its `i - 1`-th block of four to block `i`. */
  lemma BlockShift<T>(head: seq<T>, tail: seq<T>, i: nat)
    requires |head| == 4 && 0 < i && 4 * i + 4 <= |head| + |tail|
    ensures (head + tail)[4 * i..4 * i + 4] == tail[4 * (i - 1)..4 * (i - 1) + 4]
  {
  }

  /** Every source is acceptable. */
  predicate AllPrepared(sources: seq<Source>) {
    forall i :: 0 <= i < |sources| ==> Prepare(sources[i]).Ok?
  }

  /** The sources after the first are acceptable when all of them are. */
  lemma AllPreparedTail(sources: seq<Source>)
    requires sources != [] && AllPrepared(sources)
    ensures AllPrepared(sources[1..])
  {
    hide MakeMap;
    forall j | 0 <= j < |sources| - 1 ensures Prepare(sources[1..][j]).Ok? {
      assert sources[1..][j] == sources[j + 1];
    }
  }

  /** A batch succeeds exactly when every source is acceptable and, if there is any, the upload directory exists. */
  lemma {:induction false} BatchSucceeds(tree: Tree, sources: seq<Source>)
    ensures RunBatch(tree, sources).1.Ok? <==> AllPrepared(sources) && (sources == [] || UPLOAD_DIR in tree)
    ensures RunBatch(tree, sources).1.Ok? ==> RunBatch(tree, sources).1 == Ok(true)
    decreases |sources|
  {
    hide MakeMap;
    if sources != [] && Prepare(sources[0]).Ok? && UPLOAD_DIR in tree {
      var rest := sources[1..];
      var next := AfterTransfer(tree, Prepare(sources[0]).value);
      BatchSucceeds(next, rest);
      AfterTransferContents(tree, Prepare(sources[0]).value);
      assert AllPrepared(sources) <==> AllPrepared(rest) by {
        forall i | 0 <= i < |rest| ensures rest[i] == sources[i + 1] { }
        if AllPrepared(rest) {
          forall i | 0 <= i < |sources| ensures Prepare(sources[i]).Ok? {
            if i > 0 { assert sources[i] == rest[i - 1]; }
          }
        }
      }
    }
  }

  /**
   * When source `k` is the first one rejected, the batch ends with its
   * error, after uploading exactly the sources before it.
   */
  lemma {:induction false} BatchStopsAtFirstRejection(tree: Tree, sources: seq<Source>, k: nat)
    requires k < |sources|
    requires forall i :: 0 <= i < k ==> Prepare(sources[i]).Ok?
    requires Prepare(sources[k]).Err?
    requires UPLOAD_DIR in tree
    ensures RunBatch(tree, sources) == (RunBatch(tree, sources[..k]).0, Err(Prepare(sources[k]).error))
    ensures BatchCalls(tree, sources) == BatchCalls(tree, sources[..k])
    decreases k
  {
    hide MakeMap;
    if k > 0 {
      var next := AfterTransfer(tree, Prepare(sources[0]).value);
      AfterTransferContents(tree, Prepare(sources[0]).value);
      assert sources[1..][..k - 1] == sources[..k][1..];
      BatchStopsAtFirstRejection(next, sources[1..], k - 1);
    }
  }

  /** A batch only ever writes to the upload directory, and never removes a file from it. */
  lemma {:induction false} BatchTouchesOnlyUploads(tree: Tree, sources: seq<Source>)
    ensures RunBatch(tree, sources).0.Keys == tree.Keys
    ensures forall d :: d in tree && d != UPLOAD_DIR ==> RunBatch(tree, sources).0[d] == tree[d]
    ensures UPLOAD_DIR in tree ==> tree[UPLOAD_DIR].Keys <= RunBatch(tree, sources).0[UPLOAD_DIR].Keys
    decreases |sources|
  {
    hide MakeMap;
    if sources != [] && Prepare(sources[0]).Ok? && UPLOAD_DIR in tree {
      var next := AfterTransfer(tree, Prepare(sources[0]).value);
      AfterTransferContents(tree, Prepare(sources[0]).value);
      BatchTouchesOnlyUploads(next, sources[1..]);
    }
  }

  /**
   * After a successful batch, every source's data file and mapping file are
   * in the upload directory, and the last source's files hold its data and
   * its map.
   */
  lemma {:induction false} BatchStoresEverySource(tree: Tree, sources: seq<Source>)
    requires AllPrepared(sources) && UPLOAD_DIR in tree
    ensures UPLOAD_DIR in RunBatch(tree, sources).0
    ensures forall i :: 0 <= i < |sources| ==>
      sources[i].name.Some? &&
      sources[i].name.value in RunBatch(tree, sources).0[UPLOAD_DIR] &&
      MapFileName(sources[i].name.value) in RunBatch(tree, sources).0[UPLOAD_DIR]
    ensures sources != [] ==>
      var last := Prepare(sources[|sources| - 1]).value;
      RunBatch(tree, sources).0[UPLOAD_DIR][last.name] == Raw(last.data) &&
      RunBatch(tree, sources).0[UPLOAD_DIR][MapFileName(last.name)] == Markup(last.doc)
    decreases |sources|
  {
    hide MakeMap;
    if sources != [] {
      var st := Prepare(sources[0]).value;
      var next := AfterTransfer(tree, st);
      var rest := sources[1..];
      AfterTransferContents(tree, st);
      BatchTouchesOnlyUploads(next, rest);
      if rest != [] {
        BatchStoresEverySource(next, rest);
        assert sources[|sources| - 1] == rest[|rest| - 1];
      }
      forall i | 0 <= i < |sources|
        ensures sources[i].name.Some? &&
          sources[i].name.value in RunBatch(tree, sources).0[UPLOAD_DIR] &&
          MapFileName(sources[i].name.value) in RunBatch(tree, sources).0[UPLOAD_DIR]
      {
        if i > 0 {
          assert sources[i] == rest[i - 1];
        }
      }
    }
  }

  /**
   * A successful batch sends, for each source in order, CWD `/upload` and
   * STOR of its data, then CWD `/upload` and STOR of its map, and nothing else.
   */
  lemma {:induction false} BatchCallsInOrder(tree: Tree, sources: seq<Source>)
    requires AllPrepared(sources) && UPLOAD_DIR in tree
    ensures |BatchCalls(tree, sources)| == 4 * |sources|
    ensures forall i :: 0 <= i < |sources| ==>
      Prepare(sources[i]).Ok? &&
      BatchCalls(tree, sources)[4 * i..4 * i + 4] == TransferCalls(Prepare(sources[i]).value.name)
    decreases |sources|
  {
    hide MakeMap;
    if sources != [] {
      var st := Prepare(sources[0]).value;
      var next := AfterTransfer(tree, st);
      var rest := sources[1..];
      assert UPLOAD_DIR in next;
      AllPreparedTail(sources);
      BatchCallsInOrder(next, rest);
      var all := BatchCalls(tree, sources);
      assert all == TransferCalls(st.name) + BatchCalls(next, rest);
      forall i | 0 < i < |sources|
        ensures all[4 * i..4 * i + 4] == TransferCalls(Prepare(sources[i]).value.name)
      {
        assert sources[i] == rest[i - 1];
        BlockShift(TransferCalls(st.name), BatchCalls(next, rest), i);
      }
    }
  }

  /** A batch sends only CWD `/upload` and STOR commands. */
  lemma {:induction false} BatchCallsUploadOnly(tree: Tree, sources: seq<Source>)
    ensures forall k :: 0 <= k < |BatchCalls(tree, sources)| ==>
      BatchCalls(tree, sources)[k] == ChdirCall(UPLOAD_DIR) || BatchCalls(tree, sources)[k].StoreCall?
    decreases |sources|
  {
    hide MakeMap;
    if sources != [] && Prepare(sources[0]).Ok? && UPLOAD_DIR in tree {
      var st := Prepare(sources[0]).value;
      BatchCallsUploadOnly(AfterTransfer(tree, st), sources[1..]);
    }
  }

  /** What `ftp_logged_in?` answers on a link, or the error it lets through. */
  function ProbeReply(link: Link): (r: Result<bool, Error>)
    ensures r == Ok(true) <==> link == Authenticated
    ensures r == Ok(false) <==> link == Unopened || link == Broken
    ensures r.Err? <==> link == Connected || link == Closed
    ensures link == Connected ==> r == Err(FtpPermError(NOT_LOGGED_IN))
    ensures link == Closed ==> r == Err(IOError)
  {
    match link
    case Authenticated => Ok(true)
    case Unopened => Ok(false)
    case Broken => Ok(false)
    case Connected => Err(FtpPermError(NOT_LOGGED_IN))
    case Closed => Err(IOError)
  }

  /** What opening a fresh connection to `url` and logging in yields. */
  function ConnectAndLogin(ftp: Ftp, url: Value, user: Value, password: Value): Result<bool, Error> {
    if url != Str(ftp.host) then Err(ConnectFailed)
    else LoginReply(Connected, ftp.accounts, user, password)
  }

  /**
   * What `ftp_login unless ftp_logged_in?` yields on a link: nothing to do
   * when logged in, the probe's error on a half-open link, otherwise a
   * fresh login.
   */
  function EnsureLoggedIn(link: Link, ftp: Ftp, url: Value, user: Value, password: Value): Result<bool, Error> {
    match ProbeReply(link)
    case Err(e) => Err(e)
    case Ok(true) => Ok(true)
    case Ok(false) => ConnectAndLogin(ftp, url, user, password)
  }

  /** Whether CWD `dir` succeeds on a connection in the given state. */
  predicate CanEnter(link: Link, cwd: string, tree: Tree, dir: string) {
    Refusal(link).None? && Resolve(cwd, dir) in tree
  }

  /** The outcome of `ftp_cleanup(dir)` on a connection in the given state. */
  function CleanupOutcome(link: Link, cwd: string, tree: Tree, dir: Value): Result<bool, Error> {
    if !Present(dir) then Err(ArgumentError(CLEANUP_MESSAGE))
    else if Refusal(link).Some? then Err(Refusal(link).value)
    else if Resolve(cwd, ToS(dir)) !in tree then Err(FtpPermError(FILE_UNAVAILABLE))
    else if Str(Resolve(cwd, ToS(dir))) != dir then Err(RuntimeError(CHDIR_MESSAGE + ToS(dir)))
    else Ok(true)
  }

  /**
   * Only an absolute path can pass the check that the server's working
   * directory equals the argument: a relative name, or a value that is not a
   * string, always ends in an error, even when the directory exists.
   */
  lemma CleanupNeedsAbsolutePath(link: Link, cwd: string, tree: Tree, dir: Value)
    requires |cwd| > 0 && cwd[0] == '/'
    requires !(dir.Str? && |dir.s| > 0 && dir.s[0] == '/')
    ensures CleanupOutcome(link, cwd, tree, dir).Err?
  {
    if Present(dir) && dir.Str? {
      var path := Resolve(cwd, ToS(dir));
      assert path[0] == '/';
    }
  }

  /** `ftp_login`: reuses a logged-in connection, otherwise connects to the transfer host and logs in. */
  method FtpLogin(c: Client) returns (r: Result<bool, Error>)
    modifies c.ftp
    ensures c.ftp.tree == old(c.ftp.tree)
    ensures old(c.ftp.link) == Authenticated ==>
      r == Ok(true) && c.ftp.link == Authenticated && c.ftp.cwd == old(c.ftp.cwd) &&
      c.ftp.calls == old(c.ftp.calls) + [StatusCall]
    ensures old(c.ftp.link) != Authenticated ==>
      r == ConnectAndLogin(c.ftp, c.transferUrl, c.ftpUsername, c.ftpPassword) &&
      c.ftp.calls == old(c.ftp.calls) + [StatusCall, ConnectCall(c.transferUrl)] +
        (if c.transferUrl == Str(c.ftp.host) then [LoginCall(c.ftpUsername)] else [])
    ensures old(c.ftp.link) != Authenticated ==>
      c.ftp.link == (if r.Ok? then Authenticated else if c.transferUrl == Str(c.ftp.host) then Connected else old(c.ftp.link))
    ensures old(c.ftp.link) != Authenticated ==>
      c.ftp.cwd == (if c.transferUrl == Str(c.ftp.host) then ROOT else old(c.ftp.cwd))
  {
    var status := c.ftp.Status();
    if status == Ok(true) {
      return Ok(true);
    }
    var connected := c.ftp.Connect(c.transferUrl);
    if connected.Err? {
      return Err(connected.error);
    }
    r := c.ftp.Login(c.ftpUsername, c.ftpPassword);
  }

  /** `ftp_logout`: closes the connection. */
  method FtpLogout(c: Client)
    modifies c.ftp
    ensures c.ftp.link == if old(c.ftp.link) == Unopened then Unopened else Closed
    ensures c.ftp.calls == old(c.ftp.calls) + [CloseCall]
    ensures c.ftp.tree == old(c.ftp.tree) && c.ftp.cwd == old(c.ftp.cwd)
  {
    c.ftp.Close();
  }

  /**
   * `ftp_logged_in?`: a NOOP, with a connection that was never opened or was
   * reset read as not logged in; any other error, including the IOError of a
   * connection shut by `close`, propagates.
   */
  method FtpLoggedIn(c: Client) returns (r: Result<bool, Error>)
    modifies c.ftp
    ensures r == ProbeReply(c.ftp.link)
    ensures c.ftp.calls == old(c.ftp.calls) + [NoopCall]
    ensures c.ftp.link == old(c.ftp.link) && c.ftp.tree == old(c.ftp.tree) && c.ftp.cwd == old(c.ftp.cwd)
  {
    var noop := c.ftp.Noop();
    match noop
    case Ok(_) => r := Ok(true);
    case Err(e) =>
      if e == FtpConnectionError || e == BrokenPipe {
        r := Ok(false);
      } else {
        r := Err(e);
      }
  }

  /** The names a listing holds. */
  function Elements(names: seq<string>): set<string> {
    set f | f in names
  }

  /** The `each` loop of `ftp_cleanup`: deletes the listed names from the working directory, in order. */
  method DeleteEach(c: Client, names: seq<string>)
    requires c.ftp.link == Authenticated && c.ftp.cwd in c.ftp.tree
    requires Distinct(names) && forall f :: f in names ==> f in c.ftp.tree[c.ftp.cwd]
    modifies c.ftp
    ensures c.ftp.link == old(c.ftp.link) && c.ftp.cwd == old(c.ftp.cwd)
    ensures c.ftp.tree == old(c.ftp.tree)[c.ftp.cwd := old(c.ftp.tree)[c.ftp.cwd] - Elements(names)]
    ensures |c.ftp.calls| == |old(c.ftp.calls)| + |names| && c.ftp.calls[..|old(c.ftp.calls)|] == old(c.ftp.calls)
    ensures forall k :: 0 <= k < |names| ==> c.ftp.calls[|old(c.ftp.calls)| + k] == DeleteCall(names[k])
  {
    ghost var dir := c.ftp.tree[c.ftp.cwd];
    var i := 0;
    assert dir - Elements(names[..0]) == dir;
    while i < |names|
      invariant 0 <= i <= |names|
      invariant c.ftp.link == old(c.ftp.link) && c.ftp.cwd == old(c.ftp.cwd)
      invariant c.ftp.tree == old(c.ftp.tree)[c.ftp.cwd := dir - Elements(names[..i])]
      invariant |c.ftp.calls| == |old(c.ftp.calls)| + i && c.ftp.calls[..|old(c.ftp.calls)|] == old(c.ftp.calls)
      invariant forall k :: 0 <= k < i ==> c.ftp.calls[|old(c.ftp.calls)| + k] == DeleteCall(names[k])
    {
      assert names[i] !in names[..i];
      assert names[i] in dir - Elements(names[..i]);
      var del := c.ftp.Delete(names[i]);
      assert (dir - Elements(names[..i])) - {names[i]} == dir - Elements(names[..i + 1]) by {
        assert names[..i + 1] == names[..i] + [names[i]];
      }
      i := i + 1;
    }
    assert names[..i] == names;
  }

  /** `after` is `before` followed only by deletions. */
  ghost predicate DeletesAfter(before: seq<Call>, after: seq<Call>) {
    |before| <= |after| && after[..|before|] == before &&
    forall k :: |before| <= k < |after| ==> after[k].DeleteCall?
  }

  /** Lists the working directory and deletes every listed file. */
  method DeleteListed(c: Client)
    requires c.ftp.link == Authenticated && c.ftp.cwd in c.ftp.tree
    modifies c.ftp
    ensures c.ftp.link == old(c.ftp.link) && c.ftp.cwd == old(c.ftp.cwd)
    ensures c.ftp.tree == old(c.ftp.tree)[c.ftp.cwd := map[]]
    ensures DeletesAfter(old(c.ftp.calls) + [NlstCall], c.ftp.calls)
  {
    var listing := c.ftp.Nlst();
    var names := listing.value;
    ghost var start := c.ftp.calls;
    ghost var listed := c.ftp.tree[c.ftp.cwd];
    DeleteEach(c, names);
    assert listed - Elements(names) == map[];
    forall k | |start| <= k < |c.ftp.calls| ensures c.ftp.calls[k].DeleteCall? {
      assert c.ftp.calls[|start| + (k - |start|)] == DeleteCall(names[k - |start|]);
    }
  }

  /**
   * `ftp_cleanup(dir)`: enters `dir`, checks that the server now reports it
   * as the working directory, and deletes every file the server lists there.
   */
  method FtpCleanup(c: Client, dir: Value) returns (r: Result<bool, Error>)
    modifies c.ftp
    ensures r == CleanupOutcome(old(c.ftp.link), old(c.ftp.cwd), old(c.ftp.tree), dir)
    ensures r.Ok? ==> c.ftp.cwd == ToS(dir) && c.ftp.tree == old(c.ftp.tree)[ToS(dir) := map[]]
    ensures r.Err? ==> c.ftp.tree == old(c.ftp.tree)
    ensures c.ftp.link == old(c.ftp.link)
    ensures !Present(dir) ==> c.ftp.calls == old(c.ftp.calls) && c.ftp.cwd == old(c.ftp.cwd)
    ensures Present(dir) ==>
      |c.ftp.calls| > |old(c.ftp.calls)| && c.ftp.calls[..|old(c.ftp.calls)| + 1] == old(c.ftp.calls) + [ChdirCall(ToS(dir))]
    ensures r.Ok? ==> DeletesAfter(old(c.ftp.calls) + [ChdirCall(ToS(dir)), PwdCall, NlstCall], c.ftp.calls)
    ensures c.ftp.cwd ==
      if Present(dir) && CanEnter(old(c.ftp.link), old(c.ftp.cwd), old(c.ftp.tree), ToS(dir))
      then Resolve(old(c.ftp.cwd), ToS(dir)) else old(c.ftp.cwd)
    ensures r.Err? && Present(dir) ==>
      c.ftp.calls == old(c.ftp.calls) + [ChdirCall(ToS(dir))] +
        (if CanEnter(old(c.ftp.link), old(c.ftp.cwd), old(c.ftp.tree), ToS(dir)) then [PwdCall] else [])
  {
    if !Present(dir) {
      return Err(ArgumentError(CLEANUP_MESSAGE));
    }
    var entered := c.ftp.Chdir(ToS(dir));
    if entered.Err? {
      return Err(entered.error);
    }
    var pwd := c.ftp.Pwd();
    if Str(pwd.value) != dir {
      return Err(RuntimeError(CHDIR_MESSAGE + ToS(dir)));
    }
    ghost var start := c.ftp.calls;
    DeleteListed(c);
    assert c.ftp.calls[..|old(c.ftp.calls)| + 1] == old(c.ftp.calls) + [ChdirCall(ToS(dir))] by {
      assert c.ftp.calls[..|start| + 1][..|old(c.ftp.calls)| + 1] == c.ftp.calls[..|old(c.ftp.calls)| + 1];
    }
    r := Ok(true);
  }

  /** `stor_file(source, filename)`: enters the upload directory and stores `source` there under `filename`. */
  method StorFile(c: Client, source: Payload, filename: string) returns (r: Result<bool, Error>)
    modifies c.ftp
    ensures c.ftp.link == old(c.ftp.link)
    ensures r.Ok? <==> Refusal(old(c.ftp.link)).None? && UPLOAD_DIR in old(c.ftp.tree)
    ensures Refusal(old(c.ftp.link)).Some? ==> r == Err(Refusal(old(c.ftp.link)).value)
    ensures Refusal(old(c.ftp.link)).None? && UPLOAD_DIR !in old(c.ftp.tree) ==> r == Err(FtpPermError(FILE_UNAVAILABLE))
    ensures r.Ok? ==>
      r == Ok(true) && c.ftp.cwd == UPLOAD_DIR &&
      c.ftp.tree == old(c.ftp.tree)[UPLOAD_DIR := old(c.ftp.tree)[UPLOAD_DIR][filename := source]]
    ensures r.Err? ==> c.ftp.tree == old(c.ftp.tree) && c.ftp.cwd == old(c.ftp.cwd)
    ensures c.ftp.calls == old(c.ftp.calls) + [ChdirCall(UPLOAD_DIR)] + (if r.Ok? then [StoreCall(filename)] else [])
  {
    var entered := c.ftp.Chdir(UPLOAD_DIR);
    if entered.Err? {
      return Err(entered.error);
    }
    var stored := c.ftp.Store(filename, source);
    assert stored.Ok?;
    r := Ok(true);
  }

  /**
   * `transfer_list(map, data, name)`: checks its arguments and builds the
   * mapping document before sending anything, then uploads the data and the
   * mapping file.
   */
  method TransferList(c: Client, src: Source) returns (r: Result<bool, Error>)
    modifies c.ftp
    ensures c.ftp.link == old(c.ftp.link)
    ensures Prepare(src).Err? ==>
      r == Err(Prepare(src).error) && c.ftp.calls == old(c.ftp.calls) &&
      c.ftp.tree == old(c.ftp.tree) && c.ftp.cwd == old(c.ftp.cwd)
    ensures Refusal(old(c.ftp.link)).None? ==> (c.ftp.tree, r) == RunBatch(old(c.ftp.tree), [src])
    ensures Prepare(src).Ok? && Refusal(old(c.ftp.link)).Some? ==>
      r == Err(Refusal(old(c.ftp.link)).value) && c.ftp.tree == old(c.ftp.tree)
    ensures r.Ok? <==> Prepare(src).Ok? && Refusal(old(c.ftp.link)).None? && UPLOAD_DIR in old(c.ftp.tree)
    ensures c.ftp.cwd == if r.Ok? then UPLOAD_DIR else old(c.ftp.cwd)
    ensures r.Ok? ==> c.ftp.calls == old(c.ftp.calls) + TransferCalls(src.name.value)
    ensures Prepare(src).Ok? && Refusal(old(c.ftp.link)).Some? ==> c.ftp.calls == old(c.ftp.calls) + [ChdirCall(UPLOAD_DIR)]
    ensures Refusal(old(c.ftp.link)).None? ==> c.ftp.calls == old(c.ftp.calls) + BatchCalls(old(c.ftp.tree), [src])
  {
    hide MakeMap;
    var prepared := Prepare(src);
    if prepared.Err? {
      return Err(prepared.error);
    }
    var st := prepared.value;
    var first := StorFile(c, Raw(st.data), st.name);
    if first.Err? {
      return Err(first.error);
    }
    var second := StorFile(c, Markup(st.doc), MapFileName(st.name));
    assert second.Ok?;
    r := Ok(true);
  }

  /**
   * One turn of the `each` loop of `transfer_lists`: transfers source `i`.
   * If it is uploaded, the rest of the batch continues from the new tree and
   * log; otherwise the whole batch ends here, with that source's outcome.
   */
  method TransferNext(c: Client, sources: seq<Source>, i: nat, ghost tree0: Tree, ghost calls0: seq<Call>)
    returns (sent: Result<bool, Error>)
    requires i < |sources| && c.ftp.link == Authenticated
    requires RunBatch(c.ftp.tree, sources[i..]) == RunBatch(tree0, sources)
    requires c.ftp.calls + BatchCalls(c.ftp.tree, sources[i..]) == calls0 + BatchCalls(tree0, sources)
    modifies c.ftp
    ensures c.ftp.link == Authenticated
    ensures c.ftp.cwd == if sent.Ok? then UPLOAD_DIR else old(c.ftp.cwd)
    ensures i == 0 && old(c.ftp.tree) == tree0 ==> (sent.Ok? <==> FirstUploads(tree0, sources))
    ensures sent.Ok? ==>
      RunBatch(c.ftp.tree, sources[i + 1..]) == RunBatch(tree0, sources) &&
      c.ftp.calls + BatchCalls(c.ftp.tree, sources[i + 1..]) == calls0 + BatchCalls(tree0, sources)
    ensures sent.Err? ==>
      (c.ftp.tree, sent) == RunBatch(tree0, sources) && c.ftp.calls == calls0 + BatchCalls(tree0, sources)
  {
    hide MakeMap;
    ghost var calls := c.ftp.calls;
    ghost var tree := c.ftp.tree;
    sent := TransferList(c, sources[i]);
    if i == 0 {
      FirstUploadsAlone(tree, sources);
    }
    RunBatchAdvance(tree0, sources, i, tree, c.ftp.tree, sent);
    BatchCallsAdvance(tree0, calls0, sources, i, tree, calls, c.ftp.calls);
  }

  /** The `each` loop of `transfer_lists`, on a logged-in connection. */
  method TransferEach(c: Client, sources: seq<Source>) returns (r: Result<bool, Error>)
    requires c.ftp.link == Authenticated
    modifies c.ftp
    ensures (c.ftp.tree, r) == RunBatch(old(c.ftp.tree), sources)
    ensures c.ftp.link == Authenticated
    ensures c.ftp.calls == old(c.ftp.calls) + BatchCalls(old(c.ftp.tree), sources)
    ensures c.ftp.cwd == if FirstUploads(old(c.ftp.tree), sources) then UPLOAD_DIR else old(c.ftp.cwd)
    ensures r.Ok? && sources != [] ==> c.ftp.cwd == UPLOAD_DIR
  {
    hide MakeMap;
    var i := 0;
    assert sources[0..] == sources;
    while i < |sources|
      invariant 0 <= i <= |sources|
      invariant c.ftp.link == Authenticated
      invariant i == 0 ==> c.ftp.tree == old(c.ftp.tree) && c.ftp.cwd == old(c.ftp.cwd)
      invariant i > 0 ==> FirstUploads(old(c.ftp.tree), sources) && c.ftp.cwd == UPLOAD_DIR
      invariant RunBatch(c.ftp.tree, sources[i..]) == RunBatch(old(c.ftp.tree), sources)
      invariant c.ftp.calls + BatchCalls(c.ftp.tree, sources[i..]) == old(c.ftp.calls) + BatchCalls(old(c.ftp.tree), sources)
    {
      var sent := TransferNext(c, sources, i, old(c.ftp.tree), old(c.ftp.calls));
      if sent.Err? {
        return Err(sent.error);
      }
      i := i + 1;
    }
    assert sources[i..] == [];
    r := Ok(true);
  }

  /**
   * `transfer_lists(*sources)`: logs in unless already logged in, then
   * transfers each source in order; the first error ends the call.
   */
  method TransferLists(c: Client, sources: seq<Source>) returns (r: Result<bool, Error>)
    modifies c.ftp
    ensures EnsureLoggedIn(old(c.ftp.link), c.ftp, c.transferUrl, c.ftpUsername, c.ftpPassword).Err? ==>
      r == Err(EnsureLoggedIn(old(c.ftp.link), c.ftp, c.transferUrl, c.ftpUsername, c.ftpPassword).error) &&
      c.ftp.tree == old(c.ftp.tree)
    ensures EnsureLoggedIn(old(c.ftp.link), c.ftp, c.transferUrl, c.ftpUsername, c.ftpPassword).Ok? ==>
      (c.ftp.tree, r) == RunBatch(old(c.ftp.tree), sources) && c.ftp.link == Authenticated
    ensures EnsureLoggedIn(old(c.ftp.link), c.ftp, c.transferUrl, c.ftpUsername, c.ftpPassword).Ok? ==>
      c.ftp.calls == old(c.ftp.calls) + [NoopCall] +
        (if old(c.ftp.link) == Authenticated then [] else [StatusCall, ConnectCall(c.transferUrl), LoginCall(c.ftpUsername)]) +
        BatchCalls(old(c.ftp.tree), sources)
    ensures EnsureLoggedIn(old(c.ftp.link), c.ftp, c.transferUrl, c.ftpUsername, c.ftpPassword).Ok? ==>
      c.ftp.cwd ==
        if FirstUploads(old(c.ftp.tree), sources) then UPLOAD_DIR
        else if old(c.ftp.link) == Authenticated then old(c.ftp.cwd) else ROOT
    ensures EnsureLoggedIn(old(c.ftp.link), c.ftp, c.transferUrl, c.ftpUsername, c.ftpPassword).Err? ==>
      c.ftp.cwd == if ProbeReply(old(c.ftp.link)).Ok? && c.transferUrl == Str(c.ftp.host) then ROOT else old(c.ftp.cwd)
    ensures EnsureLoggedIn(old(c.ftp.link), c.ftp, c.transferUrl, c.ftpUsername, c.ftpPassword).Err? ==>
      c.ftp.link == (if ProbeReply(old(c.ftp.link)).Ok? && c.transferUrl == Str(c.ftp.host) then Connected else old(c.ftp.link)) &&
      c.ftp.calls == old(c.ftp.calls) + [NoopCall] +
        (if ProbeReply(old(c.ftp.link)).Err? then []
         else [StatusCall, ConnectCall(c.transferUrl)] + (if c.transferUrl == Str(c.ftp.host) then [LoginCall(c.ftpUsername)] else []))
    ensures r.Ok? && sources != [] ==> c.ftp.cwd == UPLOAD_DIR
    ensures old(c.ftp.link) == Authenticated ==>
      forall k :: |old(c.ftp.calls)| <= k < |c.ftp.calls| ==> !c.ftp.calls[k].ConnectCall? && !c.ftp.calls[k].LoginCall?
  {
    hide MakeMap, Prepare, RunBatch, BatchCalls, FirstUploads;
    var probe := FtpLoggedIn(c);
    if probe.Err? {
      return Err(probe.error);
    }
    if !probe.value {
      var login := FtpLogin(c);
      if login.Err? {
        return Err(login.error);
      }
    }
    ghost var start := c.ftp.calls;
    r := TransferEach(c, sources);
    BatchCallsUploadOnly(old(c.ftp.tree), sources);
    assert old(c.ftp.link) == Authenticated ==>
      forall k :: |old(c.ftp.calls)| <= k < |c.ftp.calls| ==> !c.ftp.calls[k].ConnectCall? && !c.ftp.calls[k].LoginCall?
    by {
      if old(c.ftp.link) == Authenticated {
        forall k | |old(c.ftp.calls)| <= k < |c.ftp.calls|
          ensures !c.ftp.calls[k].ConnectCall? && !c.ftp.calls[k].LoginCall?
        {
          if k < |start| {
            assert c.ftp.calls[k] == start[k];
          } else {
            assert c.ftp.calls[k] == BatchCalls(old(c.ftp.tree), sources)[k - |start|];
          }
        }
      }
    }
  }
}
