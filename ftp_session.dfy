/**
 * The FTP connection the client owns (Net::FTP), together with the state of
 * the remote server it talks to. Only what the transfer subsystem relies on
 * is modelled: the login state of the control connection, the working
 * directory, the directory tree, and the commands sent, in order.
 */
module FtpSession {

  import opened Wrappers
  import opened Errors
  import opened RubyValues
  import opened XmlTree

  /** What a stored file holds: uploaded data bytes, or a generated mapping document. */
  datatype Payload = Raw(bytes: seq<bv8>) | Markup(doc: Document)

  /** A remote directory: file name to contents. */
  type Directory = map<string, Payload>

  /** The remote tree: absolute directory path to directory. */
  type Tree = map<string, Directory>

  /** The control connection as the client sees it. */
  datatype Link =
    | Unopened        // never connected: every command raises FTPConnectionError
    | Closed          // shut by `close`: a command on the closed socket raises IOError
    | Broken          // reset by the peer
    | Connected       // open, credentials not yet accepted
    | Authenticated   // open and logged in

  /** The calls the client makes on its connection, in the order it makes them. */
  datatype Call =
    | StatusCall
    | ConnectCall(host: Value)
    | LoginCall(user: Value)
    | CloseCall
    | NoopCall
    | ChdirCall(dir: string)
    | PwdCall
    | NlstCall
    | DeleteCall(name: string)
    | StoreCall(name: string)

  /** The server side: its host name, its accounts, and its directory tree. */
  datatype Remote = Remote(host: string, accounts: map<string, string>, tree: Tree)

  const ROOT := "/"

  /** The exception a command raises on a link that cannot carry it, if any. */
  function Refusal(link: Link): Option<Error> {
    match link
    case Authenticated => None
    case Connected => Some(FtpPermError(NOT_LOGGED_IN))
    case Unopened => Some(FtpConnectionError)
    case Closed => Some(IOError)
    case Broken => Some(BrokenPipe)
  }

  /** The absolute path a CWD argument names, seen from the working directory `cwd`. */
  function Resolve(cwd: string, dir: string): string {
    if |dir| > 0 && dir[0] == '/' then dir
    else if cwd == ROOT then ROOT + dir
    else cwd + "/" + dir
  }

  /** The user name for which `Net::FTP#login` supplies a password of its own. */
  const ANONYMOUS := "anonymous"

  /** The password `Net::FTP#login` sends for the anonymous user when none is given. */
  const ANONYMOUS_PASSWORD := "anonymous@"

  /** The password `Net::FTP#login` sends: its own for the anonymous user without one, otherwise the given one. */
  function SentPassword(user: Value, password: Value): Value {
    if user == Str(ANONYMOUS) && password.Nil? then Str(ANONYMOUS_PASSWORD) else password
  }

  /**
   * The outcome of `Net::FTP#login(user, password)` on a link in state `link`.
   * USER needs a string; the server then asks for a password, which must be
   * given, and a string, and match the account.
   */
  function LoginReply(link: Link, accounts: map<string, string>, user: Value, password: Value): (r: Result<bool, Error>)
    ensures link != Connected ==> r.Err? && r.error != TypeError && r.error != FtpReplyError
    ensures link == Connected && !user.Str? ==> r == Err(TypeError)
    ensures link == Connected && user.Str? && user != Str(ANONYMOUS) && password.Nil? ==> r == Err(FtpReplyError)
    ensures link == Connected && user.Str? && !password.Nil? && !password.Str? ==> r == Err(TypeError)
    ensures link == Connected && user == Str(ANONYMOUS) && password.Nil? ==>
      (r.Ok? <==> ANONYMOUS in accounts && accounts[ANONYMOUS] == ANONYMOUS_PASSWORD)
    ensures r.Ok? <==>
      link == Connected && user.Str? && SentPassword(user, password).Str? &&
      user.s in accounts && accounts[user.s] == SentPassword(user, password).s
    ensures r.Ok? ==> r.value
    ensures link == Connected && user.Str? && password.Str? && r.Err? ==> r == Err(FtpPermError(NOT_LOGGED_IN))
  {
    match link
    case Unopened => Err(FtpConnectionError)
    case Closed => Err(IOError)
    case Broken => Err(BrokenPipe)
    case Authenticated => Err(FtpPermError(NOT_LOGGED_IN))
    case Connected =>
      var pass := SentPassword(user, password);
      if !user.Str? then Err(TypeError)
      else if pass.Nil? then Err(FtpReplyError)
      else if !pass.Str? then Err(TypeError)
      else if user.s in accounts && accounts[user.s] == pass.s then Ok(true)
      else Err(FtpPermError(NOT_LOGGED_IN))
  }

  predicate Distinct<T(==)>(s: seq<T>) {
    forall i, j :: 0 <= i < j < |s| ==> s[i] != s[j]
  }

  class Ftp {
    const host: string
    const accounts: map<string, string>
    var link: Link
    var cwd: string
    var tree: Tree
    var calls: seq<Call>

    /** `Net::FTP.new`: a connection that is not yet open, to the given server. */
    constructor (remote: Remote)
      ensures host == remote.host && accounts == remote.accounts && tree == remote.tree
      ensures link == Unopened && cwd == ROOT && calls == []
    {
      host := remote.host;
      accounts := remote.accounts;
      tree := remote.tree;
      link := Unopened;
      cwd := ROOT;
      calls := [];
    }

    /** STAT: whether the server's status reply reports a logged-in user. */
    method Status() returns (r: Result<bool, Error>)
      modifies this`calls
      ensures calls == old(calls) + [StatusCall]
      ensures r == if link == Authenticated then Ok(true) else Err(Refusal(link).value)
    {
      calls := calls + [StatusCall];
      if link == Authenticated {
        r := Ok(true);
      } else {
        r := Err(Refusal(link).value);
      }
    }

    /** Opens a new control connection to `h`, replacing any earlier one. */
    method Connect(h: Value) returns (r: Result<(), Error>)
      modifies this`link, this`cwd, this`calls
      ensures calls == old(calls) + [ConnectCall(h)]
      ensures h == Str(host) ==> r == Ok(()) && link == Connected && cwd == ROOT
      ensures h != Str(host) ==> r == Err(ConnectFailed) && link == old(link) && cwd == old(cwd)
    {
      calls := calls + [ConnectCall(h)];
      if h == Str(host) {
        link, cwd := Connected, ROOT;
        r := Ok(());
      } else {
        r := Err(ConnectFailed);
      }
    }

    method Login(user: Value, password: Value) returns (r: Result<bool, Error>)
      modifies this`link, this`calls
      ensures calls == old(calls) + [LoginCall(user)]
      ensures r == LoginReply(old(link), accounts, user, password)
      ensures link == if r.Ok? then Authenticated else old(link)
    {
      calls := calls + [LoginCall(user)];
      r := LoginReply(link, accounts, user, password);
      if r.Ok? {
        link := Authenticated;
      }
    }

    /**
     * Shuts the connection's socket. A connection that was never opened has
     * no socket to shut and stays unopened; closing twice is harmless.
     */
    method Close()
      modifies this`link, this`calls
      ensures calls == old(calls) + [CloseCall]
      ensures link == if old(link) == Unopened then Unopened else Closed
    {
      calls := calls + [CloseCall];
      if link != Unopened {
        link := Closed;
      }
    }

    /** NOOP: succeeds exactly on a logged-in connection. */
    method Noop() returns (r: Result<(), Error>)
      modifies this`calls
      ensures calls == old(calls) + [NoopCall]
      ensures r == if Refusal(link).None? then Ok(()) else Err(Refusal(link).value)
    {
      calls := calls + [NoopCall];
      r := if Refusal(link).None? then Ok(()) else Err(Refusal(link).value);
    }

    /** CWD: moves to `dir` (absolute, or relative to the working directory) when it exists. */
    method Chdir(dir: string) returns (r: Result<(), Error>)
      modifies this`cwd, this`calls
      ensures calls == old(calls) + [ChdirCall(dir)]
      ensures Refusal(link).Some? ==> r == Err(Refusal(link).value) && cwd == old(cwd)
      ensures Refusal(link).None? && Resolve(old(cwd), dir) in tree ==> r == Ok(()) && cwd == Resolve(old(cwd), dir)
      ensures Refusal(link).None? && Resolve(old(cwd), dir) !in tree ==>
        r == Err(FtpPermError(FILE_UNAVAILABLE)) && cwd == old(cwd)
    {
      calls := calls + [ChdirCall(dir)];
      if Refusal(link).Some? {
        r := Err(Refusal(link).value);
      } else if Resolve(cwd, dir) in tree {
        cwd := Resolve(cwd, dir);
        r := Ok(());
      } else {
        r := Err(FtpPermError(FILE_UNAVAILABLE));
      }
    }

    /** PWD: the working directory. */
    method Pwd() returns (r: Result<string, Error>)
      modifies this`calls
      ensures calls == old(calls) + [PwdCall]
      ensures r == if Refusal(link).None? then Ok(cwd) else Err(Refusal(link).value)
    {
      calls := calls + [PwdCall];
      r := if Refusal(link).None? then Ok(cwd) else Err(Refusal(link).value);
    }

    /** NLST: the names in the working directory, each once, in the server's order. */
    method Nlst() returns (r: Result<seq<string>, Error>)
      modifies this`calls
      ensures calls == old(calls) + [NlstCall]
      ensures Refusal(link).Some? ==> r == Err(Refusal(link).value)
      ensures Refusal(link).None? && cwd !in tree ==> r == Err(FtpPermError(FILE_UNAVAILABLE))
      ensures Refusal(link).None? && cwd in tree ==>
        r.Ok? && Distinct(r.value) && forall f :: f in r.value <==> f in tree[cwd]
    {
      calls := calls + [NlstCall];
      if Refusal(link).Some? {
        return Err(Refusal(link).value);
      }
      if cwd !in tree {
        return Err(FtpPermError(FILE_UNAVAILABLE));
      }
      var rest := tree[cwd].Keys;
      var names: seq<string> := [];
      while rest != {}
        invariant forall f :: f in names || f in rest <==> f in tree[cwd]
        invariant forall f :: f in names ==> f !in rest
        invariant Distinct(names)
        decreases rest
      {
        var f :| f in rest;
        names := names + [f];
        rest := rest - {f};
      }
      r := Ok(names);
    }

    /** DELE: removes `name` from the working directory. */
    method Delete(name: string) returns (r: Result<(), Error>)
      modifies this`tree, this`calls
      ensures calls == old(calls) + [DeleteCall(name)]
      ensures Refusal(link).Some? ==> r == Err(Refusal(link).value) && tree == old(tree)
      ensures Refusal(link).None? && cwd in old(tree) && name in old(tree)[cwd] ==>
        r == Ok(()) && tree == old(tree)[cwd := old(tree)[cwd] - {name}]
      ensures Refusal(link).None? && !(cwd in old(tree) && name in old(tree)[cwd]) ==>
        r == Err(FtpPermError(FILE_UNAVAILABLE)) && tree == old(tree)
    {
      calls := calls + [DeleteCall(name)];
      if Refusal(link).Some? {
        r := Err(Refusal(link).value);
      } else if cwd in tree && name in tree[cwd] {
        tree := tree[cwd := tree[cwd] - {name}];
        r := Ok(());
      } else {
        r := Err(FtpPermError(FILE_UNAVAILABLE));
      }
    }

    /** STOR: writes `content` under `name` in the working directory, replacing any file of that name. */
    method Store(name: string, content: Payload) returns (r: Result<(), Error>)
      modifies this`tree, this`calls
      ensures calls == old(calls) + [StoreCall(name)]
      ensures Refusal(link).Some? ==> r == Err(Refusal(link).value) && tree == old(tree)
      ensures Refusal(link).None? && cwd in old(tree) ==>
        r == Ok(()) && tree == old(tree)[cwd := old(tree)[cwd][name := content]]
      ensures Refusal(link).None? && cwd !in old(tree) ==>
        r == Err(FtpPermError(FILE_UNAVAILABLE)) && tree == old(tree)
    {
      calls := calls + [StoreCall(name)];
      if Refusal(link).Some? {
        r := Err(Refusal(link).value);
      } else if cwd in tree {
        tree := tree[cwd := tree[cwd][name := content]];
        r := Ok(());
      } else {
        r := Err(FtpPermError(FILE_UNAVAILABLE));
      }
    }
  }
}
