/**
 * `Silverpopper::Client`: the credentials, the pod number, the three service
 * URLs derived from it, and the FTP connection the transfer subsystem uses.
 */
module SilverpopClient {

  import opened Wrappers
  import opened RubyValues
  import FtpSession

  /**
   * The options hash given to `Client.new`; `None` stands for a key that
   * was not given, which reads as `nil`.
   */
  datatype Options = Options(
    apiUsername: Option<Value>,
    apiPassword: Option<Value>,
    ftpUsername: Option<Value>,
    ftpPassword: Option<Value>,
    pod: Option<Value>,
    apiUrl: Option<Value>,
    transactUrl: Option<Value>,
    transferUrl: Option<Value>)

  /** The pod used when none is given. */
  const DEFAULT_POD := 5

  /** The XML API endpoint of a pod. */
  function ApiUrlFor(pod: Value): string {
    "http://api" + ToS(pod) + ".silverpop.com"
  }

  /** The Transact API endpoint of a pod. */
  function TransactUrlFor(pod: Value): string {
    "http://transact" + ToS(pod) + ".silverpop.com"
  }

  /** The FTP host of a pod: a bare host name, without a scheme. */
  function TransferUrlFor(pod: Value): string {
    "transfer" + ToS(pod) + ".silverpop.com"
  }

  class Client {
    const apiUsername: Value
    const apiPassword: Value
    const ftpUsername: Value
    const ftpPassword: Value
    const pod: Value
    const apiUrl: Value
    const transactUrl: Value
    const transferUrl: Value
    const ftp: FtpSession.Ftp
    var cachedLists: seq<Value>

    /**
     * A client for the given options. The FTP credentials fall back to the
     * API credentials, the pod to 5, and each URL to the pod's endpoint,
     * whenever the option is missing, `nil` or `false`. `remote` is the
     * server the new, not yet opened, FTP connection will talk to.
     */
    constructor (options: Options, remote: FtpSession.Remote)
      ensures apiUsername == options.apiUsername.GetOr(Nil)
      ensures apiPassword == options.apiPassword.GetOr(Nil)
      ensures Truthy(options.ftpUsername.GetOr(Nil)) ==> ftpUsername == options.ftpUsername.GetOr(Nil)
      ensures !Truthy(options.ftpUsername.GetOr(Nil)) ==> ftpUsername == apiUsername
      ensures Truthy(options.ftpPassword.GetOr(Nil)) ==> ftpPassword == options.ftpPassword.GetOr(Nil)
      ensures !Truthy(options.ftpPassword.GetOr(Nil)) ==> ftpPassword == apiPassword
      ensures Truthy(options.pod.GetOr(Nil)) ==> pod == options.pod.GetOr(Nil)
      ensures !Truthy(options.pod.GetOr(Nil)) ==> pod == Int(DEFAULT_POD)
      ensures Truthy(options.apiUrl.GetOr(Nil)) ==> apiUrl == options.apiUrl.GetOr(Nil)
      ensures !Truthy(options.apiUrl.GetOr(Nil)) ==> apiUrl == Str(ApiUrlFor(pod))
      ensures Truthy(options.transactUrl.GetOr(Nil)) ==> transactUrl == options.transactUrl.GetOr(Nil)
      ensures !Truthy(options.transactUrl.GetOr(Nil)) ==> transactUrl == Str(TransactUrlFor(pod))
      ensures Truthy(options.transferUrl.GetOr(Nil)) ==> transferUrl == options.transferUrl.GetOr(Nil)
      ensures !Truthy(options.transferUrl.GetOr(Nil)) ==> transferUrl == Str(TransferUrlFor(pod))
      ensures fresh(ftp)
      ensures ftp.host == remote.host && ftp.accounts == remote.accounts && ftp.tree == remote.tree
      ensures ftp.link == FtpSession.Unopened && ftp.cwd == FtpSession.ROOT && ftp.calls == []
      ensures cachedLists == []
    {
      apiUsername := options.apiUsername.GetOr(Nil);
      apiPassword := options.apiPassword.GetOr(Nil);
      ftpUsername := Or(options.ftpUsername.GetOr(Nil), options.apiUsername.GetOr(Nil));
      ftpPassword := Or(options.ftpPassword.GetOr(Nil), options.apiPassword.GetOr(Nil));
      var p := Or(options.pod.GetOr(Nil), Int(DEFAULT_POD));
      pod := p;
      apiUrl := Or(options.apiUrl.GetOr(Nil), Str(ApiUrlFor(p)));
      transactUrl := Or(options.transactUrl.GetOr(Nil), Str(TransactUrlFor(p)));
      transferUrl := Or(options.transferUrl.GetOr(Nil), Str(TransferUrlFor(p)));
      ftp := new FtpSession.Ftp(remote);
      cachedLists := [];
    }
  }

  /** With no options at all, every endpoint is pod 5's. */
  lemma DefaultEndpoints()
    ensures ApiUrlFor(Int(DEFAULT_POD)) == "http://api5.silverpop.com"
    ensures TransactUrlFor(Int(DEFAULT_POD)) == "http://transact5.silverpop.com"
    ensures TransferUrlFor(Int(DEFAULT_POD)) == "transfer5.silverpop.com"
  {
    assert ToS(Int(DEFAULT_POD)) == "5" by {
      assert NatText(5) == "5";
    }
  }

  /**
   * Different numeric pods give different endpoints, so a pod number picks
   * exactly one host of each kind.
   */
  lemma {:induction false} PodUrlsInjective(p: nat, q: nat)
    requires p != q
    ensures ApiUrlFor(Int(p)) != ApiUrlFor(Int(q))
    ensures TransactUrlFor(Int(p)) != TransactUrlFor(Int(q))
    ensures TransferUrlFor(Int(p)) != TransferUrlFor(Int(q))
  {
    NatTextRoundTrip(p);
    NatTextRoundTrip(q);
    if ApiUrlFor(Int(p)) == ApiUrlFor(Int(q)) {
      Unframe("http://api", NatText(p), NatText(q), ".silverpop.com");
    }
    if TransactUrlFor(Int(p)) == TransactUrlFor(Int(q)) {
      Unframe("http://transact", NatText(p), NatText(q), ".silverpop.com");
    }
    if TransferUrlFor(Int(p)) == TransferUrlFor(Int(q)) {
      Unframe("transfer", NatText(p), NatText(q), ".silverpop.com");
    }
  }

  /** Equal strings with the same prefix and suffix have the same middle. */
  lemma Unframe(a: string, x: string, y: string, b: string)
    requires a + x + b == a + y + b
    ensures x == y
  {
    var s := a + x + b;
    assert |x| == |y|;
    assert x == s[|a|..|a| + |x|];
    assert y == (a + y + b)[|a|..|a| + |y|];
  }
}
