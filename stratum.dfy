/**
 * The Stratum pool client of the plugin (src/stratum.rs): the connection state machine with
 * its "not connected" guards, and the parsing of `stratum+tcp://host:port` addresses. The
 * network exchange of a real client is a placeholder in the source and is not modelled.
 */
module Stratum {
  import opened Fips180
  import opened Errors
  import opened Types
  import Decimal

  const TcpPrefix: string := "stratum+tcp://"
  const PlainPrefix: string := "stratum://"

  /** A TCP port number (Rust's u16). */
  type Port = p: nat | p <= 0xFFFF

  /** The pieces of s between occurrences of sep (Rust's `str::split`): they join back into s. */
  function Split(s: string, sep: char): (parts: seq<string>)
    ensures |parts| >= 1 && Join(parts, sep) == s
    ensures forall i :: 0 <= i < |parts| ==> sep !in parts[i]
  {
    if |s| == 0 then [""]
    else
      var rest := Split(s[1..], sep);
      if s[0] == sep then
        assert [""] + rest == [""] + [rest[0]] + rest[1..];
        [""] + rest
      else
        var parts := [[s[0]] + rest[0]] + rest[1..];
        assert parts[1..] == rest[1..];
        assert s == [s[0]] + s[1..];
        parts
  }

  /** The pieces put back together with one separator between neighbours. */
  function Join(parts: seq<string>, sep: char): string
    requires |parts| >= 1
  {
    if |parts| == 1 then parts[0] else parts[0] + [sep] + Join(parts[1..], sep)
  }

  /** A text without the separator is a single piece. */
  lemma {:induction false} SplitWithout(s: string, sep: char)
    requires sep !in s
    ensures Split(s, sep) == [s]
  {
    if |s| > 0 {
      assert sep !in s[1..];
      SplitWithout(s[1..], sep);
    }
  }

  /** A text that starts with a separator-free piece a and a separator splits into a and the rest. */
  lemma {:induction false} SplitAt(a: string, sep: char, b: string)
    requires sep !in a
    ensures Split(a + [sep] + b, sep) == [a] + Split(b, sep)
  {
    var s := a + [sep] + b;
    if |a| == 0 {
      assert s[1..] == b;
    } else {
      assert s[1..] == a[1..] + [sep] + b;
      assert sep !in a[1..];
      SplitAt(a[1..], sep, b);
      assert [a[0]] + a[1..] == a;
    }
  }

  /** The address without its scheme, when the scheme is one of the two accepted ones. */
  function StripScheme(url: string): Option<string>
  {
    if TcpPrefix <= url then Some(url[|TcpPrefix|..])
    else if PlainPrefix <= url then Some(url[|PlainPrefix|..])
    else None
  }

  lemma PrefixRest(p: string, s: string)
    requires p <= s
    ensures s == p + s[|p|..]
  {
  }

  /** Either accepted scheme is removed, and only it. */
  lemma StripSchemeOf(scheme: string, rest: string)
    requires scheme == TcpPrefix || scheme == PlainPrefix
    ensures StripScheme(scheme + rest) == Some(rest)
  {
    var url := scheme + rest;
    assert scheme == PlainPrefix ==> url[7] == ':' && TcpPrefix[7] == '+';
    assert url[|scheme|..] == rest;
  }

  /**
   * Host and port of a pool address: the scheme must be `stratum+tcp://` or `stratum://`, the
   * remainder must hold exactly one ':' and the text after it must parse as a u16.
   */
  function ParseStratumUrl(url: string): (r: Result<(string, Port)>)
    ensures StripScheme(url).None? ==> r == Err(Configuration("Invalid stratum URL prefix"))
    ensures r.Ok? ==> ':' !in r.value.0
  {
    match StripScheme(url)
    case None => Err(Configuration("Invalid stratum URL prefix"))
    case Some(rest) =>
      var parts := Split(rest, ':');
      if |parts| != 2 then Err(Configuration("Invalid stratum URL format"))
      else
        match Decimal.ParseUnsigned(parts[1], 0xFFFF)
        case None => Err(Configuration("Invalid port number"))
        case Some(port) => Ok((parts[0], port))
  }

  /** An accepted address is a scheme, the host, ':' and a port text that parses to the port. */
  lemma ParseStratumUrlShape(url: string) returns (scheme: string, portText: string)
    requires ParseStratumUrl(url).Ok?
    ensures scheme == TcpPrefix || scheme == PlainPrefix
    ensures url == scheme + ParseStratumUrl(url).value.0 + [':'] + portText
    ensures Decimal.ParseUnsigned(portText, 0xFFFF) == Some(ParseStratumUrl(url).value.1)
  {
    scheme := if TcpPrefix <= url then TcpPrefix else PlainPrefix;
    var rest := url[|scheme|..];
    assert StripScheme(url) == Some(rest);
    var parts := Split(rest, ':');
    assert |parts| == 2;
    var port := Decimal.ParseUnsigned(parts[1], 0xFFFF);
    assert port.Some? && ParseStratumUrl(url).value == (parts[0], port.value);
    portText := parts[1];
    JoinTwo(parts, ':');
    PrefixRest(scheme, url);
    ConcatAssoc(scheme, parts[0], [':'], parts[1]);
  }

  lemma ConcatAssoc(a: string, b: string, c: string, d: string)
    ensures a + (b + c + d) == a + b + c + d
  {
  }

  lemma JoinTwo(parts: seq<string>, sep: char)
    requires |parts| == 2
    ensures Join(parts, sep) == parts[0] + [sep] + parts[1]
  {
    assert parts[1..] == [parts[1]];
  }

  /** Round trip: the address written from a ':'-free host and a port parses back to them. */
  lemma ParseStratumUrlRoundTrip(scheme: string, host: string, port: Port)
    requires scheme == TcpPrefix || scheme == PlainPrefix
    requires ':' !in host
    ensures ParseStratumUrl(scheme + host + [':'] + Decimal.Decimal(port)) == Ok((host, port))
  {
    var text := Decimal.Decimal(port);
    StripSchemeOf(scheme, host + [':'] + text);
    assert scheme + host + [':'] + text == scheme + (host + [':'] + text);
    assert ':' !in text by {
      forall i | 0 <= i < |text|
        ensures text[i] != ':'
      {
        assert Decimal.IsDigit(text[i]);
      }
    }
    SplitAt(host, ':', text);
    SplitWithout(text, ':');
    Decimal.ParseDecimal(port, 0xFFFF);
  }

  /** An address with a host but no port is refused as badly formed. */
  lemma ParseStratumUrlWithoutPort(scheme: string, host: string)
    requires scheme == TcpPrefix || scheme == PlainPrefix
    requires ':' !in host
    ensures ParseStratumUrl(scheme + host) == Err(Configuration("Invalid stratum URL format"))
  {
    StripSchemeOf(scheme, host);
    SplitWithout(host, ':');
  }

  /** The pool address of the source's tests, `stratum+tcp://pool.example.com:3333`. */
  lemma ParseStratumUrlExample()
    ensures ParseStratumUrl(TcpPrefix + "pool.example.com" + ":" + "3333") == Ok(("pool.example.com", 3333))
  {
    Decimal3333();
    ParseStratumUrlRoundTrip(TcpPrefix, "pool.example.com", 3333);
  }

  /** An http address is refused, as in the source's tests. */
  lemma ParseStratumUrlHttp()
    ensures ParseStratumUrl("http://invalid.com") == Err(Configuration("Invalid stratum URL prefix"))
  {
    var bad := "http://invalid.com";
    assert bad[0] != TcpPrefix[0] && bad[0] != PlainPrefix[0];
  }

  lemma Decimal3333()
    ensures Decimal.Decimal(3333) == "3333"
  {
    assert Decimal.Decimal(3) == "3";
    assert Decimal.Decimal(33) == "33";
    assert Decimal.Decimal(333) == "333";
  }

  /** A pool client: the address and worker it was made for, its connection state and extranonce. */
  class StratumClient {
    const poolUrl: string
    const workerName: string
    var state: PoolConnection
    var extranonce1: seq<Byte>
    var extranonce2Size: nat

    constructor (poolUrl: string, workerName: string)
      ensures this.poolUrl == poolUrl && this.workerName == workerName
      ensures state == Disconnected && extranonce1 == [] && extranonce2Size == 4
      ensures !IsConnected()
    {
      this.poolUrl := poolUrl;
      this.workerName := workerName;
      state := Disconnected;
      extranonce1 := [];
      extranonce2Size := 4;
    }

    /** Passes through Connecting and always ends Connected with the client's address and worker. */
    method Connect() returns (r: Result<()>)
      modifies this`state
      ensures r == Ok(()) && state == Connected(poolUrl, workerName)
      ensures IsConnected() && GetJob() == Ok(None)
    {
      state := Connecting(poolUrl);
      state := Connected(poolUrl, workerName);
      r := Ok(());
    }

    /** From any state, the client ends disconnected and its requests are refused. */
    method Disconnect()
      modifies this`state
      ensures state == Disconnected
      ensures GetJob() == Err(PoolConnection("Not connected to pool"))
    {
      state := Disconnected;
    }

    /** Connected only in the Connected state: a connection under way or a failed one is not. */
    predicate IsConnected()
      reads this`state
      ensures IsConnected() <==> state.Connected?
      ensures state.Connecting? || state.Error? ==> !IsConnected()
    {
      state.Connected?
    }

    /** The current job: refused unless connected; a connected client has no job to offer. */
    function GetJob(): (r: Result<Option<MiningJob>>)
      reads this`state
      ensures r.Err? <==> !state.Connected?
    {
      if !IsConnected() then Err(PoolConnection("Not connected to pool")) else Ok(None)
    }

    /** A share submission: refused unless connected, otherwise accepted. */
    function SubmitShare(jobId: string, extranonce2: seq<Byte>, ntime: U32, nonce: U32): (r: Result<bool>)
      reads this`state
      ensures r.Err? <==> !state.Connected?
      ensures r.Ok? ==> r.value
    {
      if !IsConnected() then Err(PoolConnection("Not connected to pool")) else Ok(true)
    }
  }

  /** A client serves job requests and share submissions exactly while it is connected. */
  lemma ServedIffConnected(c: StratumClient, jobId: string, extranonce2: seq<Byte>, ntime: U32, nonce: U32)
    ensures c.IsConnected() <==> c.GetJob().Ok?
    ensures c.IsConnected() <==> c.SubmitShare(jobId, extranonce2, ntime, nonce).Ok?
    ensures !c.IsConnected() ==>
      c.GetJob() == Err(PoolConnection("Not connected to pool")) &&
      c.SubmitShare(jobId, extranonce2, ntime, nonce) == Err(PoolConnection("Not connected to pool"))
  {
  }
}
