/**
 * Decimal text for integers, as std::to_string writes it, and the websocket
 * address StartLogin connects to.
 */
module Text {
  import opened Wrappers

  predicate IsDigit(c: char) {
    '0' <= c <= '9'
  }

  predicate AllDigits(s: string) {
    forall i :: 0 <= i < |s| ==> IsDigit(s[i])
  }

  function DigitChar(d: nat): (c: char)
    requires d < 10
    ensures IsDigit(c) && (c as int) - ('0' as int) == d
  {
    (('0' as int) + d) as char
  }

  /** The decimal digits of `n`, most significant first, without leading zeros. */
  function NatToString(n: nat): (s: string)
    ensures |s| >= 1 && AllDigits(s)
    ensures |s| > 1 ==> s[0] != '0'
    decreases n
  {
    if n < 10 then [DigitChar(n)] else NatToString(n / 10) + [DigitChar(n % 10)]
  }

  /** std::to_string of an integer: a minus sign before the digits of a
      negative one. The text never holds a colon, which is what lets the port
      be split off a websocket address. */
  function IntToString(n: int): (s: string)
    ensures |s| >= 1 && (s[0] == '-' <==> n < 0)
    ensures n >= 0 ==> AllDigits(s)
    ensures n < 0 ==> |s| >= 2 && AllDigits(s[1..])
    ensures forall i :: 0 <= i < |s| ==> s[i] != ':'
  {
    if n < 0 then "-" + NatToString(-n) else NatToString(n)
  }

  /** The value of a string of decimal digits. */
  function DigitsValue(s: string): nat
    requires AllDigits(s)
    decreases |s|
  {
    if s == [] then 0
    else DigitsValue(s[..|s| - 1]) * 10 + ((s[|s| - 1] as int) - ('0' as int))
  }

  /** Reads back what IntToString writes. */
  function ParseInt(s: string): Option<int> {
    if |s| > 1 && s[0] == '-' && AllDigits(s[1..]) then Some(0 - DigitsValue(s[1..]) as int)
    else if |s| > 0 && AllDigits(s) then Some(DigitsValue(s))
    else None
  }

  lemma {:induction false} NatToStringValue(n: nat)
    ensures DigitsValue(NatToString(n)) == n
    decreases n
  {
    if n >= 10 {
      NatToStringValue(n / 10);
      var s := NatToString(n);
      assert s[..|s| - 1] == NatToString(n / 10);
    }
  }

  /** Every integer's text reads back as that integer. */
  lemma IntToStringRoundTrip(n: int)
    ensures ParseInt(IntToString(n)) == Some(n)
  {
    if n < 0 {
      NatToStringValue(-n);
      var s := IntToString(n);
      assert s[1..] == NatToString(-n);
    } else {
      NatToStringValue(n);
    }
  }

  const WsScheme := "ws://"

  /** The address StartLogin connects to: scheme, host, a colon, the port. */
  function WsUrl(server: string, port: int): (u: string)
    ensures |u| > |WsScheme| + |server| && u[..|WsScheme|] == WsScheme
    ensures u[|WsScheme|..|WsScheme| + |server|] == server && u[|WsScheme| + |server|] == ':'
    ensures ParseInt(u[|WsScheme| + |server| + 1..]) == Some(port)
    ensures forall i :: |WsScheme| + |server| < i < |u| ==> u[i] != ':'
  {
    IntToStringRoundTrip(port);
    var u := WsScheme + server + ":" + IntToString(port);
    assert u[|WsScheme| + |server| + 1..] == IntToString(port);
    u
  }

  /** The position of the last `c` in `s`, if any. */
  function LastIndexOf(s: string, c: char): (r: Option<nat>)
    ensures r.Some? ==> r.value < |s| && s[r.value] == c
    ensures r.Some? ==> forall i :: r.value < i < |s| ==> s[i] != c
    ensures r.None? ==> forall i :: 0 <= i < |s| ==> s[i] != c
    decreases |s|
  {
    if s == [] then None
    else if s[|s| - 1] == c then Some(|s| - 1)
    else LastIndexOf(s[..|s| - 1], c)
  }

  /** Splits a websocket address into host and port at its last colon; the
      partner of WsUrl. */
  function SplitWsUrl(url: string): Option<(string, int)> {
    if |url| < |WsScheme| || url[..|WsScheme|] != WsScheme then None
    else
      var rest := url[|WsScheme|..];
      match LastIndexOf(rest, ':')
      case None => None
      case Some(k) =>
        match ParseInt(rest[k + 1..])
        case None => None
        case Some(port) => Some((rest[..k], port))
  }

  /** The host may itself contain colons: the port is still found after the
      last one, because a port's text has none. */
  lemma WsUrlRoundTrip(server: string, port: int)
    ensures SplitWsUrl(WsUrl(server, port)) == Some((server, port))
  {
    var url := WsUrl(server, port);
    var rest := url[|WsScheme|..];
    assert rest[..|server|] == server;
    assert rest[|server| + 1..] == url[|WsScheme| + |server| + 1..];
    var k := LastIndexOf(rest, ':');
    assert k == Some(|server|) by {
      assert rest[|server|] == ':';
      assert forall i :: |server| < i < |rest| ==> rest[i] == url[|WsScheme| + i];
    }
  }
}
