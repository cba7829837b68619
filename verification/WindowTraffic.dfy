/**
 * What the app's main process does with each request its windows make (desktop/windowTraffic.js).
 * The URL parser is not part of this model: a request arrives with its parsed origin key, `None`
 * standing for the source's "" (anything that is not an http(s) or ws(s) origin).
 */
module WindowTraffic {
  import opened Options

  /** An origin with ws read as http, the default port spelled out and a trailing dot dropped. */
  datatype Origin = Origin(scheme: string, host: string, port: int)

  /** The address the gateway listens on for *port*: every ready line's url names it. */
  function LocalOrigin(port: int): Origin {
    Origin("http", "127.0.0.1", port)
  }

  predicate IsDigit(c: char) {
    '0' <= c <= '9'
  }

  predicate IsHex(c: char) {
    IsDigit(c) || 'a' <= c <= 'f'
  }

  predicate AllDigits(s: string) {
    forall i | 0 <= i < |s| :: IsDigit(s[i])
  }

  predicate AllHex(s: string) {
    forall i | 0 <= i < |s| :: IsHex(s[i])
  }

  predicate EndsWith(s: string, tail: string) {
    |tail| <= |s| && s[|s| - |tail|..] == tail
  }

  /** `127.` and three dotted groups of one to three digits. */
  predicate IsLoopbackQuad(host: string) {
    exists i, j ::
      && 4 < i <= 7 && i + 1 < j <= i + 4 && j + 1 < |host| <= j + 4
      && host[..4] == "127."
      && AllDigits(host[4..i]) && host[i] == '.'
      && AllDigits(host[i + 1..j]) && host[j] == '.'
      && AllDigits(host[j + 1..])
  }

  /** `[::ffff:7fxx:x…]`, an IPv4-mapped 127/8 address as the URL parser prints it. */
  predicate IsMappedLoopback(host: string) {
    && 15 <= |host| <= 18
    && host[..10] == "[::ffff:7f"
    && IsHex(host[10]) && IsHex(host[11]) && host[12] == ':'
    && AllHex(host[13..|host| - 1])
    && host[|host| - 1] == ']'
  }

  predicate IsLoopbackHost(host: string) {
    || host == "localhost" || EndsWith(host, ".localhost")
    || IsLoopbackQuad(host) || host == "0.0.0.0"
    || host == "[::1]" || host == "[::]"
    || IsMappedLoopback(host)
  }

  datatype Resource = Xhr | WebSocket | OtherResource

  datatype Request = Request(
    target: Option<Origin>, initiator: Option<Origin>, resource: Resource, hasWebContents: bool)

  /** What `decide` reads of the sign-in: the held origin with its pair, and the origin sets. */
  datatype Traffic = Traffic(
    held: Option<Origin>, pair: Option<string>, withheld: bool,
    retired: set<Origin>, paired: set<Origin>, cookieFollows: bool)

  datatype PairHeader = SetPair(pair: string) | Keep | Strip

  datatype Decision = Decision(cancel: bool, header: PairHeader)

  function Decide(request: Request, state: Traffic): Decision {
    if request.target.None? then Decision(false, Strip)
    else
      var target := request.target.value;
      var cancel :=
        IsLoopbackHost(target.host) &&
        if request.target == state.held then state.withheld
        else if target in state.retired then true
        else target !in state.paired;
      if cancel then Decision(true, Strip)
      else if request.initiator != request.target then Decision(false, Strip)
      else if request.target != state.held then Decision(false, Keep)
      else if
        && state.pair.Some? && !state.withheld && state.cookieFollows
        && request.hasWebContents && (request.resource.Xhr? || request.resource.WebSocket?)
      then Decision(false, SetPair(state.pair.value))
      else Decision(false, Keep)
  }

  /** A request's headers, as its header names (already lower case) and their values. */
  type Headers = map<string, string>

  const PAIR_HEADER := "x-personalclaw-pair"
  const REFERER := "referer"

  function HeadersFor(headers: Headers, decision: Decision): Headers {
    var plain := headers - {REFERER};
    match decision.header
    case SetPair(pair) => plain[PAIR_HEADER := pair]
    case Strip => plain - {PAIR_HEADER}
    case Keep => plain
  }

  /** A pair never crosses origins: whatever the sign-in's state, the request that goes out carries a
      pair only from a page of the very origin it goes to, and the shell's own pair only to the held
      one, outside a withhold. */
  lemma PairNeverCrossesOrigins(request: Request, state: Traffic, headers: Headers)
    ensures var sent := HeadersFor(headers, Decide(request, state));
            PAIR_HEADER in sent ==>
              && request.target.Some? && request.initiator == request.target
              && (|| (PAIR_HEADER in headers && sent[PAIR_HEADER] == headers[PAIR_HEADER])
                  || (&& request.target == state.held && !state.withheld && state.cookieFollows
                      && state.pair == Some(sent[PAIR_HEADER])))
  {
    assert PAIR_HEADER[0] != REFERER[0];
  }

  /** The request is of the windows' own session to the gateway they are signed in to: from a page of the
      held origin to it, by a script's request or socket of the app's windows, the windows not withheld and
      their cookie still the session's. */
  predicate IsSignedIn(request: Request, state: Traffic) {
    && request.target.Some? && request.initiator == request.target == state.held
    && !state.withheld && state.cookieFollows
    && request.hasWebContents && !request.resource.OtherResource?
  }

  /** What pair the request goes out with, exactly: the shell's own over whatever the page sent when it is
      the windows' own; else the page's own from a page of the very origin it goes to, while it is let
      through; else none. */
  lemma PairIsSentExactlyWhen(request: Request, state: Traffic, headers: Headers)
    ensures var decision := Decide(request, state);
            var sent := HeadersFor(headers, decision);
            && (state.pair.Some? && IsSignedIn(request, state) ==> !decision.cancel && sent == (headers - {REFERER})[PAIR_HEADER := state.pair.value])
            && (!(state.pair.Some? && IsSignedIn(request, state)) ==>
                  sent == if request.target.Some? && request.initiator == request.target && !decision.cancel
                          then headers - {REFERER} else headers - {REFERER, PAIR_HEADER})
  {
    assert headers - {REFERER} - {PAIR_HEADER} == headers - {REFERER, PAIR_HEADER};
  }

  /** Only a loopback origin's request is ever cancelled, and one with no origin the app knows goes out. */
  lemma OnlyLoopbackIsCancelled(request: Request, state: Traffic)
    ensures Decide(request, state).cancel ==> request.target.Some? && IsLoopbackHost(request.target.value.host)
  {
  }

  /** The one thing that lets a request through to a loopback origin: it is the held one, outside a
      withhold, or one the owner added that this run never retired. */
  lemma ReachesLoopbackExactlyWhen(request: Request, state: Traffic)
    requires request.target.Some? && IsLoopbackHost(request.target.value.host)
    ensures !Decide(request, state).cancel <==>
              if request.target == state.held then !state.withheld
              else request.target.value in state.paired && request.target.value !in state.retired
  {
  }

  predicate Octet(s: string) {
    1 <= |s| <= 3 && AllDigits(s)
  }

  predicate Mapped(high: string, low: string) {
    |high| == 2 && AllHex(high) && 1 <= |low| <= 4 && AllHex(low)
  }

  function QuadHost(a: string, b: string, c: string): string {
    "127." + a + "." + b + "." + c
  }

  function MappedHost(high: string, low: string): string {
    "[::ffff:7f" + high + ":" + low + "]"
  }

  lemma QuadIsLoopback(a: string, b: string, c: string)
    requires Octet(a) && Octet(b) && Octet(c)
    ensures IsLoopbackQuad(QuadHost(a, b, c))
  {
    var host := QuadHost(a, b, c);
    var i, j := 4 + |a|, 5 + |a| + |b|;
    assert host[..4] == "127." && host[4..i] == a && host[i + 1..j] == b && host[j + 1..] == c;
    assert host[i] == '.' && host[j] == '.';
  }

  lemma LoopbackIsAQuad(host: string)
    requires IsLoopbackQuad(host)
    ensures exists a, b, c :: Octet(a) && Octet(b) && Octet(c) && host == QuadHost(a, b, c)
  {
    var i, j :|
      && 4 < i <= 7 && i + 1 < j <= i + 4 && j + 1 < |host| <= j + 4 && host[..4] == "127."
      && AllDigits(host[4..i]) && host[i] == '.' && AllDigits(host[i + 1..j]) && host[j] == '.' && AllDigits(host[j + 1..]);
    assert host == QuadHost(host[4..i], host[i + 1..j], host[j + 1..]);
    assert Octet(host[4..i]) && Octet(host[i + 1..j]) && Octet(host[j + 1..]);
  }

  lemma MappedIsLoopback(host: string)
    ensures IsMappedLoopback(host) <==> exists high, low :: Mapped(high, low) && host == MappedHost(high, low)
  {
    if IsMappedLoopback(host) {
      var high, low := host[10..12], host[13..|host| - 1];
      assert host == MappedHost(high, low) && Mapped(high, low);
    }
    forall high, low | Mapped(high, low) && host == MappedHost(high, low) ensures IsMappedLoopback(host) {
      assert host[..10] == "[::ffff:7f" && host[10..12] == high && host[13..|host| - 1] == low;
      assert host[10] == high[0] && host[11] == high[1];
    }
  }

  lemma EndsWithIs(host: string, tail: string)
    ensures EndsWith(host, tail) <==> exists front :: host == front + tail
  {
    if EndsWith(host, tail) {
      assert host == host[..|host| - |tail|] + tail;
    }
  }

  /** Which hosts are this computer: `localhost` and any name under it, 127.0.0.0/8 as the URL parser writes it,
      mapped into IPv6 or not, `::1`, and the two unspecified addresses. */
  lemma LoopbackHostsAre(host: string)
    ensures IsLoopbackHost(host) <==>
              || host in {"localhost", "0.0.0.0", "[::1]", "[::]"} || (exists front :: host == front + ".localhost")
              || (exists a, b, c :: Octet(a) && Octet(b) && Octet(c) && host == QuadHost(a, b, c))
              || (exists high, low :: Mapped(high, low) && host == MappedHost(high, low))
  {
    EndsWithIs(host, ".localhost");
    MappedIsLoopback(host);
    if IsLoopbackQuad(host) {
      LoopbackIsAQuad(host);
    }
    forall a, b, c | Octet(a) && Octet(b) && Octet(c) && host == QuadHost(a, b, c) ensures IsLoopbackQuad(host) {
      QuadIsLoopback(a, b, c);
    }
    hide EndsWith, IsMappedLoopback, IsLoopbackQuad, QuadHost, MappedHost, Octet, Mapped;
  }

  lemma LocalOriginIsLoopback(port: int)
    ensures IsLoopbackHost(LocalOrigin(port).host)
  {
    var host := LocalOrigin(port).host;
    assert host[..4] == "127.";
    assert AllDigits(host[4..5]) && host[5] == '.' && AllDigits(host[6..7]) && host[7] == '.' && AllDigits(host[8..]);
    assert 4 < 5 <= 7 && 5 + 1 < 7 <= 5 + 4 && 7 + 1 < |host| <= 7 + 4;
  }
}
