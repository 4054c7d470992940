/**
 The registry of short-lived transport tickets, over any run of minting and authenticating. Every call
 reads the clock under the lock, so the times of a run never decrease. Route tables and the decoder are
 parameters; so is a minted ticket, which is one that is not stored.
 */
module TicketRegistry {
  import opened Basics
  import opened TicketQuery

  const SECOND: nat := 1_000_000_000
  const MEDIA_TICKET_TTL: nat := 30 * 60 * SECOND
  const STREAM_TICKET_TTL: nat := 60 * SECOND
  const MAX_LIVE_TICKETS: nat := 256

  datatype Kind = Media | Stream(target: string)

  datatype Ticket = Ticket(expiresAt: nat, kind: Kind)

  datatype Audience = ForMedia | ForStream

  datatype Request = Request(audience: Audience, target: Option<string>)

  datatype Method = GET | HEAD | OtherMethod(name: string)

  datatype Target = Target(scheme: bool, authority: bool, query: bool, path: string)

  datatype Routes = Routes(
    media: string -> bool, stream: string -> bool,
    parse: string -> Option<Target>, decode: string -> Pair)

  datatype Refusal = TargetRequired | TargetInvalid | TargetNotAccepted | CapacityExhausted

  datatype Grant = Grant(kind: Kind, ttl: nat)

  type Tickets = map<string, Ticket>

  // ---------------------------------------------------------------- the two calls

  function GrantFor(routes: Routes, request: Request): Result<Grant, Refusal> {
    match request.audience
    case ForMedia =>
      if request.target.None? then Ok(Grant(Media, MEDIA_TICKET_TTL)) else Err(TargetNotAccepted)
    case ForStream =>
      if request.target.None? then Err(TargetRequired)
      else
        var parsed := routes.parse(request.target.value);
        if parsed.None? then Err(TargetInvalid)
        else
          var uri := parsed.value;
          if uri.scheme || uri.authority || uri.query || !routes.stream(uri.path) then Err(TargetInvalid)
          else Ok(Grant(Stream(request.target.value), STREAM_TICKET_TTL))
  }

  function Live(tickets: Tickets, now: nat): Tickets {
    map t | t in tickets && tickets[t].expiresAt > now :: tickets[t]
  }

  function Mint(routes: Routes, tickets: Tickets, request: Request, ticket: string, now: nat)
    : (Tickets, Result<Grant, Refusal>)
  {
    var grant := GrantFor(routes, request);
    if grant.Err? then (tickets, grant)
    else
      var live := Live(tickets, now);
      if |live| >= MAX_LIVE_TICKETS then (live, Err(CapacityExhausted))
      else (live[ticket := Ticket(now + grant.value.ttl, grant.value.kind)], grant)
  }

  predicate Permits(routes: Routes, kind: Kind, verb: Method, path: string) {
    match kind
    case Media => (verb.GET? || verb.HEAD?) && routes.media(path)
    case Stream(target) => verb.GET? && target == path
  }

  function Authenticate(routes: Routes, tickets: Tickets, verb: Method, uri: Uri, now: nat): (Tickets, bool) {
    var given := QueryTicket(routes.decode, uri);
    if given.None? then (tickets, false)
    else
      var live := Live(tickets, now);
      if given.value !in live then (live, false)
      else
        var valid := Permits(routes, live[given.value].kind, verb, uri.path);
        (if valid && live[given.value].kind.Stream? then live - {given.value} else live, valid)
  }

  // ---------------------------------------------------------------- runs

  datatype Call = Mints(request: Request, ticket: string) | Authenticates(verb: Method, uri: Uri)

  datatype Event = Event(call: Call, now: nat)

  ghost predicate Ordered(events: seq<Event>) {
    forall i, j :: 0 <= i < j < |events| ==> events[i].now <= events[j].now
  }

  // A drawn ticket that is still stored is never used, so such an event does nothing.
  function Apply(routes: Routes, tickets: Tickets, e: Event): Tickets {
    match e.call
    case Mints(request, ticket) =>
      if ticket in Live(tickets, e.now) then tickets else Mint(routes, tickets, request, ticket, e.now).0
    case Authenticates(verb, uri) => Authenticate(routes, tickets, verb, uri, e.now).0
  }

  // The registry after the first `n` events.
  function At(routes: Routes, events: seq<Event>, n: nat): Tickets
    requires n <= |events|
  {
    if n == 0 then map[] else Apply(routes, At(routes, events, n - 1), events[n - 1])
  }

  predicate MintsNow(routes: Routes, tickets: Tickets, e: Event, t: string) {
    match e.call
    case Mints(request, ticket) =>
      ticket == t && t !in Live(tickets, e.now) && Mint(routes, tickets, request, t, e.now).1.Ok?
    case Authenticates(_, _) => false
  }

  predicate LetsThroughNow(routes: Routes, tickets: Tickets, e: Event, t: string) {
    match e.call
    case Mints(_, _) => false
    case Authenticates(verb, uri) =>
      QueryTicket(routes.decode, uri) == Some(t) && Authenticate(routes, tickets, verb, uri, e.now).1
  }

  // Event `m` minted `t`.
  predicate Minted(routes: Routes, events: seq<Event>, m: nat, t: string)
    requires m < |events|
  {
    MintsNow(routes, At(routes, events, m), events[m], t)
  }

  // Event `k` was let through on `t`.
  predicate LetThrough(routes: Routes, events: seq<Event>, k: nat, t: string)
    requires k < |events|
  {
    LetsThroughNow(routes, At(routes, events, k), events[k], t)
  }

  function GrantOf(routes: Routes, e: Event): Grant {
    if e.call.Mints? && GrantFor(routes, e.call.request).Ok?
    then GrantFor(routes, e.call.request).value
    else Grant(Media, 0)
  }

  function Issued(routes: Routes, e: Event): Ticket {
    Ticket(e.now + GrantOf(routes, e).ttl, GrantOf(routes, e).kind)
  }

  ghost predicate Unminted(routes: Routes, events: seq<Event>, m: nat, n: nat, t: string)
    requires n <= |events|
  {
    forall k :: m < k < n ==> !Minted(routes, events, k, t)
  }

  ghost predicate Unused(routes: Routes, events: seq<Event>, m: nat, n: nat, t: string)
    requires n <= |events|
  {
    forall k :: m < k < n ==> !LetThrough(routes, events, k, t)
  }

  // Mint `m` of `t` is the latest, and if it is for a stream it is unused, before event `n`.
  ghost predicate Standing(routes: Routes, events: seq<Event>, n: nat, t: string, m: nat)
    requires n <= |events|
  {
    && m < n && Minted(routes, events, m, t)
    && Unminted(routes, events, m, n, t)
    && (GrantOf(routes, events[m]).kind.Stream? ==> Unused(routes, events, m, n, t))
  }

  lemma UnmintedExtends(routes: Routes, events: seq<Event>, m: nat, n: nat, t: string)
    requires n < |events| && Unminted(routes, events, m, n, t) && !Minted(routes, events, n, t)
    ensures Unminted(routes, events, m, n + 1, t)
  {
    forall k | m < k < n + 1 ensures !Minted(routes, events, k, t) {
      assert k < n || k == n;
    }
  }

  lemma UnusedExtends(routes: Routes, events: seq<Event>, m: nat, n: nat, t: string)
    requires n < |events| && Unused(routes, events, m, n, t) && !LetThrough(routes, events, n, t)
    ensures Unused(routes, events, m, n + 1, t)
  {
    forall k | m < k < n + 1 ensures !LetThrough(routes, events, k, t) {
      assert k < n || k == n;
    }
  }

  lemma StandingExtends(routes: Routes, events: seq<Event>, n: nat, t: string, m: nat)
    requires n < |events| && Standing(routes, events, n, t, m) && !Minted(routes, events, n, t)
    requires GrantOf(routes, events[m]).kind.Stream? ==> !LetThrough(routes, events, n, t)
    ensures Standing(routes, events, n + 1, t, m)
  {
    UnmintedExtends(routes, events, m, n, t);
    if GrantOf(routes, events[m]).kind.Stream? {
      UnusedExtends(routes, events, m, n, t);
    }
  }

  lemma StandingShrinks(routes: Routes, events: seq<Event>, n: nat, t: string, m: nat)
    requires n < |events| && Standing(routes, events, n + 1, t, m) && m < n
    ensures Standing(routes, events, n, t, m)
    ensures GrantOf(routes, events[m]).kind.Stream? ==> !LetThrough(routes, events, n, t)
  {
  }

  // ---------------------------------------------------------------- capacity

  lemma Smaller(a: Tickets, b: Tickets)
    requires a.Keys <= b.Keys
    ensures |a| <= |b|
  {
    assert b.Keys == a.Keys + (b.Keys - a.Keys);
    assert |a| == |a.Keys| && |b| == |b.Keys|;
  }

  lemma Added(a: Tickets, t: string, ticket: Ticket)
    ensures |a[t := ticket]| <= |a| + 1
  {
    assert a[t := ticket].Keys == a.Keys + {t};
    assert |a| == |a.Keys| && |a[t := ticket]| == |a[t := ticket].Keys|;
  }

  lemma MintIsBounded(routes: Routes, tickets: Tickets, request: Request, ticket: string, now: nat)
    requires |tickets| <= MAX_LIVE_TICKETS
    ensures |Mint(routes, tickets, request, ticket, now).0| <= MAX_LIVE_TICKETS
  {
    var live := Live(tickets, now);
    Smaller(live, tickets);
    var grant := GrantFor(routes, request);
    if grant.Ok? && |live| < MAX_LIVE_TICKETS {
      Added(live, ticket, Ticket(now + grant.value.ttl, grant.value.kind));
    }
  }

  lemma AuthenticateIsBounded(routes: Routes, tickets: Tickets, verb: Method, uri: Uri, now: nat)
    requires |tickets| <= MAX_LIVE_TICKETS
    ensures |Authenticate(routes, tickets, verb, uri, now).0| <= MAX_LIVE_TICKETS
  {
    Smaller(Authenticate(routes, tickets, verb, uri, now).0, tickets);
  }

  ghost predicate Fits(tickets: Tickets) {
    |tickets| <= MAX_LIVE_TICKETS
  }

  lemma StepIsBounded(routes: Routes, tickets: Tickets, e: Event)
    requires Fits(tickets)
    ensures Fits(Apply(routes, tickets, e))
  {
    match e.call
    case Mints(request, ticket) => MintIsBounded(routes, tickets, request, ticket, e.now);
    case Authenticates(verb, uri) => AuthenticateIsBounded(routes, tickets, verb, uri, e.now);
  }

  // At most 256 tickets are ever stored.
  lemma {:induction false} CapacityIsBounded(routes: Routes, events: seq<Event>, n: nat)
    requires n <= |events|
    ensures Fits(At(routes, events, n))
  {
    if n > 0 {
      CapacityIsBounded(routes, events, n - 1);
      StepIsBounded(routes, At(routes, events, n - 1), events[n - 1]);
    }
  }

  // ---------------------------------------------------------------- what is stored, from what happened

  // One event mints a ticket, or leaves it as it was, or drops it.
  lemma StepShape(routes: Routes, tickets: Tickets, e: Event, t: string)
    requires t in Apply(routes, tickets, e)
    ensures MintsNow(routes, tickets, e, t) ==> Apply(routes, tickets, e)[t] == Issued(routes, e)
    ensures !MintsNow(routes, tickets, e, t) ==> t in tickets && Apply(routes, tickets, e)[t] == tickets[t]
    ensures !MintsNow(routes, tickets, e, t) && LetsThroughNow(routes, tickets, e, t) ==> !tickets[t].kind.Stream?
  {
  }

  lemma StepMints(routes: Routes, tickets: Tickets, e: Event, t: string)
    requires MintsNow(routes, tickets, e, t)
    ensures t in Apply(routes, tickets, e) && Apply(routes, tickets, e)[t] == Issued(routes, e)
  {
  }

  // An unexpired ticket is dropped only by being used.
  lemma StepKeeps(routes: Routes, tickets: Tickets, e: Event, t: string)
    requires t in tickets && tickets[t].expiresAt > e.now
    requires tickets[t].kind.Stream? ==> !LetsThroughNow(routes, tickets, e, t)
    ensures t in Apply(routes, tickets, e) && Apply(routes, tickets, e)[t] == tickets[t]
  {
  }

  lemma {:induction false} StoredWasIssued(routes: Routes, events: seq<Event>, n: nat, t: string) returns (m: nat)
    requires n <= |events| && t in At(routes, events, n)
    ensures Standing(routes, events, n, t, m) && At(routes, events, n)[t] == Issued(routes, events[m])
  {
    StepShape(routes, At(routes, events, n - 1), events[n - 1], t);
    if Minted(routes, events, n - 1, t) {
      m := n - 1;
    } else {
      m := StoredWasIssued(routes, events, n - 1, t);
      StandingExtends(routes, events, n - 1, t, m);
    }
  }

  // The registry still holds what mint `m` issued.
  ghost predicate Keeps(tickets: Tickets, t: string, issued: Ticket) {
    t in tickets && tickets[t] == issued
  }

  lemma StandingStays(routes: Routes, events: seq<Event>, n: nat, t: string, m: nat)
    requires m < n < |events| && Standing(routes, events, n + 1, t, m)
    requires Issued(routes, events[m]).expiresAt > events[n].now
    requires Keeps(At(routes, events, n), t, Issued(routes, events[m]))
    ensures Keeps(At(routes, events, n + 1), t, Issued(routes, events[m]))
  {
    StandingShrinks(routes, events, n, t, m);
    StepKeeps(routes, At(routes, events, n), events[n], t);
  }

  // The first `n` events happened before `time`.
  ghost predicate AllBefore(events: seq<Event>, n: nat, time: nat) {
    n <= |events| && forall k :: 0 <= k < n ==> events[k].now < time
  }

  lemma {:induction false} StandingIsStored(routes: Routes, events: seq<Event>, n: nat, t: string, m: nat)
    requires n <= |events| && Standing(routes, events, n, t, m)
    requires AllBefore(events, n, Issued(routes, events[m]).expiresAt)
    ensures Keeps(At(routes, events, n), t, Issued(routes, events[m]))
  {
    if m == n - 1 {
      StepMints(routes, At(routes, events, m), events[m], t);
    } else {
      StandingShrinks(routes, events, n - 1, t, m);
      StandingIsStored(routes, events, n - 1, t, m);
      StandingStays(routes, events, n - 1, t, m);
    }
  }

  // ---------------------------------------------------------------- what authenticates

  ghost predicate Vouches(routes: Routes, events: seq<Event>, n: nat, t: string, m: nat)
    requires n < |events|
  {
    match events[n].call
    case Mints(_, _) => false
    case Authenticates(verb, uri) =>
      && QueryTicket(routes.decode, uri) == Some(t)
      && Standing(routes, events, n, t, m)
      && events[n].now < Issued(routes, events[m]).expiresAt
      && Permits(routes, Issued(routes, events[m]).kind, verb, uri.path)
  }

  lemma VouchedIsLetThrough(routes: Routes, events: seq<Event>, n: nat, t: string, m: nat)
    requires n < |events| && Ordered(events) && Vouches(routes, events, n, t, m)
    ensures LetThrough(routes, events, n, t)
  {
    assert AllBefore(events, n, Issued(routes, events[m]).expiresAt);
    StandingIsStored(routes, events, n, t, m);
  }

  // A call is let through on a ticket exactly when its latest mint is unexpired, permits the method and
  // path and, for a stream, has not been used.
  lemma AuthenticationIsExact(routes: Routes, events: seq<Event>, n: nat, t: string)
    requires n < |events| && Ordered(events)
    ensures LetThrough(routes, events, n, t) <==> exists m: nat :: Vouches(routes, events, n, t, m)
  {
    if LetThrough(routes, events, n, t) {
      var m := StoredWasIssued(routes, events, n, t);
      assert Vouches(routes, events, n, t, m);
    }
    forall m: nat | Vouches(routes, events, n, t, m) ensures LetThrough(routes, events, n, t) {
      VouchedIsLetThrough(routes, events, n, t, m);
    }
  }

  lemma UsedBefore(routes: Routes, events: seq<Event>, n: nat, t: string, m: nat, i: nat)
    requires m < i < n <= |events| && Standing(routes, events, n, t, m) && LetThrough(routes, events, i, t)
    ensures !GrantOf(routes, events[m]).kind.Stream?
  {
  }

  lemma LatestMint(routes: Routes, events: seq<Event>, n: nat, t: string, latest: nat, m: nat)
    requires m < n <= |events| && Standing(routes, events, n, t, latest) && Minted(routes, events, m, t)
    ensures m <= latest
  {
  }

  // A minted stream ticket works at most once: for a second call to be let through on it, it must have
  // been minted again.
  lemma {:induction false} StreamTicketWorksOnce(
      routes: Routes, events: seq<Event>, m: nat, i: nat, j: nat, t: string)
    returns (again: nat)
    requires m < i < j < |events| && Ordered(events)
    requires Minted(routes, events, m, t) && events[m].call.request.audience.ForStream?
    requires LetThrough(routes, events, i, t) && LetThrough(routes, events, j, t)
    ensures m < again < j && Minted(routes, events, again, t)
  {
    again := StoredWasIssued(routes, events, j, t);
    LatestMint(routes, events, j, t, again, m);
    if again == m {
      UsedBefore(routes, events, j, t, m, i);
    }
  }

  // What the grant of one mint permits, and for how long.
  lemma MintBounds(routes: Routes, e: Event, verb: Method, path: string)
    requires e.call.Mints? && GrantFor(routes, e.call.request).Ok?
    requires Permits(routes, Issued(routes, e).kind, verb, path)
    ensures var ttl := Issued(routes, e).expiresAt - e.now;
      match e.call.request.audience
      case ForMedia => ttl == MEDIA_TICKET_TTL && (verb.GET? || verb.HEAD?) && routes.media(path)
      case ForStream => ttl == STREAM_TICKET_TTL && verb.GET? && e.call.request.target == Some(path)
  {
  }

  // A stream ticket lets through only a GET of its own target, within a minute of being minted; a media
  // ticket only GET and HEAD of media paths, within half an hour.
  lemma {:induction false} TicketsKeepTheirBounds(routes: Routes, events: seq<Event>, n: nat, t: string)
    returns (m: nat)
    requires n < |events| && Ordered(events) && LetThrough(routes, events, n, t)
    ensures m < n && Minted(routes, events, m, t)
    ensures var call, age := events[n].call, events[n].now - events[m].now;
      match events[m].call.request.audience
      case ForMedia =>
        age < MEDIA_TICKET_TTL && (call.verb.GET? || call.verb.HEAD?) && routes.media(call.uri.path)
      case ForStream =>
        age < STREAM_TICKET_TTL && call.verb.GET? && events[m].call.request.target == Some(call.uri.path)
  {
    AuthenticationIsExact(routes, events, n, t);
    m :| Vouches(routes, events, n, t, m);
    MintBounds(routes, events[m], events[n].call.verb, events[n].call.uri.path);
  }

  // A ticket is refused only at capacity: of tickets minted and neither expired nor used, 256 exist.
  lemma {:induction false} RefusalMeansFull(routes: Routes, events: seq<Event>, n: nat)
    requires n < |events| && events[n].call.Mints?
    requires var call := events[n].call;
      Mint(routes, At(routes, events, n), call.request, call.ticket, events[n].now).1 == Err(CapacityExhausted)
    ensures |Live(At(routes, events, n), events[n].now)| == MAX_LIVE_TICKETS
    ensures forall t :: t in Live(At(routes, events, n), events[n].now) ==>
      exists m: nat :: Standing(routes, events, n, t, m) && events[n].now < Issued(routes, events[m]).expiresAt
  {
    var live := Live(At(routes, events, n), events[n].now);
    CapacityIsBounded(routes, events, n);
    Smaller(live, At(routes, events, n));
    forall t | t in live
      ensures exists m: nat :: Standing(routes, events, n, t, m) && events[n].now < Issued(routes, events[m]).expiresAt
    {
      var m := StoredWasIssued(routes, events, n, t);
    }
  }

  // ---------------------------------------------------------------- what must be granted and let through

  // A ticket is granted for media without a target, and for a stream exactly to a stream path given as a
  // bare target; every other request is refused for its own reason.
  lemma GrantIsExact(routes: Routes, request: Request)
    ensures request.audience.ForMedia? ==>
              GrantFor(routes, request) ==
              if request.target.None? then Ok(Grant(Media, 1_800_000_000_000)) else Err(TargetNotAccepted)
    ensures request.audience.ForStream? && request.target.None? ==> GrantFor(routes, request) == Err(TargetRequired)
    ensures request.audience.ForStream? && request.target.Some? ==>
              var uri := routes.parse(request.target.value);
              var bare := uri.Some? && !uri.value.scheme && !uri.value.authority && !uri.value.query;
              GrantFor(routes, request) ==
              if bare && routes.stream(uri.value.path) then Ok(Grant(Stream(request.target.value), 60_000_000_000))
              else Err(TargetInvalid)
  {
  }

  // A minted ticket stands for its grant, and is refused only for the request or at capacity.
  lemma MintIsExact(routes: Routes, tickets: Tickets, request: Request, ticket: string, now: nat)
    ensures var (after, result) := Mint(routes, tickets, request, ticket, now);
      && (result.Ok? <==> GrantFor(routes, request).Ok? && |Live(tickets, now)| < 256)
      && (result.Ok? ==>
            && result == GrantFor(routes, request) && ticket in after
            && after[ticket] == Ticket(now + result.value.ttl, result.value.kind))
      && (forall t :: t != ticket && GrantFor(routes, request).Ok? ==>
            (t in after <==> t in tickets && tickets[t].expiresAt > now) && (t in after ==> after[t] == tickets[t]))
  {
  }

  // Mint `m` of `t` for this audience is the latest before event `n`, a call that carries `t`.
  ghost predicate Carries(routes: Routes, events: seq<Event>, n: nat, t: string, m: nat, audience: Audience) {
    && m < n < |events| && Minted(routes, events, m, t) && Unminted(routes, events, m, n, t)
    && events[m].call.Mints? && events[m].call.request.audience == audience
    && events[n].call.Authenticates? && QueryTicket(routes.decode, events[n].call.uri) == Some(t)
  }

  lemma OnlyLatestVouches(routes: Routes, events: seq<Event>, n: nat, t: string, m: nat, other: nat)
    requires m < n < |events| && Minted(routes, events, m, t) && Unminted(routes, events, m, n, t)
    requires Vouches(routes, events, n, t, other)
    ensures other == m
  {
    assert Standing(routes, events, n, t, other);
    LatestMint(routes, events, n, t, other, m);
  }

  lemma LetThroughByLatest(routes: Routes, events: seq<Event>, n: nat, t: string, m: nat)
    requires n < |events| && Ordered(events)
    requires m < n && Minted(routes, events, m, t) && Unminted(routes, events, m, n, t)
    ensures LetThrough(routes, events, n, t) <==> Vouches(routes, events, n, t, m)
  {
    AuthenticationIsExact(routes, events, n, t);
    if other: nat :| Vouches(routes, events, n, t, other) {
      OnlyLatestVouches(routes, events, n, t, m, other);
    }
  }

  // What the grant of mint `m` is.
  lemma MintedGrant(routes: Routes, e: Event)
    requires e.call.Mints? && GrantFor(routes, e.call.request).Ok?
    ensures Issued(routes, e) ==
            if e.call.request.audience.ForMedia? then Ticket(e.now + 1_800_000_000_000, Media)
            else Ticket(e.now + 60_000_000_000, Stream(e.call.request.target.value))
    ensures e.call.request.audience.ForStream? ==> e.call.request.target.Some?
  {
    GrantIsExact(routes, e.call.request);
  }

  // In any run, a call that carries a stream ticket is let through if and only if it is a GET of the very
  // target the ticket was last minted for, within a minute of that, and the ticket has not been used since.
  lemma {:induction false} StreamCallIsExact(routes: Routes, events: seq<Event>, n: nat, t: string, m: nat)
    requires Ordered(events) && Carries(routes, events, n, t, m, ForStream)
    ensures LetThrough(routes, events, n, t) <==>
            && events[n].call.verb == GET
            && events[m].call.request.target == Some(events[n].call.uri.path)
            && events[n].now - events[m].now < 60_000_000_000
            && Unused(routes, events, m, n, t)
  {
    LetThroughByLatest(routes, events, n, t, m);
    MintedGrant(routes, events[m]);
  }

  // And one that carries a media ticket if and only if it is a GET or HEAD of a media path within half an
  // hour, as often as it likes.
  lemma {:induction false} MediaCallIsExact(routes: Routes, events: seq<Event>, n: nat, t: string, m: nat)
    requires Ordered(events) && Carries(routes, events, n, t, m, ForMedia)
    ensures LetThrough(routes, events, n, t) <==>
            && (events[n].call.verb == GET || events[n].call.verb == HEAD)
            && routes.media(events[n].call.uri.path)
            && events[n].now - events[m].now < 1_800_000_000_000
  {
    LetThroughByLatest(routes, events, n, t, m);
    MintedGrant(routes, events[m]);
  }
}
