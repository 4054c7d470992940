/** The ticket half of the local API authority as an object: a map that both calls prune and update. */
module TransportAuthority {
  import opened Basics
  import opened TicketQuery
  import opened TicketRegistry

  class LocalApiAuthority {
    const routes: Routes
    var tickets: Tickets

    constructor (routes: Routes)
      ensures this.routes == routes && tickets == map[]
    {
      this.routes := routes;
      tickets := map[];
    }

    // Candidates are drawn until one is not stored.
    method Mint(request: Request, now: nat, candidates: seq<string>)
      returns (result: Result<Grant, Refusal>, ticket: string)
      requires exists i :: 0 <= i < |candidates| && candidates[i] !in Live(tickets, now)
      modifies this`tickets
      ensures result.Ok? ==> ticket in candidates && ticket !in Live(old(tickets), now)
      ensures (tickets, result) == TicketRegistry.Mint(routes, old(tickets), request, ticket, now)
      ensures result.Ok? <==> GrantFor(routes, request).Ok? && |Live(old(tickets), now)| < 256
      ensures result.Ok? ==>
                && result == GrantFor(routes, request) && ticket in tickets
                && tickets[ticket] == Ticket(now + result.value.ttl, result.value.kind)
    {
      ticket := "";
      result := GrantFor(routes, request);
      if result.Err? {
        return;
      }
      tickets := Live(tickets, now);
      if |tickets| >= MAX_LIVE_TICKETS {
        return Err(CapacityExhausted), ticket;
      }
      var i := 0;
      while candidates[i] in tickets
        invariant 0 <= i < |candidates|
        invariant exists k :: i <= k < |candidates| && candidates[k] !in tickets
        decreases |candidates| - i
      {
        i := i + 1;
      }
      ticket := candidates[i];
      tickets := tickets[ticket := Ticket(now + result.value.ttl, result.value.kind)];
    }

    method AuthenticateTicket(verb: Method, uri: Uri, now: nat) returns (valid: bool)
      modifies this`tickets
      ensures (tickets, valid) == Authenticate(routes, old(tickets), verb, uri, now)
      ensures valid <==>
              var given := QueryTicket(routes.decode, uri);
              && given.Some? && given.value in old(tickets) && old(tickets)[given.value].expiresAt > now
              && match old(tickets)[given.value].kind
                 case Media => (verb == GET || verb == HEAD) && routes.media(uri.path)
                 case Stream(target) => verb == GET && target == uri.path
      ensures valid ==>
                var t := QueryTicket(routes.decode, uri).value;
                t in tickets <==> old(tickets)[t].kind.Media?
    {
      var given := FindTicket(routes.decode, uri);
      if given.None? {
        return false;
      }
      tickets := Live(tickets, now);
      if given.value !in tickets {
        return false;
      }
      var kind := tickets[given.value].kind;
      match kind {
        case Media => valid := (verb.GET? || verb.HEAD?) && routes.media(uri.path);
        case Stream(target) => valid := verb.GET? && target == uri.path;
      }
      if valid && kind.Stream? {
        tickets := tickets - {given.value};
      }
    }
  }
}
